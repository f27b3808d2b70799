/** The activity log (components/HistoryView.tsx): the history is copied and sorted by
    date, newest or oldest first. Date parsing is not modelled: `timeOf` gives the
    instant a date text denotes, None where `new Date` yields an invalid date, and `now`
    is the instant that stands in for such a date. */
module HistoryView {

  import opened Wrappers
  import opened Types

  datatype SortOrder = Latest | Oldest

  /** `getSafeDate(d).getTime()` */
  function DateKey(date: string, timeOf: string -> Option<int>, now: int): (k: int)
    ensures timeOf(date).Some? ==> k == timeOf(date).value
    ensures timeOf(date).None? ==> k == now
  {
    match timeOf(date)
    case Some(t) => t
    case None => now
  }

  /** The value the comparator of the chosen order sorts ascending: `dateB - dateA`
      orders by the negated instant, `dateA - dateB` by the instant. */
  function Rank(e: HistoryEntry, order: SortOrder, timeOf: string -> Option<int>, now: int): int {
    var k := DateKey(e.date, timeOf, now);
    if order == Latest then -k else k
  }

  predicate SortedBy(s: seq<HistoryEntry>, order: SortOrder, timeOf: string -> Option<int>, now: int) {
    forall i, j :: 0 <= i < j < |s| ==> Rank(s[i], order, timeOf, now) <= Rank(s[j], order, timeOf, now)
  }

  /** Places `x` in front of the first entry that does not rank below it. */
  function Insert(x: HistoryEntry, s: seq<HistoryEntry>, order: SortOrder,
                  timeOf: string -> Option<int>, now: int): (r: seq<HistoryEntry>)
    ensures |r| == |s| + 1
    ensures r[0] == x || (|s| > 0 && r[0] == s[0])
  {
    if s == [] || Rank(x, order, timeOf, now) <= Rank(s[0], order, timeOf, now) then [x] + s
    else [s[0]] + Insert(x, s[1..], order, timeOf, now)
  }

  lemma {:induction false} InsertPermutes(x: HistoryEntry, s: seq<HistoryEntry>, order: SortOrder,
                                          timeOf: string -> Option<int>, now: int)
    ensures multiset(Insert(x, s, order, timeOf, now)) == multiset(s) + multiset{x}
  {
    if s != [] && Rank(x, order, timeOf, now) > Rank(s[0], order, timeOf, now) {
      InsertPermutes(x, s[1..], order, timeOf, now);
      assert s == [s[0]] + s[1..];
    }
  }

  lemma {:induction false} InsertKeepsSorted(x: HistoryEntry, s: seq<HistoryEntry>, order: SortOrder,
                                             timeOf: string -> Option<int>, now: int)
    requires SortedBy(s, order, timeOf, now)
    ensures SortedBy(Insert(x, s, order, timeOf, now), order, timeOf, now)
  {
    if s != [] && Rank(x, order, timeOf, now) > Rank(s[0], order, timeOf, now) {
      var t := Insert(x, s[1..], order, timeOf, now);
      InsertKeepsSorted(x, s[1..], order, timeOf, now);
      var r := [s[0]] + t;
      assert Rank(s[0], order, timeOf, now) <= Rank(t[0], order, timeOf, now);
      forall i, j | 0 <= i < j < |r| ensures Rank(r[i], order, timeOf, now) <= Rank(r[j], order, timeOf, now) {
        if i == 0 {
          assert r[j] == t[j - 1];
          if j > 1 {
            assert Rank(t[0], order, timeOf, now) <= Rank(t[j - 1], order, timeOf, now);
          }
        } else {
          assert r[i] == t[i - 1] && r[j] == t[j - 1];
        }
      }
    } else {
      var r := [x] + s;
      forall i, j | 0 <= i < j < |r| ensures Rank(r[i], order, timeOf, now) <= Rank(r[j], order, timeOf, now) {
        if i == 0 {
          assert r[j] == s[j - 1];
          if j > 1 {
            assert Rank(s[0], order, timeOf, now) <= Rank(s[j - 1], order, timeOf, now);
          }
        } else {
          assert r[i] == s[i - 1] && r[j] == s[j - 1];
        }
      }
    }
  }

  /** Insertion sort, which like `Array.prototype.sort` keeps entries of equal rank in
      their input order. */
  function Sort(s: seq<HistoryEntry>, order: SortOrder, timeOf: string -> Option<int>, now: int)
    : (r: seq<HistoryEntry>)
    ensures multiset(r) == multiset(s)
    ensures SortedBy(r, order, timeOf, now)
  {
    if s == [] then []
    else
      var t := Sort(s[1..], order, timeOf, now);
      SortStep(s, t, order, timeOf, now);
      Insert(s[0], t, order, timeOf, now)
  }

  /** Inserting the first entry into the sorted rest sorts the whole list. */
  lemma SortStep(s: seq<HistoryEntry>, t: seq<HistoryEntry>, order: SortOrder,
                 timeOf: string -> Option<int>, now: int)
    requires s != [] && multiset(t) == multiset(s[1..]) && SortedBy(t, order, timeOf, now)
    ensures var r := Insert(s[0], t, order, timeOf, now);
      multiset(r) == multiset(s) && SortedBy(r, order, timeOf, now)
  {
    InsertPermutes(s[0], t, order, timeOf, now);
    InsertKeepsSorted(s[0], t, order, timeOf, now);
    assert s == [s[0]] + s[1..];
  }

  /** `sortedHistory`: `[...(history || [])].sort(…)`. The input is a value and is never
      changed; a missing history gives the empty list. The result holds exactly the
      entries of the input, newest first for Latest and oldest first for Oldest. */
  function SortedHistory(history: Option<seq<HistoryEntry>>, order: SortOrder,
                         timeOf: string -> Option<int>, now: int): (r: seq<HistoryEntry>)
    ensures history.None? ==> r == []
    ensures history.Some? ==> multiset(r) == multiset(history.value) && |r| == |history.value|
    ensures order == Latest ==> forall i, j :: 0 <= i < j < |r| ==>
      DateKey(r[i].date, timeOf, now) >= DateKey(r[j].date, timeOf, now)
    ensures order == Oldest ==> forall i, j :: 0 <= i < j < |r| ==>
      DateKey(r[i].date, timeOf, now) <= DateKey(r[j].date, timeOf, now)
  {
    var copy := match history case Some(h) => h case None => [];
    var r := Sort(copy, order, timeOf, now);
    assert |r| == |multiset(r)| == |multiset(copy)| == |copy|;
    assert forall i, j :: 0 <= i < j < |r| ==> Rank(r[i], order, timeOf, now) <= Rank(r[j], order, timeOf, now);
    r
  }

  /** The first entry of the newest-first log is dated no earlier than any entry of the
      history. */
  lemma LatestFirstIsNewest(history: seq<HistoryEntry>, timeOf: string -> Option<int>, now: int)
    requires |history| > 0
    ensures var r := SortedHistory(Some(history), Latest, timeOf, now);
      forall i :: 0 <= i < |history| ==>
        DateKey(r[0].date, timeOf, now) >= DateKey(history[i].date, timeOf, now)
  {
    var r := SortedHistory(Some(history), Latest, timeOf, now);
    forall i | 0 <= i < |history|
      ensures DateKey(r[0].date, timeOf, now) >= DateKey(history[i].date, timeOf, now)
    {
      assert history[i] in multiset(history);
      assert history[i] in multiset(r);
      var j :| 0 <= j < |r| && r[j] == history[i];
      if j > 0 {
        assert DateKey(r[0].date, timeOf, now) >= DateKey(r[j].date, timeOf, now);
      }
    }
  }

  /** An entry whose date cannot be read is ranked as this very moment, so in the
      newest-first log it comes before every entry dated earlier. */
  lemma UnreadableDateRanksAsNow(e: HistoryEntry, timeOf: string -> Option<int>, now: int)
    requires timeOf(e.date).None?
    ensures Rank(e, Latest, timeOf, now) == -now && Rank(e, Oldest, timeOf, now) == now
  {
  }
}
