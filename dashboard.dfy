/** The derived views of the dashboard (components/Dashboard.tsx): the difficulty chart,
    the month calendar, and the two text truncations. The clock is not modelled: the
    weekday the month starts on (0 = Sunday), the number of days in the month and the
    date text of each day (`dayKey`, the `YYYY-MM-DD` the source derives with
    `toISOString`) are inputs. */
module Dashboard {

  import opened Wrappers
  import opened Arith
  import opened Text
  import opened JsValue
  import opened Types


  // ---------------------------------------------------------------- chart

  datatype ChartPoint = ChartPoint(name: string, val: int)

  function Reverse<T>(s: seq<T>): (r: seq<T>)
    ensures |r| == |s|
    ensures forall i :: 0 <= i < |s| ==> r[i] == s[|s| - 1 - i]
  {
    if s == [] then [] else Reverse(s[1..]) + [s[0]]
  }

  /** `.map((h, i) => ({ name: `S${i + 1}`, val: h.difficulty }))`, numbering from `k`. */
  function Points(hs: seq<HistoryEntry>, k: nat): (r: seq<ChartPoint>)
    ensures |r| == |hs|
    ensures forall i :: 0 <= i < |hs| ==> r[i] == ChartPoint("S" + IntToString(k + i + 1), hs[i].difficulty)
  {
    if hs == [] then [] else [ChartPoint("S" + IntToString(k + 1), hs[0].difficulty)] + Points(hs[1..], k + 1)
  }

  /** `chartData`: the ten most recent sessions, oldest first, or one zero point. */
  function ChartData(history: seq<HistoryEntry>): (r: seq<ChartPoint>)
    ensures |r| == if |history| == 0 then 1 else Min(10, |history|)
    ensures |history| > 0 ==> r[|r| - 1].val == history[0].difficulty
  {
    if |history| > 0 then Points(Reverse(history[..Min(10, |history|)]), 0)
    else [ChartPoint("S0", 0)]
  }

  /** With no history the chart is the single point S0 at 0. Otherwise it has one point
      per session of the newest ten, labelled S1, S2, … from the left; since the history
      is newest first, the points run from the oldest of those sessions on the left to
      the newest on the right. */
  lemma ChartShape(history: seq<HistoryEntry>)
    ensures |history| == 0 ==> ChartData(history) == [ChartPoint("S0", 0)]
    ensures |history| > 0 ==> |ChartData(history)| == Min(10, |history|)
    ensures |history| > 0 ==> forall i :: 0 <= i < |ChartData(history)| ==>
      ChartData(history)[i] == ChartPoint("S" + IntToString(i + 1), history[|ChartData(history)| - 1 - i].difficulty)
    ensures |history| > 0 ==> ChartData(history)[|ChartData(history)| - 1].val == history[0].difficulty
  {
  }

  // ---------------------------------------------------------------- calendar

  /** One calendar square. */
  datatype Cell = Cell(day: Option<int>, sessions: seq<HistoryEntry>, active: bool)

  /** `history.filter(h => h.date.startsWith(key))` */
  function SessionsOn(history: seq<HistoryEntry>, key: string): (r: seq<HistoryEntry>)
    ensures |r| <= |history|
    ensures forall e :: e in r <==> e in history && StartsWith(e.date, key)
  {
    if history == [] then []
    else (if StartsWith(history[0].date, key) then [history[0]] else []) + SessionsOn(history[1..], key)
  }

  /** The square at position `i`: day `i - firstDay + 1` when that lies in the month,
      with the sessions dated that day; an empty square otherwise. */
  function CellAt(i: int, firstDay: int, daysInMonth: int, history: seq<HistoryEntry>,
                  dayKey: int -> string): Cell
  {
    var d := i - firstDay + 1;
    if d > 0 && d <= daysInMonth then Cell(Some(d), SessionsOn(history, dayKey(d)), true)
    else Cell(None, [], false)
  }

  /** `Array.from({ length: n }, (_, i) => …)` over CellAt. */
  function Cells(n: nat, firstDay: int, daysInMonth: int, history: seq<HistoryEntry>,
                 dayKey: int -> string): (r: seq<Cell>)
    ensures |r| == n
    ensures forall i :: 0 <= i < n ==> r[i] == CellAt(i, firstDay, daysInMonth, history, dayKey)
  {
    if n == 0 then []
    else Cells(n - 1, firstDay, daysInMonth, history, dayKey) + [CellAt(n - 1, firstDay, daysInMonth, history, dayKey)]
  }

  /** `calendarDays`, as written: five weeks of squares. */
  function CalendarDays(firstDay: int, daysInMonth: int, history: seq<HistoryEntry>,
                        dayKey: int -> string): (r: seq<Cell>)
    ensures |r| == 35
  {
    Cells(35, firstDay, daysInMonth, history, dayKey)
  }

  /** Six weeks of squares: enough for any month on any starting weekday. */
  function FullCalendarDays(firstDay: int, daysInMonth: int, history: seq<HistoryEntry>,
                            dayKey: int -> string): (r: seq<Cell>)
    ensures |r| == 42
  {
    Cells(42, firstDay, daysInMonth, history, dayKey)
  }

  function ActiveCount(cells: seq<Cell>): nat {
    if cells == [] then 0
    else ActiveCount(cells[..|cells| - 1]) + (if cells[|cells| - 1].active then 1 else 0)
  }

  /** A square is active exactly when its day number falls in the month; an active square
      carries that number and the sessions dated that day, an inactive one neither. */
  lemma CellRule(n: nat, firstDay: int, daysInMonth: int, history: seq<HistoryEntry>,
                 dayKey: int -> string, i: nat)
    requires i < n
    ensures var c := Cells(n, firstDay, daysInMonth, history, dayKey)[i];
      && (c.active <==> 1 <= i - firstDay + 1 <= daysInMonth)
      && (c.active ==> c.day == Some(i - firstDay + 1) && c.sessions == SessionsOn(history, dayKey(i - firstDay + 1)))
      && (!c.active ==> c.day.None? && c.sessions == [])
  {
  }

  /** The number of active squares is the number of days of the month that fit after the
      leading blanks. */
  lemma {:induction false} ActiveCountFormula(n: nat, firstDay: int, daysInMonth: int,
                                              history: seq<HistoryEntry>, dayKey: int -> string)
    requires 0 <= firstDay <= n && daysInMonth >= 0
    ensures ActiveCount(Cells(n, firstDay, daysInMonth, history, dayKey)) == Min(daysInMonth, n - firstDay)
  {
    if n > firstDay {
      ActiveCountFormula(n - 1, firstDay, daysInMonth, history, dayKey);
      var last := CellAt(n - 1, firstDay, daysInMonth, history, dayKey);
      ActiveCountSnoc(Cells(n - 1, firstDay, daysInMonth, history, dayKey), last);
      assert last.active <==> n - firstDay <= daysInMonth;
    } else {
      InactiveCount(n, firstDay, daysInMonth, history, dayKey);
    }
  }

  lemma ActiveCountSnoc(c: seq<Cell>, x: Cell)
    ensures ActiveCount(c + [x]) == ActiveCount(c) + (if x.active then 1 else 0)
  {
    assert (c + [x])[..|c|] == c;
  }

  /** Squares before the first weekday of the month are all blank. */
  lemma {:induction false} InactiveCount(n: nat, firstDay: int, daysInMonth: int,
                                         history: seq<HistoryEntry>, dayKey: int -> string)
    requires n <= firstDay
    ensures ActiveCount(Cells(n, firstDay, daysInMonth, history, dayKey)) == 0
  {
    if n > 0 {
      InactiveCount(n - 1, firstDay, daysInMonth, history, dayKey);
      ActiveCountSnoc(Cells(n - 1, firstDay, daysInMonth, history, dayKey),
                      CellAt(n - 1, firstDay, daysInMonth, history, dayKey));
    }
  }

  /** The month starts at square `firstDay` with day 1, and side by side active squares
      carry consecutive day numbers. */
  lemma DaysRunConsecutively(n: nat, firstDay: int, daysInMonth: int, history: seq<HistoryEntry>,
                             dayKey: int -> string)
    requires 0 <= firstDay < n && daysInMonth >= 1
    ensures Cells(n, firstDay, daysInMonth, history, dayKey)[firstDay].day == Some(1)
    ensures forall i :: 0 <= i < n - 1 ==>
      var c := Cells(n, firstDay, daysInMonth, history, dayKey);
      c[i].active && c[i + 1].active ==> c[i + 1].day.value == c[i].day.value + 1
  {
  }

  /** As written, a day of the month gets a square only if it falls within the first
      35 positions. */
  lemma DayShownIff(firstDay: int, daysInMonth: int, history: seq<HistoryEntry>,
                    dayKey: int -> string, d: int)
    requires 0 <= firstDay && 1 <= d <= daysInMonth
    ensures (exists i :: 0 <= i < 35 && CalendarDays(firstDay, daysInMonth, history, dayKey)[i].day == Some(d))
        <==> firstDay + d <= 35
  {
    var c := CalendarDays(firstDay, daysInMonth, history, dayKey);
    if firstDay + d <= 35 {
      assert c[firstDay + d - 1].day == Some(d);
    }
  }

  /** A 31-day month that starts on a Saturday (March 2025, for one) loses its 30th and
      31st to the five-week grid. */
  lemma CalendarDropsMonthEnd(history: seq<HistoryEntry>, dayKey: int -> string)
    ensures forall i :: 0 <= i < 35 ==>
      CalendarDays(6, 31, history, dayKey)[i].day != Some(30) &&
      CalendarDays(6, 31, history, dayKey)[i].day != Some(31)
    ensures ActiveCount(CalendarDays(6, 31, history, dayKey)) == 29
  {
    ActiveCountFormula(35, 6, 31, history, dayKey);
  }

  /** With six weeks every day of any month (at most 31 days, starting on any of the
      seven weekdays) has its square, at position `firstDay + d - 1`. */
  lemma FullCalendarShowsEveryDay(firstDay: int, daysInMonth: int, history: seq<HistoryEntry>,
                                  dayKey: int -> string)
    requires 0 <= firstDay <= 6 && 0 <= daysInMonth <= 31
    ensures forall d :: 1 <= d <= daysInMonth ==>
      FullCalendarDays(firstDay, daysInMonth, history, dayKey)[firstDay + d - 1]
        == Cell(Some(d), SessionsOn(history, dayKey(d)), true)
    ensures ActiveCount(FullCalendarDays(firstDay, daysInMonth, history, dayKey)) == daysInMonth
  {
    ActiveCountFormula(42, firstDay, daysInMonth, history, dayKey);
  }

  // ---------------------------------------------------------------- truncations

  const ReasoningFallback: string := "Agent-optimized session ready for execution."

  /** `v.length > 150`: strings and arrays have a length; an object only through a
      `length` member; other values have none, and the comparison is false. */
  predicate LongerThan150(v: Value) {
    match v
    case Str(s) => |s| > 150
    case Arr(items) => |items| > 150
    case Obj(_) => GetOpt(v, "length").Num? && GetOpt(v, "length").n > 150
    case _ => false
  }

  /** The plan's reasoning as the dashboard card shows it; None where the expression
      throws (`substring` is called on a long value that is not a string). */
  function ReasoningPreview(reasoning: Value): (r: Option<Value>)
    ensures reasoning.Str? && |reasoning.s| > 150 ==>
      r.Some? && r.value.Str? && |r.value.s| == 153 && StartsWith(reasoning.s, r.value.s[..150])
      && r.value.s[150..] == "..."
    ensures reasoning.Str? && 0 < |reasoning.s| <= 150 ==> r == Some(reasoning)
    ensures !Truthy(reasoning) ==> r == Some(Str(ReasoningFallback))
    ensures r.None? <==> LongerThan150(reasoning) && !reasoning.Str?
  {
    if Truthy(reasoning) && LongerThan150(reasoning) then
      if reasoning.Str? then Some(Str(Take(reasoning.s, 150) + "...")) else None
    else Some(Or(reasoning, Str(ReasoningFallback)))
  }

  /** The label of a session in a calendar square: the first ten characters of the
      title, or of "Workout" when the title is falsy, then "..."; None where there is no
      string to cut (`substring` of a number, array or object throws). */
  function SessionLabel(workout: Value): (r: Option<string>)
    ensures !Truthy(GetOpt(workout, "title")) ==> r == Some("Workout...")
    ensures GetOpt(workout, "title").Str? && GetOpt(workout, "title").s != "" ==>
      var t := GetOpt(workout, "title").s;
      r.Some? && |r.value| == Min(10, |t|) + 3 && StartsWith(t, r.value[..|r.value| - 3])
      && r.value[|r.value| - 3..] == "..."
    ensures r.None? <==> Truthy(GetOpt(workout, "title")) && !GetOpt(workout, "title").Str?
  {
    var t := Or(GetOpt(workout, "title"), Str("Workout"));
    assert Take("Workout", 10) + "..." == "Workout...";
    if t.Str? then Some(Take(t.s, 10) + "...") else None
  }

  /** The label of a session finished from a plan uses the plan's title. */
  lemma FinishedSessionLabel(p: WorkoutPlan)
    requires p.title.Str? && p.title.s != ""
    ensures SessionLabel(PlanToValue(p)) == Some(Take(p.title.s, 10) + "...")
  {
  }
}
