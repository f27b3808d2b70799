/** The two helpers of the database configuration module (server/config/supabase.js):
    the inclusive row range of a page, and the uniform error reply. Client creation and
    the environment checks are not modelled. */
module Supabase {

  import opened Wrappers
  import opened JsValue
  import opened Arith

  /** `{ from, to }`: the inclusive index range a page asks for. */
  datatype Range = Range(from: int, to: int)

  /** `getPaginationParams(page, limit)`; an omitted argument takes its default, page 1
      and limit 10. */
  function PaginationParams(page: Option<int>, limit: Option<int>): (r: Range)
    ensures var p := if page.Some? then page.value else 1;
      var l := if limit.Some? then limit.value else 10;
      r.from == (p - 1) * l && r.to - r.from + 1 == l
  {
    var p := match page case Some(v) => v case None => 1;
    var l := match limit case Some(v) => v case None => 10;
    var from := (p - 1) * l;
    Range(from, from + l - 1)
  }

  /** Called without arguments, the helper asks for the first ten rows. */
  lemma DefaultsAreFirstTen()
    ensures PaginationParams(None, None) == Range(0, 9)
  {
  }

  /** A positive limit covers exactly `limit` indices, and the first page starts at row
      0. */
  lemma PageSize(page: int, limit: int)
    requires limit >= 1
    ensures var r := PaginationParams(Some(page), Some(limit));
      r.to - r.from + 1 == limit && r.from <= r.to
    ensures PaginationParams(Some(1), Some(limit)).from == 0
  {
  }

  /** Consecutive pages of one limit tile the rows: each starts right after the previous
      one ends. */
  lemma PagesAdjacent(page: int, limit: int)
    ensures PaginationParams(Some(page), Some(limit)).to + 1 == PaginationParams(Some(page + 1), Some(limit)).from
  {
    assert page * limit == (page - 1) * limit + limit;
  }

  /** Row `n` (from 0) lies on page `n / limit + 1` and on no other. */
  lemma {:induction false} RowOnOnePage(n: nat, limit: int, page: int)
    requires limit >= 1
    ensures var r := PaginationParams(Some(page), Some(limit));
      r.from <= n <= r.to <==> page == n / limit + 1
  {
    var p := page - 1;
    assert (p + 1) * limit == p * limit + limit;
    if page == n / limit + 1 {
      DivBracket(n, limit);
    } else if p * limit <= n < p * limit + limit {
      DivUnique(n, limit, p);
    }
  }

  /** `handleSupabaseError(error)`: null for a falsy error, otherwise the failure reply
      with the error's message (a fixed text when that is falsy) and its code. */
  function HandleSupabaseError(error: Value): (r: Value)
    ensures !Truthy(error) ==> r == Null
    ensures Truthy(error) ==> var m := Get(error, "message").value;
      && GetOpt(r, "success") == Bool(false)
      && GetOpt(r, "error") == (if Truthy(m) then m else Str("Database operation failed"))
      && GetOpt(r, "code") == Get(error, "code").value
  {
    if Truthy(error) then
      var props := [
        ("success", Bool(false)),
        ("error", Or(Get(error, "message").value, Str("Database operation failed"))),
        ("code", Get(error, "code").value)];
      LookupFirst(props, 1);
      LookupFirst(props, 2);
      Obj(props)
    else Null
  }

  /** An error without a message, a plain string thrown as an error for one, reports the
      fixed text and an undefined code. */
  lemma StringErrorReply(s: string)
    requires s != ""
    ensures GetOpt(HandleSupabaseError(Str(s)), "error") == Str("Database operation failed")
    ensures GetOpt(HandleSupabaseError(Str(s)), "code") == Undefined
  {
  }
}
