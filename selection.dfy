/** Ticket queries of the form `Ticket.query.filter_by(...).limit(n).all()`
    (app.py:365-370, 429, 461). The queries have no ORDER BY; this model fixes the
    order to ascending ticket id. A negative limit returns every matching ticket, as
    SQLite treats a negative LIMIT as no limit. */
module Selection {
  import opened Types

  /** The columns a query filters on; a `price` of None means the query does not
      filter on the listing price. */
  datatype Filter = Filter(event: int, owner: Address, listed: bool, price: Option<Money>)

  predicate Matches(t: Ticket, f: Filter)
  {
    t.event == f.event && t.owner == f.owner && t.listed == f.listed
    && (f.price.Some? ==> t.price == f.price)
  }

  /** The ids below n of the tickets that match f, in ascending order. */
  function MatchingBelow(ts: seq<Ticket>, f: Filter, n: nat): (ids: seq<nat>)
    requires n <= |ts|
    ensures forall k :: 0 <= k < |ids| ==> ids[k] < n && Matches(ts[ids[k]], f)
    ensures forall j, k :: 0 <= j < k < |ids| ==> ids[j] < ids[k]
    ensures forall i :: 0 <= i < n && Matches(ts[i], f) ==> i in ids
  {
    if n == 0 then []
    else MatchingBelow(ts, f, n - 1) + (if Matches(ts[n - 1], f) then [n - 1] else [])
  }

  /** The number of tickets a query with filter f finds without a limit. */
  function Count(ts: seq<Ticket>, f: Filter): nat
  {
    |MatchingBelow(ts, f, |ts|)|
  }

  lemma {:induction false} MatchingBelowPrefix(ts: seq<Ticket>, f: Filter, i: nat, j: nat)
    requires i <= j <= |ts|
    ensures MatchingBelow(ts, f, i) <= MatchingBelow(ts, f, j)
    decreases j - i
  {
    if i < j {
      MatchingBelowPrefix(ts, f, i, j - 1);
    }
  }

  /** What `.filter_by(f).limit(n).all()` returns: the first n matching ids in
      ascending order, or all of them when fewer match or n is negative. */
  function Selected(ts: seq<Ticket>, f: Filter, n: int): (ids: seq<nat>)
    ensures forall k :: 0 <= k < |ids| ==> ids[k] < |ts| && Matches(ts[ids[k]], f)
    ensures forall j, k :: 0 <= j < k < |ids| ==> ids[j] < ids[k]
    ensures 0 <= n ==> |ids| == if n < Count(ts, f) then n else Count(ts, f)
    ensures n < 0 ==> |ids| == Count(ts, f)
  {
    var all := MatchingBelow(ts, f, |ts|);
    if 0 <= n < |all| then all[..n] else all
  }

  /** The query skips no matching ticket: every matching id below a selected one
      is selected, and when the limit is not reached every matching id is. */
  lemma SelectedFirst(ts: seq<Ticket>, f: Filter, n: int)
    ensures var ids := Selected(ts, f, n);
      forall k, i :: 0 <= k < |ids| && 0 <= i < ids[k] && Matches(ts[i], f) ==> i in ids
    ensures var ids := Selected(ts, f, n);
      |ids| < n || n < 0 ==> forall i :: 0 <= i < |ts| && Matches(ts[i], f) ==> i in ids
  {
    var all := MatchingBelow(ts, f, |ts|);
    FirstMatches(ts, f, all, Selected(ts, f, n));
  }

  /** In a strictly ascending sequence, a smaller element sits at a smaller index. */
  lemma AscendingOrder(s: seq<nat>, p: nat, k: nat)
    requires forall j, k :: 0 <= j < k < |s| ==> s[j] < s[k]
    requires p < |s| && k < |s| && s[p] < s[k]
    ensures p < k
  {
  }

  /** A prefix of all matching ids leaves out no matching id below its last one. */
  lemma FirstMatches(ts: seq<Ticket>, f: Filter, all: seq<nat>, ids: seq<nat>)
    requires all == MatchingBelow(ts, f, |ts|)
    requires ids <= all
    ensures forall k, i :: 0 <= k < |ids| && 0 <= i < ids[k] && Matches(ts[i], f) ==> i in ids
  {
    forall k, i | 0 <= k < |ids| && 0 <= i < ids[k] && Matches(ts[i], f)
      ensures i in ids
    {
      var p :| 0 <= p < |all| && all[p] == i;
      assert all[k] == ids[k];
      AscendingOrder(all, p, k);
      assert ids[p] == i;
    }
  }

  /** The query loop: scan the tickets in id order and stop once n are found. */
  method Select(ts: seq<Ticket>, f: Filter, n: int) returns (ids: seq<nat>)
    ensures ids == Selected(ts, f, n)
  {
    ids := [];
    var i := 0;
    while i < |ts| && (n < 0 || |ids| < n)
      invariant 0 <= i <= |ts|
      invariant ids == MatchingBelow(ts, f, i)
      invariant 0 <= n ==> |ids| <= n
    {
      if Matches(ts[i], f) {
        ids := ids + [i];
      }
      i := i + 1;
    }
    MatchingBelowPrefix(ts, f, i, |ts|);
  }
}
