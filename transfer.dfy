/** The per-ticket loops of checkout, bulk_acquire and bulk_list: hand each selected
    ticket to its new owner and log one ledger entry for it (app.py:382-386,
    440-444), or list each selected ticket at a price (app.py:463-465). */
module Transfer {
  import opened Types

  /** A ticket after a sale: the new owner holds it unlisted, without a price. */
  function Sold(t: Ticket, to: Address): Ticket
  {
    t.(owner := to, listed := false, price := None)
  }

  predicate InRange(ids: seq<nat>, ts: seq<Ticket>)
  {
    forall k :: 0 <= k < |ids| ==> ids[k] < |ts|
  }

  /** The tickets after every ticket whose id is in ids has been sold to `to`. */
  function Handover(ts: seq<Ticket>, ids: seq<nat>, to: Address): (r: seq<Ticket>)
    requires InRange(ids, ts)
  {
    seq(|ts|, i requires 0 <= i < |ts| => if i in ids then Sold(ts[i], to) else ts[i])
  }

  /** The tickets after every ticket whose id is in ids has been listed at price. */
  function Relisted(ts: seq<Ticket>, ids: seq<nat>, price: Money): (r: seq<Ticket>)
    requires InRange(ids, ts)
  {
    seq(|ts|, i requires 0 <= i < |ts| =>
      if i in ids then ts[i].(listed := true, price := Some(price)) else ts[i])
  }

  /** One ledger entry per id, all copies of `stamp` except for the ticket id. */
  function Receipts(ids: seq<nat>, stamp: Entry): (r: seq<Entry>)
  {
    seq(|ids|, k requires 0 <= k < |ids| => stamp.(ticket := Some(ids[k])))
  }

  /** Some entry of es records ticket t. */
  predicate Logged(es: seq<Entry>, t: nat)
  {
    exists k :: 0 <= k < |es| && es[k].ticket == Some(t)
  }

  /** No two entries of es record the same ticket. */
  predicate OncePerTicket(es: seq<Entry>)
  {
    forall j, k :: 0 <= j < k < |es| && es[j].ticket.Some? ==> es[j].ticket != es[k].ticket
  }

  /** Receipts log exactly the given tickets, each once when the ids are distinct. */
  lemma ReceiptsLog(ids: seq<nat>, stamp: Entry)
    requires forall j, k :: 0 <= j < k < |ids| ==> ids[j] < ids[k]
    ensures forall t :: Logged(Receipts(ids, stamp), t) <==> t in ids
    ensures OncePerTicket(Receipts(ids, stamp))
  {
    var r := Receipts(ids, stamp);
    forall t ensures Logged(r, t) <==> t in ids {
      if t in ids {
        var k :| 0 <= k < |ids| && ids[k] == t;
        assert r[k].ticket == Some(t);
      }
    }
  }

  /** The tickets went from `before` to `after` by sales to `buyer` that the
      entries E record: every entry is a `kind` entry of transfer `hash` to the
      buyer naming a ticket that was listed before and is now sold to the buyer;
      no ticket is named twice; and a ticket no entry names is unchanged. */
  ghost predicate Moves(before: seq<Ticket>, after: seq<Ticket>, es: seq<Entry>,
                        buyer: Address, kind: Kind, hash: string)
  {
    |after| == |before|
    && (forall k :: 0 <= k < |es| ==>
          es[k].kind == kind && es[k].hash == hash && es[k].to == buyer
          && es[k].ticket.Some? && es[k].ticket.value < |before|)
    && (forall k :: 0 <= k < |es| ==>
          before[es[k].ticket.value].listed
          && after[es[k].ticket.value] == Sold(before[es[k].ticket.value], buyer))
    && OncePerTicket(es)
    && (forall t :: 0 <= t < |before| && !Logged(es, t) ==> after[t] == before[t])
  }

  /** Selling distinct listed tickets and logging one receipt for each is a move. */
  lemma HandoverMoves(ts: seq<Ticket>, ids: seq<nat>, buyer: Address, stamp: Entry)
    requires InRange(ids, ts)
    requires forall j, k :: 0 <= j < k < |ids| ==> ids[j] < ids[k]
    requires forall k :: 0 <= k < |ids| ==> ts[ids[k]].listed
    requires stamp.to == buyer
    ensures Moves(ts, Handover(ts, ids, buyer), Receipts(ids, stamp), buyer, stamp.kind, stamp.hash)
  {
    ReceiptsLog(ids, stamp);
  }

  /** Two moves in a row are one move, with the entries of both. */
  lemma ComposeMoves(a: seq<Ticket>, b: seq<Ticket>, c: seq<Ticket>, e1: seq<Entry>,
                     e2: seq<Entry>, buyer: Address, kind: Kind, hash: string)
    requires Moves(a, b, e1, buyer, kind, hash)
    requires Moves(b, c, e2, buyer, kind, hash)
    ensures Moves(a, c, e1 + e2, buyer, kind, hash)
  {
    var es := e1 + e2;
    // a ticket the second move sells was listed in b, so the first move did not sell it
    forall k | 0 <= k < |e2|
      ensures !Logged(e1, e2[k].ticket.value) && b[e2[k].ticket.value] == a[e2[k].ticket.value]
    {
      var t := e2[k].ticket.value;
      assert b[t].listed;
      forall j | 0 <= j < |e1|
        ensures e1[j].ticket != Some(t)
      {
        assert !b[e1[j].ticket.value].listed;
      }
    }
    // so a ticket the first move sold is not named by the second one
    forall k | 0 <= k < |e1|
      ensures !Logged(e2, e1[k].ticket.value)
    {
      var t := e1[k].ticket.value;
      forall j | 0 <= j < |e2|
        ensures e2[j].ticket != Some(t)
      {
        assert !Logged(e1, e2[j].ticket.value);
        assert e1[k].ticket == Some(t);
      }
    }
    forall k | 0 <= k < |es|
      ensures a[es[k].ticket.value].listed && c[es[k].ticket.value] == Sold(a[es[k].ticket.value], buyer)
    {
      if k < |e1| {
        assert es[k] == e1[k];
      } else {
        assert es[k] == e2[k - |e1|];
      }
    }
    forall j, k | 0 <= j < k < |es| && es[j].ticket.Some?
      ensures es[j].ticket != es[k].ticket
    {
      if k < |e1| {
        assert es[j] == e1[j] && es[k] == e1[k];
      } else if j >= |e1| {
        assert es[j] == e2[j - |e1|] && es[k] == e2[k - |e1|];
      } else {
        assert es[j] == e1[j] && es[k] == e2[k - |e1|];
      }
    }
    forall t | 0 <= t < |a| && !Logged(es, t)
      ensures c[t] == a[t]
    {
      forall j | 0 <= j < |e1|
        ensures e1[j].ticket != Some(t)
      {
        assert es[j] == e1[j];
      }
      forall j | 0 <= j < |e2|
        ensures e2[j].ticket != Some(t)
      {
        assert es[|e1| + j] == e2[j];
      }
    }
  }

  /** Two moves that each append their entries to a ledger are one move that
      appends the entries of both. */
  lemma MovesChain(t0: seq<Ticket>, t1: seq<Ticket>, t2: seq<Ticket>, l0: seq<Entry>,
                   l1: seq<Entry>, l2: seq<Entry>, buyer: Address, kind: Kind, hash: string)
    requires l0 <= l1 && Moves(t0, t1, l1[|l0|..], buyer, kind, hash)
    requires l1 <= l2 && Moves(t1, t2, l2[|l1|..], buyer, kind, hash)
    ensures l0 <= l2 && Moves(t0, t2, l2[|l0|..], buyer, kind, hash)
  {
    assert l2[|l0|..] == l1[|l0|..] + l2[|l1|..];
    ComposeMoves(t0, t1, t2, l1[|l0|..], l2[|l1|..], buyer, kind, hash);
  }

  /** The transfer loop: for each selected ticket, change its owner, unlist it and
      append its ledger entry. */
  method MoveTickets(ts: seq<Ticket>, log: seq<Entry>, ids: seq<nat>, to: Address, stamp: Entry)
    returns (ts': seq<Ticket>, log': seq<Entry>)
    requires InRange(ids, ts)
    ensures ts' == Handover(ts, ids, to)
    ensures log' == log + Receipts(ids, stamp)
  {
    ts', log' := ts, log;
    var k := 0;
    while k < |ids|
      invariant 0 <= k <= |ids|
      invariant |ts'| == |ts|
      invariant forall i :: 0 <= i < |ts| ==> ts'[i] == if i in ids[..k] then Sold(ts[i], to) else ts[i]
      invariant log' == log + Receipts(ids[..k], stamp)
    {
      var t := ids[k];
      assert ids[..k + 1] == ids[..k] + [t];
      ts' := ts'[t := Sold(ts'[t], to)];
      log' := log' + [stamp.(ticket := Some(t))];
      k := k + 1;
    }
    assert ids[..k] == ids;
  }

  /** The listing loop of bulk_list: mark each selected ticket listed at price. */
  method ListTickets(ts: seq<Ticket>, ids: seq<nat>, price: Money) returns (ts': seq<Ticket>)
    requires InRange(ids, ts)
    ensures ts' == Relisted(ts, ids, price)
  {
    ts' := ts;
    var k := 0;
    while k < |ids|
      invariant 0 <= k <= |ids|
      invariant |ts'| == |ts|
      invariant forall i :: 0 <= i < |ts| ==>
                  ts'[i] == if i in ids[..k] then ts[i].(listed := true, price := Some(price)) else ts[i]
    {
      var t := ids[k];
      assert ids[..k + 1] == ids[..k] + [t];
      ts' := ts'[t := ts'[t].(listed := true, price := Some(price))];
      k := k + 1;
    }
    assert ids[..k] == ids;
  }
}
