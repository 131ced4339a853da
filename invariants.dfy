/** Every route handler keeps the records consistent: events have existing
    creators, tickets belong to existing events and accounts and carry a price
    exactly when listed, within the cap unless minted at wholesale, and cart ids
    stay below the next id to hand out. */
module Invariants {
  import opened Types
  import opened Balances
  import opened Selection
  import opened Transfer
  import opened Cart
  import opened Market
  import opened CheckoutProps
  import opened TradeProps

  /** Tickets stay consistent when the accounts only gain keys and the events only grow. */
  lemma TicketsStayOk(m: map<Address, Account>, m': map<Address, Account>, evs: seq<Event>,
                      evs': seq<Event>, ts: seq<Ticket>)
    requires m.Keys <= m'.Keys && evs <= evs'
    requires forall t :: 0 <= t < |ts| ==> TicketOk(m, evs, ts[t])
    ensures forall t :: 0 <= t < |ts| ==> TicketOk(m', evs', ts[t])
  {
    forall t | 0 <= t < |ts|
      ensures TicketOk(m', evs', ts[t])
    {
      assert ts[t].event < |evs|;
      assert evs'[ts[t].event] == evs[ts[t].event];
    }
  }

  /** A move to an account holder keeps every ticket consistent. */
  lemma MovesKeepTicketsOk(m: map<Address, Account>, evs: seq<Event>, before: seq<Ticket>,
                           after: seq<Ticket>, es: seq<Entry>, buyer: Address, kind: Kind, hash: string)
    requires buyer in m && Moves(before, after, es, buyer, kind, hash)
    requires forall t :: 0 <= t < |before| ==> TicketOk(m, evs, before[t])
    ensures forall t :: 0 <= t < |after| ==> TicketOk(m, evs, after[t])
  {
    forall t | 0 <= t < |after|
      ensures TicketOk(m, evs, after[t])
    {
      if Logged(es, t) {
        var k :| 0 <= k < |es| && es[k].ticket == Some(t);
        assert after[t] == Sold(before[t], buyer);
      }
    }
  }

  lemma CreateEventKeepsInv(w: World, actor: Address, name: string, symbol: string, date: string,
                            wholesale: Money, cap: Money, supply: int, hash: string)
    requires Inv(w) && actor in w.accounts
    requires CreateEvent(w, actor, name, symbol, date, wholesale, cap, supply, hash).Ok?
    ensures Inv(CreateEvent(w, actor, name, symbol, date, wholesale, cap, supply, hash).value)
  {
    var w' := CreateEvent(w, actor, name, symbol, date, wholesale, cap, supply, hash).value;
    TicketsStayOk(w.accounts, w.accounts, w.events, w'.events, w.tickets);
    forall t | 0 <= t < |w'.tickets|
      ensures TicketOk(w'.accounts, w'.events, w'.tickets[t])
    {
      if t < |w.tickets| {
        assert w'.tickets[t] == w.tickets[t];
      } else {
        assert w'.tickets[t] == Ticket(|w.events|, actor, true, Some(wholesale));
      }
    }
  }

  lemma TopUpKeepsInv(w: World, actor: Address, amount: Money, hash: string)
    requires Inv(w) && actor in w.accounts
    ensures Inv(WalletTopUp(w, actor, amount, hash).value)
  {
    var w' := WalletTopUp(w, actor, amount, hash).value;
    TicketsStayOk(w.accounts, w'.accounts, w.events, w.events, w.tickets);
  }

  lemma WithdrawalKeepsInv(w: World, actor: Address, amount: Money, hash: string)
    requires Inv(w) && actor in w.accounts && Withdrawal(w, actor, amount, hash).Ok?
    ensures Inv(Withdrawal(w, actor, amount, hash).value)
  {
    var w' := Withdrawal(w, actor, amount, hash).value;
    TicketsStayOk(w.accounts, w'.accounts, w.events, w.events, w.tickets);
  }

  lemma AddToCartKeepsInv(w: World, user: Address, e: int, seller: Address, price: Money, qty: int)
    requires Inv(w)
    ensures Inv(AddToCart(w, user, e, seller, price, qty).value)
  {
  }

  lemma RemoveFromCartKeepsInv(w: World, user: Address, id: nat)
    requires Inv(w)
    ensures Inv(RemoveFromCart(w, user, id).value)
  {
    var c' := RemoveFromCart(w, user, id).value.cart;
    forall k | 0 <= k < |c'|
      ensures c'[k].id < w.nextLine
    {
      assert c'[k] in w.cart;
    }
  }

  lemma CheckoutKeepsInv(w: World, buyer: Address, hash: string)
    requires Inv(w) && buyer in w.accounts && Checkout(w, buyer, hash).Ok?
    ensures Inv(Checkout(w, buyer, hash).value)
  {
    var w' := Checkout(w, buyer, hash).value;
    CheckoutTickets(w, buyer, hash);
    CheckoutBalances(w, buyer, hash);
    CheckoutClearsCart(w, buyer, hash);
    TicketsStayOk(w.accounts, w'.accounts, w.events, w'.events, w.tickets);
    MovesKeepTicketsOk(w'.accounts, w'.events, w.tickets, w'.tickets, w'.ledger[|w.ledger|..],
                       buyer, Purchase, hash);
    CheckoutCommits(w, buyer, hash);
    forall k | 0 <= k < |w'.cart|
      ensures w'.cart[k].id < w'.nextLine
    {
      assert w'.cart[k] in w.cart;
    }
  }

  lemma BulkAcquireKeepsInv(w: World, actor: Address, e: int, qty: int, hash: string)
    requires Inv(w) && actor in w.accounts && BulkAcquire(w, actor, e, qty, hash).Ok?
    ensures Inv(BulkAcquire(w, actor, e, qty, hash).value)
  {
    var w' := BulkAcquire(w, actor, e, qty, hash).value;
    BulkAcquirePays(w, actor, e, qty, hash);
    BulkAcquireMoves(w, actor, e, qty, hash);
    TicketsStayOk(w.accounts, w'.accounts, w.events, w'.events, w.tickets);
    MovesKeepTicketsOk(w'.accounts, w'.events, w.tickets, w'.tickets, w'.ledger[|w.ledger|..],
                       actor, Wholesale, hash);
  }

  /** bulk_list keeps the records consistent, and every ticket it changes is
      now listed at the requested price, which is within its event's cap. */
  lemma BulkListKeepsInv(w: World, actor: Address, e: int, qty: int, price: Money)
    requires Inv(w) && BulkList(w, actor, e, qty, price).Ok?
    ensures Inv(BulkList(w, actor, e, qty, price).value)
    ensures var w' := BulkList(w, actor, e, qty, price).value;
      forall t :: 0 <= t < |w'.tickets| && w'.tickets[t] != w.tickets[t] ==>
        w'.tickets[t].listed && w'.tickets[t].price == Some(price)
        && price <= w'.events[w'.tickets[t].event].cap
  {
    var w' := BulkList(w, actor, e, qty, price).value;
    BulkListEffect(w, actor, e, qty, price);
    var ids := Selected(w.tickets, OwnFilter(e, actor), qty);
    forall t | 0 <= t < |w'.tickets|
      ensures TicketOk(w'.accounts, w'.events, w'.tickets[t])
    {
      if t in ids {
        var k :| 0 <= k < |ids| && ids[k] == t;
        assert w'.tickets[t].price == Some(price) && w.tickets[t].event == e;
      }
    }
  }

  lemma CreateStaffKeepsInv(w: World, actor: Address, role: Role, address: Address)
    requires Inv(w) && actor in w.accounts && address !in w.accounts
    requires CreateStaff(w, actor, role, address).Ok?
    ensures Inv(CreateStaff(w, actor, role, address).value)
  {
    var w' := CreateStaff(w, actor, role, address).value;
    TicketsStayOk(w.accounts, w'.accounts, w.events, w.events, w.tickets);
  }

  lemma ToggleUserKeepsInv(w: World, actor: Address, target: Address)
    requires Inv(w) && actor in w.accounts && ToggleUser(w, actor, target).Ok?
    ensures Inv(ToggleUser(w, actor, target).value)
  {
    var w' := ToggleUser(w, actor, target).value;
    TicketsStayOk(w.accounts, w'.accounts, w.events, w.events, w.tickets);
  }
}
