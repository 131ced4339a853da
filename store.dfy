/** The database session behind the route handlers: tables that each request
    updates in place and commits, or leaves as they were when the request is
    refused. Every method is proved to commit exactly the state its Market
    function describes and to keep the consistency invariant. */
module Engine {
  import opened Types
  import opened Balances
  import opened Selection
  import opened Transfer
  import opened Cart
  import Market
  import opened Invariants
  import Policy
  import CheckoutProps

  class Store {
    var accounts: map<Address, Account>
    var events: seq<Event>
    var tickets: seq<Ticket>
    var cart: seq<CartLine>
    var nextLine: nat
    var ledger: seq<Entry>

    /** The tables as one value. */
    function State(): World
      reads this
    {
      World(accounts, events, tickets, cart, nextLine, ledger)
    }

    ghost predicate Valid()
      reads this
    {
      Market.Inv(State())
    }

    /** A database holding only the given accounts (setup.py seeds the admin). */
    constructor (accounts0: map<Address, Account>)
      ensures State() == World(accounts0, [], [], [], 0, [])
      ensures Valid()
    {
      accounts, events, tickets, cart, nextLine, ledger := accounts0, [], [], [], 0, [];
    }

    /** create_event (app.py:240-273): add the event, then mint the supply one
        ticket at a time, logging the MINT entry with the first one. */
    method CreateEvent(actor: Address, name: string, symbol: string, date: string,
                       wholesale: Money, cap: Money, supply: int, hash: string) returns (status: Status)
      requires Valid() && actor in accounts
      modifies this
      ensures Valid()
      ensures Market.Applied(old(State()), State(), status,
                Market.CreateEvent(old(State()), actor, name, symbol, date, wholesale, cap, supply, hash))
    {
      ghost var w0 := State();
      if accounts[actor].role != Organizer {
        return Failure(Unauthorized);
      }
      var e := |events|;
      events := events + [Event(actor, name, symbol, date, wholesale, cap)];
      var i := 0;
      while i < supply
        invariant 0 <= i <= (if supply > 0 then supply else 0)
        invariant accounts == w0.accounts && cart == w0.cart && nextLine == w0.nextLine
        invariant events == w0.events + [Event(actor, name, symbol, date, wholesale, cap)]
        invariant tickets == w0.tickets + Market.Minted(e, actor, wholesale, i)
        invariant ledger == w0.ledger + (if i > 0 then Market.MintLog(hash, supply, symbol, actor) else [])
      {
        assert Market.Minted(e, actor, wholesale, i + 1) == Market.Minted(e, actor, wholesale, i)
                                                       + [Ticket(e, actor, true, Some(wholesale))];
        tickets := tickets + [Ticket(e, actor, true, Some(wholesale))];
        if i == 0 {
          ledger := ledger + [Entry(hash, None, MintLabel(supply, symbol), System, actor, 0, Mint)];
        }
        i := i + 1;
      }
      assert Market.Minted(e, actor, wholesale, i) == Market.Minted(e, actor, wholesale, supply);
      assert ledger == w0.ledger + Market.MintLog(hash, supply, symbol, actor);
      CreateEventKeepsInv(w0, actor, name, symbol, date, wholesale, cap, supply, hash);
      return Success;
    }

    /** The wallet POST (app.py:280-285). */
    method TopUp(actor: Address, amount: Money, hash: string) returns (status: Status)
      requires Valid() && actor in accounts
      modifies this
      ensures Valid()
      ensures Market.Applied(old(State()), State(), status, Market.WalletTopUp(old(State()), actor, amount, hash))
    {
      ghost var w0 := State();
      accounts := Credit(accounts, actor, amount);
      ledger := ledger + [Entry(hash, None, TopUpLabel, Bank, actor, amount, Kind.TopUp)];
      TopUpKeepsInv(w0, actor, amount, hash);
      return Success;
    }

    /** withdraw (app.py:293-306). */
    method Withdraw(actor: Address, amount: Money, hash: string) returns (status: Status)
      requires Valid() && actor in accounts
      modifies this
      ensures Valid()
      ensures Market.Applied(old(State()), State(), status, Market.Withdrawal(old(State()), actor, amount, hash))
    {
      ghost var w0 := State();
      if accounts[actor].role != Organizer {
        return Failure(Unauthorized);
      }
      if amount <= accounts[actor].balance {
        accounts := Credit(accounts, actor, -amount);
        ledger := ledger + [Entry(hash, None, WithdrawalLabel, actor, Bank, amount, Kind.Withdraw)];
        WithdrawalKeepsInv(w0, actor, amount, hash);
        return Success;
      }
      return Failure(InsufficientFunds);
    }

    /** add_to_cart (app.py:319-338). */
    method AddToCart(user: Address, e: int, seller: Address, price: Money, qty: int) returns (status: Status)
      requires Valid()
      modifies this
      ensures Valid()
      ensures Market.Applied(old(State()), State(), status, Market.AddToCart(old(State()), user, e, seller, price, qty))
    {
      ghost var w0 := State();
      var exist := FindLine(cart, user, e, price);
      match exist {
        case Some(k) =>
          cart := cart[k := cart[k].(quantity := cart[k].quantity + qty)];
        case None =>
          cart := cart + [CartLine(nextLine, user, e, seller, qty, price)];
          nextLine := nextLine + 1;
      }
      AddToCartKeepsInv(w0, user, e, seller, price, qty);
      return Success;
    }

    /** remove_cart (app.py:340-345). */
    method RemoveCart(user: Address, id: nat) returns (status: Status)
      requires Valid()
      modifies this
      ensures Valid()
      ensures Market.Applied(old(State()), State(), status, Market.RemoveFromCart(old(State()), user, id))
    {
      ghost var w0 := State();
      cart := Drop(cart, id, user);
      RemoveFromCartKeepsInv(w0, user, id);
      return Success;
    }

    /** checkout (app.py:347-396): the order is worked out on the session's
        pending copy of the tables, which is written back only when every line
        succeeds; a failing line discards it, as the rollback does. */
    method Checkout(buyer: Address, hash: string) returns (status: Status)
      requires Valid() && buyer in accounts
      modifies this
      ensures Valid()
      ensures Market.Applied(old(State()), State(), status, Market.Checkout(old(State()), buyer, hash))
    {
      ghost var w0 := State();
      var r := PlaceOrder(State(), buyer, hash);
      match r {
        case Err(reason) =>
          return Failure(reason);
        case Ok(w) =>
          accounts, tickets, cart, ledger := w.accounts, w.tickets, w.cart, w.ledger;
          assert State() == w;
          CheckoutKeepsInv(w0, buyer, hash);
          return Success;
      }
    }

    /** bulk_acquire (app.py:410-448). */
    method BulkAcquire(actor: Address, e: int, qty: int, hash: string) returns (status: Status)
      requires Valid() && actor in accounts
      modifies this
      ensures Valid()
      ensures Market.Applied(old(State()), State(), status, Market.BulkAcquire(old(State()), actor, e, qty, hash))
    {
      ghost var w0 := State();
      var me := accounts[actor];
      if me.role != Reseller {
        return Failure(Unauthorized);
      }
      if !(0 <= e < |events|) {
        return Failure(MissingRecord);
      }
      var ev := events[e];
      if !Policy.FromParent(me, ev) {
        return Failure(WrongSource);
      }
      var cost := ev.wholesale * qty;
      if me.balance < cost {
        return Failure(InsufficientFunds);
      }
      var ids := Select(tickets, Market.StockFilter(e, ev), qty);
      if |ids| < qty {
        return Failure(InsufficientStock);
      }
      if ev.creator !in accounts {
        return Failure(MissingRecord);
      }
      var stamp := Entry(hash, None, EventName(ev.name), ev.creator, actor, ev.wholesale, Wholesale);
      ghost var after := w0.(accounts := Credit(Credit(w0.accounts, actor, -cost), ev.creator, cost),
                             tickets := Handover(w0.tickets, ids, actor),
                             ledger := w0.ledger + Receipts(ids, stamp));
      assert Market.BulkAcquire(w0, actor, e, qty, hash) == Ok(after);
      var paid := Credit(Credit(accounts, actor, -cost), ev.creator, cost);
      var ts, log := MoveTickets(tickets, ledger, ids, actor, stamp);
      accounts, tickets, ledger := paid, ts, log;
      assert State() == after;
      BulkAcquireKeepsInv(w0, actor, e, qty, hash);
      return Success;
    }

    /** bulk_list (app.py:450-469). */
    method BulkList(actor: Address, e: int, qty: int, price: Money) returns (status: Status)
      requires Valid()
      modifies this
      ensures Valid()
      ensures Market.Applied(old(State()), State(), status, Market.BulkList(old(State()), actor, e, qty, price))
    {
      ghost var w0 := State();
      if !(0 <= e < |events|) {
        return Failure(MissingRecord);
      }
      if !Policy.WithinCap(events[e], price) {
        return Failure(PriceCapExceeded);
      }
      var ids := Select(tickets, Market.OwnFilter(e, actor), qty);
      tickets := ListTickets(tickets, ids, price);
      BulkListKeepsInv(w0, actor, e, qty, price);
      return Success;
    }

    /** create_staff (app.py:175-196). */
    method CreateStaff(actor: Address, role: Role, address: Address) returns (status: Status)
      requires Valid() && actor in accounts && address !in accounts
      modifies this
      ensures Valid()
      ensures Market.Applied(old(State()), State(), status, Market.CreateStaff(old(State()), actor, role, address))
    {
      ghost var w0 := State();
      if !Policy.MayCreateStaff(accounts[actor].role, role) {
        return Failure(Unauthorized);
      }
      accounts := accounts[address := Account(role, Some(actor), 0, true)];
      CreateStaffKeepsInv(w0, actor, role, address);
      return Success;
    }

    /** manage_user with action 'toggle' (app.py:147-162, 172). */
    method ToggleUser(actor: Address, target: Address) returns (status: Status)
      requires Valid() && actor in accounts
      modifies this
      ensures Valid()
      ensures Market.Applied(old(State()), State(), status, Market.ToggleUser(old(State()), actor, target))
    {
      ghost var w0 := State();
      if target !in accounts {
        return Failure(NotFound);
      }
      if !Policy.MayManage(actor, accounts[actor], accounts[target]) {
        return Failure(Unauthorized);
      }
      accounts := accounts[target := accounts[target].(active := !accounts[target].active)];
      ToggleUserKeepsInv(w0, actor, target);
      return Success;
    }
  }

  /** Unrolling the line loop once. */
  lemma SettleUnroll(w: World, lines: seq<CartLine>, i: nat, buyer: Address, hash: string)
    requires i < |lines|
    ensures Market.Settle(w, lines[i..], buyer, hash) ==
      match Market.LineStep(w, lines[i], buyer, hash)
      case Err(r) => Err(r)
      case Ok(w1) => Market.Settle(w1, lines[i + 1..], buyer, hash)
  {
    assert lines[i..][0] == lines[i] && lines[i..][1..] == lines[i + 1..];
  }

  /** checkout (app.py:347-396) on the pending tables: refuse an empty cart or a
      buyer who cannot pay the total, debit the total, run the line loop, and
      delete the buyer's cart lines. */
  method PlaceOrder(w: World, buyer: Address, hash: string) returns (r: Result<World>)
    requires buyer in w.accounts
    ensures r == Market.Checkout(w, buyer, hash)
    ensures r.Ok? ==> r.value.events == w.events && r.value.nextLine == w.nextLine
  {
    var lines := LinesOf(w.cart, buyer);
    if lines == [] {
      return Err(EmptyCart);
    }
    var total := Total(lines);
    if w.accounts[buyer].balance < total {
      return Err(InsufficientFunds);
    }
    var pending := w.(accounts := Credit(w.accounts, buyer, -total));
    assert pending == CheckoutProps.Debited(w, buyer);
    CheckoutProps.CheckoutUnfold(w, buyer, hash);
    var settled := SettleLines(pending, lines, buyer, hash);
    match settled {
      case Err(reason) =>
        return Err(reason);
      case Ok(w1) =>
        CheckoutProps.SettleKeeps(pending, lines, buyer, hash);
        return Ok(w1.(cart := Without(w.cart, buyer)));
    }
  }

  /** The line loop of checkout (app.py:363-386) on the pending tables: for each
      line, query the seller's listed tickets at the line's price, stop at the
      first line that cannot be served, otherwise pay the seller and hand the
      tickets over with one PURCHASE entry each. */
  method SettleLines(w: World, lines: seq<CartLine>, buyer: Address, hash: string) returns (r: Result<World>)
    ensures r == Market.Settle(w, lines, buyer, hash)
  {
    var cur := w;
    var i := 0;
    while i < |lines|
      invariant 0 <= i <= |lines|
      invariant Market.Settle(w, lines, buyer, hash) == Market.Settle(cur, lines[i..], buyer, hash)
    {
      var line := lines[i];
      SettleUnroll(cur, lines, i, buyer, hash);
      var ids := Select(cur.tickets, Market.LineFilter(line), line.quantity);
      if |ids| < line.quantity {
        return Err(StockChanged);
      }
      if line.seller !in cur.accounts {
        return Err(MissingRecord);
      }
      if !(0 <= line.event < |cur.events|) {
        return Err(MissingRecord);
      }
      var paid := Credit(cur.accounts, line.seller, line.quantity * line.price);
      var stamp := Entry(hash, None, EventName(cur.events[line.event].name), line.seller, buyer,
                         line.price, Purchase);
      var ts, log := MoveTickets(cur.tickets, cur.ledger, ids, buyer, stamp);
      cur := cur.(accounts := paid, tickets := ts, ledger := log);
      i := i + 1;
    }
    assert lines[i..] == [];
    return Ok(cur);
  }
}
