/** What each route handler of app.py does to the stored records, as a function
    from the state before the request to the state the request commits, or to the
    reason it commits nothing. */
module Market {
  import opened Types
  import opened Policy
  import opened Balances
  import opened Selection
  import opened Transfer
  import opened Cart

  /** A request's effect: a refused request leaves the state as it was. */
  predicate Applied(before: World, after: World, status: Status, r: Result<World>)
  {
    match r
    case Ok(w) => status == Success && after == w
    case Err(e) => status == Failure(e) && after == before
  }

  /** A ticket row is consistent: its event exists, its owner is an account,
      it has a price exactly when it is listed, and a listed price is at most the
      event's cap unless it is the wholesale price set when the event was minted. */
  predicate TicketOk(accounts: map<Address, Account>, events: seq<Event>, t: Ticket)
  {
    t.event < |events| && t.owner in accounts && (t.listed <==> t.price.Some?)
    && (t.listed ==> t.price.value <= events[t.event].cap || t.price.value == events[t.event].wholesale)
  }

  /** The consistency of the stored records that every route handler keeps. */
  ghost predicate Inv(w: World)
  {
    (forall e :: 0 <= e < |w.events| ==> w.events[e].creator in w.accounts)
    && (forall t :: 0 <= t < |w.tickets| ==> TicketOk(w.accounts, w.events, w.tickets[t]))
    && (forall k :: 0 <= k < |w.cart| ==> w.cart[k].id < w.nextLine)
  }

  // ---------------------------------------------------------------- events

  /** The supply minted for event e: owned by the organizer, listed at wholesale. */
  function Minted(e: nat, owner: Address, wholesale: Money, supply: int): seq<Ticket>
  {
    seq(if supply > 0 then supply else 0, _ => Ticket(e, owner, true, Some(wholesale)))
  }

  /** The MINT entry, written only when at least one ticket is minted. */
  function MintLog(hash: string, supply: int, symbol: string, owner: Address): seq<Entry>
  {
    if supply > 0 then [Entry(hash, None, MintLabel(supply, symbol), System, owner, 0, Mint)] else []
  }

  /** create_event (app.py:240-273). */
  function CreateEvent(w: World, actor: Address, name: string, symbol: string, date: string,
                       wholesale: Money, cap: Money, supply: int, hash: string): Result<World>
    requires actor in w.accounts
  {
    if w.accounts[actor].role != Organizer then Err(Unauthorized)
    else
      Ok(w.(events := w.events + [Event(actor, name, symbol, date, wholesale, cap)],
            tickets := w.tickets + Minted(|w.events|, actor, wholesale, supply),
            ledger := w.ledger + MintLog(hash, supply, symbol, actor)))
  }

  // ---------------------------------------------------------------- wallet

  /** The wallet POST (app.py:280-285): any amount is credited. */
  function WalletTopUp(w: World, actor: Address, amount: Money, hash: string): Result<World>
    requires actor in w.accounts
  {
    Ok(w.(accounts := Credit(w.accounts, actor, amount),
          ledger := w.ledger + [Entry(hash, None, TopUpLabel, Bank, actor, amount, TopUp)]))
  }

  /** withdraw (app.py:293-306). */
  function Withdrawal(w: World, actor: Address, amount: Money, hash: string): Result<World>
    requires actor in w.accounts
  {
    if w.accounts[actor].role != Organizer then Err(Unauthorized)
    else if amount <= w.accounts[actor].balance then
      Ok(w.(accounts := Credit(w.accounts, actor, -amount),
            ledger := w.ledger + [Entry(hash, None, WithdrawalLabel, actor, Bank, amount, Withdraw)]))
    else Err(InsufficientFunds)
  }

  // ---------------------------------------------------------------- cart

  /** add_to_cart (app.py:319-338): merge into the first line with the same user,
      event and price, whatever its seller, or append a new line. */
  function AddToCart(w: World, user: Address, e: int, seller: Address, price: Money, qty: int): Result<World>
  {
    match FindLine(w.cart, user, e, price)
    case Some(k) => Ok(w.(cart := w.cart[k := w.cart[k].(quantity := w.cart[k].quantity + qty)]))
    case None => Ok(w.(cart := w.cart + [CartLine(w.nextLine, user, e, seller, qty, price)],
                       nextLine := w.nextLine + 1))
  }

  /** remove_cart (app.py:340-345). */
  function RemoveFromCart(w: World, user: Address, id: nat): Result<World>
  {
    Ok(w.(cart := Drop(w.cart, id, user)))
  }

  // ---------------------------------------------------------------- checkout

  /** The query of one cart line: that seller's tickets of that event listed at that price. */
  function LineFilter(line: CartLine): Filter
  {
    Filter(line.event, line.seller, true, Some(line.price))
  }

  /** One pass of checkout's line loop (app.py:363-386), on the state the earlier
      lines left: find the tickets, pay the seller, hand the tickets over and log a
      PURCHASE entry for each. */
  function LineStep(w: World, line: CartLine, buyer: Address, hash: string): Result<World>
  {
    var ids := Selected(w.tickets, LineFilter(line), line.quantity);
    if |ids| < line.quantity then Err(StockChanged)
    else if line.seller !in w.accounts then Err(MissingRecord)
    else if !(0 <= line.event < |w.events|) then Err(MissingRecord)
    else
      var stamp := Entry(hash, None, EventName(w.events[line.event].name), line.seller, buyer,
                         line.price, Purchase);
      Ok(w.(accounts := Credit(w.accounts, line.seller, line.quantity * line.price),
            tickets := Handover(w.tickets, ids, buyer),
            ledger := w.ledger + Receipts(ids, stamp)))
  }

  /** The whole line loop; the first failing line aborts it. */
  function Settle(w: World, lines: seq<CartLine>, buyer: Address, hash: string): Result<World>
    decreases |lines|
  {
    if lines == [] then Ok(w)
    else match LineStep(w, lines[0], buyer, hash)
      case Err(r) => Err(r)
      case Ok(w1) => Settle(w1, lines[1..], buyer, hash)
  }

  /** checkout (app.py:347-396): debit the total, run the line loop, clear the
      buyer's cart; an exception in the loop rolls everything back. */
  function Checkout(w: World, buyer: Address, hash: string): Result<World>
    requires buyer in w.accounts
  {
    var lines := LinesOf(w.cart, buyer);
    if lines == [] then Err(EmptyCart)
    else if w.accounts[buyer].balance < Total(lines) then Err(InsufficientFunds)
    else match Settle(w.(accounts := Credit(w.accounts, buyer, -Total(lines))), lines, buyer, hash)
      case Err(r) => Err(r)
      case Ok(w1) => Ok(w1.(cart := Without(w.cart, buyer)))
  }

  // ---------------------------------------------------------------- trading

  /** The query of bulk_acquire: the creator's listed tickets of the event, at any price. */
  function StockFilter(e: int, ev: Event): Filter
  {
    Filter(e, ev.creator, true, None)
  }

  /** bulk_acquire (app.py:410-448). */
  function BulkAcquire(w: World, actor: Address, e: int, qty: int, hash: string): Result<World>
    requires actor in w.accounts
  {
    var me := w.accounts[actor];
    if me.role != Reseller then Err(Unauthorized)
    else if !(0 <= e < |w.events|) then Err(MissingRecord)
    else if !FromParent(me, w.events[e]) then Err(WrongSource)
    else
      var ev := w.events[e];
      var cost := ev.wholesale * qty;
      if me.balance < cost then Err(InsufficientFunds)
      else
        var ids := Selected(w.tickets, StockFilter(e, ev), qty);
        if |ids| < qty then Err(InsufficientStock)
        else if ev.creator !in w.accounts then Err(MissingRecord)
        else
          var stamp := Entry(hash, None, EventName(ev.name), ev.creator, actor, ev.wholesale, Wholesale);
          Ok(w.(accounts := Credit(Credit(w.accounts, actor, -cost), ev.creator, cost),
                tickets := Handover(w.tickets, ids, actor),
                ledger := w.ledger + Receipts(ids, stamp)))
  }

  /** The query of bulk_list: the actor's unlisted tickets of the event. */
  function OwnFilter(e: int, actor: Address): Filter
  {
    Filter(e, actor, false, None)
  }

  /** bulk_list (app.py:450-469): no role check, and as many tickets as exist. */
  function BulkList(w: World, actor: Address, e: int, qty: int, price: Money): Result<World>
  {
    if !(0 <= e < |w.events|) then Err(MissingRecord)
    else if !WithinCap(w.events[e], price) then Err(PriceCapExceeded)
    else Ok(w.(tickets := Relisted(w.tickets, Selected(w.tickets, OwnFilter(e, actor), qty), price)))
  }

  // ---------------------------------------------------------------- staff

  /** create_staff (app.py:175-196); the fresh wallet address is an input. */
  function CreateStaff(w: World, actor: Address, role: Role, address: Address): Result<World>
    requires actor in w.accounts && address !in w.accounts
  {
    if !MayCreateStaff(w.accounts[actor].role, role) then Err(Unauthorized)
    else Ok(w.(accounts := w.accounts[address := Account(role, Some(actor), 0, true)]))
  }

  /** manage_user with action 'toggle' (app.py:147-162, 172). */
  function ToggleUser(w: World, actor: Address, target: Address): Result<World>
    requires actor in w.accounts
  {
    if target !in w.accounts then Err(NotFound)
    else if !MayManage(actor, w.accounts[actor], w.accounts[target]) then Err(Unauthorized)
    else Ok(w.(accounts := w.accounts[target := w.accounts[target].(active := !w.accounts[target].active)]))
  }
}
