/** What the other route handlers guarantee: wholesale acquisition
    (app.py:410-448), listing (app.py:450-469), the wallet (app.py:277-306), event
    creation (app.py:240-273), staff creation and account toggling
    (app.py:147-196), and the cart routes (app.py:319-345). */
module TradeProps {
  import opened Types
  import opened Policy
  import opened Balances
  import opened Selection
  import opened Transfer
  import opened Cart
  import opened Market

  // ---------------------------------------------------------------- bulk_acquire

  /** bulk_acquire commits exactly when the actor is a reseller, the event exists,
      its creator is the actor's parent, the actor can pay qty times the wholesale
      price, the creator has at least qty tickets of the event listed, and the
      creator's account exists. */
  lemma BulkAcquireCommitsIff(w: World, actor: Address, e: int, qty: int, hash: string)
    requires actor in w.accounts
    ensures BulkAcquire(w, actor, e, qty, hash).Ok? <==>
      w.accounts[actor].role == Reseller && 0 <= e < |w.events|
      && w.accounts[actor].parent == Some(w.events[e].creator)
      && w.events[e].wholesale * qty <= w.accounts[actor].balance
      && qty <= Count(w.tickets, StockFilter(e, w.events[e]))
      && w.events[e].creator in w.accounts
  {
  }

  /** A reseller whose parent is not the event's creator is refused, whatever its
      funds and whatever the stock. */
  lemma BulkAcquireWrongSource(w: World, actor: Address, e: int, qty: int, hash: string)
    requires actor in w.accounts && w.accounts[actor].role == Reseller
    requires 0 <= e < |w.events| && w.accounts[actor].parent != Some(w.events[e].creator)
    ensures BulkAcquire(w, actor, e, qty, hash) == Err(WrongSource)
  {
  }

  /** A committed bulk_acquire moves the cost from the reseller to the event's
      creator, changes no other account, and keeps the sum of all balances. */
  lemma BulkAcquirePays(w: World, actor: Address, e: int, qty: int, hash: string)
    requires actor in w.accounts && BulkAcquire(w, actor, e, qty, hash).Ok?
    ensures var w' := BulkAcquire(w, actor, e, qty, hash).value;
      var ev := w.events[e];
      var cost := ev.wholesale * qty;
      w'.accounts.Keys == w.accounts.Keys
      && (actor != ev.creator ==>
            w'.accounts[actor].balance == w.accounts[actor].balance - cost
            && w'.accounts[ev.creator].balance == w.accounts[ev.creator].balance + cost)
      && (forall a :: a in w.accounts && a != actor && a != ev.creator ==> w'.accounts[a] == w.accounts[a])
      && TotalBalance(w'.accounts) == TotalBalance(w.accounts)
      && w'.events == w.events && w'.cart == w.cart
  {
    var ev := w.events[e];
    var cost := ev.wholesale * qty;
    assert BulkAcquire(w, actor, e, qty, hash).value.accounts
        == Credit(Credit(w.accounts, actor, -cost), ev.creator, cost);
    TransferTotal(w.accounts, actor, ev.creator, cost);
  }

  /** With a non-negative quantity and wholesale price, a committed bulk_acquire
      leaves no balance negative: the reseller had at least the cost, since the
      request is refused otherwise, and the creator only gains. */
  lemma BulkAcquireKeepsBalancesNonNegative(w: World, actor: Address, e: int, qty: int, hash: string)
    requires actor in w.accounts && BulkAcquire(w, actor, e, qty, hash).Ok?
    requires forall a :: a in w.accounts ==> w.accounts[a].balance >= 0
    requires qty >= 0 && 0 <= e < |w.events| && w.events[e].wholesale >= 0
    ensures var w' := BulkAcquire(w, actor, e, qty, hash).value;
      forall a :: a in w'.accounts ==> w'.accounts[a].balance >= 0
  {
    var ev := w.events[e];
    var cost := ev.wholesale * qty;
    var m1 := Credit(w.accounts, actor, -cost);
    var m2 := Credit(m1, ev.creator, cost);
    assert BulkAcquire(w, actor, e, qty, hash).value.accounts == m2;
    ProductNonNegative(ev.wholesale, qty);
    assert cost <= w.accounts[actor].balance;
    forall a | a in m2
      ensures m2[a].balance >= 0
    {
      assert m1[a].balance >= 0;
    }
  }

  /** A committed bulk_acquire hands the reseller listed tickets of the event that
      the creator owned (qty of them when qty is not negative), each with one
      WHOLESALE entry from the creator at the wholesale price. */
  lemma BulkAcquireMoves(w: World, actor: Address, e: int, qty: int, hash: string)
    requires actor in w.accounts && BulkAcquire(w, actor, e, qty, hash).Ok?
    ensures var w' := BulkAcquire(w, actor, e, qty, hash).value;
      var ev := w.events[e];
      var es := w'.ledger[|w.ledger|..];
      w.ledger <= w'.ledger
      && Moves(w.tickets, w'.tickets, es, actor, Wholesale, hash)
      && (forall k :: 0 <= k < |es| ==>
            es[k].from == ev.creator && es[k].amount == ev.wholesale
            && w.tickets[es[k].ticket.value].owner == ev.creator
            && w.tickets[es[k].ticket.value].event == e)
      && (qty >= 0 ==> |es| == qty)
  {
    var ev := w.events[e];
    var ids := Selected(w.tickets, StockFilter(e, ev), qty);
    var stamp := Entry(hash, None, EventName(ev.name), ev.creator, actor, ev.wholesale, Wholesale);
    var w' := BulkAcquire(w, actor, e, qty, hash).value;
    assert w'.tickets == Handover(w.tickets, ids, actor);
    assert w'.ledger == w.ledger + Receipts(ids, stamp);
    HandoverMoves(w.tickets, ids, actor, stamp);
    assert w'.ledger[|w.ledger|..] == Receipts(ids, stamp);
  }

  // ---------------------------------------------------------------- bulk_list

  /** bulk_list is refused exactly when the event does not exist or the price is
      above the event's cap; at the cap it goes through. */
  lemma BulkListCap(w: World, actor: Address, e: int, qty: int, price: Money)
    ensures BulkList(w, actor, e, qty, price).Ok? <==> 0 <= e < |w.events| && price <= w.events[e].cap
    ensures 0 <= e < |w.events| && price > w.events[e].cap ==>
              BulkList(w, actor, e, qty, price) == Err(PriceCapExceeded)
  {
  }

  /** A committed bulk_list lists, at the given price, the first min(qty, n) of
      the actor's n unlisted tickets of the event (all n when qty is negative),
      and changes nothing else: no other ticket, no balance, no ledger entry. */
  lemma BulkListEffect(w: World, actor: Address, e: int, qty: int, price: Money)
    requires BulkList(w, actor, e, qty, price).Ok?
    ensures var w' := BulkList(w, actor, e, qty, price).value;
      var ids := Selected(w.tickets, OwnFilter(e, actor), qty);
      var n := Count(w.tickets, OwnFilter(e, actor));
      |w'.tickets| == |w.tickets|
      && |ids| == (if 0 <= qty < n then qty else n)
      && (forall k :: 0 <= k < |ids| ==>
            var t := w.tickets[ids[k]];
            t.owner == actor && t.event == e && !t.listed
            && w'.tickets[ids[k]] == t.(listed := true, price := Some(price)))
      && (forall i :: 0 <= i < |w.tickets| && i !in ids ==> w'.tickets[i] == w.tickets[i])
      && price <= w.events[e].cap
      && w'.accounts == w.accounts && w'.ledger == w.ledger && w'.events == w.events
      && w'.cart == w.cart
  {
  }

  // ---------------------------------------------------------------- wallet

  /** A top-up credits exactly the amount, logs one TOPUP entry from the bank,
      and raises the sum of all balances by the amount; no sign check is made. */
  lemma TopUpEffect(w: World, actor: Address, amount: Money, hash: string)
    requires actor in w.accounts
    ensures WalletTopUp(w, actor, amount, hash).Ok?
    ensures var w' := WalletTopUp(w, actor, amount, hash).value;
      w'.accounts.Keys == w.accounts.Keys
      && w'.accounts[actor].balance == w.accounts[actor].balance + amount
      && (forall a :: a in w.accounts && a != actor ==> w'.accounts[a] == w.accounts[a])
      && TotalBalance(w'.accounts) == TotalBalance(w.accounts) + amount
      && w'.ledger == w.ledger + [Entry(hash, None, TopUpLabel, Bank, actor, amount, TopUp)]
      && w'.tickets == w.tickets && w'.events == w.events && w'.cart == w.cart
      && w'.nextLine == w.nextLine
  {
    CreditTotal(w.accounts, actor, amount);
  }

  /** A withdrawal commits only for an organizer asking for at most its balance;
      it then lowers that balance by the amount, which leaves it non-negative,
      logs one WITHDRAW entry to the bank, and lowers the sum of all balances by
      the amount. */
  lemma WithdrawalEffect(w: World, actor: Address, amount: Money, hash: string)
    requires actor in w.accounts
    ensures Withdrawal(w, actor, amount, hash).Ok? <==>
              w.accounts[actor].role == Organizer && amount <= w.accounts[actor].balance
    ensures Withdrawal(w, actor, amount, hash).Ok? ==>
      var w' := Withdrawal(w, actor, amount, hash).value;
      w'.accounts.Keys == w.accounts.Keys
      && w'.accounts[actor].balance == w.accounts[actor].balance - amount
      && w'.accounts[actor].balance >= 0
      && (forall a :: a in w.accounts && a != actor ==> w'.accounts[a] == w.accounts[a])
      && TotalBalance(w'.accounts) == TotalBalance(w.accounts) - amount
      && w'.ledger == w.ledger + [Entry(hash, None, WithdrawalLabel, actor, Bank, amount, Withdraw)]
      && w'.tickets == w.tickets && w'.events == w.events && w'.cart == w.cart
      && w'.nextLine == w.nextLine
  {
    CreditTotal(w.accounts, actor, -amount);
  }

  // ---------------------------------------------------------------- create_event

  /** create_event commits only for an organizer; it appends the event, appends
      `supply` tickets of it (none when supply is not positive) owned by the
      organizer and listed at the wholesale price, writes the MINT entry with
      amount 0 only when supply is positive, and leaves existing tickets and all
      balances as they were. */
  lemma CreateEventEffect(w: World, actor: Address, name: string, symbol: string, date: string,
                          wholesale: Money, cap: Money, supply: int, hash: string)
    requires actor in w.accounts
    ensures CreateEvent(w, actor, name, symbol, date, wholesale, cap, supply, hash).Ok? <==>
              w.accounts[actor].role == Organizer
    ensures CreateEvent(w, actor, name, symbol, date, wholesale, cap, supply, hash).Ok? ==>
      var w' := CreateEvent(w, actor, name, symbol, date, wholesale, cap, supply, hash).value;
      var n := if supply > 0 then supply else 0;
      |w'.events| == |w.events| + 1 && w'.events[|w.events|].creator == actor
      && |w'.tickets| == |w.tickets| + n
      && w'.tickets[..|w.tickets|] == w.tickets
      && (forall k :: |w.tickets| <= k < |w'.tickets| ==>
            w'.tickets[k] == Ticket(|w.events|, actor, true, Some(wholesale)))
      && w.ledger <= w'.ledger
      && |w'.ledger| == |w.ledger| + (if supply > 0 then 1 else 0)
      && (supply > 0 ==> w'.ledger[|w.ledger|].kind == Mint && w'.ledger[|w.ledger|].amount == 0
                         && w'.ledger[|w.ledger|].to == actor)
      && w'.accounts == w.accounts && w'.cart == w.cart && w'.nextLine == w.nextLine
  {
  }

  // ---------------------------------------------------------------- staff

  /** create_staff commits exactly when the policy allows it; the new account
      has the actor as parent, a zero balance and is active, and no other account
      changes. */
  lemma CreateStaffEffect(w: World, actor: Address, role: Role, address: Address)
    requires actor in w.accounts && address !in w.accounts
    ensures CreateStaff(w, actor, role, address).Ok? <==>
      (w.accounts[actor].role == Admin && role == Organizer)
      || (w.accounts[actor].role == Organizer && role == Reseller)
    ensures CreateStaff(w, actor, role, address).Ok? ==>
      var w' := CreateStaff(w, actor, role, address).value;
      w'.accounts.Keys == w.accounts.Keys + {address}
      && w'.accounts[address] == Account(role, Some(actor), 0, true)
      && (forall a :: a in w.accounts ==> w'.accounts[a] == w.accounts[a])
      && TotalBalance(w'.accounts) == TotalBalance(w.accounts)
      && w'.tickets == w.tickets && w'.ledger == w.ledger && w'.events == w.events
      && w'.cart == w.cart && w'.nextLine == w.nextLine
  {
    if CreateStaff(w, actor, role, address).Ok? {
      var m' := CreateStaff(w, actor, role, address).value.accounts;
      TotalBalanceWithout(m', address);
      assert m' - {address} == w.accounts;
    }
  }

  /** Whoever creates a staff account may later manage it. */
  lemma CreatorMayManage(w: World, actor: Address, role: Role, address: Address)
    requires actor in w.accounts && address !in w.accounts
    requires CreateStaff(w, actor, role, address).Ok?
    ensures var w' := CreateStaff(w, actor, role, address).value;
      MayManage(actor, w'.accounts[actor], w'.accounts[address])
  {
  }

  /** manage_user's toggle commits exactly when the target exists and is an
      organizer managed by an admin, or a reseller whose parent is the acting
      organizer; a missing target is reported before any permission check. */
  lemma ToggleUserCommitsIff(w: World, actor: Address, target: Address)
    requires actor in w.accounts
    ensures target !in w.accounts ==> ToggleUser(w, actor, target) == Err(NotFound)
    ensures ToggleUser(w, actor, target).Ok? <==>
      target in w.accounts
      && ((w.accounts[actor].role == Admin && w.accounts[target].role == Organizer)
          || (w.accounts[actor].role == Organizer && w.accounts[target].role == Reseller
              && w.accounts[target].parent == Some(actor)))
  {
  }

  /** A committed toggle flips the target's active flag and changes nothing else;
      toggling twice restores the state. */
  lemma ToggleUserEffect(w: World, actor: Address, target: Address)
    requires actor in w.accounts && ToggleUser(w, actor, target).Ok?
    ensures var w' := ToggleUser(w, actor, target).value;
      w'.accounts.Keys == w.accounts.Keys
      && w'.accounts[target] == w.accounts[target].(active := !w.accounts[target].active)
      && (forall a :: a in w.accounts && a != target ==> w'.accounts[a] == w.accounts[a])
      && w'.tickets == w.tickets && w'.ledger == w.ledger && w'.events == w.events
      && ToggleUser(w', actor, target) == Ok(w)
  {
    var w' := ToggleUser(w, actor, target).value;
    assert actor != target;
    assert w'.accounts[target := w.accounts[target]] == w.accounts;
  }

  // ---------------------------------------------------------------- cart

  lemma {:induction false} UnitsAppend(a: seq<CartLine>, b: seq<CartLine>)
    ensures Units(a + b) == Units(a) + Units(b)
    ensures Total(a + b) == Total(a) + Total(b)
  {
    if a == [] {
      assert a + b == b;
    } else {
      assert (a + b)[1..] == a[1..] + b;
      UnitsAppend(a[1..], b);
    }
  }

  lemma UnitsCons(l: CartLine, r: seq<CartLine>)
    ensures Units([l] + r) == l.quantity + Units(r)
    ensures Total([l] + r) == l.quantity * l.price + Total(r)
  {
    assert ([l] + r)[0] == l && ([l] + r)[1..] == r;
  }

  /** Rewriting one of u's lines changes the number of tickets u asks for by the
      line's difference. */
  lemma {:induction false} UnitsUpdate(c: seq<CartLine>, k: nat, l: CartLine, u: Address)
    requires k < |c| && c[k].user == u && l.user == u
    ensures Units(LinesOf(c[k := l], u)) == Units(LinesOf(c, u)) - c[k].quantity + l.quantity
  {
    var c' := c[k := l];
    if k > 0 {
      assert c'[0] == c[0] && c'[1..] == c[1..][k - 1 := l];
      UnitsUpdate(c[1..], k - 1, l, u);
      if c[0].user == u {
        UnitsCons(c[0], LinesOf(c'[1..], u));
        UnitsCons(c[0], LinesOf(c[1..], u));
      } else {
        assert LinesOf(c', u) == LinesOf(c'[1..], u);
        assert LinesOf(c, u) == LinesOf(c[1..], u);
      }
    } else {
      assert c'[1..] == c[1..];
      UnitsCons(l, LinesOf(c[1..], u));
      UnitsCons(c[0], LinesOf(c[1..], u));
    }
  }

  /** Rewriting one of u's lines changes what u's cart costs by the line's difference. */
  lemma {:induction false} TotalUpdate(c: seq<CartLine>, k: nat, l: CartLine, u: Address)
    requires k < |c| && c[k].user == u && l.user == u
    ensures Total(LinesOf(c[k := l], u)) == Total(LinesOf(c, u)) - c[k].quantity * c[k].price + l.quantity * l.price
  {
    var c' := c[k := l];
    if k > 0 {
      assert c'[0] == c[0] && c'[1..] == c[1..][k - 1 := l];
      TotalUpdate(c[1..], k - 1, l, u);
      if c[0].user == u {
        UnitsCons(c[0], LinesOf(c'[1..], u));
        UnitsCons(c[0], LinesOf(c[1..], u));
      } else {
        assert LinesOf(c', u) == LinesOf(c'[1..], u);
        assert LinesOf(c, u) == LinesOf(c[1..], u);
      }
    } else {
      assert c'[1..] == c[1..];
      UnitsCons(l, LinesOf(c[1..], u));
      UnitsCons(c[0], LinesOf(c[1..], u));
    }
  }

  /** add_to_cart merges into the first line with the same user, event and price,
      whatever its seller, and otherwise appends one new line with a fresh id. */
  lemma AddToCartMerges(w: World, user: Address, e: int, seller: Address, price: Money, qty: int)
    ensures AddToCart(w, user, e, seller, price, qty).Ok?
    ensures var w' := AddToCart(w, user, e, seller, price, qty).value;
      ((forall j :: 0 <= j < |w.cart| ==> !SameKey(w.cart[j], user, e, price)) ==>
         w'.cart == w.cart + [CartLine(w.nextLine, user, e, seller, qty, price)]
         && w'.nextLine == w.nextLine + 1)
      && (forall k :: 0 <= k < |w.cart| && SameKey(w.cart[k], user, e, price)
                       && (forall j :: 0 <= j < k ==> !SameKey(w.cart[j], user, e, price)) ==>
            w'.cart == w.cart[k := w.cart[k].(quantity := w.cart[k].quantity + qty)]
            && w'.nextLine == w.nextLine)
      && w'.accounts == w.accounts && w'.tickets == w.tickets && w'.ledger == w.ledger
  {
    var r := FindLine(w.cart, user, e, price);
    forall k | 0 <= k < |w.cart| && SameKey(w.cart[k], user, e, price)
                 && (forall j :: 0 <= j < k ==> !SameKey(w.cart[j], user, e, price))
      ensures r == Some(k)
    {
      assert r.Some?;
      assert !(r.value < k) && !(k < r.value);
    }
  }

  /** Either way, the user's cart asks for qty more tickets. */
  lemma AddToCartUnits(w: World, user: Address, e: int, seller: Address, price: Money, qty: int)
    ensures var w' := AddToCart(w, user, e, seller, price, qty).value;
      Units(LinesOf(w'.cart, user)) == Units(LinesOf(w.cart, user)) + qty
  {
    var c' := AddToCart(w, user, e, seller, price, qty).value.cart;
    match FindLine(w.cart, user, e, price)
    case Some(k) =>
      var l := w.cart[k].(quantity := w.cart[k].quantity + qty);
      assert c' == w.cart[k := l];
      UnitsUpdate(w.cart, k, l, user);
    case None =>
      var l := CartLine(w.nextLine, user, e, seller, qty, price);
      assert c' == w.cart + [l];
      LinesOfAppend(w.cart, [l], user);
      assert LinesOf([l], user) == [l];
      UnitsAppend(LinesOf(w.cart, user), [l]);
      assert Units([l]) == qty;
  }

  lemma Distribute(a: int, b: int, c: int)
    ensures (a + b) * c == a * c + b * c
  {
  }

  lemma ProductNonNegative(a: int, b: int)
    requires a >= 0 && b >= 0
    ensures a * b >= 0
  {
  }

  /** Either way, the user's cart costs qty times the price more. */
  lemma AddToCartTotal(w: World, user: Address, e: int, seller: Address, price: Money, qty: int)
    ensures var w' := AddToCart(w, user, e, seller, price, qty).value;
      Total(LinesOf(w'.cart, user)) == Total(LinesOf(w.cart, user)) + qty * price
  {
    var c' := AddToCart(w, user, e, seller, price, qty).value.cart;
    match FindLine(w.cart, user, e, price)
    case Some(k) =>
      var l := w.cart[k].(quantity := w.cart[k].quantity + qty);
      assert c' == w.cart[k := l];
      TotalUpdate(w.cart, k, l, user);
      Distribute(w.cart[k].quantity, qty, price);
    case None =>
      var l := CartLine(w.nextLine, user, e, seller, qty, price);
      assert c' == w.cart + [l];
      LinesOfAppend(w.cart, [l], user);
      assert LinesOf([l], user) == [l];
      UnitsAppend(LinesOf(w.cart, user), [l]);
      assert Total([l]) == qty * price;
  }

  /** add_to_cart leaves every other user's lines as they were. */
  lemma AddToCartOthers(w: World, user: Address, e: int, seller: Address, price: Money, qty: int, v: Address)
    requires v != user
    ensures LinesOf(AddToCart(w, user, e, seller, price, qty).value.cart, v) == LinesOf(w.cart, v)
  {
    var c' := AddToCart(w, user, e, seller, price, qty).value.cart;
    match FindLine(w.cart, user, e, price)
    case Some(k) =>
      var l := w.cart[k].(quantity := w.cart[k].quantity + qty);
      assert c' == w.cart[k := l];
      LinesOfUpdate(w.cart, k, l, v);
    case None =>
      var l := CartLine(w.nextLine, user, e, seller, qty, price);
      assert c' == w.cart + [l];
      LinesOfAppend(w.cart, [l], v);
      assert LinesOf([l], v) == [];
  }

  /** remove_cart deletes the user's lines with that id and nothing else. */
  lemma RemoveFromCartEffect(w: World, user: Address, id: nat)
    ensures RemoveFromCart(w, user, id).Ok?
    ensures var w' := RemoveFromCart(w, user, id).value;
      (forall l :: l in LinesOf(w'.cart, user) <==> l in LinesOf(w.cart, user) && l.id != id)
      && (forall v :: v != user ==> LinesOf(w'.cart, v) == LinesOf(w.cart, v))
      && w'.accounts == w.accounts && w'.tickets == w.tickets && w'.ledger == w.ledger
  {
    forall v | v != user
      ensures LinesOf(Drop(w.cart, id, user), v) == LinesOf(w.cart, v)
    {
      LinesOfDrop(w.cart, id, user, v);
    }
  }
}
