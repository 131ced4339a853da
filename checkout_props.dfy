/** What checkout (app.py:347-396) guarantees: it is all-or-nothing, it moves
    exactly the cart's value from the buyer to the sellers, every ticket it moves
    ends with the buyer and is logged once, and it empties the buyer's cart. */
module CheckoutProps {
  import opened Types
  import opened Balances
  import opened Selection
  import opened Transfer
  import opened Cart
  import opened Market

  /** The line loop credits each seller what its lines cost and changes nothing
      else in the accounts. */
  lemma {:induction false} SettleAccounts(w: World, lines: seq<CartLine>, buyer: Address, hash: string)
    requires Settle(w, lines, buyer, hash).Ok?
    ensures var w' := Settle(w, lines, buyer, hash).value;
      w'.accounts.Keys == w.accounts.Keys
      && (forall a :: a in w.accounts ==>
            w'.accounts[a] == w.accounts[a].(balance := w.accounts[a].balance + Earned(lines, a)))
      && w'.events == w.events && w'.cart == w.cart && w'.nextLine == w.nextLine
    decreases |lines|
  {
    if lines != [] {
      var w1 := LineStep(w, lines[0], buyer, hash).value;
      SettleAccounts(w1, lines[1..], buyer, hash);
    }
  }

  /** The line loop leaves the events, the cart and the cart counter alone. */
  lemma {:induction false} SettleKeeps(w: World, lines: seq<CartLine>, buyer: Address, hash: string)
    requires Settle(w, lines, buyer, hash).Ok?
    ensures var w' := Settle(w, lines, buyer, hash).value;
      w'.events == w.events && w'.cart == w.cart && w'.nextLine == w.nextLine
    decreases |lines|
  {
    if lines != [] {
      SettleKeeps(LineStep(w, lines[0], buyer, hash).value, lines[1..], buyer, hash);
    }
  }

  /** The line loop raises the sum of all balances by the cart total. */
  lemma {:induction false} SettleTotal(w: World, lines: seq<CartLine>, buyer: Address, hash: string)
    requires Settle(w, lines, buyer, hash).Ok?
    ensures TotalBalance(Settle(w, lines, buyer, hash).value.accounts) == TotalBalance(w.accounts) + Total(lines)
    decreases |lines|
  {
    if lines != [] {
      var w1 := LineStep(w, lines[0], buyer, hash).value;
      SettleTotal(w1, lines[1..], buyer, hash);
      CreditTotal(w.accounts, lines[0].seller, lines[0].quantity * lines[0].price);
    }
  }

  /** Entry e records the purchase of ticket t through cart line `line`: the
      ticket was the line's seller's, of the line's event, listed at the line's
      price, and the entry names that seller and that price. */
  predicate PaidFor(t: Ticket, e: Entry, line: CartLine)
  {
    Matches(t, LineFilter(line)) && e.from == line.seller && e.amount == line.price
  }

  /** Every entry of es records the purchase of its ticket (as it stood in
      `before`) through one of the lines. */
  ghost predicate ThroughLines(before: seq<Ticket>, es: seq<Entry>, lines: seq<CartLine>)
  {
    forall k :: 0 <= k < |es| && es[k].ticket.Some? && es[k].ticket.value < |before| ==>
      exists j :: 0 <= j < |lines| && PaidFor(before[es[k].ticket.value], es[k], lines[j])
  }

  /** One line hands its selected tickets to the buyer and logs one PURCHASE
      entry for each; with a non-negative quantity, exactly that many. Every
      ticket it takes is one the line names, and its entry records the line's
      seller and price. */
  lemma LineStepMoves(w: World, line: CartLine, buyer: Address, hash: string)
    requires LineStep(w, line, buyer, hash).Ok?
    ensures var w1 := LineStep(w, line, buyer, hash).value;
      w.ledger <= w1.ledger
      && Moves(w.tickets, w1.tickets, w1.ledger[|w.ledger|..], buyer, Purchase, hash)
      && (line.quantity >= 0 ==> |w1.ledger| - |w.ledger| == line.quantity)
    ensures var w1 := LineStep(w, line, buyer, hash).value;
      var es := w1.ledger[|w.ledger|..];
      forall k :: 0 <= k < |es| ==> PaidFor(w.tickets[es[k].ticket.value], es[k], line)
  {
    var ids := Selected(w.tickets, LineFilter(line), line.quantity);
    var stamp := Entry(hash, None, EventName(w.events[line.event].name), line.seller, buyer,
                       line.price, Purchase);
    var w1 := LineStep(w, line, buyer, hash).value;
    HandoverMoves(w.tickets, ids, buyer, stamp);
    assert w1.ledger[|w.ledger|..] == Receipts(ids, stamp);
  }

  /** The line loop only appends to the ledger, and what it appends records a
      move of tickets to the buyer: one PURCHASE entry per ticket, under the
      order hash. */
  lemma {:induction false} SettleMoves(w: World, lines: seq<CartLine>, buyer: Address, hash: string)
    requires Settle(w, lines, buyer, hash).Ok?
    ensures var w' := Settle(w, lines, buyer, hash).value;
      w.ledger <= w'.ledger
      && Moves(w.tickets, w'.tickets, w'.ledger[|w.ledger|..], buyer, Purchase, hash)
    decreases |lines|
  {
    if lines == [] {
      assert w.ledger[|w.ledger|..] == [];
    } else {
      var w1 := LineStep(w, lines[0], buyer, hash).value;
      var w2 := Settle(w1, lines[1..], buyer, hash).value;
      assert Settle(w, lines, buyer, hash).value == w2;
      LineStepMoves(w, lines[0], buyer, hash);
      SettleMoves(w1, lines[1..], buyer, hash);
      MovesChain(w.tickets, w1.tickets, w2.tickets, w.ledger, w1.ledger, w2.ledger, buyer, Purchase, hash);
    }
  }

  /** Every entry the line loop appends records the purchase of a ticket that,
      before checkout, was listed by one cart line's seller for that line's event
      at that line's price, from that seller at that price. A ticket sold by an
      earlier line is no longer listed, so a later line cannot take it. */
  lemma {:induction false} SettleThroughLines(w: World, lines: seq<CartLine>, buyer: Address, hash: string)
    requires Settle(w, lines, buyer, hash).Ok?
    ensures var w' := Settle(w, lines, buyer, hash).value;
      w.ledger <= w'.ledger && ThroughLines(w.tickets, w'.ledger[|w.ledger|..], lines)
    decreases |lines|
  {
    if lines != [] {
      var w1 := LineStep(w, lines[0], buyer, hash).value;
      var w2 := Settle(w1, lines[1..], buyer, hash).value;
      assert Settle(w, lines, buyer, hash).value == w2;
      LineStepMoves(w, lines[0], buyer, hash);
      SettleThroughLines(w1, lines[1..], buyer, hash);
      ThroughLinesChain(w.tickets, w1.tickets, w.ledger, w1.ledger, w2.ledger, lines, buyer, hash);
    }
  }

  /** A line's purchases followed by purchases through the other lines, on the
      tickets that line left, are all purchases through the lines together. */
  lemma ThroughLinesChain(t0: seq<Ticket>, t1: seq<Ticket>, l0: seq<Entry>, l1: seq<Entry>,
                          l2: seq<Entry>, lines: seq<CartLine>, buyer: Address, hash: string)
    requires lines != [] && l0 <= l1 <= l2
    requires Moves(t0, t1, l1[|l0|..], buyer, Purchase, hash)
    requires var es1 := l1[|l0|..];
      forall k :: 0 <= k < |es1| ==> PaidFor(t0[es1[k].ticket.value], es1[k], lines[0])
    requires ThroughLines(t1, l2[|l1|..], lines[1..])
    ensures ThroughLines(t0, l2[|l0|..], lines)
  {
    var es1 := l1[|l0|..];
    var es2 := l2[|l1|..];
    var es := l2[|l0|..];
    assert es == es1 + es2;
    var rest := lines[1..];
    forall k | 0 <= k < |es| && es[k].ticket.Some? && es[k].ticket.value < |t0|
      ensures exists j :: 0 <= j < |lines| && PaidFor(t0[es[k].ticket.value], es[k], lines[j])
    {
      var t := es[k].ticket.value;
      if k < |es1| {
        assert es[k] == es1[k];
        assert PaidFor(t0[t], es[k], lines[0]);
      } else {
        assert es[k] == es2[k - |es1|];
        var j :| 0 <= j < |rest| && PaidFor(t1[t], es[k], rest[j]);
        SoldBeforeUnlisted(t0, t1, es1, buyer, hash, t);
        assert PaidFor(t0[t], es[k], lines[j + 1]);
      }
    }
  }

  /** After a move, a ticket that is still listed is one the move left alone. */
  lemma SoldBeforeUnlisted(before: seq<Ticket>, after: seq<Ticket>, es: seq<Entry>,
                           buyer: Address, hash: string, t: nat)
    requires Moves(before, after, es, buyer, Purchase, hash)
    requires t < |after|
    ensures after[t].listed ==> after[t] == before[t]
  {
    if Logged(es, t) {
      var k :| 0 <= k < |es| && es[k].ticket == Some(t);
      assert !after[t].listed;
    }
  }

  /** With no negative quantity, the line loop logs as many entries as the lines
      ask for tickets. */
  lemma {:induction false} SettleCount(w: World, lines: seq<CartLine>, buyer: Address, hash: string)
    requires Settle(w, lines, buyer, hash).Ok?
    requires forall k :: 0 <= k < |lines| ==> lines[k].quantity >= 0
    ensures |Settle(w, lines, buyer, hash).value.ledger| == |w.ledger| + Units(lines)
    decreases |lines|
  {
    if lines != [] {
      var w1 := LineStep(w, lines[0], buyer, hash).value;
      assert Settle(w, lines, buyer, hash) == Settle(w1, lines[1..], buyer, hash);
      LineStepMoves(w, lines[0], buyer, hash);
      SettleCount(w1, lines[1..], buyer, hash);
    }
  }

  /** A query for listed tickets finds no more after some tickets were sold. */
  lemma {:induction false} CountAfterSales(ts: seq<Ticket>, ts': seq<Ticket>, f: Filter, n: nat)
    requires n <= |ts| == |ts'|
    requires forall i :: 0 <= i < |ts| && Matches(ts'[i], f) ==> Matches(ts[i], f)
    ensures |MatchingBelow(ts', f, n)| <= |MatchingBelow(ts, f, n)|
  {
    if n > 0 {
      CountAfterSales(ts, ts', f, n - 1);
    }
  }

  /** A line that asks for more tickets than its seller lists at its price makes
      the loop fail, whatever the lines before it did. */
  lemma {:induction false} SettleShort(w: World, lines: seq<CartLine>, buyer: Address, hash: string, i: nat)
    requires i < |lines|
    requires lines[i].quantity > Count(w.tickets, LineFilter(lines[i]))
    ensures Settle(w, lines, buyer, hash).Err?
    decreases |lines|
  {
    if i == 0 {
      assert LineStep(w, lines[0], buyer, hash).Err?;
    } else if LineStep(w, lines[0], buyer, hash).Ok? {
      var w1 := LineStep(w, lines[0], buyer, hash).value;
      CountAfterSales(w.tickets, w1.tickets, LineFilter(lines[i]), |w.tickets|);
      assert lines[1..][i - 1] == lines[i];
      SettleShort(w1, lines[1..], buyer, hash, i - 1);
    }
  }

  /** The state before the line loop runs: the buyer already debited the total. */
  function Debited(w: World, buyer: Address): World
    requires buyer in w.accounts
  {
    w.(accounts := Credit(w.accounts, buyer, -Total(LinesOf(w.cart, buyer))))
  }

  /** Debiting the buyer lowers the sum of all balances by the cart total. */
  lemma DebitedTotal(w: World, buyer: Address)
    requires buyer in w.accounts
    ensures TotalBalance(Debited(w, buyer).accounts) == TotalBalance(w.accounts) - Total(LinesOf(w.cart, buyer))
  {
    var due := Total(LinesOf(w.cart, buyer));
    var m := Credit(w.accounts, buyer, -due);
    assert Debited(w, buyer).accounts == m;
    CreditTotal(w.accounts, buyer, -due);
  }

  /** A failing line loop makes checkout fail. */
  lemma CheckoutFails(w: World, buyer: Address, hash: string)
    requires buyer in w.accounts
    requires Settle(Debited(w, buyer), LinesOf(w.cart, buyer), buyer, hash).Err?
    ensures Checkout(w, buyer, hash).Err?
  {
  }

  /** Checkout commits nothing when the buyer cannot pay the cart total. */
  lemma CheckoutNeedsFunds(w: World, buyer: Address, hash: string)
    requires buyer in w.accounts
    ensures var lines := LinesOf(w.cart, buyer);
      lines != [] && w.accounts[buyer].balance < Total(lines) ==>
        Checkout(w, buyer, hash) == Err(InsufficientFunds)
  {
  }

  /** Checkout commits nothing when some line asks for more tickets than its
      seller has listed at its price, whatever the lines before it do. */
  lemma CheckoutNeedsStock(w: World, buyer: Address, hash: string, i: nat)
    requires buyer in w.accounts
    requires i < |LinesOf(w.cart, buyer)|
    requires LinesOf(w.cart, buyer)[i].quantity > Count(w.tickets, LineFilter(LinesOf(w.cart, buyer)[i]))
    ensures Checkout(w, buyer, hash).Err?
  {
    SettleShort(Debited(w, buyer), LinesOf(w.cart, buyer), buyer, hash, i);
    CheckoutFails(w, buyer, hash);
  }

  /** Past the empty-cart and funds checks, checkout is the line loop on the
      debited state followed by the cart delete. */
  lemma CheckoutUnfold(w: World, buyer: Address, hash: string)
    requires buyer in w.accounts && LinesOf(w.cart, buyer) != []
    requires w.accounts[buyer].balance >= Total(LinesOf(w.cart, buyer))
    ensures Checkout(w, buyer, hash) ==
      match Settle(Debited(w, buyer), LinesOf(w.cart, buyer), buyer, hash)
      case Err(r) => Err(r)
      case Ok(w1) => Ok(w1.(cart := Without(w.cart, buyer)))
  {
  }

  /** A committed checkout is a committed line loop followed by the cart delete. */
  lemma CheckoutCommits(w: World, buyer: Address, hash: string)
    requires buyer in w.accounts && Checkout(w, buyer, hash).Ok?
    ensures Settle(Debited(w, buyer), LinesOf(w.cart, buyer), buyer, hash).Ok?
    ensures Checkout(w, buyer, hash).value
         == Settle(Debited(w, buyer), LinesOf(w.cart, buyer), buyer, hash).value.(cart := Without(w.cart, buyer))
  {
  }

  /** A committed checkout debits the buyer the cart total, credits each seller
      what its lines cost, and touches no other balance or account field. */
  lemma CheckoutBalances(w: World, buyer: Address, hash: string)
    requires buyer in w.accounts && Checkout(w, buyer, hash).Ok?
    ensures var w' := Checkout(w, buyer, hash).value;
      var lines := LinesOf(w.cart, buyer);
      w'.accounts.Keys == w.accounts.Keys
      && (forall a :: a in w.accounts ==>
            w'.accounts[a] == w.accounts[a].(balance := w.accounts[a].balance
                                 - (if a == buyer then Total(lines) else 0) + Earned(lines, a)))
  {
    var lines := LinesOf(w.cart, buyer);
    var d := Debited(w, buyer);
    CheckoutCommits(w, buyer, hash);
    var w' := Checkout(w, buyer, hash).value;
    SettleAccounts(d, lines, buyer, hash);
    assert w'.accounts == Settle(d, lines, buyer, hash).value.accounts;
    forall a | a in w.accounts
      ensures w'.accounts[a] == w.accounts[a].(balance := w.accounts[a].balance
                                 - (if a == buyer then Total(lines) else 0) + Earned(lines, a))
    {
      assert w'.accounts[a] == d.accounts[a].(balance := d.accounts[a].balance + Earned(lines, a));
    }
  }

  /** A committed checkout keeps the sum of all balances: what the buyer pays is
      what the sellers receive. */
  lemma CheckoutConservesMoney(w: World, buyer: Address, hash: string)
    requires buyer in w.accounts && Checkout(w, buyer, hash).Ok?
    ensures TotalBalance(Checkout(w, buyer, hash).value.accounts) == TotalBalance(w.accounts)
  {
    var lines := LinesOf(w.cart, buyer);
    var d := Debited(w, buyer);
    CheckoutCommits(w, buyer, hash);
    var s := Settle(d, lines, buyer, hash).value;
    assert Checkout(w, buyer, hash).value.accounts == s.accounts;
    SettleTotal(d, lines, buyer, hash);
    DebitedTotal(w, buyer);
  }

  /** A committed checkout appends one PURCHASE entry under the order hash for
      each ticket it hands to the buyer, unlisted and without a price; it hands
      over only tickets that were listed and changes no other ticket; with no
      negative quantity, it moves as many tickets as the cart asks for; and each
      ticket it moves was listed by the seller of one of the buyer's cart lines,
      for that line's event at that line's price, which its entry records. */
  lemma CheckoutTickets(w: World, buyer: Address, hash: string)
    requires buyer in w.accounts && Checkout(w, buyer, hash).Ok?
    ensures var w' := Checkout(w, buyer, hash).value;
      var lines := LinesOf(w.cart, buyer);
      w.ledger <= w'.ledger
      && Moves(w.tickets, w'.tickets, w'.ledger[|w.ledger|..], buyer, Purchase, hash)
      && ((forall k :: 0 <= k < |lines| ==> lines[k].quantity >= 0) ==>
            |w'.ledger| - |w.ledger| == Units(lines))
      && w'.events == w.events
    ensures var w' := Checkout(w, buyer, hash).value;
      ThroughLines(w.tickets, w'.ledger[|w.ledger|..], LinesOf(w.cart, buyer))
  {
    var lines := LinesOf(w.cart, buyer);
    CheckoutCommits(w, buyer, hash);
    SettleMoves(Debited(w, buyer), lines, buyer, hash);
    SettleThroughLines(Debited(w, buyer), lines, buyer, hash);
    SettleAccounts(Debited(w, buyer), lines, buyer, hash);
    if forall k :: 0 <= k < |lines| ==> lines[k].quantity >= 0 {
      SettleCount(Debited(w, buyer), lines, buyer, hash);
    }
  }

  /** A committed checkout empties the buyer's cart and leaves every other
      user's cart lines as they were. */
  lemma CheckoutClearsCart(w: World, buyer: Address, hash: string)
    requires buyer in w.accounts && Checkout(w, buyer, hash).Ok?
    ensures var w' := Checkout(w, buyer, hash).value;
      LinesOf(w'.cart, buyer) == []
      && (forall v :: v != buyer ==> LinesOf(w'.cart, v) == LinesOf(w.cart, v))
      && w'.nextLine == w.nextLine
  {
    var lines := LinesOf(w.cart, buyer);
    CheckoutCommits(w, buyer, hash);
    SettleAccounts(Debited(w, buyer), lines, buyer, hash);
    LinesOfWithout(w.cart, buyer, buyer);
    forall v | v != buyer
      ensures LinesOf(Without(w.cart, buyer), v) == LinesOf(w.cart, v)
    {
      LinesOfWithout(w.cart, buyer, v);
    }
  }

  lemma {:induction false} EarnedNonNegative(lines: seq<CartLine>, a: Address)
    requires forall k :: 0 <= k < |lines| ==> lines[k].quantity >= 0 && lines[k].price >= 0
    ensures Earned(lines, a) >= 0
  {
    if lines != [] {
      EarnedNonNegative(lines[1..], a);
    }
  }

  /** With no negative quantity or price in the buyer's cart, a committed checkout
      leaves no balance negative. */
  lemma CheckoutKeepsBalancesNonNegative(w: World, buyer: Address, hash: string)
    requires buyer in w.accounts && Checkout(w, buyer, hash).Ok?
    requires forall a :: a in w.accounts ==> w.accounts[a].balance >= 0
    requires var lines := LinesOf(w.cart, buyer);
      forall k :: 0 <= k < |lines| ==> lines[k].quantity >= 0 && lines[k].price >= 0
    ensures var w' := Checkout(w, buyer, hash).value;
      forall a :: a in w'.accounts ==> w'.accounts[a].balance >= 0
  {
    CheckoutBalances(w, buyer, hash);
    forall a | a in w.accounts {
      EarnedNonNegative(LinesOf(w.cart, buyer), a);
    }
  }
}
