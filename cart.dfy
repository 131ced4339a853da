/** The cart table (app.py:53-59) and the queries the cart routes run on it:
    a user's lines, deleting them, deleting one line, the merge lookup of
    add_to_cart and the sums checkout computes. Lines keep their insertion order. */
module Cart {
  import opened Types

  /** `CartItem.query.filter_by(user_id=user).all()`. */
  function LinesOf(cart: seq<CartLine>, user: Address): (r: seq<CartLine>)
    ensures |r| <= |cart|
    ensures forall l :: l in r ==> l in cart && l.user == user
    ensures forall l :: l in cart && l.user == user ==> l in r
  {
    if cart == [] then []
    else (if cart[0].user == user then [cart[0]] else []) + LinesOf(cart[1..], user)
  }

  /** The cart after `CartItem.query.filter_by(user_id=user).delete()`. */
  function Without(cart: seq<CartLine>, user: Address): (r: seq<CartLine>)
    ensures forall l :: l in r ==> l in cart && l.user != user
    ensures forall l :: l in cart && l.user != user ==> l in r
  {
    if cart == [] then []
    else (if cart[0].user != user then [cart[0]] else []) + Without(cart[1..], user)
  }

  /** The cart after `CartItem.query.filter_by(id=id, user_id=user).delete()`. */
  function Drop(cart: seq<CartLine>, id: nat, user: Address): (r: seq<CartLine>)
    ensures forall l :: l in r ==> l in cart && !(l.id == id && l.user == user)
    ensures forall l :: l in cart && !(l.id == id && l.user == user) ==> l in r
  {
    if cart == [] then []
    else (if !(cart[0].id == id && cart[0].user == user) then [cart[0]] else [])
         + Drop(cart[1..], id, user)
  }

  lemma {:induction false} LinesOfAppend(a: seq<CartLine>, b: seq<CartLine>, v: Address)
    ensures LinesOf(a + b, v) == LinesOf(a, v) + LinesOf(b, v)
  {
    if a != [] {
      assert (a + b)[1..] == a[1..] + b;
      LinesOfAppend(a[1..], b, v);
    } else {
      assert a + b == b;
    }
  }

  /** Deleting a user's lines leaves that user none and every other user's lines
      as they were, in the same order. */
  lemma {:induction false} LinesOfWithout(c: seq<CartLine>, u: Address, v: Address)
    ensures LinesOf(Without(c, u), v) == if v == u then [] else LinesOf(c, v)
  {
    if c != [] {
      LinesOfWithout(c[1..], u, v);
      LinesOfAppend(if c[0].user != u then [c[0]] else [], Without(c[1..], u), v);
    }
  }

  /** Removing one line of user u leaves every other user's lines as they were. */
  lemma {:induction false} LinesOfDrop(c: seq<CartLine>, id: nat, u: Address, v: Address)
    requires v != u
    ensures LinesOf(Drop(c, id, u), v) == LinesOf(c, v)
  {
    if c != [] {
      LinesOfDrop(c[1..], id, u, v);
      LinesOfAppend(if !(c[0].id == id && c[0].user == u) then [c[0]] else [], Drop(c[1..], id, u), v);
    }
  }

  /** Rewriting a line that belongs to neither v before nor after leaves v's lines. */
  lemma {:induction false} LinesOfUpdate(c: seq<CartLine>, k: nat, l: CartLine, v: Address)
    requires k < |c| && c[k].user != v && l.user != v
    ensures LinesOf(c[k := l], v) == LinesOf(c, v)
  {
    if k > 0 {
      assert c[k := l][1..] == c[1..][k - 1 := l];
      LinesOfUpdate(c[1..], k - 1, l, v);
    }
  }

  /** `sum(i.quantity * i.price_per_item for i in cart)`. */
  function Total(lines: seq<CartLine>): int
  {
    if lines == [] then 0 else lines[0].quantity * lines[0].price + Total(lines[1..])
  }

  /** What the lines pay to seller a. */
  function Earned(lines: seq<CartLine>, a: Address): int
  {
    if lines == [] then 0
    else (if lines[0].seller == a then lines[0].quantity * lines[0].price else 0)
         + Earned(lines[1..], a)
  }

  /** The number of tickets the lines ask for. */
  function Units(lines: seq<CartLine>): int
  {
    if lines == [] then 0 else lines[0].quantity + Units(lines[1..])
  }

  /** The merge key of add_to_cart: user, event and price, but not the seller. */
  predicate SameKey(l: CartLine, user: Address, e: int, price: Money)
  {
    l.user == user && l.event == e && l.price == price
  }

  /** `CartItem.query.filter_by(user_id, event_id, price_per_item).first()`: the
      position of the first line with that key, or None. */
  function FindLine(cart: seq<CartLine>, user: Address, e: int, price: Money): (r: Option<nat>)
    ensures r.Some? ==> r.value < |cart| && SameKey(cart[r.value], user, e, price)
    ensures r.Some? ==> forall j :: 0 <= j < r.value ==> !SameKey(cart[j], user, e, price)
    ensures r.None? ==> forall j :: 0 <= j < |cart| ==> !SameKey(cart[j], user, e, price)
  {
    if cart == [] then None
    else if SameKey(cart[0], user, e, price) then Some(0)
    else match FindLine(cart[1..], user, e, price)
      case None => None
      case Some(k) => Some(k + 1)
  }
}
