/** Balances of the account registry: crediting one wallet, and the sum of all
    balances that the trades keep constant. */
module Balances {
  import opened Types

  /** `balance += d` on one account (a negative d is a debit). */
  function Credit(m: map<Address, Account>, a: Address, d: Money): (r: map<Address, Account>)
    requires a in m
    ensures r.Keys == m.Keys
    ensures r[a].balance == m[a].balance + d
    ensures r[a] == m[a].(balance := r[a].balance)
    ensures forall b :: b in m && b != a ==> r[b] == m[b]
  {
    m[a := m[a].(balance := m[a].balance + d)]
  }

  /** The sum of every account's balance. */
  ghost function TotalBalance(m: map<Address, Account>): int
    decreases |m|
  {
    if m == map[] then 0
    else
      var a :| a in m;
      m[a].balance + TotalBalance(m - {a})
  }

  /** Any account can be taken out of the sum first. */
  lemma {:induction false} TotalBalanceWithout(m: map<Address, Account>, a: Address)
    requires a in m
    ensures TotalBalance(m) == m[a].balance + TotalBalance(m - {a})
    decreases |m|
  {
    var b :| b in m && TotalBalance(m) == m[b].balance + TotalBalance(m - {b});
    if b != a {
      TotalBalanceWithout(m - {b}, a);
      TotalBalanceWithout(m - {a}, b);
      assert m - {b} - {a} == m - {a} - {b};
    }
  }

  /** Crediting d to one account raises the sum of all balances by exactly d. */
  lemma CreditTotal(m: map<Address, Account>, a: Address, d: Money)
    requires a in m
    ensures TotalBalance(Credit(m, a, d)) == TotalBalance(m) + d
  {
    var r := Credit(m, a, d);
    TotalBalanceWithout(m, a);
    TotalBalanceWithout(r, a);
    assert r - {a} == m - {a};
  }

  /** Moving d from account a to account b keeps the sum of all balances. */
  lemma TransferTotal(m: map<Address, Account>, a: Address, b: Address, d: Money)
    requires a in m && b in m
    ensures TotalBalance(Credit(Credit(m, a, -d), b, d)) == TotalBalance(m)
  {
    CreditTotal(m, a, -d);
    CreditTotal(Credit(m, a, -d), b, d);
  }
}
