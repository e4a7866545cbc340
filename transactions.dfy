/** Transactions as the backend sends them, and the balance the page derives from them. */
module Transactions {

  datatype Option<T> = None | Some(value: T)

  /** The two values the form's type selector offers. */
  const REVENUE: string := "REVENUE"
  const DEPENSE: string := "DEPENSE"

  /** A row of the list. `kind` holds the JSON field `type` (a keyword in Dafny);
      it is whatever string the server sent, not only the two values above. */
  datatype Transaction = Transaction(id: int, description: string, kind: string, amount: int, date: string)

  /** What one entry adds to the balance: its amount when its type is exactly
      "REVENUE", its negated amount for every other type. */
  function Contribution(t: Transaction): int {
    if t.kind == REVENUE then t.amount else -t.amount
  }

  /** Reference definition of the balance of a list. */
  function Balance(ts: seq<Transaction>): int {
    if ts == [] then 0 else Contribution(ts[0]) + Balance(ts[1..])
  }

  /** Sum of a sequence of amounts. */
  function Total(xs: seq<int>): int {
    if xs == [] then 0 else xs[0] + Total(xs[1..])
  }

  /** Amounts of the entries whose type is exactly "REVENUE", in list order. */
  function RevenueAmounts(ts: seq<Transaction>): seq<int> {
    if ts == [] then []
    else if ts[0].kind == REVENUE then [ts[0].amount] + RevenueAmounts(ts[1..])
    else RevenueAmounts(ts[1..])
  }

  /** Amounts of all other entries ("DEPENSE" or anything else), in list order. */
  function OtherAmounts(ts: seq<Transaction>): seq<int> {
    if ts == [] then []
    else if ts[0].kind != REVENUE then [ts[0].amount] + OtherAmounts(ts[1..])
    else OtherAmounts(ts[1..])
  }

  /** The balance is the revenue total minus the total of every other entry. */
  lemma {:induction false} BalanceIsRevenueMinusOthers(ts: seq<Transaction>)
    ensures Balance(ts) == Total(RevenueAmounts(ts)) - Total(OtherAmounts(ts))
  {
    if ts != [] {
      BalanceIsRevenueMinusOthers(ts[1..]);
      var r, o := RevenueAmounts(ts[1..]), OtherAmounts(ts[1..]);
      if ts[0].kind == REVENUE {
        assert ([ts[0].amount] + r)[1..] == r;
      } else {
        assert ([ts[0].amount] + o)[1..] == o;
      }
    }
  }

  /** The balance of two lists put together is the sum of their balances. */
  lemma {:induction false} BalanceConcat(a: seq<Transaction>, b: seq<Transaction>)
    ensures Balance(a + b) == Balance(a) + Balance(b)
  {
    if a == [] {
      assert a + b == b;
    } else {
      assert (a + b)[1..] == a[1..] + b;
      BalanceConcat(a[1..], b);
    }
  }

  /** Appending one entry moves the balance by +amount for "REVENUE" and by
      -amount for any other type; this is one step of the page's forEach loop. */
  lemma {:induction false} BalanceAppend(ts: seq<Transaction>, t: Transaction)
    ensures t.kind == REVENUE ==> Balance(ts + [t]) == Balance(ts) + t.amount
    ensures t.kind != REVENUE ==> Balance(ts + [t]) == Balance(ts) - t.amount
  {
    BalanceConcat(ts, [t]);
    assert [t][1..] == [];
  }

  /** Removing the entry at index k moves the balance by minus its contribution. */
  lemma {:induction false} BalanceRemove(ts: seq<Transaction>, k: nat)
    requires k < |ts|
    ensures Balance(ts[..k] + ts[k + 1..]) == Balance(ts) - Contribution(ts[k])
  {
    var left, right := ts[..k], ts[k + 1..];
    var mid := [ts[k]] + right;
    assert mid[1..] == right;
    assert Balance(mid) == Contribution(ts[k]) + Balance(right);
    assert ts == left + mid;
    BalanceConcat(left, mid);
    BalanceConcat(left, right);
  }

  /** Taking out the entry at index k takes one copy of it out of the multiset. */
  lemma MultisetRemove(b: seq<Transaction>, k: nat)
    requires k < |b|
    ensures multiset(b[..k] + b[k + 1..]) == multiset(b) - multiset{b[k]}
  {
    assert b == b[..k] + [b[k]] + b[k + 1..];
  }

  /** The balance does not depend on the order the server lists the entries in. */
  lemma {:induction false} BalanceReorder(a: seq<Transaction>, b: seq<Transaction>)
    requires multiset(a) == multiset(b)
    ensures Balance(a) == Balance(b)
  {
    if a != [] {
      assert a[0] in multiset(a);
      var k :| 0 <= k < |b| && b[k] == a[0];
      var rest := b[..k] + b[k + 1..];
      assert multiset(a[1..]) == multiset(rest) by {
        MultisetRemove(a, 0);
        assert a[..0] + a[1..] == a[1..];
        MultisetRemove(b, k);
      }
      BalanceReorder(a[1..], rest);
      BalanceRemove(b, k);
    }
  }
}
