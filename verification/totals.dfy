/**
 * Income, expense and balance totals over the whole transaction history
 * (the dashboard statistics). There is no time window: every transaction
 * held counts.
 */
module Totals {
  import opened Types

  /** Sum of the amounts of `ts`. */
  function Total(ts: seq<Transaction>): real {
    if ts == [] then 0.0 else ts[0].amount + Total(ts[1..])
  }

  /** The transactions of direction `k`, in their original order. */
  function OfType(ts: seq<Transaction>, k: TxType): (r: seq<Transaction>)
    ensures forall t :: t in r <==> t in ts && t.kind == k
    ensures |r| <= |ts|
    ensures (forall t :: t in ts ==> t.kind == k) ==> r == ts
    ensures (forall t :: t in ts ==> t.kind != k) ==> r == []
  {
    if ts == [] then []
    else if ts[0].kind == k then [ts[0]] + OfType(ts[1..], k)
    else OfType(ts[1..], k)
  }

  /** The sum of the income amounts: expenses add nothing to it. */
  function TotalIncome(ts: seq<Transaction>): (r: real)
    ensures (forall t :: t in ts ==> t.kind == IncomeTx) ==> r == Total(ts)
    ensures (forall t :: t in ts ==> t.kind == ExpenseTx) ==> r == 0.0
  {
    Total(OfType(ts, IncomeTx))
  }

  /** The sum of the expense amounts: income adds nothing to it. */
  function TotalExpenses(ts: seq<Transaction>): (r: real)
    ensures (forall t :: t in ts ==> t.kind == ExpenseTx) ==> r == Total(ts)
    ensures (forall t :: t in ts ==> t.kind == IncomeTx) ==> r == 0.0
  {
    Total(OfType(ts, ExpenseTx))
  }

  /** What is left: the income total less the expense total. */
  function Balance(ts: seq<Transaction>): (r: real)
    ensures (forall t :: t in ts ==> t.kind == IncomeTx) ==> r == Total(ts)
    ensures (forall t :: t in ts ==> t.kind == ExpenseTx) ==> r == -Total(ts)
  {
    TotalIncome(ts) - TotalExpenses(ts)
  }

  /** The amount of `t` with the sign its direction gives it. */
  function SignedAmount(t: Transaction): real {
    if t.kind == IncomeTx then t.amount else -t.amount
  }

  /** Reference definition of the balance: the signed amounts added one by one. */
  function SignedTotal(ts: seq<Transaction>): real {
    if ts == [] then 0.0 else SignedAmount(ts[0]) + SignedTotal(ts[1..])
  }

  lemma {:induction false} TotalAppend(a: seq<Transaction>, b: seq<Transaction>)
    ensures Total(a + b) == Total(a) + Total(b)
  {
    if a == [] {
      assert a + b == b;
    } else {
      assert (a + b)[1..] == a[1..] + b;
      TotalAppend(a[1..], b);
    }
  }

  /**
   * Every transaction is either income or an expense, so the two totals
   * together account for every amount exactly once.
   */
  lemma {:induction false} IncomeAndExpensesPartition(ts: seq<Transaction>)
    ensures TotalIncome(ts) + TotalExpenses(ts) == Total(ts)
  {
    if ts != [] {
      IncomeAndExpensesPartition(ts[1..]);
    }
  }

  /** The balance is income minus expenses, and equals the signed sum of all amounts. */
  lemma {:induction false} BalanceIsSignedTotal(ts: seq<Transaction>)
    ensures Balance(ts) == TotalIncome(ts) - TotalExpenses(ts)
    ensures Balance(ts) == SignedTotal(ts)
  {
    if ts != [] {
      BalanceIsSignedTotal(ts[1..]);
    }
  }

  /** Prepending one transaction moves exactly one of the two totals, by its amount. */
  lemma TotalsOfPrepend(t: Transaction, ts: seq<Transaction>)
    ensures TotalIncome([t] + ts) == TotalIncome(ts) + (if t.kind == IncomeTx then t.amount else 0.0)
    ensures TotalExpenses([t] + ts) == TotalExpenses(ts) + (if t.kind == ExpenseTx then t.amount else 0.0)
    ensures Balance([t] + ts) == Balance(ts) + SignedAmount(t)
  {
    assert ([t] + ts)[1..] == ts;
  }

  /** Totals are sums over both parts of a split history. */
  lemma {:induction false} TotalsOfAppend(a: seq<Transaction>, b: seq<Transaction>)
    ensures TotalIncome(a + b) == TotalIncome(a) + TotalIncome(b)
    ensures TotalExpenses(a + b) == TotalExpenses(a) + TotalExpenses(b)
  {
    OfTypeAppend(a, b, IncomeTx);
    OfTypeAppend(a, b, ExpenseTx);
    TotalAppend(OfType(a, IncomeTx), OfType(b, IncomeTx));
    TotalAppend(OfType(a, ExpenseTx), OfType(b, ExpenseTx));
  }

  lemma {:induction false} OfTypeAppend(a: seq<Transaction>, b: seq<Transaction>, k: TxType)
    ensures OfType(a + b, k) == OfType(a, k) + OfType(b, k)
  {
    if a == [] {
      assert a + b == b;
    } else {
      assert (a + b)[1..] == a[1..] + b;
      OfTypeAppend(a[1..], b, k);
    }
  }

  predicate AmountsNonNegative(ts: seq<Transaction>) {
    forall i :: 0 <= i < |ts| ==> ts[i].amount >= 0.0
  }

  /** With no negative amounts neither total is negative. */
  lemma {:induction false} TotalsNonNegative(ts: seq<Transaction>)
    requires AmountsNonNegative(ts)
    ensures TotalIncome(ts) >= 0.0 && TotalExpenses(ts) >= 0.0
  {
    if ts != [] {
      TotalsNonNegative(ts[1..]);
    }
  }
}
