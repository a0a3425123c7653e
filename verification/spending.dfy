/**
 * The per-category expense breakdown: a dictionary from category to the
 * summed amount of the expenses in it, built by folding over the history.
 * Income never contributes, and a category appears only once some expense
 * in it has been seen.
 */
module Spending {
  import opened Types
  import opened Totals

  /** The expenses of category `c`, in their original order. */
  function ExpensesIn(ts: seq<Transaction>, c: Category): (r: seq<Transaction>)
    ensures forall t :: t in r <==> t in ts && t.kind == ExpenseTx && t.category == c
  {
    if ts == [] then []
    else if ts[0].kind == ExpenseTx && ts[0].category == c then [ts[0]] + ExpensesIn(ts[1..], c)
    else ExpensesIn(ts[1..], c)
  }

  /** Reference definition of what was spent in `c`: the total of its expenses. */
  function SpentIn(ts: seq<Transaction>, c: Category): real {
    Total(ExpensesIn(ts, c))
  }

  predicate HasExpenseIn(ts: seq<Transaction>, c: Category) {
    exists t :: t in ts && t.kind == ExpenseTx && t.category == c
  }

  /**
   * One step of the fold: an expense adds its amount to its category's
   * entry, starting from 0 when the entry is missing; income leaves the
   * accumulator as it is.
   */
  function Tally(acc: map<Category, real>, t: Transaction): (r: map<Category, real>)
    ensures t.kind == IncomeTx ==> r == acc
    ensures r.Keys == if t.kind == ExpenseTx then acc.Keys + {t.category} else acc.Keys
    ensures forall c :: c in acc && c != t.category ==> r[c] == acc[c]
    ensures t.kind == ExpenseTx ==> r[t.category] - t.amount == (if t.category in acc then acc[t.category] else 0.0)
  {
    if t.kind == ExpenseTx then
      acc[t.category := (if t.category in acc then acc[t.category] else 0.0) + t.amount]
    else acc
  }

  /** The fold from an empty dictionary over the history, first transaction first. */
  function Breakdown(ts: seq<Transaction>): map<Category, real> {
    if ts == [] then map[] else Tally(Breakdown(ts[..|ts| - 1]), ts[|ts| - 1])
  }

  /**
   * The fold written as a loop that rebinds its map one transaction at a
   * time, as the reduce updates its accumulator.
   */
  method SpendingByCategory(ts: seq<Transaction>) returns (acc: map<Category, real>)
    ensures forall c :: c in acc <==> HasExpenseIn(ts, c)
    ensures forall c :: c in acc ==> acc[c] == SpentIn(ts, c)
    ensures acc == Breakdown(ts)
  {
    acc := map[];
    for i := 0 to |ts|
      invariant acc == Breakdown(ts[..i])
    {
      var t := ts[i];
      if t.kind == ExpenseTx {
        var sofar := if t.category in acc then acc[t.category] else 0.0;
        acc := acc[t.category := sofar + t.amount];
      }
      assert ts[..i + 1][..i] == ts[..i];
    }
    assert ts[..|ts|] == ts;
    BreakdownCorrect(ts);
  }

  lemma {:induction false} ExpensesInAppend(a: seq<Transaction>, b: seq<Transaction>, c: Category)
    ensures ExpensesIn(a + b, c) == ExpensesIn(a, c) + ExpensesIn(b, c)
  {
    if a == [] {
      assert a + b == b;
    } else {
      assert (a + b)[1..] == a[1..] + b;
      ExpensesInAppend(a[1..], b, c);
    }
  }

  /** A category with no expense has spent nothing. */
  lemma NothingSpentWithoutExpense(ts: seq<Transaction>, c: Category)
    requires !HasExpenseIn(ts, c)
    ensures SpentIn(ts, c) == 0.0
  {
  }

  /**
   * The breakdown has a key for exactly the categories with at least one
   * expense, and holds the total of that category's expenses.
   */
  lemma {:induction false} BreakdownCorrect(ts: seq<Transaction>)
    ensures forall c :: c in Breakdown(ts) <==> HasExpenseIn(ts, c)
    ensures forall c :: c in Breakdown(ts) ==> Breakdown(ts)[c] == SpentIn(ts, c)
  {
    if ts != [] {
      var init, last := ts[..|ts| - 1], ts[|ts| - 1];
      assert ts == init + [last];
      BreakdownCorrect(init);
      forall c
        ensures c in Breakdown(ts) <==> HasExpenseIn(ts, c)
        ensures c in Breakdown(ts) ==> Breakdown(ts)[c] == SpentIn(ts, c)
      {
        BreakdownStep(init, last, c);
      }
    }
  }

  /** One step of the fold keeps the characterisation of one category. */
  lemma BreakdownStep(init: seq<Transaction>, last: Transaction, c: Category)
    requires c in Breakdown(init) <==> HasExpenseIn(init, c)
    requires c in Breakdown(init) ==> Breakdown(init)[c] == SpentIn(init, c)
    ensures c in Breakdown(init + [last]) <==> HasExpenseIn(init + [last], c)
    ensures c in Breakdown(init + [last]) ==> Breakdown(init + [last])[c] == SpentIn(init + [last], c)
  {
    var ts := init + [last];
    assert ts[..|ts| - 1] == init && ts[|ts| - 1] == last;
    var m := Tally(Breakdown(init), last);
    assert Breakdown(ts) == m;
    ExpensesInAppend(init, [last], c);
    if last.kind == ExpenseTx && last.category == c {
      assert ExpensesIn([last], c) == [last];
      TotalAppend(ExpensesIn(init, c), [last]);
      assert last in ts;
      if !HasExpenseIn(init, c) {
        NothingSpentWithoutExpense(init, c);
      }
    } else {
      assert ExpensesIn([last], c) == [];
      assert ExpensesIn(ts, c) == ExpensesIn(init, c);
      assert c in m <==> c in Breakdown(init);
      if HasExpenseIn(ts, c) {
        var t :| t in ts && t.kind == ExpenseTx && t.category == c;
        assert t in init;
      }
    }
  }

  /** Only expenses matter: dropping every income transaction leaves the breakdown as it was. */
  lemma BreakdownIgnoresIncome(ts: seq<Transaction>)
    ensures Breakdown(OfType(ts, ExpenseTx)) == Breakdown(ts)
  {
    var es := OfType(ts, ExpenseTx);
    BreakdownCorrect(ts);
    BreakdownCorrect(es);
    forall c
      ensures c in Breakdown(es) <==> c in Breakdown(ts)
      ensures c in Breakdown(ts) ==> Breakdown(es)[c] == Breakdown(ts)[c]
    {
      assert HasExpenseIn(es, c) <==> HasExpenseIn(ts, c);
      ExpensesOfExpenses(ts, c);
    }
  }

  lemma {:induction false} ExpensesOfExpenses(ts: seq<Transaction>, c: Category)
    ensures ExpensesIn(OfType(ts, ExpenseTx), c) == ExpensesIn(ts, c)
  {
    if ts != [] {
      ExpensesOfExpenses(ts[1..], c);
    }
  }

  /** The values of `m` summed over the categories `cs`, a missing key counting 0. */
  function SumValues(m: map<Category, real>, cs: seq<Category>): real {
    if cs == [] then 0.0
    else (if cs[0] in m then m[cs[0]] else 0.0) + SumValues(m, cs[1..])
  }

  /** What was spent in each category of `cs`, summed. */
  function SumSpent(ts: seq<Transaction>, cs: seq<Category>): real {
    if cs == [] then 0.0 else SpentIn(ts, cs[0]) + SumSpent(ts, cs[1..])
  }

  lemma {:induction false} SumValuesOfBreakdown(ts: seq<Transaction>, cs: seq<Category>)
    ensures SumValues(Breakdown(ts), cs) == SumSpent(ts, cs)
  {
    if cs != [] {
      BreakdownCorrect(ts);
      if cs[0] !in Breakdown(ts) {
        NothingSpentWithoutExpense(ts, cs[0]);
      }
      SumValuesOfBreakdown(ts, cs[1..]);
    }
  }

  /** A transaction added in front adds its amount to the one category of `cs` it is an expense in. */
  lemma {:induction false} SumSpentOfPrepend(t: Transaction, ts: seq<Transaction>, cs: seq<Category>)
    requires NoDuplicates(cs)
    ensures SumSpent([t] + ts, cs)
         == SumSpent(ts, cs) + (if t.kind == ExpenseTx && t.category in cs then t.amount else 0.0)
  {
    if cs != [] {
      assert ([t] + ts)[1..] == ts;
      assert NoDuplicates(cs[1..]) by {
        forall i, j | 0 <= i < j < |cs[1..]| ensures cs[1..][i] != cs[1..][j] {
          assert cs[1..][i] == cs[i + 1] && cs[1..][j] == cs[j + 1];
        }
      }
      assert cs[0] !in cs[1..] by {
        forall j | 0 <= j < |cs[1..]| ensures cs[1..][j] != cs[0] {
          assert cs[1..][j] == cs[j + 1];
        }
      }
      SumSpentOfPrepend(t, ts, cs[1..]);
    }
  }

  lemma {:induction false} NothingSpentInEmpty(cs: seq<Category>)
    ensures SumSpent([], cs) == 0.0
  {
    if cs != [] {
      NothingSpentInEmpty(cs[1..]);
    }
  }

  /** Summed over all eight categories, the per-category spending is the expense total. */
  lemma {:induction false} CategorySpendingAddsUp(ts: seq<Transaction>)
    ensures SumSpent(ts, Categories) == TotalExpenses(ts)
  {
    CategoriesEnumerated();
    if ts == [] {
      NothingSpentInEmpty(Categories);
    } else {
      CategorySpendingAddsUp(ts[1..]);
      assert ts == [ts[0]] + ts[1..];
      SumSpentOfPrepend(ts[0], ts[1..], Categories);
      TotalsOfPrepend(ts[0], ts[1..]);
    }
  }

  /** The breakdown's values, summed over all keys, equal the expense total exactly. */
  lemma BreakdownSumsToExpenses(ts: seq<Transaction>)
    ensures SumValues(Breakdown(ts), Categories) == TotalExpenses(ts)
  {
    SumValuesOfBreakdown(ts, Categories);
    CategorySpendingAddsUp(ts);
  }

  predicate AmountsPositive(ts: seq<Transaction>) {
    forall i :: 0 <= i < |ts| ==> ts[i].amount > 0.0
  }

  lemma {:induction false} TotalOfPositives(s: seq<Transaction>)
    requires s != [] && AmountsPositive(s)
    ensures Total(s) > 0.0
  {
    if |s| > 1 {
      TotalOfPositives(s[1..]);
    }
  }

  /** When every amount is positive, no key of the breakdown holds zero. */
  lemma BreakdownValuesPositive(ts: seq<Transaction>)
    requires AmountsPositive(ts)
    ensures forall c :: c in Breakdown(ts) ==> Breakdown(ts)[c] > 0.0
  {
    BreakdownCorrect(ts);
    forall c | c in Breakdown(ts) ensures Breakdown(ts)[c] > 0.0 {
      var es := ExpensesIn(ts, c);
      var t :| t in ts && t.kind == ExpenseTx && t.category == c;
      assert t in es;
      forall i | 0 <= i < |es| ensures es[i].amount > 0.0 {
        assert es[i] in ts;
      }
      TotalOfPositives(es);
    }
  }

  /** With no negative amount, nothing spent in a category is negative. */
  lemma SpentNonNegative(ts: seq<Transaction>, c: Category)
    requires AmountsNonNegative(ts)
    ensures SpentIn(ts, c) >= 0.0
  {
    var es := ExpensesIn(ts, c);
    forall i | 0 <= i < |es| ensures es[i].amount >= 0.0 {
      assert es[i] in ts;
    }
    TotalOfNonNegatives(es);
  }

  lemma {:induction false} TotalOfNonNegatives(s: seq<Transaction>)
    requires AmountsNonNegative(s)
    ensures Total(s) >= 0.0
  {
    if s != [] {
      TotalOfNonNegatives(s[1..]);
    }
  }
}
