/**
 * The dashboard statistics: totals, the per-category breakdown and the
 * recent list, recomputed from the whole current history.
 */
module Dashboard {
  import opened Types
  import opened Dates
  import opened Totals
  import opened Spending
  import opened Recent
  import opened InitialData

  datatype DashboardStats = DashboardStats(summary: FinancialSummary, recent: seq<Transaction>)

  /** The statistics shown on the dashboard for the history `ts`. */
  function Stats(ts: seq<Transaction>): (s: DashboardStats)
    ensures s.summary.balance == s.summary.totalIncome - s.summary.totalExpenses
    ensures s.summary.balance == SignedTotal(ts)
    ensures s.summary.totalIncome + s.summary.totalExpenses == Total(ts)
    ensures SumValues(s.summary.categoryBreakdown, Categories) == s.summary.totalExpenses
    ensures forall c :: c in s.summary.categoryBreakdown <==> HasExpenseIn(ts, c)
    ensures forall c :: c in s.summary.categoryBreakdown ==> s.summary.categoryBreakdown[c] == SpentIn(ts, c)
    ensures |s.recent| == Min(RecentCount, |ts|) && LatestFirst(s.recent)
    ensures multiset(s.recent) <= multiset(ts)
    ensures forall x, y :: x in multiset(ts) - multiset(s.recent) && y in s.recent ==> NotAfter(x.date, y.date)
  {
    IncomeAndExpensesPartition(ts);
    BalanceIsSignedTotal(ts);
    BreakdownSumsToExpenses(ts);
    BreakdownCorrect(ts);
    RecentCorrect(ts);
    DashboardStats(
      FinancialSummary(TotalIncome(ts), TotalExpenses(ts), Balance(ts), Breakdown(ts)),
      RecentOf(ts))
  }

  /** The dashboard figures of the starting data, worked out. */
  lemma InitialDashboard()
    ensures TotalIncome(InitialTransactions) == 850000.0
    ensures TotalExpenses(InitialTransactions) == 320000.0
    ensures Balance(InitialTransactions) == 530000.0
    ensures Breakdown(InitialTransactions)
         == map[Other := 250000.0, Food := 45000.0, Entertainment := 25000.0]
  {
    InitialTotals();
    InitialBreakdown();
  }

  lemma InitialTotals()
    ensures TotalIncome(InitialTransactions) == 850000.0
    ensures TotalExpenses(InitialTransactions) == 320000.0
  {
    var ts := InitialTransactions;
    assert OfType(ts, IncomeTx) == [ts[0]];
    assert OfType(ts, ExpenseTx) == ts[1..];
  }

  lemma InitialBreakdown()
    ensures Breakdown(InitialTransactions)
         == map[Other := 250000.0, Food := 45000.0, Entertainment := 25000.0]
  {
    var ts := InitialTransactions;
    assert ts[..1][..0] == [];
    assert ts[..2][..1] == ts[..1];
    assert ts[..3][..2] == ts[..2];
    assert ts[..4] == ts && ts[..4][..3] == ts[..3];
    assert Breakdown(ts[..1]) == map[];
    assert Breakdown(ts[..2]) == map[Other := 250000.0];
    assert Breakdown(ts[..3]) == map[Other := 250000.0, Food := 45000.0];
  }
}
