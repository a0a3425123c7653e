/**
 * The data the application starts with when nothing has been saved yet.
 */
module InitialData {
  import opened Types

  const InitialTransactions: seq<Transaction> := [
    Transaction("1", "2024-05-01", "Monthly Salary", 850000.0, Income, IncomeTx),
    Transaction("2", "2024-05-02", "House Rent", 250000.0, Other, ExpenseTx),
    Transaction("3", "2024-05-05", "Simba Supermarket", 45000.0, Food, ExpenseTx),
    Transaction("4", "2024-05-06", "Canal+ Subscription", 25000.0, Entertainment, ExpenseTx)
  ]

  const InitialBudgets: seq<CategoryBudget> := [
    CategoryBudget(Food, 150000.0),
    CategoryBudget(Transport, 50000.0),
    CategoryBudget(Entertainment, 80000.0),
    CategoryBudget(Shopping, 100000.0)
  ]

  const InitialGoals: seq<SavingsGoal> := [
    SavingsGoal("g1", "Emergency Fund", 2000000.0, 450000.0, "\U{1F6E1}\U{FE0F}"),
    SavingsGoal("g2", "New Laptop", 1200000.0, 300000.0, "\U{1F4BB}")
  ]
}
