/**
 * The record shapes of the finance tracker: transactions, category budgets,
 * savings goals and the financial summary the dashboard derives from them.
 */
module Types {

  datatype Option<+T> = None | Some(value: T) {
    /** The value, or `default` when there is none. */
    function GetOr(default: T): T {
      match this
      case Some(v) => v
      case None => default
    }
  }

  /** The closed set of transaction categories. */
  datatype Category =
    | Food
    | Transport
    | Entertainment
    | Utilities
    | Shopping
    | Health
    | Income
    | Other

  /** Every category, in the order the application lists them. */
  const Categories: seq<Category> :=
    [Food, Transport, Entertainment, Utilities, Shopping, Health, Income, Other]

  /** No category is listed twice. */
  predicate NoDuplicates<T(==)>(s: seq<T>) {
    forall i, j :: 0 <= i < j < |s| ==> s[i] != s[j]
  }

  /** The category list names each of the eight categories exactly once, Income among them. */
  lemma CategoriesEnumerated()
    ensures |Categories| == 8 && NoDuplicates(Categories)
    ensures forall c: Category :: c in Categories
    ensures Income in Categories
  {
    forall c: Category ensures c in Categories {
      match c
      case Food => assert Categories[0] == c;
      case Transport => assert Categories[1] == c;
      case Entertainment => assert Categories[2] == c;
      case Utilities => assert Categories[3] == c;
      case Shopping => assert Categories[4] == c;
      case Health => assert Categories[5] == c;
      case Income => assert Categories[6] == c;
      case Other => assert Categories[7] == c;
    }
  }

  /** The direction of a transaction; the sign lives here, not in the amount. */
  datatype TxType = IncomeTx | ExpenseTx

  /** A dated money movement; `date` is an ISO `YYYY-MM-DD` string. */
  datatype Transaction = Transaction(
    id: string,
    date: string,
    description: string,
    amount: real,
    category: Category,
    kind: TxType)

  /** A spending limit for one category. */
  datatype CategoryBudget = CategoryBudget(category: Category, limit: real)

  /** A savings target and the amount saved towards it so far. */
  datatype SavingsGoal = SavingsGoal(
    id: string,
    name: string,
    targetAmount: real,
    currentAmount: real,
    icon: string)

  /** Totals over a set of transactions and the expense total per category. */
  datatype FinancialSummary = FinancialSummary(
    totalIncome: real,
    totalExpenses: real,
    balance: real,
    categoryBreakdown: map<Category, real>)
}
