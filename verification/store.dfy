/**
 * The record store: the three collections the application holds and the
 * operations that replace them. Each operation computes the new collection
 * from the previous one and leaves the other two alone.
 */
module Store {
  import opened Types
  import opened Ledger
  import opened Budgets
  import opened Goals
  import opened InitialData

  class RecordStore {
    var transactions: seq<Transaction>
    var budgets: seq<CategoryBudget>
    var goals: seq<SavingsGoal>

    /**
     * Startup: each collection is the saved one when there is one, and the
     * starting data otherwise. Reading and decoding storage is not modelled;
     * its outcome is the argument.
     */
    constructor (savedTransactions: Option<seq<Transaction>>,
                 savedBudgets: Option<seq<CategoryBudget>>,
                 savedGoals: Option<seq<SavingsGoal>>)
      ensures transactions == savedTransactions.GetOr(InitialTransactions)
      ensures budgets == savedBudgets.GetOr(InitialBudgets)
      ensures goals == savedGoals.GetOr(InitialGoals)
    {
      transactions := savedTransactions.GetOr(InitialTransactions);
      budgets := savedBudgets.GetOr(InitialBudgets);
      goals := savedGoals.GetOr(InitialGoals);
    }

    /** The new transaction goes in front of the history. */
    method AddTransaction(t: Transaction)
      modifies this
      ensures transactions == [t] + old(transactions)
      ensures budgets == old(budgets) && goals == old(goals)
    {
      transactions := [t] + transactions;
    }

    /** Every entry with id `id` goes; the rest stay, in order. An unknown id changes nothing. */
    method DeleteTransaction(id: string)
      modifies this
      ensures transactions == WithoutId(old(transactions), id)
      ensures forall t :: t in transactions <==> t in old(transactions) && t.id != id
      ensures IdAbsent(old(transactions), id) ==> transactions == old(transactions)
      ensures budgets == old(budgets) && goals == old(goals)
    {
      if IdAbsent(transactions, id) {
        DeleteAbsentIsNoOp(transactions, id);
      }
      transactions := WithoutId(transactions, id);
    }

    /** Upsert keyed on category. */
    method UpdateBudget(cat: Category, limit: real)
      modifies this
      ensures budgets == Upsert(old(budgets), cat, limit)
      ensures LimitFor(budgets, cat) == limit
      ensures forall c :: c != cat ==> FindBudget(budgets, c) == FindBudget(old(budgets), c)
      ensures |budgets| == |old(budgets)| + (if FindBudget(old(budgets), cat).Some? then 0 else 1)
      ensures UniqueCategories(old(budgets)) ==> UniqueCategories(budgets)
      ensures transactions == old(transactions) && goals == old(goals)
    {
      UpsertSetsLimit(budgets, cat, limit);
      UpsertLeavesOtherCategories(budgets, cat, limit);
      budgets := Upsert(budgets, cat, limit);
    }

    /** Replaces the saved amount of the goals with id `id`; everything else stays. */
    method UpdateGoal(id: string, currentAmount: real)
      modifies this
      ensures goals == SetCurrentAmount(old(goals), id, currentAmount)
      ensures |goals| == |old(goals)|
      ensures forall i :: 0 <= i < |goals| ==>
                goals[i] == if old(goals)[i].id == id then old(goals)[i].(currentAmount := currentAmount)
                            else old(goals)[i]
      ensures transactions == old(transactions) && budgets == old(budgets)
    {
      goals := SetCurrentAmount(goals, id, currentAmount);
    }

    /** The new goal goes at the end. */
    method AddGoal(g: SavingsGoal)
      modifies this
      ensures goals == old(goals) + [g]
      ensures transactions == old(transactions) && budgets == old(budgets)
    {
      goals := goals + [g];
    }

    /**
     * Submitting the entry form: with a description and an amount the new
     * transaction, carrying the generated `id` and today's `date`, goes in
     * front; otherwise nothing changes.
     */
    method SubmitTransaction(id: string, date: string, description: string, amount: Option<real>,
                             category: Category, kind: TxType)
      modifies this
      ensures description != [] && amount.Some? ==>
                transactions == [Transaction(id, date, description, amount.value, category, kind)]
                                + old(transactions)
      ensures description == [] || amount.None? ==> transactions == old(transactions)
      ensures budgets == old(budgets) && goals == old(goals)
    {
      var entry := NewTransaction(id, date, description, amount, category, kind);
      if entry.Some? {
        AddTransaction(entry.value);
      }
    }

    /** Typing into a budget field: input that does not parse sets the limit to 0. */
    method SetBudgetFromInput(cat: Category, parsed: Option<real>)
      modifies this
      ensures budgets == Upsert(old(budgets), cat, LimitFromInput(parsed))
      ensures LimitFor(budgets, cat) == parsed.GetOr(0.0)
      ensures transactions == old(transactions) && goals == old(goals)
    {
      UpdateBudget(cat, LimitFromInput(parsed));
    }

    /**
     * A contribution typed into the card of `g`: its id gets the card's saved
     * amount plus the parsed input, with input that does not parse adding 0.
     */
    method AddSavings(g: SavingsGoal, parsed: Option<real>)
      modifies this
      ensures goals == SetCurrentAmount(old(goals), g.id, g.currentAmount + parsed.GetOr(0.0))
      ensures transactions == old(transactions) && budgets == old(budgets)
    {
      UpdateGoal(g.id, Contributed(g.currentAmount, parsed));
    }
  }

  /** A client of the store: a transaction added with a fresh id and deleted again leaves no trace. */
  method AddThenDelete(store: RecordStore, t: Transaction)
    requires IdAbsent(store.transactions, t.id)
    modifies store
    ensures store.transactions == old(store.transactions)
    ensures store.budgets == old(store.budgets) && store.goals == old(store.goals)
  {
    store.AddTransaction(t);
    store.DeleteTransaction(t.id);
    AddThenDeleteRestores(old(store.transactions), t);
  }
}
