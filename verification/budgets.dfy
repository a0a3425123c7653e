/**
 * Category budgets: the upsert keyed on category, the lookup the budget
 * view does, and the utilisation shown for each non-Income category.
 */
module Budgets {
  import opened Types
  import opened Totals
  import opened Spending

  /** The first budget for `cat`, as an array `find` returns it. */
  function FindBudget(bs: seq<CategoryBudget>, cat: Category): (r: Option<CategoryBudget>)
    ensures r.Some? ==> r.value in bs && r.value.category == cat
    ensures r.Some? ==> exists i :: 0 <= i < |bs| && bs[i] == r.value && forall j :: 0 <= j < i ==> bs[j].category != cat
    ensures r.None? <==> forall b :: b in bs ==> b.category != cat
  {
    if bs == [] then None
    else if bs[0].category == cat then Some(bs[0])
    else FindBudget(bs[1..], cat)
  }

  /** The limit shown for `cat`: that of its first budget, 0 when it has none. */
  function LimitFor(bs: seq<CategoryBudget>, cat: Category): real {
    match FindBudget(bs, cat)
    case Some(b) => b.limit
    case None => 0.0
  }

  /** Every budget of `cat` with its limit replaced by `limit`, the others untouched. */
  function SetLimit(bs: seq<CategoryBudget>, cat: Category, limit: real): (r: seq<CategoryBudget>)
    ensures |r| == |bs|
    ensures forall i :: 0 <= i < |bs| ==> r[i].category == bs[i].category
    ensures forall i :: 0 <= i < |bs| ==> r[i].limit == if bs[i].category == cat then limit else bs[i].limit
  {
    if bs == [] then []
    else
      var b := if bs[0].category == cat then bs[0].(limit := limit) else bs[0];
      [b] + SetLimit(bs[1..], cat, limit)
  }

  /** Sets the limit of `cat` if it has a budget, and appends a new budget for it otherwise. */
  function Upsert(bs: seq<CategoryBudget>, cat: Category, limit: real): seq<CategoryBudget> {
    if FindBudget(bs, cat).Some? then SetLimit(bs, cat, limit)
    else bs + [CategoryBudget(cat, limit)]
  }

  /** At most one budget per category. */
  predicate UniqueCategories(bs: seq<CategoryBudget>) {
    forall i, j :: 0 <= i < j < |bs| ==> bs[i].category != bs[j].category
  }

  lemma {:induction false} FindAfterSetLimit(bs: seq<CategoryBudget>, cat: Category, limit: real, c: Category)
    ensures FindBudget(SetLimit(bs, cat, limit), c)
         == if c == cat && FindBudget(bs, cat).Some? then Some(CategoryBudget(cat, limit))
            else FindBudget(bs, c)
  {
    if bs != [] {
      FindAfterSetLimit(bs[1..], cat, limit, c);
    }
  }

  lemma {:induction false} FindInAppended(bs: seq<CategoryBudget>, b: CategoryBudget, c: Category)
    ensures FindBudget(bs + [b], c)
         == if FindBudget(bs, c).Some? then FindBudget(bs, c)
            else if b.category == c then Some(b) else None
  {
    if bs == [] {
      assert ([] + [b])[1..] == [];
    } else {
      assert (bs + [b])[1..] == bs[1..] + [b];
      FindInAppended(bs[1..], b, c);
    }
  }

  /**
   * After the upsert `cat` has limit `limit`, the list grew by one only if
   * `cat` had no budget, and categories that were unique stay unique.
   */
  lemma UpsertSetsLimit(bs: seq<CategoryBudget>, cat: Category, limit: real)
    ensures FindBudget(Upsert(bs, cat, limit), cat) == Some(CategoryBudget(cat, limit))
    ensures LimitFor(Upsert(bs, cat, limit), cat) == limit
    ensures |Upsert(bs, cat, limit)| == |bs| + (if FindBudget(bs, cat).Some? then 0 else 1)
    ensures UniqueCategories(bs) ==> UniqueCategories(Upsert(bs, cat, limit))
  {
    var r := Upsert(bs, cat, limit);
    if FindBudget(bs, cat).Some? {
      FindAfterSetLimit(bs, cat, limit, cat);
    } else {
      FindInAppended(bs, CategoryBudget(cat, limit), cat);
      if UniqueCategories(bs) {
        forall i, j | 0 <= i < j < |r| ensures r[i].category != r[j].category {
          if j == |bs| {
            assert bs[i] in bs;
          }
        }
      }
    }
  }

  /** The upsert of `cat` leaves the lookup of every other category as it was. */
  lemma UpsertLeavesOtherCategories(bs: seq<CategoryBudget>, cat: Category, limit: real)
    ensures forall c :: c != cat ==> FindBudget(Upsert(bs, cat, limit), c) == FindBudget(bs, c)
  {
    forall c | c != cat ensures FindBudget(Upsert(bs, cat, limit), c) == FindBudget(bs, c) {
      if FindBudget(bs, cat).Some? {
        FindAfterSetLimit(bs, cat, limit, c);
      } else {
        FindInAppended(bs, CategoryBudget(cat, limit), c);
      }
    }
  }

  /** Every budget of `cat` after the upsert carries `limit`. */
  lemma SetLimitOfUpserted(bs: seq<CategoryBudget>, cat: Category, limit: real, i: nat)
    requires i < |Upsert(bs, cat, limit)| && Upsert(bs, cat, limit)[i].category == cat
    ensures Upsert(bs, cat, limit)[i].limit == limit
  {
  }

  /** Setting the same limit twice is setting it once. */
  lemma UpsertIdempotent(bs: seq<CategoryBudget>, cat: Category, limit: real)
    ensures Upsert(Upsert(bs, cat, limit), cat, limit) == Upsert(bs, cat, limit)
  {
    UpsertSetsLimit(bs, cat, limit);
    var r := Upsert(bs, cat, limit);
    assert FindBudget(r, cat).Some?;
    var rr := SetLimit(r, cat, limit);
    forall i | 0 <= i < |r| ensures rr[i] == r[i] {
      if r[i].category == cat {
        SetLimitOfUpserted(bs, cat, limit, i);
      }
    }
  }

  /** The limit typed into a budget field: a value that does not parse counts as 0. */
  function LimitFromInput(parsed: Option<real>): (r: real)
    ensures parsed.None? ==> r == 0.0
    ensures parsed.Some? ==> r == parsed.value
  {
    parsed.GetOr(0.0)
  }

  /** What was spent in `cat` according to a breakdown; a missing key is 0. */
  function SpentFor(spending: map<Category, real>, cat: Category): real {
    if cat in spending then spending[cat] else 0.0
  }

  /**
   * The share of the limit spent, in percent, capped at 100; 0 when the
   * limit is not positive.
   */
  function Percentage(spent: real, limit: real): (r: real)
    ensures limit <= 0.0 ==> r == 0.0
    ensures spent >= 0.0 ==> 0.0 <= r <= 100.0
    ensures limit > 0.0 ==> (r == 100.0 <==> spent >= limit)
    ensures limit > 0.0 && spent < limit ==> r * limit == spent * 100.0
  {
    if limit > 0.0 then
      var share := spent / limit * 100.0;
      if share < 100.0 then share else 100.0
    else 0.0
  }

  /** Over budget: more spent than a positive limit. */
  function IsOver(spent: real, limit: real): (r: bool)
    ensures r ==> limit > 0.0 && Percentage(spent, limit) == 100.0
    ensures limit <= 0.0 ==> !r
  {
    spent > limit && limit > 0.0
  }

  datatype BudgetCard = BudgetCard(category: Category, limit: real, spent: real, percentage: real, isOver: bool)

  /** The card the budget view shows for `cat`. */
  function Card(bs: seq<CategoryBudget>, spending: map<Category, real>, cat: Category): (c: BudgetCard)
    ensures c.category == cat
    ensures FindBudget(bs, cat).Some? ==> c.limit == FindBudget(bs, cat).value.limit
    ensures FindBudget(bs, cat).None? ==> c.limit == 0.0 && c.percentage == 0.0 && !c.isOver
    ensures cat in spending ==> c.spent == spending[cat]
    ensures cat !in spending ==> c.spent == 0.0
    ensures c.percentage == Percentage(c.spent, c.limit)
    ensures c.isOver <==> c.spent > c.limit && c.limit > 0.0
    ensures c.spent >= 0.0 ==> 0.0 <= c.percentage <= 100.0
  {
    var limit := LimitFor(bs, cat);
    var spent := SpentFor(spending, cat);
    BudgetCard(cat, limit, spent, Percentage(spent, limit), IsOver(spent, limit))
  }

  /** The categories that can have a budget: every one but Income, in list order. */
  function WithoutIncome(cs: seq<Category>): (r: seq<Category>)
    ensures forall c :: c in r <==> c in cs && c != Income
  {
    if cs == [] then []
    else if cs[0] == Income then WithoutIncome(cs[1..])
    else [cs[0]] + WithoutIncome(cs[1..])
  }

  const BudgetCategories: seq<Category> := WithoutIncome(Categories)

  lemma BudgetCategoriesCorrect()
    ensures BudgetCategories == [Food, Transport, Entertainment, Utilities, Shopping, Health, Other]
    ensures forall c :: c in BudgetCategories <==> c != Income
  {
    CategoriesEnumerated();
  }

  /** One card per budget category, in list order. */
  function Cards(bs: seq<CategoryBudget>, spending: map<Category, real>, cs: seq<Category>): (r: seq<BudgetCard>)
    ensures |r| == |cs|
    ensures forall i :: 0 <= i < |cs| ==> r[i] == Card(bs, spending, cs[i])
  {
    if cs == [] then [] else [Card(bs, spending, cs[0])] + Cards(bs, spending, cs[1..])
  }

  function BudgetView(ts: seq<Transaction>, bs: seq<CategoryBudget>): seq<BudgetCard> {
    Cards(bs, Breakdown(ts), BudgetCategories)
  }

  /**
   * Each card of the budget view shows what was spent in its category, and
   * with no negative amount its bar stays between 0 and 100 percent.
   */
  lemma BudgetViewCorrect(ts: seq<Transaction>, bs: seq<CategoryBudget>, i: nat)
    requires i < |BudgetCategories|
    ensures |BudgetView(ts, bs)| == |BudgetCategories| == 7
    ensures BudgetView(ts, bs)[i].category == BudgetCategories[i] != Income
    ensures BudgetView(ts, bs)[i].spent == SpentIn(ts, BudgetCategories[i])
    ensures AmountsNonNegative(ts) ==> 0.0 <= BudgetView(ts, bs)[i].percentage <= 100.0
  {
    BudgetCategoriesCorrect();
    var cat := BudgetCategories[i];
    BreakdownCorrect(ts);
    if cat !in Breakdown(ts) {
      NothingSpentWithoutExpense(ts, cat);
    }
    if AmountsNonNegative(ts) {
      SpentNonNegative(ts, cat);
    }
  }

  /** Clearing a budget field sets its limit to 0, which is never over budget. */
  lemma ClearedFieldNeverOver(bs: seq<CategoryBudget>, spending: map<Category, real>, cat: Category)
    ensures !Card(Upsert(bs, cat, LimitFromInput(None)), spending, cat).isOver
    ensures Card(Upsert(bs, cat, LimitFromInput(None)), spending, cat).percentage == 0.0
  {
    UpsertSetsLimit(bs, cat, 0.0);
  }

  /** The worked example: the Food limit of 150000 against two amounts spent. */
  lemma FoodBudgetExample()
    ensures Percentage(45000.0, 150000.0) == 30.0 && !IsOver(45000.0, 150000.0)
    ensures Percentage(200000.0, 150000.0) == 100.0 && IsOver(200000.0, 150000.0)
  {
  }
}
