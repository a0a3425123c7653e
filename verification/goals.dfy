/**
 * Savings goals: the update of a goal's saved amount, a contribution typed
 * into a goal card, and the progress and completion the card shows.
 */
module Goals {
  import opened Types
  import opened InitialData

  /**
   * Every goal with id `id` gets `amount` as its saved amount; nothing else
   * about any goal changes.
   */
  function SetCurrentAmount(gs: seq<SavingsGoal>, id: string, amount: real): (r: seq<SavingsGoal>)
    ensures |r| == |gs|
    ensures forall i :: 0 <= i < |gs| ==>
              && r[i].id == gs[i].id && r[i].name == gs[i].name
              && r[i].targetAmount == gs[i].targetAmount && r[i].icon == gs[i].icon
    ensures forall i :: 0 <= i < |gs| ==>
              r[i].currentAmount == if gs[i].id == id then amount else gs[i].currentAmount
  {
    if gs == [] then []
    else
      var g := if gs[0].id == id then gs[0].(currentAmount := amount) else gs[0];
      [g] + SetCurrentAmount(gs[1..], id, amount)
  }

  /** Setting an id no goal has changes nothing. */
  lemma SetAbsentIdIsNoOp(gs: seq<SavingsGoal>, id: string, amount: real)
    requires forall g :: g in gs ==> g.id != id
    ensures SetCurrentAmount(gs, id, amount) == gs
  {
    var r := SetCurrentAmount(gs, id, amount);
    forall i | 0 <= i < |gs| ensures r[i] == gs[i] {
      assert gs[i] in gs;
    }
  }

  /** A second update of the same goal overrides the first. */
  lemma LastUpdateWins(gs: seq<SavingsGoal>, id: string, a: real, b: real)
    ensures SetCurrentAmount(SetCurrentAmount(gs, id, a), id, b) == SetCurrentAmount(gs, id, b)
  {
  }

  /**
   * The saved amount after a contribution: the parsed input is added, and
   * input that does not parse adds 0.
   */
  function Contributed(current: real, parsed: Option<real>): (r: real)
    ensures parsed.None? ==> r == current
    ensures parsed.Some? ==> r - current == parsed.value
  {
    current + parsed.GetOr(0.0)
  }

  predicate IsCompleted(g: SavingsGoal) {
    g.currentAmount >= g.targetAmount
  }

  /**
   * Progress in percent, not capped (over-saving shows above 100). A zero
   * target divides by zero, which gives no finite number: None.
   */
  function Progress(g: SavingsGoal): (r: Option<real>)
    ensures r.Some? <==> g.targetAmount != 0.0
    ensures r.Some? ==> r.value * g.targetAmount == g.currentAmount * 100.0
  {
    if g.targetAmount == 0.0 then None
    else Some(g.currentAmount / g.targetAmount * 100.0)
  }

  /** The progress bar's width: the progress capped at 100. */
  function BarWidth(g: SavingsGoal): (r: Option<real>)
    ensures r.Some? <==> g.targetAmount != 0.0
    ensures r.Some? ==> r.value <= 100.0
    ensures r.Some? && Progress(g).value < 100.0 ==> r == Progress(g)
    ensures r.Some? && Progress(g).value >= 100.0 ==> r.value == 100.0
  {
    match Progress(g)
    case None => None
    case Some(p) => Some(if p < 100.0 then p else 100.0)
  }

  /**
   * With a positive target, a goal is completed exactly when its progress
   * reaches 100, which is exactly when its bar is full; a goal with nothing
   * saved (or more) shows non-negative progress.
   */
  lemma ProgressMatchesCompletion(g: SavingsGoal)
    requires g.targetAmount > 0.0
    ensures Progress(g).Some?
    ensures IsCompleted(g) <==> Progress(g).value >= 100.0
    ensures IsCompleted(g) <==> BarWidth(g).value == 100.0
    ensures g.currentAmount >= 0.0 ==> Progress(g).value >= 0.0
  {
    var p := Progress(g).value;
    assert p * g.targetAmount == g.currentAmount * 100.0;
    if IsCompleted(g) {
      assert p * g.targetAmount >= g.targetAmount * 100.0;
    } else {
      assert p * g.targetAmount < g.targetAmount * 100.0;
    }
  }

  /** A contribution that covers what is missing completes the goal. */
  lemma ContributionCompletes(g: SavingsGoal, value: real)
    requires value >= g.targetAmount - g.currentAmount
    ensures IsCompleted(g.(currentAmount := Contributed(g.currentAmount, Some(value))))
  {
  }

  /** The worked example: 300000 of 1200000 is 25%; adding 900000 completes the goal. */
  lemma LaptopExample()
    ensures Progress(InitialGoals[1]) == Some(25.0)
    ensures !IsCompleted(InitialGoals[1])
    ensures Contributed(InitialGoals[1].currentAmount, Some(900000.0)) == InitialGoals[1].targetAmount
    ensures IsCompleted(InitialGoals[1].(currentAmount := Contributed(InitialGoals[1].currentAmount, Some(900000.0))))
  {
  }
}
