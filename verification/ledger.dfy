/**
 * Deleting from the transaction list, as a value: every entry with another
 * id is kept, in order.
 * Also the entry form's check before a transaction is created.
 */
module Ledger {
  import opened Types

  /** The entries whose id differs from `id`, in their original order. */
  function WithoutId(ts: seq<Transaction>, id: string): (r: seq<Transaction>)
    ensures forall t :: t in r <==> t in ts && t.id != id
    ensures |r| <= |ts|
  {
    if ts == [] then []
    else if ts[0].id != id then [ts[0]] + WithoutId(ts[1..], id)
    else WithoutId(ts[1..], id)
  }

  predicate IdAbsent(ts: seq<Transaction>, id: string) {
    forall t :: t in ts ==> t.id != id
  }

  /** Deleting distributes over a split history, so the survivors keep their order. */
  lemma {:induction false} WithoutIdAppend(a: seq<Transaction>, b: seq<Transaction>, id: string)
    ensures WithoutId(a + b, id) == WithoutId(a, id) + WithoutId(b, id)
  {
    if a == [] {
      assert a + b == b;
    } else {
      assert (a + b)[1..] == a[1..] + b;
      WithoutIdAppend(a[1..], b, id);
    }
  }

  /** Every entry with another id survives as often as it occurred; none with `id` does. */
  lemma {:induction false} WithoutIdCounts(ts: seq<Transaction>, id: string)
    ensures forall t :: multiset(WithoutId(ts, id))[t] == if t.id == id then 0 else multiset(ts)[t]
  {
    if ts != [] {
      WithoutIdCounts(ts[1..], id);
      assert ts == [ts[0]] + ts[1..];
    }
  }

  /** Deleting an id that no entry has changes nothing. */
  lemma {:induction false} DeleteAbsentIsNoOp(ts: seq<Transaction>, id: string)
    requires IdAbsent(ts, id)
    ensures WithoutId(ts, id) == ts
  {
    if ts != [] {
      assert ts[0] in ts;
      DeleteAbsentIsNoOp(ts[1..], id);
      assert ts == [ts[0]] + ts[1..];
    }
  }

  /** Deleting twice is deleting once. */
  lemma DeleteIdempotent(ts: seq<Transaction>, id: string)
    ensures WithoutId(WithoutId(ts, id), id) == WithoutId(ts, id)
  {
    DeleteAbsentIsNoOp(WithoutId(ts, id), id);
  }

  /** Adding a transaction whose id is fresh and then deleting that id restores the history. */
  lemma AddThenDeleteRestores(ts: seq<Transaction>, t: Transaction)
    requires IdAbsent(ts, t.id)
    ensures WithoutId([t] + ts, t.id) == ts
  {
    assert ([t] + ts)[1..] == ts;
    DeleteAbsentIsNoOp(ts, t.id);
  }

  /**
   * The entry form: nothing is created while the description or the amount
   * field is empty; otherwise the transaction carries the generated id, the
   * given date and the form's values. `amount` is None for an empty field.
   */
  function NewTransaction(id: string, date: string, description: string, amount: Option<real>,
                          category: Category, kind: TxType): (r: Option<Transaction>)
    ensures r.Some? <==> description != [] && amount.Some?
    ensures r.Some? ==> r.value.id == id && r.value.date == date && r.value.amount == amount.value
    ensures r.Some? ==> r.value.description == description && r.value.category == category
                        && r.value.kind == kind
  {
    if description == [] || amount.None? then None
    else Some(Transaction(id, date, description, amount.value, category, kind))
  }
}
