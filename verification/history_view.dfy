/**
 * The history view sorts the stored history in place, with the comparator
 * of the recent list. These lemmas show that this sort, and adds and deletes
 * made after it, leave the recent list as it would be without it.
 */
module HistoryView {
  import opened Types
  import opened Dates
  import opened Ledger
  import opened Recent

  /**
   * A history already latest first is left as it is, so sorting
   * twice is sorting once.
   */
  lemma {:induction false} SortedIsFixed(s: seq<Transaction>)
    requires LatestFirst(s)
    ensures SortLatestFirst(s) == s
  {
    if s != [] {
      SortedIsFixed(s[1..]);
      assert s == [s[0]] + s[1..];
    }
  }

  lemma SortIdempotent(ts: seq<Transaction>)
    ensures SortLatestFirst(SortLatestFirst(ts)) == SortLatestFirst(ts)
  {
    SortCorrect(ts);
    SortedIsFixed(SortLatestFirst(ts));
  }

  /**
   * A transaction added in front of an in-place-sorted history sorts, and so
   * shows in the recent list, as if the history had never been sorted.
   */
  lemma AddAfterSortKeepsRecent(t: Transaction, ts: seq<Transaction>)
    ensures SortLatestFirst([t] + SortLatestFirst(ts)) == SortLatestFirst([t] + ts)
    ensures RecentOf([t] + SortLatestFirst(ts)) == RecentOf([t] + ts)
  {
    assert ([t] + SortLatestFirst(ts))[1..] == SortLatestFirst(ts);
    assert ([t] + ts)[1..] == ts;
    SortIdempotent(ts);
  }

  /** Deleting from a latest-first list commutes with inserting into it. */
  lemma {:induction false} InsertWithoutId(t: Transaction, s: seq<Transaction>, id: string)
    requires LatestFirst(s)
    ensures WithoutId(Insert(t, s), id) == if t.id == id then WithoutId(s, id) else Insert(t, WithoutId(s, id))
  {
    if s == [] {
      return;
    }
    if NotAfter(s[0].date, t.date) {
      assert ([t] + s)[1..] == s;
      var w := WithoutId(s, id);
      if w != [] {
        assert w[0] in s;
        var j :| 0 <= j < |s| && s[j] == w[0];
        if j > 0 {
          NotAfterTransitive(w[0].date, s[0].date, t.date);
        }
      }
    } else {
      var rest := Insert(t, s[1..]);
      assert ([s[0]] + rest)[1..] == rest;
      InsertWithoutId(t, s[1..], id);
      if s[0].id != id && t.id != id {
        var w := WithoutId(s[1..], id);
        assert ([s[0]] + w)[1..] == w;
      }
    }
  }

  /**
   * Deleting after the in-place sort and then sorting gives what deleting from
   * the unsorted history and sorting gives, so the recent list is the same.
   */
  lemma {:induction false} DeleteAfterSort(ts: seq<Transaction>, id: string)
    ensures WithoutId(SortLatestFirst(ts), id) == SortLatestFirst(WithoutId(ts, id))
    ensures RecentOf(WithoutId(SortLatestFirst(ts), id)) == RecentOf(WithoutId(ts, id))
  {
    if ts != [] {
      DeleteAfterSort(ts[1..], id);
      SortCorrect(ts[1..]);
      InsertWithoutId(ts[0], SortLatestFirst(ts[1..]), id);
      if ts[0].id != id {
        var w := WithoutId(ts[1..], id);
        assert ([ts[0]] + w)[1..] == w;
      }
    }
    SortCorrect(WithoutId(ts, id));
    SortedIsFixed(SortLatestFirst(WithoutId(ts, id)));
  }
}
