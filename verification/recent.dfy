/**
 * The dashboard's recent-activity list: a copy of the history sorted by
 * date, latest first, cut to its first five entries. The sort is stable
 * (transactions of the same date keep their relative order), as the
 * JavaScript array sort is.
 */
module Recent {
  import opened Types
  import opened Dates

  /** How many transactions the recent list shows. */
  const RecentCount: nat := 5

  /** Later dates first: no entry is dated after one before it. */
  predicate LatestFirst(s: seq<Transaction>) {
    forall i, j :: 0 <= i < j < |s| ==> NotAfter(s[j].date, s[i].date)
  }

  /**
   * Puts `t` in front of the first entry of `s` that is not strictly later
   * than it, so it goes before entries of its own date.
   */
  function Insert(t: Transaction, s: seq<Transaction>): (r: seq<Transaction>)
    ensures |r| == |s| + 1
  {
    if s == [] || NotAfter(s[0].date, t.date) then [t] + s
    else [s[0]] + Insert(t, s[1..])
  }

  /** The comparator-driven sort of a copy of the history, latest date first. */
  function SortLatestFirst(ts: seq<Transaction>): (r: seq<Transaction>)
    ensures |r| == |ts|
  {
    if ts == [] then [] else Insert(ts[0], SortLatestFirst(ts[1..]))
  }

  function Min(a: int, b: int): int {
    if a < b then a else b
  }

  /** The first five of the sorted copy; the history itself is a value and stays as it was. */
  function RecentOf(ts: seq<Transaction>): seq<Transaction> {
    SortLatestFirst(ts)[..Min(RecentCount, |ts|)]
  }

  lemma {:induction false} InsertKeepsEntries(t: Transaction, s: seq<Transaction>)
    ensures multiset(Insert(t, s)) == multiset(s) + multiset{t}
  {
    if s != [] && !NotAfter(s[0].date, t.date) {
      InsertKeepsEntries(t, s[1..]);
      assert s == [s[0]] + s[1..];
    }
  }

  lemma {:induction false} InsertKeepsOrder(t: Transaction, s: seq<Transaction>)
    requires LatestFirst(s)
    ensures LatestFirst(Insert(t, s))
  {
    if s == [] || NotAfter(s[0].date, t.date) {
      forall j | 0 < j < |[t] + s| ensures NotAfter(([t] + s)[j].date, t.date) {
        if j > 1 {
          NotAfterTransitive(s[j - 1].date, s[0].date, t.date);
        }
      }
    } else {
      NotAfterTotal(s[0].date, t.date);
      InsertKeepsOrder(t, s[1..]);
      InsertKeepsEntries(t, s[1..]);
      var r := Insert(t, s[1..]);
      forall j | 0 <= j < |r| ensures NotAfter(r[j].date, s[0].date) {
        assert r[j] in multiset(r);
        if r[j] != t {
          assert r[j] in s[1..];
          var k :| 0 <= k < |s[1..]| && s[1..][k] == r[j];
          assert s[k + 1] == r[j];
        }
      }
    }
  }

  /** The sorted copy holds the same transactions, latest first. */
  lemma {:induction false} SortCorrect(ts: seq<Transaction>)
    ensures multiset(SortLatestFirst(ts)) == multiset(ts)
    ensures LatestFirst(SortLatestFirst(ts))
  {
    if ts != [] {
      SortCorrect(ts[1..]);
      InsertKeepsEntries(ts[0], SortLatestFirst(ts[1..]));
      InsertKeepsOrder(ts[0], SortLatestFirst(ts[1..]));
      assert ts == [ts[0]] + ts[1..];
    }
  }

  /** The transactions of `s` dated `d`, in their order in `s`. */
  function DatedOn(s: seq<Transaction>, d: string): seq<Transaction> {
    if s == [] then []
    else if s[0].date == d then [s[0]] + DatedOn(s[1..], d)
    else DatedOn(s[1..], d)
  }

  lemma {:induction false} InsertIsStable(t: Transaction, s: seq<Transaction>, d: string)
    ensures DatedOn(Insert(t, s), d) == if t.date == d then [t] + DatedOn(s, d) else DatedOn(s, d)
  {
    if s == [] || NotAfter(s[0].date, t.date) {
      assert ([t] + s)[1..] == s;
    } else {
      InsertIsStable(t, s[1..], d);
      if s[0].date == t.date {
        NotAfterReflexive(t.date);
      }
      assert ([s[0]] + Insert(t, s[1..]))[1..] == Insert(t, s[1..]);
    }
  }

  /** Stability: for each date, its transactions appear in the sorted copy in history order. */
  lemma {:induction false} SortIsStable(ts: seq<Transaction>, d: string)
    ensures DatedOn(SortLatestFirst(ts), d) == DatedOn(ts, d)
  {
    if ts != [] {
      SortIsStable(ts[1..], d);
      InsertIsStable(ts[0], SortLatestFirst(ts[1..]), d);
    }
  }

  /**
   * The recent list has min(5, |history|) entries, latest first, each taken
   * from the history, and no transaction left out is dated after one shown.
   */
  lemma RecentCorrect(ts: seq<Transaction>)
    ensures |RecentOf(ts)| == Min(RecentCount, |ts|)
    ensures LatestFirst(RecentOf(ts))
    ensures multiset(RecentOf(ts)) <= multiset(ts)
    ensures forall x, y :: x in multiset(ts) - multiset(RecentOf(ts)) && y in RecentOf(ts)
                           ==> NotAfter(x.date, y.date)
  {
    var sorted := SortLatestFirst(ts);
    SortCorrect(ts);
    assert |sorted| == |multiset(sorted)| == |ts|;
    var k := Min(RecentCount, |ts|);
    var r := sorted[..k];
    assert sorted == r + sorted[k..];
    assert multiset(ts) == multiset(r) + multiset(sorted[k..]);
    forall x, y | x in multiset(ts) - multiset(r) && y in r
      ensures NotAfter(x.date, y.date)
    {
      assert x in sorted[k..];
      var j :| 0 <= j < |sorted[k..]| && sorted[k..][j] == x;
      var i :| 0 <= i < k && r[i] == y;
      assert sorted[k + j] == x && sorted[i] == y;
    }
  }
}
