/** The stable "rank first" sort used wherever the system orders rows or
    results: Python's `list.sort(key=..., reverse=True)` and the SQL
    `ORDER BY ... DESC` clauses of the memory store.

    An ordering is given as `geq(a, b)`: "`a` ranks at least as high as `b`".
    The sort puts higher-ranked elements first; elements of equal rank keep
    their input order. */
module StableSort {

  import opened Common

  /** `geq` compares every pair and is transitive. */
  ghost predicate TotalPreorder<T(!new)>(geq: (T, T) -> bool) {
    && (forall a, b :: geq(a, b) || geq(b, a))
    && (forall a, b, c :: geq(a, b) && geq(b, c) ==> geq(a, c))
  }

  /** Every element ranks at least as high as every later one. */
  ghost predicate Sorted<T>(s: seq<T>, geq: (T, T) -> bool) {
    forall i, j :: 0 <= i < j < |s| ==> geq(s[i], s[j])
  }

  /** `a` and `b` have the same rank. */
  predicate SameRank<T>(geq: (T, T) -> bool, a: T, b: T) {
    geq(a, b) && geq(b, a)
  }

  /** The elements of `s` that have the same rank as `x`, in the order of `s`. */
  function Tier<T>(s: seq<T>, geq: (T, T) -> bool, x: T): seq<T> {
    Filter(s, y => SameRank(geq, x, y))
  }

  /** Inserts `x` in front of the first element it ranks at least as high as. */
  function Insert<T>(x: T, s: seq<T>, geq: (T, T) -> bool): (r: seq<T>)
    ensures multiset(r) == multiset(s) + multiset{x}
    ensures |r| == |s| + 1
  {
    if s == [] then [x]
    else if geq(x, s[0]) then [x] + s
    else
      assert s == [s[0]] + s[1..];
      [s[0]] + Insert(x, s[1..], geq)
  }

  /** Stable insertion sort, highest rank first. */
  function Sort<T>(s: seq<T>, geq: (T, T) -> bool): (r: seq<T>)
    ensures multiset(r) == multiset(s)
    ensures |r| == |s|
  {
    if s == [] then []
    else
      assert s == [s[0]] + s[1..];
      Insert(s[0], Sort(s[1..], geq), geq)
  }

  /** `b` ranks at least as high as every element of `s`. */
  ghost predicate AllBelow<T>(b: T, s: seq<T>, geq: (T, T) -> bool) {
    forall i :: 0 <= i < |s| ==> geq(b, s[i])
  }

  lemma {:induction false} InsertBelow<T>(b: T, x: T, s: seq<T>, geq: (T, T) -> bool)
    requires AllBelow(b, s, geq) && geq(b, x)
    ensures AllBelow(b, Insert(x, s, geq), geq)
    decreases |s|
  {
    if s == [] {
      assert Insert(x, s, geq) == [x];
    } else if geq(x, s[0]) {
      assert Insert(x, s, geq) == [x] + s;
    } else {
      InsertBelow(b, x, s[1..], geq);
      assert Insert(x, s, geq) == [s[0]] + Insert(x, s[1..], geq);
    }
  }

  lemma ConsSorted<T>(b: T, s: seq<T>, geq: (T, T) -> bool)
    requires Sorted(s, geq) && AllBelow(b, s, geq)
    ensures Sorted([b] + s, geq)
  {
    var r := [b] + s;
    forall i, j | 0 <= i < j < |r| ensures geq(r[i], r[j]) {
      if i == 0 {
        assert r[j] == s[j - 1];
      } else {
        assert r[i] == s[i - 1] && r[j] == s[j - 1];
      }
    }
  }

  lemma {:induction false} InsertSorted<T(!new)>(x: T, s: seq<T>, geq: (T, T) -> bool)
    requires TotalPreorder(geq) && Sorted(s, geq)
    ensures Sorted(Insert(x, s, geq), geq)
    decreases |s|
  {
    if s == [] {
    } else if geq(x, s[0]) {
      forall i | 0 <= i < |s| ensures geq(x, s[i]) {
        if i > 0 {
          assert geq(s[0], s[i]);
        }
      }
      assert Insert(x, s, geq) == [x] + s;
      ConsSorted(x, s, geq);
    } else {
      InsertSorted(x, s[1..], geq);
      assert geq(s[0], x);
      assert AllBelow(s[0], s[1..], geq) by {
        forall i | 0 <= i < |s[1..]| ensures geq(s[0], s[1..][i]) {
          assert s[1..][i] == s[i + 1];
        }
      }
      InsertBelow(s[0], x, s[1..], geq);
      assert Insert(x, s, geq) == [s[0]] + Insert(x, s[1..], geq);
      ConsSorted(s[0], Insert(x, s[1..], geq), geq);
    }
  }

  /** The sort's output is ordered highest rank first. */
  lemma {:induction false} SortSorted<T(!new)>(s: seq<T>, geq: (T, T) -> bool)
    requires TotalPreorder(geq)
    ensures Sorted(Sort(s, geq), geq)
    decreases |s|
  {
    if s != [] {
      SortSorted(s[1..], geq);
      InsertSorted(s[0], Sort(s[1..], geq), geq);
    }
  }

  lemma TierAppend<T>(a: seq<T>, b: seq<T>, geq: (T, T) -> bool, y: T)
    ensures Tier(a + b, geq, y) == Tier(a, geq, y) + Tier(b, geq, y)
  {
    FilterAppend(a, b, y' => SameRank(geq, y, y'));
  }

  /** Inserting `x` adds `x` at the front of its own tier and leaves every
      other tier alone. */
  lemma {:induction false} InsertTier<T(!new)>(x: T, s: seq<T>, geq: (T, T) -> bool, y: T)
    requires TotalPreorder(geq)
    ensures Tier(Insert(x, s, geq), geq, y)
         == (if SameRank(geq, y, x) then [x] else []) + Tier(s, geq, y)
    decreases |s|
  {
    if s == [] {
      assert Insert(x, s, geq) == [x] + [];
      TierAppend([x], [], geq, y);
    } else if geq(x, s[0]) {
      assert Insert(x, s, geq) == [x] + s;
      TierAppend([x], s, geq, y);
    } else {
      InsertTier(x, s[1..], geq, y);
      assert Insert(x, s, geq) == [s[0]] + Insert(x, s[1..], geq);
      TierAppend([s[0]], Insert(x, s[1..], geq), geq, y);
      TierAppend([s[0]], s[1..], geq, y);
      assert s == [s[0]] + s[1..];
      // x ranks strictly below s[0], so they cannot share y's tier.
      assert SameRank(geq, y, x) ==> !SameRank(geq, y, s[0]);
    }
  }

  /** Stability: elements of equal rank come out in the order they went in. */
  lemma {:induction false} SortStable<T(!new)>(s: seq<T>, geq: (T, T) -> bool, y: T)
    requires TotalPreorder(geq)
    ensures Tier(Sort(s, geq), geq, y) == Tier(s, geq, y)
    decreases |s|
  {
    if s != [] {
      SortStable(s[1..], geq, y);
      InsertTier(s[0], Sort(s[1..], geq), geq, y);
      assert s == [s[0]] + s[1..];
      TierAppend([s[0]], s[1..], geq, y);
    }
  }

  /** Keeping the first `n` of the sorted elements keeps the highest-ranked
      ones: nothing left out ranks above anything kept. */
  lemma TakeSortedIsTop<T(!new)>(s: seq<T>, geq: (T, T) -> bool, n: int)
    requires TotalPreorder(geq)
    ensures forall d | d in Take(Sort(s, geq), n) :: d in s
    ensures Sorted(Take(Sort(s, geq), n), geq)
    ensures forall e, d | e in s && e !in Take(Sort(s, geq), n) && d in Take(Sort(s, geq), n) :: geq(d, e)
  {
    var t := Sort(s, geq);
    var r := Take(t, n);
    SortSorted(s, geq);
    assert forall j :: 0 <= j < |r| ==> r[j] == t[j];
    forall d | d in r ensures d in s {
      assert d in multiset(t);
    }
    forall e, d | e in s && e !in r && d in r ensures geq(d, e) {
      assert e in multiset(t);
      var k :| 0 <= k < |t| && t[k] == e;
      var i :| 0 <= i < |r| && r[i] == d;
      assert forall j :: 0 <= j < |r| ==> r[j] == t[j];
      assert k >= |r|;
      assert t[i] == d;
    }
  }

  /** A prefix keeps a prefix of every tier. */
  lemma TierOfTake<T>(s: seq<T>, geq: (T, T) -> bool, n: int, y: T)
    ensures Tier(Take(s, n), geq, y) <= Tier(s, geq, y)
  {
    var r := Take(s, n);
    assert s == r + s[|r|..];
    TierAppend(r, s[|r|..], geq, y);
  }

  /** No two elements of `s` share a key. */
  ghost predicate DistinctBy<T, K>(s: seq<T>, key: T -> K) {
    forall i, j :: 0 <= i < j < |s| ==> key(s[i]) != key(s[j])
  }

  /** No element of `s` has the key `k`. */
  ghost predicate KeyAbsent<T, K>(k: K, s: seq<T>, key: T -> K) {
    forall i :: 0 <= i < |s| ==> key(s[i]) != k
  }

  lemma {:induction false} InsertKeyAbsent<T, K>(k: K, x: T, s: seq<T>, geq: (T, T) -> bool, key: T -> K)
    requires KeyAbsent(k, s, key) && key(x) != k
    ensures KeyAbsent(k, Insert(x, s, geq), key)
    decreases |s|
  {
    if s == [] {
      assert Insert(x, s, geq) == [x];
    } else if geq(x, s[0]) {
      assert Insert(x, s, geq) == [x] + s;
    } else {
      InsertKeyAbsent(k, x, s[1..], geq, key);
      assert Insert(x, s, geq) == [s[0]] + Insert(x, s[1..], geq);
    }
  }

  lemma ConsDistinct<T, K>(b: T, s: seq<T>, key: T -> K)
    requires DistinctBy(s, key) && KeyAbsent(key(b), s, key)
    ensures DistinctBy([b] + s, key)
  {
    var r := [b] + s;
    forall i, j | 0 <= i < j < |r| ensures key(r[i]) != key(r[j]) {
      if i == 0 {
        assert r[j] == s[j - 1];
      } else {
        assert r[i] == s[i - 1] && r[j] == s[j - 1];
      }
    }
  }

  /** The suffix of a sequence with distinct keys does not hold the key of its head. */
  lemma DistinctHead<T, K>(s: seq<T>, key: T -> K)
    requires s != [] && DistinctBy(s, key)
    ensures DistinctBy(s[1..], key) && KeyAbsent(key(s[0]), s[1..], key)
  {
    forall i | 0 <= i < |s[1..]| ensures key(s[1..][i]) != key(s[0]) {
      assert s[1..][i] == s[i + 1];
    }
    forall i, j | 0 <= i < j < |s[1..]| ensures key(s[1..][i]) != key(s[1..][j]) {
      assert s[1..][i] == s[i + 1] && s[1..][j] == s[j + 1];
    }
  }

  lemma {:induction false} InsertDistinct<T, K>(x: T, s: seq<T>, geq: (T, T) -> bool, key: T -> K)
    requires DistinctBy(s, key) && KeyAbsent(key(x), s, key)
    ensures DistinctBy(Insert(x, s, geq), key)
    decreases |s|
  {
    if s == [] {
      assert Insert(x, s, geq) == [x];
    } else if geq(x, s[0]) {
      assert Insert(x, s, geq) == [x] + s;
      ConsDistinct(x, s, key);
    } else {
      DistinctHead(s, key);
      assert KeyAbsent(key(x), s[1..], key) by {
        forall i | 0 <= i < |s[1..]| ensures key(s[1..][i]) != key(x) {
          assert s[1..][i] == s[i + 1];
        }
      }
      InsertDistinct(x, s[1..], geq, key);
      assert key(x) != key(s[0]);
      InsertKeyAbsent(key(s[0]), x, s[1..], geq, key);
      assert Insert(x, s, geq) == [s[0]] + Insert(x, s[1..], geq);
      ConsDistinct(s[0], Insert(x, s[1..], geq), key);
    }
  }

  /** Sorting keeps keys that were pairwise distinct pairwise distinct. */
  lemma {:induction false} SortDistinct<T, K>(s: seq<T>, geq: (T, T) -> bool, key: T -> K)
    requires DistinctBy(s, key)
    ensures DistinctBy(Sort(s, geq), key)
    decreases |s|
  {
    if s != [] {
      DistinctHead(s, key);
      SortDistinct(s[1..], geq, key);
      var sorted := Sort(s[1..], geq);
      forall i | 0 <= i < |sorted| ensures key(sorted[i]) != key(s[0]) {
        assert sorted[i] in multiset(s[1..]);
        var k :| 0 <= k < |s[1..]| && s[1..][k] == sorted[i];
      }
      InsertDistinct(s[0], sorted, geq, key);
    }
  }
}
