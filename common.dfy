/** Shared vocabulary of the recommendation pipeline: identifiers, the
    transaction log, the trailing time window every SQL query starts from,
    and the sequence helpers (filter, distinct, stable sort, Python slices)
    that the declarative queries are written with. */
module Common {

  type CustomerId = string
  type ArticleId = string

  datatype Option<T> = None | Some(value: T)

  datatype Result<T, E> = Ok(value: T) | Err(error: E)

  /** One line of the transaction log. `date` is a day number; `hour` is the
      purchase hour the feature queries extract from it, taken as given. */
  datatype Transaction = Transaction(customer: CustomerId, article: ArticleId, date: int, hour: nat)

  // ---------------------------------------------------------------------
  // The trailing window: `t_dat >= MAX(t_dat) - INTERVAL 'n days'`
  // ---------------------------------------------------------------------

  /** `MAX(t_dat)` over a non-empty log. */
  function MaxDate(ts: seq<Transaction>): (m: int)
    requires |ts| > 0
    ensures forall t :: t in ts ==> t.date <= m
    ensures exists t :: t in ts && t.date == m
  {
    if |ts| == 1 then ts[0].date
    else
      var rest := MaxDate(ts[1..]);
      assert forall t :: t in ts ==> t == ts[0] || t in ts[1..];
      if ts[0].date >= rest then ts[0].date else rest
  }

  /** The rows of `ts` whose date is at least `MAX(t_dat) - lookback`, in log
      order. On an empty log `MAX` is NULL and the comparison keeps nothing. */
  function Window(ts: seq<Transaction>, lookback: int): (w: seq<Transaction>)
    ensures |w| <= |ts|
    ensures forall t {:trigger t in w} :: t in w <==> t in ts && t.date >= MaxDate(ts) - lookback
  {
    if ts == [] then [] else Filter(ts, (t: Transaction) => t.date >= MaxDate(ts) - lookback)
  }

  /** The latest date of a non-empty window is the latest date of the log. */
  lemma WindowKeepsMax(ts: seq<Transaction>, lookback: nat)
    requires |ts| > 0
    ensures |Window(ts, lookback)| > 0 && MaxDate(Window(ts, lookback)) == MaxDate(ts)
  {
    var m := MaxDate(ts);
    var t :| t in ts && t.date == m;
    assert t in Window(ts, lookback);
  }

  // ---------------------------------------------------------------------
  // Sequence helpers
  // ---------------------------------------------------------------------

  /** `WHERE p`: the elements satisfying `p`, in order. */
  function Filter<T(!new)>(s: seq<T>, p: T -> bool): (r: seq<T>)
    ensures |r| <= |s|
    ensures forall x {:trigger x in r} :: x in r <==> x in s && p(x)
    ensures forall x {:trigger multiset(r)[x]} :: multiset(r)[x] == if p(x) then multiset(s)[x] else 0
  {
    if s == [] then []
    else
      assert s == [s[0]] + s[1..];
      (if p(s[0]) then [s[0]] else []) + Filter(s[1..], p)
  }

  function Map<T, U>(s: seq<T>, f: T -> U): (r: seq<U>)
    ensures |r| == |s|
    ensures forall i :: 0 <= i < |s| ==> r[i] == f(s[i])
  {
    seq(|s|, i requires 0 <= i < |s| => f(s[i]))
  }

  lemma MapMembership<T, U>(s: seq<T>, f: T -> U, y: U)
    ensures y in Map(s, f) <==> exists x :: x in s && f(x) == y
  {
    if y in Map(s, f) {
      var i :| 0 <= i < |s| && Map(s, f)[i] == y;
      assert s[i] in s;
    }
    if exists x :: x in s && f(x) == y {
      var x :| x in s && f(x) == y;
      var i :| 0 <= i < |s| && s[i] == x;
      assert Map(s, f)[i] == y;
    }
  }

  predicate Distinct<T(==)>(s: seq<T>) {
    forall i, j :: 0 <= i < j < |s| ==> s[i] != s[j]
  }

  /** `SELECT DISTINCT`: first occurrences, in order. */
  function Dedup<T(!new,==)>(s: seq<T>): (r: seq<T>)
    ensures Distinct(r)
    ensures |r| <= |s|
    ensures forall x {:trigger x in r} :: x in r <==> x in s
    decreases |s|
  {
    if s == [] then []
    else
      var rest := Dedup(Filter(s[1..], (x: T) => x != s[0]));
      assert s[0] !in rest;
      assert forall x :: x in s ==> x == s[0] || x in s[1..];
      [s[0]] + rest
  }

  function ToSet<T>(s: seq<T>): set<T> {
    set x | x in s
  }

  lemma {:induction false} ToSetCard<T>(s: seq<T>)
    ensures |ToSet(s)| <= |s|
    ensures Distinct(s) ==> |ToSet(s)| == |s|
  {
    if s != [] {
      var last := s[|s| - 1];
      var init := s[..|s| - 1];
      ToSetCard(init);
      assert ToSet(s) == ToSet(init) + {last};
      if Distinct(s) {
        assert last !in ToSet(init);
        assert Distinct(init);
      }
    }
  }

  lemma UnionCard<T>(a: set<T>, b: set<T>)
    ensures |a + b| <= |a| + |b|
  {
    assert a + b == a + (b - a);
    assert |b - a| <= |b| by {
      assert b == (b - a) + (b * a);
    }
  }

  /** Every key, read left to right, is at most the next. */
  predicate SortedBy<T>(s: seq<T>, key: T -> int) {
    forall i, j :: 0 <= i < j < |s| ==> key(s[i]) <= key(s[j])
  }

  lemma PrependSorted<T>(y: T, rest: seq<T>, key: T -> int)
    requires SortedBy(rest, key)
    requires forall z :: z in rest ==> key(y) <= key(z)
    ensures SortedBy([y] + rest, key)
  {
    var r := [y] + rest;
    forall i, j | 0 <= i < j < |r| ensures key(r[i]) <= key(r[j]) {
      assert r[j] == rest[j - 1];
      if i > 0 {
        assert r[i] == rest[i - 1];
      }
    }
  }

  function Insert<T(!new)>(x: T, s: seq<T>, key: T -> int): (r: seq<T>)
    requires SortedBy(s, key)
    ensures SortedBy(r, key)
    ensures multiset(r) == multiset(s) + multiset{x}
    ensures |r| == |s| + 1
  {
    if s == [] || key(x) < key(s[0]) then [x] + s
    else
      var rest := Insert(x, s[1..], key);
      assert s == [s[0]] + s[1..];
      assert forall z :: z in rest ==> key(s[0]) <= key(z) by {
        forall z | z in rest ensures key(s[0]) <= key(z) {
          assert z in multiset(rest);
          if z != x {
            var k :| 0 <= k < |s[1..]| && s[1..][k] == z;
            assert s[k + 1] == z;
          }
        }
      }
      PrependSorted(s[0], rest, key);
      [s[0]] + rest
  }

  /** A stable insertion sort ascending by `key`; the model's fixed choice
      among the orders an `ORDER BY` with ties allows. */
  function SortBy<T(!new)>(s: seq<T>, key: T -> int): (r: seq<T>)
    ensures SortedBy(r, key)
    ensures multiset(r) == multiset(s)
    ensures |r| == |s|
  {
    if s == [] then []
    else
      assert s == [s[0]] + s[1..];
      Insert(s[0], SortBy(s[1..], key), key)
  }

  /** A filter of a key-sorted sequence is key-sorted. */
  lemma {:induction false} FilterSorted<T(!new)>(s: seq<T>, p: T -> bool, key: T -> int)
    requires SortedBy(s, key)
    ensures SortedBy(Filter(s, p), key)
  {
    if s != [] {
      var rest := Filter(s[1..], p);
      FilterSorted(s[1..], p, key);
      if p(s[0]) {
        forall x | x in rest ensures key(s[0]) <= key(x) {
          var k :| 0 <= k < |s[1..]| && s[1..][k] == x;
          assert s[k + 1] == x;
        }
        var r := [s[0]] + rest;
        forall i, j | 0 <= i < j < |r| ensures key(r[i]) <= key(r[j]) {
          if i == 0 { assert r[j] in rest; }
        }
      }
    }
  }

  /** `LIMIT k`: the first `k` elements, or all of them when there are fewer. */
  function Take<T>(s: seq<T>, k: nat): (r: seq<T>)
    ensures |r| == Min(k, |s|)
    ensures forall i :: 0 <= i < |r| ==> r[i] == s[i]
  {
    s[..Min(k, |s|)]
  }

  /** What a key-sorted prefix leaves out has no smaller key than what it keeps. */
  lemma TakeSortedDominates<T>(s: seq<T>, key: T -> int, k: nat)
    requires SortedBy(s, key)
    ensures multiset(Take(s, k)) <= multiset(s)
    ensures forall x, i :: x in multiset(s) - multiset(Take(s, k)) && 0 <= i < |Take(s, k)| ==>
              key(Take(s, k)[i]) <= key(x)
  {
    var m := Min(k, |s|);
    var r := Take(s, k);
    assert s == r + s[m..];
    assert multiset(s) == multiset(r) + multiset(s[m..]);
    forall x, i | x in multiset(s) - multiset(r) && 0 <= i < |r|
      ensures key(r[i]) <= key(x)
    {
      assert x in s[m..];
      var j :| 0 <= j < |s[m..]| && s[m..][j] == x;
      assert s[m + j] == x;
    }
  }

  /** A prefix of a distinct key-sorted sequence is distinct, and what it
      leaves out has no smaller key than what it keeps. */
  lemma TakeDistinctSorted<T>(s: seq<T>, key: T -> int, k: nat)
    requires Distinct(s) && SortedBy(s, key)
    ensures Distinct(Take(s, k)) && SortedBy(Take(s, k), key)
    ensures forall x :: x in Take(s, k) ==> x in s
    ensures forall x, i :: x in s && x !in Take(s, k) && 0 <= i < |Take(s, k)| ==> key(Take(s, k)[i]) <= key(x)
  {
    var r := Take(s, k);
    forall x | x in r ensures x in s {
      var i :| 0 <= i < |r| && r[i] == x;
      assert s[i] == x;
    }
    forall x, i | x in s && x !in r && 0 <= i < |r| ensures key(r[i]) <= key(x) {
      var j :| 0 <= j < |s| && s[j] == x;
      assert r[i] == s[i];
    }
  }

  lemma SortByMembership<T(!new)>(s: seq<T>, key: T -> int)
    ensures forall x :: x in SortBy(s, key) <==> x in s
  {
    forall x ensures x in SortBy(s, key) <==> x in s {
      assert x in SortBy(s, key) <==> x in multiset(SortBy(s, key));
    }
  }

  lemma DistinctPerm<T>(s: seq<T>, r: seq<T>)
    requires multiset(s) == multiset(r)
    requires Distinct(s)
    ensures Distinct(r)
  {
    forall i, j | 0 <= i < j < |r| ensures r[i] != r[j] {
      if r[i] == r[j] {
        var x := r[i];
        assert multiset(r[..j])[x] >= 1 by { assert r[..j][i] == x; }
        assert r == r[..j] + [x] + r[j+1..];
        assert multiset(r)[x] >= 2;
        DistinctCount(s, x);
      }
    }
  }

  lemma {:induction false} DistinctCount<T>(s: seq<T>, x: T)
    requires Distinct(s)
    ensures multiset(s)[x] <= 1
  {
    if s != [] {
      assert s == [s[0]] + s[1..];
      DistinctCount(s[1..], x);
      if s[0] == x { assert x !in s[1..]; }
    }
  }

  /** Python's normalisation of a slice bound `k` on a sequence of length `n`. */
  function PyBound(k: int, n: nat): (b: nat)
    ensures b <= n
    ensures 0 <= k <= n ==> b == k
    ensures k < 0 && n + k >= 0 ==> b == n + k
  {
    if k < 0 then (if n + k < 0 then 0 else n + k)
    else if k > n then n else k
  }

  /** `s[:k]` */
  function PyTake<T>(s: seq<T>, k: int): (r: seq<T>)
    ensures r == s[..PyBound(k, |s|)]
  {
    s[..PyBound(k, |s|)]
  }

  /** `s[k:]` */
  function PyDrop<T>(s: seq<T>, k: int): (r: seq<T>)
    ensures r == s[PyBound(k, |s|)..]
  {
    s[PyBound(k, |s|)..]
  }

  function Reverse<T>(s: seq<T>): (r: seq<T>)
    ensures |r| == |s|
    ensures forall i :: 0 <= i < |s| ==> r[i] == s[|s| - 1 - i]
  {
    seq(|s|, i requires 0 <= i < |s| => s[|s| - 1 - i])
  }

  function Min(a: int, b: int): int { if a <= b then a else b }
  function Max(a: int, b: int): int { if a >= b then a else b }

  /** Python's `int(x)`: truncation toward zero. */
  function Trunc(x: real): (n: int)
    ensures x >= 0.0 ==> n == x.Floor
    ensures n as real <= x < n as real + 1.0 || x < 0.0
  {
    if x >= 0.0 then x.Floor else -((-x).Floor)
  }
}
