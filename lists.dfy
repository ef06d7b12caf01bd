/**
 * Kotlin collection operations the view models use: `indexOf`,
 * `indexOfFirst`, `filter`, `mapNotNull`, `take` and the stable `sortedBy`.
 */
module Lists {
  import opened Wrappers

  /** `List.indexOf(x)`: the first position of `x`, or -1. */
  function IndexOf<T(==)>(s: seq<T>, x: T): (i: int)
    ensures -1 <= i < |s|
    ensures i == -1 <==> x !in s
    ensures 0 <= i ==> s[i] == x && forall j | 0 <= j < i :: s[j] != x
  {
    if s == [] then -1
    else if s[0] == x then 0
    else
      var k := IndexOf(s[1..], x);
      if k == -1 then -1 else k + 1
  }

  /** `filter(p)`: the elements satisfying `p`, in their original order. */
  function Filter<T>(s: seq<T>, p: T -> bool): (r: seq<T>)
    ensures |r| <= |s|
    ensures forall i | 0 <= i < |r| :: r[i] in s && p(r[i])
    ensures forall i | 0 <= i < |s| :: p(s[i]) ==> s[i] in r
  {
    if s == [] then []
    else if p(s[0]) then [s[0]] + Filter(s[1..], p)
    else Filter(s[1..], p)
  }

  /** `mapNotNull`: the results of `f` that are present, in order. */
  function MapNotNull<A, B>(s: seq<A>, f: A -> Option<B>): seq<B> {
    if s == [] then []
    else
      var rest := MapNotNull(s[1..], f);
      match f(s[0])
      case None => rest
      case Some(y) => [y] + rest
  }

  /** One step of `mapNotNull`: the head's image, when there is one, comes first. */
  lemma MapNotNullCons<A, B>(h: A, t: seq<A>, f: A -> Option<B>)
    ensures MapNotNull([h] + t, f) == (if f(h).Some? then [f(h).value] else []) + MapNotNull(t, f)
  {
    assert ([h] + t)[0] == h && ([h] + t)[1..] == t;
  }

  /** A head with an image puts that image in front of the rest's. */
  lemma MapNotNullConsSome<A, B>(h: A, t: seq<A>, f: A -> Option<B>, y: B, rest: seq<B>)
    requires f(h) == Some(y) && MapNotNull(t, f) == rest
    ensures MapNotNull([h] + t, f) == [y] + rest
  {
    MapNotNullCons(h, t, f);
  }

  /** Mapping a concatenation maps each part. */
  lemma {:induction false} MapNotNullConcat<A, B>(a: seq<A>, b: seq<A>, f: A -> Option<B>)
    ensures MapNotNull(a + b, f) == MapNotNull(a, f) + MapNotNull(b, f)
  {
    if a != [] {
      assert (a + b)[0] == a[0] && (a + b)[1..] == a[1..] + b;
      MapNotNullConcat(a[1..], b, f);
    } else {
      assert a + b == b;
    }
  }

  /**
   * With `p` telling which elements `f` maps, result `i` is the image of
   * the `i`-th element `p` keeps.
   */
  lemma {:induction false} MapNotNullFollowsFilter<A, B>(s: seq<A>, f: A -> Option<B>, p: A -> bool)
    requires forall x :: p(x) <==> f(x).Some?
    ensures var r := MapNotNull(s, f); var kept := Filter(s, p);
      |r| == |kept| && forall i | 0 <= i < |r| :: f(kept[i]) == Some(r[i])
  {
    if s != [] {
      MapNotNullFollowsFilter(s[1..], f, p);
      var rest := MapNotNull(s[1..], f);
      var keptRest := Filter(s[1..], p);
      match f(s[0]) {
        case None =>
          assert MapNotNull(s, f) == rest;
          assert Filter(s, p) == keptRest;
        case Some(y) =>
          var r := [y] + rest;
          var kept := [s[0]] + keptRest;
          assert MapNotNull(s, f) == r;
          assert Filter(s, p) == kept;
          forall i | 0 <= i < |r| ensures f(kept[i]) == Some(r[i]) {
            if i > 0 {
              assert r[i] == rest[i - 1] && kept[i] == keptRest[i - 1];
            }
          }
      }
    }
  }

  /** Appending the image of the next element extends an element-wise image by one. */
  lemma MapStep<A, B>(results: seq<B>, data: seq<A>, f: A -> B, r: B)
    requires |results| < |data|
    requires forall k | 0 <= k < |results| :: results[k] == f(data[k])
    requires r == f(data[|results|])
    ensures forall k | 0 <= k < |results| + 1 :: (results + [r])[k] == f(data[k])
  {
  }

  /** Filtering a concatenation filters each part. */
  lemma {:induction false} FilterConcat<T>(a: seq<T>, b: seq<T>, p: T -> bool)
    ensures Filter(a + b, p) == Filter(a, p) + Filter(b, p)
  {
    if a != [] {
      assert (a + b)[0] == a[0];
      assert (a + b)[1..] == a[1..] + b;
      FilterConcat(a[1..], b, p);
      if p(a[0]) {
        assert Filter(a + b, p) == [a[0]] + Filter(a[1..] + b, p);
        assert Filter(a, p) == [a[0]] + Filter(a[1..], p);
      } else {
        assert Filter(a + b, p) == Filter(a[1..] + b, p);
      }
    } else {
      assert a + b == b;
    }
  }

  /** Two successive filters keep what both tests accept. */
  lemma {:induction false} FilterFilter<T>(s: seq<T>, p: T -> bool, q: T -> bool, both: T -> bool)
    requires forall x :: both(x) == (p(x) && q(x))
    ensures Filter(Filter(s, p), q) == Filter(s, both)
  {
    if s != [] {
      FilterFilter(s[1..], p, q, both);
      if p(s[0]) {
        assert Filter(s, p) == [s[0]] + Filter(s[1..], p);
        assert Filter(s, p)[1..] == Filter(s[1..], p);
      }
    }
  }

  /** Two tests that agree everywhere filter alike. */
  lemma {:induction false} FilterSame<T>(s: seq<T>, p: T -> bool, q: T -> bool)
    requires forall x :: p(x) == q(x)
    ensures Filter(s, p) == Filter(s, q)
  {
    if s != [] {
      FilterSame(s[1..], p, q);
    }
  }

  /** A test every element passes keeps the whole sequence. */
  lemma {:induction false} FilterAll<T>(s: seq<T>, p: T -> bool)
    requires forall i | 0 <= i < |s| :: p(s[i])
    ensures Filter(s, p) == s
  {
    if s != [] {
      assert forall i | 0 <= i < |s[1..]| :: s[1..][i] == s[i + 1];
      FilterAll(s[1..], p);
      assert s == [s[0]] + s[1..];
    }
  }

  /** A test no element passes leaves nothing. */
  lemma {:induction false} FilterNone<T>(s: seq<T>, p: T -> bool)
    requires forall i | 0 <= i < |s| :: !p(s[i])
    ensures Filter(s, p) == []
  {
    if s != [] {
      assert forall i | 0 <= i < |s[1..]| :: s[1..][i] == s[i + 1];
      FilterNone(s[1..], p);
    }
  }

  /** `take(n)`: the first `n` elements, or all of them. */
  function Take<T>(s: seq<T>, n: nat): (r: seq<T>)
    ensures |r| == if n < |s| then n else |s|
    ensures r <= s
  {
    if n < |s| then s[..n] else s
  }

  // ---------------------------------------------------------------------
  // sortedBy

  predicate SortedBy<T>(s: seq<T>, key: T -> real) {
    forall i, j | 0 <= i < j < |s| :: key(s[i]) <= key(s[j])
  }

  /** Insert `x` in front of the first element whose key is not smaller. */
  function InsertBy<T>(x: T, s: seq<T>, key: T -> real): (r: seq<T>)
    ensures multiset(r) == multiset(s) + multiset{x}
    ensures |r| == |s| + 1
    ensures r[0] == x || (s != [] && r[0] == s[0])
  {
    if s == [] || key(x) <= key(s[0]) then [x] + s
    else
      assert s == [s[0]] + s[1..];
      [s[0]] + InsertBy(x, s[1..], key)
  }

  /** Kotlin's `sortedBy(key)`: a stable sort on the key. */
  function SortBy<T>(s: seq<T>, key: T -> real): (r: seq<T>)
    ensures multiset(r) == multiset(s)
    ensures |r| == |s|
  {
    if s == [] then []
    else
      assert s == [s[0]] + s[1..];
      InsertBy(s[0], SortBy(s[1..], key), key)
  }

  lemma {:induction false} InsertBySorted<T>(x: T, s: seq<T>, key: T -> real)
    requires SortedBy(s, key)
    ensures SortedBy(InsertBy(x, s, key), key)
  {
    var r := InsertBy(x, s, key);
    if s == [] || key(x) <= key(s[0]) {
      assert r == [x] + s;
      forall i, j | 0 <= i < j < |r| ensures key(r[i]) <= key(r[j]) {
        if i > 0 {
          assert r[i] == s[i - 1] && r[j] == s[j - 1];
        } else {
          assert r[j] == s[j - 1];
        }
      }
    } else {
      var t := InsertBy(x, s[1..], key);
      InsertBySorted(x, s[1..], key);
      assert r == [s[0]] + t;
      assert key(s[0]) <= key(t[0]);
      forall i, j | 0 <= i < j < |r| ensures key(r[i]) <= key(r[j]) {
        assert r[j] == t[j - 1];
        if i > 0 {
          assert r[i] == t[i - 1];
        } else if j > 1 {
          assert key(t[0]) <= key(t[j - 1]);
        }
      }
    }
  }

  /** The sorted list is ordered by the key. */
  lemma {:induction false} SortByIsSorted<T>(s: seq<T>, key: T -> real)
    ensures SortedBy(SortBy(s, key), key)
  {
    if s != [] {
      SortByIsSorted(s[1..], key);
      InsertBySorted(s[0], SortBy(s[1..], key), key);
    }
  }

  /** The test "has key `v`". */
  function KeyIs<T>(key: T -> real, v: real): T -> bool {
    y => key(y) == v
  }

  /** The elements with key `v` keep their order under insertion. */
  lemma {:induction false} InsertByKeepsKeyClass<T>(x: T, s: seq<T>, key: T -> real, v: real)
    requires SortedBy(s, key)
    ensures Filter(InsertBy(x, s, key), KeyIs(key, v))
         == (if key(x) == v then [x] else []) + Filter(s, KeyIs(key, v))
  {
    var p := KeyIs(key, v);
    var front: seq<T> := if key(x) == v then [x] else [];
    FilterSingleton(x, p);
    if s == [] || key(x) <= key(s[0]) {
      assert InsertBy(x, s, key) == [x] + s;
      FilterConcat([x], s, p);
    } else {
      SortedTail(s, key);
      InsertByKeepsKeyClass(x, s[1..], key, v);
      InsertBehindHead(x, s, key, front, v);
    }
  }

  /** One step of `filter`: the head is kept exactly when it passes. */
  lemma FilterCons<T>(h: T, t: seq<T>, p: T -> bool)
    ensures Filter([h] + t, p) == (if p(h) then [h] else []) + Filter(t, p)
  {
    assert ([h] + t)[0] == h && ([h] + t)[1..] == t;
  }

  lemma FilterSingleton<T>(x: T, p: T -> bool)
    ensures Filter([x], p) == if p(x) then [x] else []
  {
    assert [x][1..] == [];
  }

  /** The step of `InsertByKeepsKeyClass` where `x` goes behind the head `s[0]`. */
  lemma InsertBehindHead<T>(x: T, s: seq<T>, key: T -> real, front: seq<T>, v: real)
    requires s != [] && key(x) > key(s[0])
    requires front == if key(x) == v then [x] else []
    requires Filter(InsertBy(x, s[1..], key), KeyIs(key, v)) == front + Filter(s[1..], KeyIs(key, v))
    ensures Filter(InsertBy(x, s, key), KeyIs(key, v)) == front + Filter(s, KeyIs(key, v))
  {
    var rest := InsertBy(x, s[1..], key);
    InsertByBehind(x, s, key);
    assert s == [s[0]] + s[1..];
    FilterBehind(s[0], rest, s[1..], KeyIs(key, v), front);
  }

  /** An element with a larger key goes behind the head. */
  lemma InsertByBehind<T>(x: T, s: seq<T>, key: T -> real)
    requires s != [] && key(x) > key(s[0])
    ensures InsertBy(x, s, key) == [s[0]] + InsertBy(x, s[1..], key)
  {
  }

  /** A head in front of two sequences whose filters differ by a prefix that excludes it. */
  lemma FilterBehind<T>(h: T, a: seq<T>, b: seq<T>, p: T -> bool, front: seq<T>)
    requires Filter(a, p) == front + Filter(b, p)
    requires p(h) ==> front == []
    ensures Filter([h] + a, p) == front + Filter([h] + b, p)
  {
    FilterCons(h, a, p);
    FilterCons(h, b, p);
    if p(h) {
      assert front + Filter(b, p) == Filter(b, p);
    }
  }

  lemma SortedTail<T>(s: seq<T>, key: T -> real)
    requires s != [] && SortedBy(s, key)
    ensures SortedBy(s[1..], key)
  {
    forall i, j | 0 <= i < j < |s| - 1 ensures key(s[1..][i]) <= key(s[1..][j]) {
      assert s[1..][i] == s[i + 1] && s[1..][j] == s[j + 1];
    }
  }

  /** Filtering a sorted sequence leaves it sorted. */
  lemma {:induction false} FilterKeepsSorted<T>(s: seq<T>, p: T -> bool, key: T -> real)
    requires SortedBy(s, key)
    ensures SortedBy(Filter(s, p), key)
  {
    if s != [] {
      SortedTail(s, key);
      FilterKeepsSorted(s[1..], p, key);
      if p(s[0]) {
        var r := Filter(s[1..], p);
        forall j | 0 <= j < |r| ensures key(s[0]) <= key(r[j]) {
          var k :| 0 <= k < |s[1..]| && s[1..][k] == r[j];
          assert s[k + 1] == r[j];
        }
        var f := [s[0]] + r;
        forall i, j | 0 <= i < j < |f| ensures key(f[i]) <= key(f[j]) {
          assert f[j] == r[j - 1];
          if i > 0 {
            assert f[i] == r[i - 1];
          }
        }
      }
    }
  }

  /** A prefix of a sorted sequence is sorted. */
  lemma TakeKeepsSorted<T>(s: seq<T>, n: nat, key: T -> real)
    requires SortedBy(s, key)
    ensures SortedBy(Take(s, n), key)
  {
    var t := Take(s, n);
    forall i, j | 0 <= i < j < |t| ensures key(t[i]) <= key(t[j]) {
      assert t[i] == s[i] && t[j] == s[j];
    }
  }

  /** Stability: elements with equal keys stay in their input order. */
  lemma {:induction false} SortByIsStable<T>(s: seq<T>, key: T -> real, v: real)
    ensures Filter(SortBy(s, key), KeyIs(key, v)) == Filter(s, KeyIs(key, v))
  {
    var p := KeyIs(key, v);
    if s != [] {
      SortByIsStable(s[1..], key, v);
      SortByIsSorted(s[1..], key);
      InsertByKeepsKeyClass(s[0], SortBy(s[1..], key), key, v);
      assert s == [s[0]] + s[1..];
      FilterConcat([s[0]], s[1..], p);
    }
  }
}
