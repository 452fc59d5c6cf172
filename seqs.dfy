/** The list operations the panels are built from: `Array.prototype.filter`,
    `Array.prototype.find`, a summing `reduce`, and counting a list by the keys
    it is grouped on. */
module Seqs {
  import opened Common

  /** `xs.filter(p)`. */
  function Keep<T>(xs: seq<T>, p: T -> bool): (r: seq<T>)
    ensures |r| <= |xs|
    ensures forall x :: x in r ==> x in xs && p(x)
    ensures forall x :: x in xs && p(x) ==> x in r
  {
    if xs == [] then [] else (if p(xs[0]) then [xs[0]] else []) + Keep(xs[1..], p)
  }

  /** The predicate `x => key(x) === k`. */
  function KeyIs<T(!new), K(==)>(key: T -> K, k: K): (p: T -> bool)
    ensures forall x :: p(x) <==> key(x) == k
  {
    x => key(x) == k
  }

  /** Filtering a concatenation filters each part: the filter keeps the order of the
      elements it keeps, so its result is an order-preserving subsequence. */
  lemma {:induction false} KeepAppend<T>(a: seq<T>, b: seq<T>, p: T -> bool)
    ensures Keep(a + b, p) == Keep(a, p) + Keep(b, p)
  {
    if a == [] {
      assert a + b == b;
    } else {
      var h := if p(a[0]) then [a[0]] else [];
      calc {
        Keep(a + b, p);
        { assert (a + b)[0] == a[0]; assert (a + b)[1..] == a[1..] + b; }
        h + Keep(a[1..] + b, p);
        { KeepAppend(a[1..], b, p); }
        h + (Keep(a[1..], p) + Keep(b, p));
        (h + Keep(a[1..], p)) + Keep(b, p);
      }
    }
  }

  /** Filtering a list with one more element at the end. */
  lemma KeepSnoc<T>(xs: seq<T>, x: T, p: T -> bool)
    ensures Keep(xs + [x], p) == Keep(xs, p) + (if p(x) then [x] else [])
  {
    KeepAppend(xs, [x], p);
  }

  /** Filtering with a predicate no element meets leaves nothing. */
  lemma {:induction false} KeepNone<T>(xs: seq<T>, p: T -> bool)
    requires forall x :: x in xs ==> !p(x)
    ensures Keep(xs, p) == []
  {
    if xs != [] {
      assert forall x :: x in xs[1..] ==> x in xs;
      KeepNone(xs[1..], p);
    }
  }

  /** Filtering with a predicate every element meets changes nothing. */
  lemma {:induction false} KeepAll<T>(xs: seq<T>, p: T -> bool)
    requires forall x :: x in xs ==> p(x)
    ensures Keep(xs, p) == xs
  {
    if xs != [] {
      assert forall x :: x in xs[1..] ==> x in xs;
      KeepAll(xs[1..], p);
    }
  }

  /** Filters with predicates that agree everywhere give the same result. */
  lemma {:induction false} KeepSame<T>(xs: seq<T>, p: T -> bool, q: T -> bool)
    requires forall x :: p(x) == q(x)
    ensures Keep(xs, p) == Keep(xs, q)
  {
    if xs != [] {
      KeepSame(xs[1..], p, q);
    }
  }

  /** `a` is `b` with some elements left out and the rest in their order. */
  ghost predicate SubsequenceOf<T>(a: seq<T>, b: seq<T>)
    decreases |b|
  {
    a == [] || (b != [] && ((a[0] == b[0] && SubsequenceOf(a[1..], b[1..])) || SubsequenceOf(a, b[1..])))
  }

  /** A filter's result is a subsequence of its input. */
  lemma {:induction false} KeepIsSubsequence<T>(xs: seq<T>, p: T -> bool)
    ensures SubsequenceOf(Keep(xs, p), xs)
  {
    if xs != [] {
      KeepIsSubsequence(xs[1..], p);
      if p(xs[0]) {
        assert Keep(xs, p) == [xs[0]] + Keep(xs[1..], p);
        assert Keep(xs, p)[1..] == Keep(xs[1..], p);
      } else {
        assert Keep(xs, p) == Keep(xs[1..], p);
      }
    }
  }

  /** Two filters in a row are one filter with the conjunction. */
  lemma {:induction false} KeepKeep<T>(xs: seq<T>, p: T -> bool, q: T -> bool, pq: T -> bool)
    requires forall x :: pq(x) == (p(x) && q(x))
    ensures Keep(Keep(xs, p), q) == Keep(xs, pq)
  {
    if xs != [] {
      var h := if p(xs[0]) then [xs[0]] else [];
      calc {
        Keep(Keep(xs, p), q);
        Keep(h + Keep(xs[1..], p), q);
        { KeepAppend(h, Keep(xs[1..], p), q); }
        Keep(h, q) + Keep(Keep(xs[1..], p), q);
        { KeepKeep(xs[1..], p, q, pq); }
        Keep(h, q) + Keep(xs[1..], pq);
        { assert Keep(h, q) == if pq(xs[0]) then [xs[0]] else []; }
        Keep(xs, pq);
      }
    }
  }

  /** When exactly one of `q` and `r` holds of every element, the two filters
      split the list: their counts add up to its length. */
  lemma {:induction false} KeepSplit<T>(xs: seq<T>, q: T -> bool, r: T -> bool)
    requires forall x :: q(x) != r(x)
    ensures |Keep(xs, q)| + |Keep(xs, r)| == |xs|
  {
    if xs != [] {
      KeepSplit(xs[1..], q, r);
    }
  }

  /** `xs.reduce((sum, x) => sum + f(x), 0)`. */
  function SumBy<T>(xs: seq<T>, f: T -> int): int {
    if xs == [] then 0 else f(xs[0]) + SumBy(xs[1..], f)
  }

  /** A sum over a concatenation is the sum of the sums. */
  lemma {:induction false} SumByAppend<T>(a: seq<T>, b: seq<T>, f: T -> int)
    ensures SumBy(a + b, f) == SumBy(a, f) + SumBy(b, f)
  {
    if a == [] {
      assert a + b == b;
    } else {
      assert (a + b)[0] == a[0];
      assert (a + b)[1..] == a[1..] + b;
      SumByAppend(a[1..], b, f);
    }
  }

  /** A pointwise bound `f <= g` carries over to the sums. */
  lemma {:induction false} SumByMonotone<T>(xs: seq<T>, f: T -> int, g: T -> int)
    requires forall x :: x in xs ==> f(x) <= g(x)
    ensures SumBy(xs, f) <= SumBy(xs, g)
  {
    if xs != [] {
      assert forall x :: x in xs[1..] ==> x in xs;
      SumByMonotone(xs[1..], f, g);
    }
  }

  /** A sum of non-negative terms is non-negative. */
  lemma {:induction false} SumByNonNegative<T>(xs: seq<T>, f: T -> int)
    requires forall x :: x in xs ==> 0 <= f(x)
    ensures 0 <= SumBy(xs, f)
  {
    if xs != [] {
      assert forall x :: x in xs[1..] ==> x in xs;
      SumByNonNegative(xs[1..], f);
    }
  }

  /** The sum splits over a partition of the list into the part `p` keeps
      and the part `q` keeps. */
  lemma {:induction false} SumBySplit<T>(xs: seq<T>, f: T -> int, p: T -> bool, q: T -> bool)
    requires forall x :: p(x) != q(x)
    ensures SumBy(Keep(xs, p), f) + SumBy(Keep(xs, q), f) == SumBy(xs, f)
  {
    if xs != [] {
      SumBySplit(xs[1..], f, p, q);
      SumByAppend(if p(xs[0]) then [xs[0]] else [], Keep(xs[1..], p), f);
      SumByAppend(if q(xs[0]) then [xs[0]] else [], Keep(xs[1..], q), f);
    }
  }

  /** No key occurs twice. */
  ghost predicate Distinct<K>(keys: seq<K>) {
    forall i, j :: 0 <= i < j < |keys| ==> keys[i] != keys[j]
  }

  /** The number of elements whose key is one of `keys`, counted key by key:
      the total size of the groups a list is split into. */
  function CountByKeys<T(!new), K(==)>(xs: seq<T>, keys: seq<K>, key: T -> K): nat {
    if keys == [] then 0 else |Keep(xs, KeyIs(key, keys[0]))| + CountByKeys(xs, keys[1..], key)
  }

  /** How often `k` occurs in `keys`. */
  function Occurrences<K(==)>(keys: seq<K>, k: K): nat {
    if keys == [] then 0 else (if keys[0] == k then 1 else 0) + Occurrences(keys[1..], k)
  }

  lemma {:induction false} OccurrencesOfDistinct<K>(keys: seq<K>, k: K)
    requires Distinct(keys)
    ensures Occurrences(keys, k) == if k in keys then 1 else 0
  {
    if keys != [] {
      assert Distinct(keys[1..]) by {
        forall i, j | 0 <= i < j < |keys[1..]| ensures keys[1..][i] != keys[1..][j] {
          assert keys[1..][i] == keys[i + 1] && keys[1..][j] == keys[j + 1];
        }
      }
      OccurrencesOfDistinct(keys[1..], k);
      if keys[0] == k {
        assert k !in keys[1..] by {
          forall j | 0 <= j < |keys[1..]| ensures keys[1..][j] != k {
            assert keys[1..][j] == keys[j + 1];
          }
        }
      }
    }
  }

  lemma {:induction false} CountByKeysEmpty<T(!new), K>(keys: seq<K>, key: T -> K)
    ensures CountByKeys([], keys, key) == 0
  {
    if keys != [] {
      CountByKeysEmpty(keys[1..], key);
    }
  }

  /** Putting one more element in front adds one for every key that matches it. */
  lemma {:induction false} CountByKeysCons<T(!new), K>(x: T, xs: seq<T>, keys: seq<K>, key: T -> K)
    ensures CountByKeys([x] + xs, keys, key) == CountByKeys(xs, keys, key) + Occurrences(keys, key(x))
  {
    if keys != [] {
      assert ([x] + xs)[0] == x && ([x] + xs)[1..] == xs;
      CountByKeysCons(x, xs, keys[1..], key);
    }
  }

  /** Grouping by key loses and duplicates nothing: when the keys are distinct and
      cover every element's key, the groups hold exactly `|xs|` elements in all. */
  lemma {:induction false} CountByKeysPartition<T(!new), K>(xs: seq<T>, keys: seq<K>, key: T -> K)
    requires Distinct(keys)
    requires forall x :: x in xs ==> key(x) in keys
    ensures CountByKeys(xs, keys, key) == |xs|
  {
    if xs == [] {
      CountByKeysEmpty(keys, key);
    } else {
      assert xs == [xs[0]] + xs[1..];
      assert forall x :: x in xs[1..] ==> x in xs;
      CountByKeysPartition(xs[1..], keys, key);
      CountByKeysCons(xs[0], xs[1..], keys, key);
      OccurrencesOfDistinct(keys, key(xs[0]));
    }
  }

  /** The index of the element `xs.find(p)` returns: the first one `p` holds of. */
  function FindIndex<T>(xs: seq<T>, p: T -> bool): (r: Option<nat>)
    ensures r.None? <==> forall i :: 0 <= i < |xs| ==> !p(xs[i])
    ensures r.Some? ==> r.value < |xs| && p(xs[r.value])
    ensures r.Some? ==> forall j :: 0 <= j < r.value ==> !p(xs[j])
  {
    if xs == [] then None
    else if p(xs[0]) then Some(0)
    else
      match FindIndex(xs[1..], p)
      case None => None
      case Some(k) => Some(k + 1)
  }

  /** `xs.find(p)`: the first element `p` holds of, or nothing. */
  function Find<T>(xs: seq<T>, p: T -> bool): (r: Option<T>)
    ensures r.None? <==> forall x :: x in xs ==> !p(x)
    ensures r.Some? ==> r.value in xs && p(r.value)
  {
    match FindIndex(xs, p)
    case None => None
    case Some(k) => Some(xs[k])
  }

  /** The first match wins: `find` returns the element at the first index where `p` holds. */
  lemma FindFirst<T>(xs: seq<T>, p: T -> bool, k: nat)
    requires k < |xs| && p(xs[k])
    requires forall j :: 0 <= j < k ==> !p(xs[j])
    ensures Find(xs, p) == Some(xs[k])
  {
    assert FindIndex(xs, p).Some?;
  }

  /** Dropping elements `p` cannot hold of does not change what `find` returns:
      when `p` implies `q`, searching the `q`-filtered list gives the same answer. */
  lemma {:induction false} FindKeep<T>(xs: seq<T>, p: T -> bool, q: T -> bool)
    requires forall x :: p(x) ==> q(x)
    ensures Find(Keep(xs, q), p) == Find(xs, p)
  {
    if xs != [] {
      FindKeep(xs[1..], p, q);
      var ys := Keep(xs[1..], q);
      if p(xs[0]) {
        assert Keep(xs, q) == [xs[0]] + ys;
        FindFirst(Keep(xs, q), p, 0);
        FindFirst(xs, p, 0);
      } else {
        var h := if q(xs[0]) then [xs[0]] else [];
        assert Keep(xs, q) == h + ys;
        assert FindIndex(xs, p) == match FindIndex(xs[1..], p) case None => None case Some(k) => Some(k + 1);
        if h != [] {
          assert (h + ys)[1..] == ys;
        } else {
          assert h + ys == ys;
        }
      }
    }
  }
}
