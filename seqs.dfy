/** Sequence operations the source performs with `filter`, `reduce`, `slice` and `includes`. */
module Seqs {
  import opened Wrappers

  /** The position of the first element of `s` that satisfies `p`, `None` when there is none. */
  function IndexWhere<T>(s: seq<T>, p: T -> bool): (found: Option<nat>)
    ensures found.Some? ==> found.value < |s| && p(s[found.value])
    ensures found.Some? ==> forall k :: 0 <= k < found.value ==> !p(s[k])
    ensures found.None? ==> forall k :: 0 <= k < |s| ==> !p(s[k])
  {
    if s == [] then None
    else if p(s[0]) then Some(0)
    else match IndexWhere(s[1..], p)
      case None => None
      case Some(k) => Some(k + 1)
  }

  /** `s.filter(p)`: the elements of `s` that satisfy `p`, in order. */
  function Filter<T>(s: seq<T>, p: T -> bool): seq<T>
  {
    if s == [] then []
    else if p(s[0]) then [s[0]] + Filter(s[1..], p)
    else Filter(s[1..], p)
  }

  /** Filtering by a predicate no element satisfies leaves nothing. */
  lemma {:induction false} FilterEmpty<T>(s: seq<T>, p: T -> bool)
    requires forall x :: x in s ==> !p(x)
    ensures Filter(s, p) == []
  {
    if s != [] {
      assert s[0] in s;
      FilterEmpty(s[1..], p);
    }
  }

  /** `a` is obtained from `b` by deleting elements, keeping the order of the rest. */
  predicate IsSubsequence<T(==)>(a: seq<T>, b: seq<T>)
    decreases |b|
  {
    if a == [] then true
    else if b == [] then false
    else if a[0] == b[0] then IsSubsequence(a[1..], b[1..])
    else IsSubsequence(a, b[1..])
  }

  /** `s.slice(0, n)`: the first `n` elements, or all of `s` when it is shorter. */
  function Take<T>(s: seq<T>, n: nat): seq<T>
  {
    if n <= |s| then s[..n] else s
  }

  /** `s.reduce((sum, x) => sum + f(x), 0)` over a real-valued field. */
  function SumOf<T>(s: seq<T>, f: T -> real): real
  {
    if s == [] then 0.0 else SumOf(s[..|s| - 1], f) + f(s[|s| - 1])
  }

  /** `s.reduce((sum, x) => sum + f(x), 0)` over an integer-valued field. */
  function IntSumOf<T>(s: seq<T>, f: T -> int): int
  {
    if s == [] then 0 else IntSumOf(s[..|s| - 1], f) + f(s[|s| - 1])
  }

  /** The sum of a sequence of reals, folded from the left. */
  function Sum(s: seq<real>): real
  {
    if s == [] then 0.0 else Sum(s[..|s| - 1]) + s[|s| - 1]
  }

  predicate NoDuplicates<T(==)>(s: seq<T>) {
    forall i, j :: 0 <= i < j < |s| ==> s[i] != s[j]
  }

  /**
   * The loop `for (x of s) if (!acc.includes(x)) acc.push(x)`: the first
   * occurrence of every element, in order of first occurrence.
   */
  function Dedup<T(==)>(s: seq<T>): seq<T>
  {
    if s == [] then []
    else
      var d := Dedup(s[..|s| - 1]);
      if s[|s| - 1] in d then d else d + [s[|s| - 1]]
  }

  // ---------------------------------------------------------------- Filter

  lemma {:induction false} FilterMembership<T>(s: seq<T>, p: T -> bool, x: T)
    ensures x in Filter(s, p) <==> x in s && p(x)
  {
    if s != [] {
      FilterMembership(s[1..], p, x);
      assert s == [s[0]] + s[1..];
    }
  }

  lemma {:induction false} FilterLength<T>(s: seq<T>, p: T -> bool)
    ensures |Filter(s, p)| <= |s|
  {
    if s != [] {
      FilterLength(s[1..], p);
    }
  }

  lemma {:induction false} FilterIsSubsequence<T>(s: seq<T>, p: T -> bool)
    ensures IsSubsequence(Filter(s, p), s)
  {
    if s != [] {
      FilterIsSubsequence(s[1..], p);
      if !p(s[0]) {
        SubsequenceOfTail(Filter(s[1..], p), s);
      }
    }
  }

  /** A subsequence of the tail is a subsequence of the whole. */
  lemma {:induction false} SubsequenceOfTail<T>(a: seq<T>, b: seq<T>)
    requires b != [] && IsSubsequence(a, b[1..])
    ensures IsSubsequence(a, b)
    decreases |b|, 0
  {
    if a != [] && a[0] == b[0] {
      SubsequenceDropHead(a, b[1..]);
    }
  }

  /** Dropping the first element of a subsequence keeps it a subsequence. */
  lemma {:induction false} SubsequenceDropHead<T>(a: seq<T>, b: seq<T>)
    requires a != [] && IsSubsequence(a, b)
    ensures IsSubsequence(a[1..], b)
    decreases |b|, 1
  {
    if a[0] != b[0] {
      SubsequenceDropHead(a, b[1..]);
    }
    if a[1..] != [] {
      SubsequenceOfTail(a[1..], b);
    }
  }

  /** The subsequence relation is transitive. */
  lemma {:induction false} SubsequenceTransitive<T>(a: seq<T>, b: seq<T>, c: seq<T>)
    requires IsSubsequence(a, b) && IsSubsequence(b, c)
    ensures IsSubsequence(a, c)
    decreases |c|
  {
    if a != [] {
      assert b != [] && c != [];
      if b[0] == c[0] {
        if a[0] == b[0] {
          SubsequenceTransitive(a[1..], b[1..], c[1..]);
        } else {
          SubsequenceTransitive(a, b[1..], c[1..]);
          SubsequenceOfTail(a, c);
        }
      } else {
        SubsequenceTransitive(a, b, c[1..]);
        SubsequenceOfTail(a, c);
      }
    }
  }

  /** Filtering with a predicate that holds everywhere on `s` returns `s`. */
  lemma {:induction false} FilterKeepsAll<T>(s: seq<T>, p: T -> bool)
    requires forall i :: 0 <= i < |s| ==> p(s[i])
    ensures Filter(s, p) == s
  {
    if s != [] {
      FilterKeepsAll(s[1..], p);
      assert s == [s[0]] + s[1..];
    }
  }

  /** Two successive filters are one filter with the conjunction. */
  lemma {:induction false} FilterTwice<T>(s: seq<T>, p: T -> bool, q: T -> bool, pq: T -> bool)
    requires forall x :: pq(x) == (p(x) && q(x))
    ensures Filter(Filter(s, p), q) == Filter(s, pq)
  {
    if s != [] {
      FilterTwice(s[1..], p, q, pq);
    }
  }

  /** Filters with pointwise-equal predicates agree. */
  lemma {:induction false} FilterSamePredicate<T>(s: seq<T>, p: T -> bool, q: T -> bool)
    requires forall x :: p(x) == q(x)
    ensures Filter(s, p) == Filter(s, q)
  {
    if s != [] {
      FilterSamePredicate(s[1..], p, q);
    }
  }

  lemma {:induction false} FilterAppend<T>(a: seq<T>, b: seq<T>, p: T -> bool)
    ensures Filter(a + b, p) == Filter(a, p) + Filter(b, p)
  {
    if a != [] {
      FilterAppend(a[1..], b, p);
      assert (a + b)[1..] == a[1..] + b;
    } else {
      assert a + b == b;
    }
  }

  // ---------------------------------------------------------------- Take

  lemma TakeIsPrefix<T>(s: seq<T>, n: nat)
    ensures |Take(s, n)| == if n <= |s| then n else |s|
    ensures forall i :: 0 <= i < |Take(s, n)| ==> Take(s, n)[i] == s[i]
  {
  }

  // ---------------------------------------------------------------- sums

  lemma {:induction false} SumOfAppend<T>(a: seq<T>, b: seq<T>, f: T -> real)
    ensures SumOf(a + b, f) == SumOf(a, f) + SumOf(b, f)
    decreases |b|
  {
    if b != [] {
      assert (a + b)[..|a + b| - 1] == a + b[..|b| - 1];
      SumOfAppend(a, b[..|b| - 1], f);
    } else {
      assert a + b == a;
    }
  }

  /** A sum of `n` terms each in [lo, hi] lies in [n*lo, n*hi]. */
  lemma {:induction false} SumOfBounds<T>(s: seq<T>, f: T -> real, lo: real, hi: real)
    requires forall i :: 0 <= i < |s| ==> lo <= f(s[i]) <= hi
    ensures (|s| as real) * lo <= SumOf(s, f) <= (|s| as real) * hi
  {
    if s != [] {
      SumOfBounds(s[..|s| - 1], f, lo, hi);
    }
  }

  lemma {:induction false} SumOfNonNegative<T>(s: seq<T>, f: T -> real)
    requires forall i :: 0 <= i < |s| ==> 0.0 <= f(s[i])
    ensures 0.0 <= SumOf(s, f)
  {
    if s != [] {
      SumOfNonNegative(s[..|s| - 1], f);
    }
  }

  /** A quotient of a sum bounded by `n * lo` and `n * hi` lies between `lo` and `hi`. */
  lemma QuotientBetween(sum: real, n: real, lo: real, hi: real)
    requires n > 0.0 && n * lo <= sum <= n * hi
    ensures lo <= sum / n <= hi
  {
    var m := sum / n;
    assert m * n == sum;
  }

  /** An integer product read as a real is the product of the reals. */
  lemma CastProduct(k: int, x: int)
    ensures (k * x) as real == (k as real) * (x as real)
  {
  }

  lemma {:induction false} IntSumOfBounds<T>(s: seq<T>, f: T -> int, lo: int, hi: int)
    requires forall i :: 0 <= i < |s| ==> lo <= f(s[i]) <= hi
    ensures |s| * lo <= IntSumOf(s, f) <= |s| * hi
  {
    if s != [] {
      IntSumOfBounds(s[..|s| - 1], f, lo, hi);
    }
  }

  lemma {:induction false} IntSumOfAppend<T>(a: seq<T>, b: seq<T>, f: T -> int)
    ensures IntSumOf(a + b, f) == IntSumOf(a, f) + IntSumOf(b, f)
    decreases |b|
  {
    if b != [] {
      assert (a + b)[..|a + b| - 1] == a + b[..|b| - 1];
      IntSumOfAppend(a, b[..|b| - 1], f);
    } else {
      assert a + b == a;
    }
  }

  // ---------------------------------------------------------------- Dedup

  /**
   * Dedup removes exactly the repeats: no duplicates remain, the same
   * elements occur, and a non-empty input leaves a non-empty result.
   */
  lemma {:induction false} DedupProperties<T>(s: seq<T>)
    ensures NoDuplicates(Dedup(s))
    ensures forall x :: x in Dedup(s) <==> x in s
    ensures |Dedup(s)| <= |s|
    ensures |s| > 0 ==> |Dedup(s)| > 0
  {
    if s != [] {
      var init := s[..|s| - 1];
      DedupProperties(init);
      assert forall x :: x in s <==> x in init || x == s[|s| - 1] by {
        assert s == init + [s[|s| - 1]];
      }
    }
  }

  /** On a sequence without repeats, Dedup changes nothing. */
  lemma {:induction false} DedupOfDistinct<T>(s: seq<T>)
    requires NoDuplicates(s)
    ensures Dedup(s) == s
  {
    if s != [] {
      var init := s[..|s| - 1];
      DedupOfDistinct(init);
      assert s[|s| - 1] !in init;
      assert init + [s[|s| - 1]] == s;
    }
  }
}
