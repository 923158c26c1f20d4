/**
 * The array operations the JavaScript source leans on, as functions on
 * sequences: `find` / `some`, `filter`, counting, and the order-preserving
 * de-duplication `[...new Set(xs)]`.
 */
module Seqs {
  import opened Wrappers

  /**
   * Index of the first element satisfying `p` (`Array.prototype.findIndex`);
   * `find` is the element at that index and `some` whether there is one.
   */
  function Find<T>(s: seq<T>, p: T -> bool): (r: Option<nat>)
    ensures r.Some? ==> r.value < |s| && p(s[r.value])
  {
    if |s| == 0 then None
    else if p(s[0]) then Some(0)
    else match Find(s[1..], p)
      case None => None
      case Some(k) => Some(k + 1)
  }

  /** `Find` gives the first match, and nothing only when nothing matches. */
  lemma {:induction false} FindSpec<T>(s: seq<T>, p: T -> bool)
    ensures Find(s, p).Some? ==> forall j :: 0 <= j < Find(s, p).value ==> !p(s[j])
    ensures Find(s, p).None? <==> forall j :: 0 <= j < |s| ==> !p(s[j])
  {
    if |s| > 0 && !p(s[0]) {
      FindSpec(s[1..], p);
      assert forall j :: 1 <= j < |s| ==> s[j] == s[1..][j - 1];
    }
  }

  /** A match at `i` is found, at `i` or before. */
  lemma FindSome<T>(s: seq<T>, p: T -> bool, i: nat)
    requires i < |s| && p(s[i])
    ensures Find(s, p).Some? && Find(s, p).value <= i
  {
    FindSpec(s, p);
  }

  /** The elements satisfying `p`, in order (`Array.prototype.filter`). */
  function Filter<T>(s: seq<T>, p: T -> bool): (r: seq<T>)
    ensures |r| <= |s|
  {
    if |s| == 0 then [] else (if p(s[0]) then [s[0]] else []) + Filter(s[1..], p)
  }

  /** What `Filter` keeps comes from `s` and satisfies `p`. */
  lemma {:induction false} FilterSpec<T>(s: seq<T>, p: T -> bool)
    ensures forall i :: 0 <= i < |Filter(s, p)| ==> Filter(s, p)[i] in s && p(Filter(s, p)[i])
  {
    if |s| > 0 {
      FilterSpec(s[1..], p);
      var head := if p(s[0]) then [s[0]] else [];
      var rest := Filter(s[1..], p);
      forall i | 0 <= i < |Filter(s, p)| ensures Filter(s, p)[i] in s && p(Filter(s, p)[i]) {
        if i >= |head| {
          assert Filter(s, p)[i] == rest[i - |head|];
        }
      }
    }
  }

  /** Nothing satisfying `p` is dropped. */
  lemma {:induction false} FilterKeeps<T>(s: seq<T>, p: T -> bool, i: nat)
    requires i < |s| && p(s[i])
    ensures s[i] in Filter(s, p)
  {
    if i > 0 {
      FilterKeeps(s[1..], p, i - 1);
    }
  }

  lemma {:induction false} FilterConcat<T>(a: seq<T>, b: seq<T>, p: T -> bool)
    ensures Filter(a + b, p) == Filter(a, p) + Filter(b, p)
  {
    if |a| == 0 {
      assert a + b == b;
    } else {
      assert (a + b)[0] == a[0];
      assert (a + b)[1..] == a[1..] + b;
      FilterConcat(a[1..], b, p);
      var head := if p(a[0]) then [a[0]] else [];
      assert Filter(a + b, p) == head + (Filter(a[1..], p) + Filter(b, p));
      assert Filter(a, p) == head + Filter(a[1..], p);
    }
  }

  /** Filtering one more element adds it exactly when it satisfies `p`. */
  lemma FilterSnoc<T>(s: seq<T>, x: T, p: T -> bool)
    ensures Filter(s + [x], p) == Filter(s, p) + (if p(x) then [x] else [])
  {
    FilterConcat(s, [x], p);
    assert [x][1..] == [];
  }

  /** Filtering a prefix one element longer. */
  lemma FilterStep<T>(s: seq<T>, k: nat, p: T -> bool)
    requires k < |s|
    ensures Filter(s[..k + 1], p) == Filter(s[..k], p) + (if p(s[k]) then [s[k]] else [])
  {
    assert s[..k + 1] == s[..k] + [s[k]];
    FilterSnoc(s[..k], s[k], p);
  }

  /** Filtering with a predicate that every element satisfies changes nothing. */
  lemma {:induction false} FilterKeepsAll<T>(s: seq<T>, p: T -> bool)
    requires forall i :: 0 <= i < |s| ==> p(s[i])
    ensures Filter(s, p) == s
  {
    if |s| > 0 {
      FilterKeepsAll(s[1..], p);
    }
  }

  /** How many elements satisfy `p`. */
  function Count<T>(s: seq<T>, p: T -> bool): (n: nat)
    ensures n <= |s|
    ensures n == 0 <==> forall i :: 0 <= i < |s| ==> !p(s[i])
  {
    if |s| == 0 then 0 else (if p(s[|s| - 1]) then 1 else 0) + Count(s[..|s| - 1], p)
  }

  lemma {:induction false} CountConcat<T>(a: seq<T>, b: seq<T>, p: T -> bool)
    ensures Count(a + b, p) == Count(a, p) + Count(b, p)
  {
    if |b| == 0 {
      assert a + b == a;
    } else {
      assert (a + b)[..|a + b| - 1] == a + b[..|b| - 1];
      CountConcat(a, b[..|b| - 1], p);
    }
  }

  ghost predicate NoDuplicates<T>(s: seq<T>) {
    forall i, j :: 0 <= i < j < |s| ==> s[i] != s[j]
  }

  /**
   * The elements of `s` without repetitions, each at the place of its first
   * occurrence: what `[...new Set(s)]` yields.
   */
  function Distinct<T(==)>(s: seq<T>): (r: seq<T>)
    ensures NoDuplicates(r)
    ensures forall i :: 0 <= i < |r| ==> r[i] in s
    ensures forall i :: 0 <= i < |s| ==> s[i] in r
  {
    if |s| == 0 then []
    else
      var d := Distinct(s[..|s| - 1]);
      if s[|s| - 1] in d then d else d + [s[|s| - 1]]
  }

  /** A sequence that already has no repetitions is its own de-duplication. */
  lemma {:induction false} DistinctOfDistinct<T>(s: seq<T>)
    requires NoDuplicates(s)
    ensures Distinct(s) == s
  {
    if |s| > 0 {
      var init := s[..|s| - 1];
      assert NoDuplicates(init);
      DistinctOfDistinct(init);
      assert s[|s| - 1] !in init;
      assert init + [s[|s| - 1]] == s;
    }
  }

  /**
   * Each element keeps the place of its first occurrence: an element that
   * `Distinct` puts before another first occurs in `s` before it.
   */
  lemma {:induction false} DistinctFirstOccurrence<T>(s: seq<T>, x: T)
    requires x in s
    ensures x in Distinct(s)
    ensures Distinct(s)[..IndexIn(Distinct(s), x)] == Distinct(s[..IndexIn(s, x)])
    decreases |s|, 1
  {
    if x in s[..|s| - 1] {
      DistinctFirstEarlier(s, x);
    } else {
      var init := s[..|s| - 1];
      assert x == s[|s| - 1];
      assert IndexIn(s, x) == |s| - 1 by { IndexInLast(s, x); }
      assert s[..IndexIn(s, x)] == init;
      var d := Distinct(init);
      assert x !in d;
      IndexInLast(d + [x], x);
      assert (d + [x])[..|d|] == d;
    }
  }

  /** The case of `DistinctFirstOccurrence` where `x` occurs before the last element. */
  lemma {:induction false} DistinctFirstEarlier<T>(s: seq<T>, x: T)
    requires |s| > 0 && x in s[..|s| - 1]
    ensures x in Distinct(s)
    ensures Distinct(s)[..IndexIn(Distinct(s), x)] == Distinct(s[..IndexIn(s, x)])
    decreases |s|, 0
  {
    var init := s[..|s| - 1];
    var last := s[|s| - 1];
    DistinctFirstOccurrence(init, x);
    assert IndexIn(s, x) == IndexIn(init, x) by { IndexInPrefix(s, init, x); }
    assert s[..IndexIn(s, x)] == init[..IndexIn(init, x)];
    var d := Distinct(init);
    if last !in d {
      IndexInPrefix(d + [last], d, x);
      assert (d + [last])[..IndexIn(d, x)] == d[..IndexIn(d, x)];
    }
  }

  lemma AppendAssoc<T>(a: seq<T>, b: seq<T>, c: seq<T>)
    ensures (a + b) + c == a + (b + c)
  {
  }

  /** Position of the first occurrence of `x` (`indexOf`). */
  function IndexIn<T(==)>(s: seq<T>, x: T): (k: nat)
    requires x in s
    ensures k < |s| && s[k] == x && x !in s[..k]
  {
    if s[0] == x then 0 else 1 + IndexIn(s[1..], x)
  }

  lemma IndexInPrefix<T>(s: seq<T>, pre: seq<T>, x: T)
    requires pre <= s && x in pre
    ensures IndexIn(s, x) == IndexIn(pre, x)
  {
  }

  lemma IndexInLast<T>(s: seq<T>, x: T)
    requires |s| > 0 && s[|s| - 1] == x && x !in s[..|s| - 1]
    ensures IndexIn(s, x) == |s| - 1
  {
  }
}
