/** Sequence helpers: the order-preserving de-duplication a JavaScript `Set`
    performs, sums of reals, and subsequences. */
module Collections {
  import opened Wrappers

  predicate Distinct<T(==)>(s: seq<T>) {
    forall i, j :: 0 <= i < j < |s| ==> s[i] != s[j]
  }

  /** The elements of `s` in the order of their first occurrence, as
      `[...new Set(s)]` lists them. */
  function Dedupe<T(==)>(s: seq<T>): (r: seq<T>)
    ensures |r| <= |s|
  {
    if s == [] then []
    else
      var d := Dedupe(s[..|s| - 1]);
      if s[|s| - 1] in d then d else d + [s[|s| - 1]]
  }

  lemma {:induction false} DedupeFacts<T>(s: seq<T>)
    ensures Distinct(Dedupe(s))
    ensures forall x :: x in Dedupe(s) <==> x in s
  {
    if s != [] {
      DedupeFacts(s[..|s| - 1]);
      assert s == s[..|s| - 1] + [s[|s| - 1]];
    }
  }

  lemma {:induction false} DedupeOfDistinct<T>(s: seq<T>)
    requires Distinct(s)
    ensures Dedupe(s) == s
  {
    if s != [] {
      DedupeOfDistinct(s[..|s| - 1]);
      assert s == s[..|s| - 1] + [s[|s| - 1]];
    }
  }

  lemma {:induction false} DedupeSnoc<T>(s: seq<T>, x: T)
    ensures Dedupe(s + [x]) == if x in Dedupe(s) then Dedupe(s) else Dedupe(s) + [x]
  {
    assert (s + [x])[..|s|] == s;
  }

  lemma TakeSnoc<T>(s: seq<T>, n: nat)
    requires 0 < n <= |s|
    ensures s[..n] == s[..n - 1] + [s[n - 1]]
  {
  }

  /** The sum of a sequence of reals, as `reduce((a, b) => a + b, 0)`. */
  function Sum(s: seq<real>): real {
    if s == [] then 0.0 else s[0] + Sum(s[1..])
  }

  lemma {:induction false} SumSnoc(s: seq<real>, x: real)
    ensures Sum(s + [x]) == Sum(s) + x
  {
    if s != [] {
      SumSnoc(s[1..], x);
      assert (s + [x])[1..] == s[1..] + [x];
    }
  }

  /** Among non-negative reals, each is at most the sum. */
  lemma {:induction false} SumAtLeast(s: seq<real>, i: nat)
    requires forall k :: 0 <= k < |s| ==> s[k] >= 0.0
    requires i < |s|
    ensures 0.0 <= s[i] <= Sum(s)
  {
    if i > 0 {
      SumAtLeast(s[1..], i - 1);
    } else if |s| > 1 {
      SumAtLeast(s[1..], 0);
    } else {
      assert s[1..] == [];
    }
  }

  /** `x * k`, named so that products can be matched as terms. */
  function Scale(x: real, k: real): real {
    x * k
  }

  /** Scaling every element scales the sum. */
  lemma {:induction false} SumScaled(xs: seq<real>, ys: seq<real>, k: real)
    requires |xs| == |ys|
    requires forall i :: 0 <= i < |xs| ==> xs[i] == Scale(ys[i], k)
    ensures Sum(xs) == Scale(Sum(ys), k)
  {
    if xs != [] {
      SumScaled(xs[1..], ys[1..], k);
      assert xs[0] + Sum(ys[1..]) * k == (ys[0] + Sum(ys[1..])) * k;
    }
  }

  /** `s.slice(0, n)`. */
  function Take<T>(s: seq<T>, n: nat): (r: seq<T>)
    ensures |r| == if |s| <= n then |s| else n
    ensures r == s[..|r|]
  {
    if |s| <= n then s else s[..n]
  }

  /** The first occurrences of the elements of `a` come first in `a + b`. */
  lemma {:induction false} DedupePrefix<T>(a: seq<T>, b: seq<T>)
    ensures |Dedupe(a)| <= |Dedupe(a + b)|
    ensures Dedupe(a + b)[..|Dedupe(a)|] == Dedupe(a)
    decreases |b|
  {
    if b == [] {
      assert a + b == a;
    } else {
      var b' := b[..|b| - 1];
      DedupePrefix(a, b');
      assert a + b == (a + b') + [b[|b| - 1]];
      DedupeSnoc(a + b', b[|b| - 1]);
    }
  }

  /** The values `f` yields for the elements of `s`, in order, as a
      `for` loop that skips the elements `f` rejects collects them. */
  function FilterMap<A, B>(s: seq<A>, f: A -> Option<B>): (r: seq<B>)
    ensures |r| <= |s|
  {
    if s == [] then []
    else
      var front := FilterMap(s[..|s| - 1], f);
      match f(s[|s| - 1])
      case None => front
      case Some(y) => front + [y]
  }

  lemma {:induction false} FilterMapSnoc<A, B>(s: seq<A>, x: A, f: A -> Option<B>)
    ensures FilterMap(s + [x], f) == FilterMap(s, f) + (if f(x).Some? then [f(x).value] else [])
  {
    assert (s + [x])[..|s|] == s;
  }

  /** One more element of `s` read by a loop that collects `FilterMap`. */
  lemma FilterMapStep<A, B>(s: seq<A>, i: nat, f: A -> Option<B>)
    requires i < |s|
    ensures FilterMap(s[..i + 1], f) == FilterMap(s[..i], f) + (if f(s[i]).Some? then [f(s[i]).value] else [])
  {
    assert s[..i + 1] == s[..i] + [s[i]];
    FilterMapSnoc(s[..i], s[i], f);
  }

  lemma {:induction false} FilterMapPrefix<A, B>(s: seq<A>, i: nat, f: A -> Option<B>)
    requires i <= |s|
    ensures FilterMap(s[..i], f) <= FilterMap(s, f)
    decreases |s| - i
  {
    if i < |s| {
      FilterMapPrefix(s, i + 1, f);
      assert s[..i + 1] == s[..i] + [s[i]];
      FilterMapSnoc(s[..i], s[i], f);
    } else {
      assert s[..i] == s;
    }
  }

  lemma {:induction false} FilterMapMembers<A, B>(s: seq<A>, f: A -> Option<B>)
    ensures forall y :: y in FilterMap(s, f) ==> exists k :: 0 <= k < |s| && f(s[k]) == Some(y)
    ensures forall k :: 0 <= k < |s| && f(s[k]).Some? ==> f(s[k]).value in FilterMap(s, f)
  {
    if s != [] {
      var front := s[..|s| - 1];
      var last := s[|s| - 1];
      FilterMapMembers(front, f);
      assert s == front + [last];
      FilterMapSnoc(front, last, f);
      forall y | y in FilterMap(s, f)
        ensures exists k :: 0 <= k < |s| && f(s[k]) == Some(y)
      {
        if y in FilterMap(front, f) {
          var k :| 0 <= k < |front| && f(front[k]) == Some(y);
          assert f(s[k]) == Some(y);
        } else {
          assert f(s[|s| - 1]) == Some(y);
        }
      }
      forall k | 0 <= k < |s| && f(s[k]).Some?
        ensures f(s[k]).value in FilterMap(s, f)
      {
        if k < |front| {
          assert f(front[k]) == f(s[k]);
        }
      }
    }
  }

  function MinInt(x: int, y: int): int { if x <= y then x else y }
  function MaxInt(x: int, y: int): int { if x >= y then x else y }
  function MinReal(x: real, y: real): real { if x <= y then x else y }
  function MaxReal(x: real, y: real): real { if x >= y then x else y }

  /** `sub` is `s` with some elements left out, order kept. */
  ghost predicate IsSubsequence<T>(sub: seq<T>, s: seq<T>) {
    exists idx: seq<nat> ::
      |idx| == |sub|
      && (forall k :: 0 <= k < |idx| ==> idx[k] < |s| && s[idx[k]] == sub[k])
      && (forall k, l :: 0 <= k < l < |idx| ==> idx[k] < idx[l])
  }

  lemma {:induction false} SubsequenceSnoc<T>(sub: seq<T>, s: seq<T>, x: T, keep: bool)
    requires IsSubsequence(sub, s)
    ensures IsSubsequence(if keep then sub + [x] else sub, s + [x])
  {
    var idx: seq<nat> :| |idx| == |sub|
      && (forall k :: 0 <= k < |idx| ==> idx[k] < |s| && s[idx[k]] == sub[k])
      && (forall k, l :: 0 <= k < l < |idx| ==> idx[k] < idx[l]);
    if keep {
      var idx' := idx + [|s|];
      assert forall k :: 0 <= k < |idx'| ==> idx'[k] < |s + [x]| && (s + [x])[idx'[k]] == (sub + [x])[k];
    } else {
      assert forall k :: 0 <= k < |idx| ==> idx[k] < |s + [x]| && (s + [x])[idx[k]] == sub[k];
    }
  }

  /** The elements of `s` that satisfy `p`, in order (`s.filter(p)`). */
  function Filter<T>(s: seq<T>, p: T -> bool): (r: seq<T>)
    ensures |r| <= |s|
  {
    if s == [] then []
    else
      var front := Filter(s[..|s| - 1], p);
      if p(s[|s| - 1]) then front + [s[|s| - 1]] else front
  }

  /** One more element of `s` read by a loop that collects `Filter`. */
  lemma FilterStep<T>(s: seq<T>, i: nat, p: T -> bool)
    requires i < |s|
    ensures Filter(s[..i + 1], p) == Filter(s[..i], p) + (if p(s[i]) then [s[i]] else [])
  {
    assert s[..i + 1][..i] == s[..i];
  }

  lemma {:induction false} FilterMembers<T>(s: seq<T>, p: T -> bool)
    ensures forall x :: x in Filter(s, p) <==> x in s && p(x)
  {
    if s != [] {
      FilterMembers(s[..|s| - 1], p);
      assert s == s[..|s| - 1] + [s[|s| - 1]];
    }
  }

  /** Filtering never adds an element or repeats one. */
  lemma {:induction false} FilterMultiset<T>(s: seq<T>, p: T -> bool)
    ensures multiset(Filter(s, p)) <= multiset(s)
  {
    if s != [] {
      FilterMultiset(s[..|s| - 1], p);
      assert s == s[..|s| - 1] + [s[|s| - 1]];
    }
  }

  /** Filtering distinct elements leaves distinct elements. */
  lemma {:induction false} FilterDistinct<T>(s: seq<T>, p: T -> bool)
    requires Distinct(s)
    ensures Distinct(Filter(s, p))
  {
    if s != [] {
      var front := s[..|s| - 1];
      FilterDistinct(front, p);
      FilterMembers(front, p);
      var f := Filter(front, p);
      if p(s[|s| - 1]) {
        assert s[|s| - 1] !in front by {
          forall k | 0 <= k < |front|
            ensures front[k] != s[|s| - 1]
          {
            assert front[k] == s[k];
          }
        }
        forall i | 0 <= i < |f|
          ensures f[i] != s[|s| - 1]
        {
          assert f[i] in f;
        }
      }
    }
  }

  /** Filtering by a test every element passes changes nothing. */
  lemma {:induction false} FilterAll<T>(s: seq<T>, p: T -> bool)
    requires forall i :: 0 <= i < |s| ==> p(s[i])
    ensures Filter(s, p) == s
  {
    if s != [] {
      FilterAll(s[..|s| - 1], p);
    }
  }

  /** Over distinct elements, results that each name the element they came
      from name distinct elements. */
  lemma {:induction false} FilterMapKeysDistinct<A, B>(s: seq<A>, f: A -> Option<B>, key: B -> A)
    requires Distinct(s)
    requires forall i :: 0 <= i < |s| && f(s[i]).Some? ==> key(f(s[i]).value) == s[i]
    ensures forall i, j :: 0 <= i < j < |FilterMap(s, f)| ==> key(FilterMap(s, f)[i]) != key(FilterMap(s, f)[j])
  {
    if s != [] {
      var front := s[..|s| - 1];
      var last := s[|s| - 1];
      FilterMapKeysDistinct(front, f, key);
      FilterMapMembers(front, f);
      assert s == front + [last];
      FilterMapSnoc(front, last, f);
      var r := FilterMap(s, f);
      var rf := FilterMap(front, f);
      if f(last).Some? {
        forall i | 0 <= i < |rf|
          ensures key(rf[i]) != last
        {
          assert rf[i] in rf;
          var k :| 0 <= k < |front| && f(front[k]) == Some(rf[i]);
          assert s[k] == front[k];
        }
        forall i, j | 0 <= i < j < |r|
          ensures key(r[i]) != key(r[j])
        {
          if j == |rf| {
            assert r[i] == rf[i];
          } else {
            assert r[i] == rf[i] && r[j] == rf[j];
          }
        }
      }
    }
  }

  /** `Filter` keeps its survivors in their original order. */
  lemma {:induction false} FilterSubsequence<T>(s: seq<T>, p: T -> bool)
    ensures IsSubsequence(Filter(s, p), s)
  {
    if s == [] {
      EmptySubsequence(s);
    } else {
      var front := s[..|s| - 1];
      FilterSubsequence(front, p);
      FilterSubsequenceSnoc(front, s[|s| - 1], p);
      assert front + [s[|s| - 1]] == s;
    }
  }

  lemma FilterSubsequenceSnoc<T>(front: seq<T>, last: T, p: T -> bool)
    requires IsSubsequence(Filter(front, p), front)
    ensures IsSubsequence(Filter(front + [last], p), front + [last])
  {
    assert (front + [last])[..|front|] == front;
    SubsequenceSnoc(Filter(front, p), front, last, p(last));
  }

  lemma EmptySubsequence<T>(s: seq<T>)
    ensures IsSubsequence([], s)
  {
    var idx: seq<nat> := [];
    assert |idx| == 0;
  }

  /** `FilterMap` only looks at the elements of `s`. */
  lemma {:induction false} FilterMapCongruence<A, B>(s: seq<A>, f: A -> Option<B>, g: A -> Option<B>)
    requires forall i :: 0 <= i < |s| ==> f(s[i]) == g(s[i])
    ensures FilterMap(s, f) == FilterMap(s, g)
  {
    if s != [] {
      FilterMapCongruence(s[..|s| - 1], f, g);
    }
  }

  // ---------------------------------------------------------------------
  // Shuffling by swaps

  /** Swap indices for a shuffle from the back: the index drawn at step
      `i` is `swaps(i)`, which never exceeds `i`. */
  ghost predicate ValidSwaps(swaps: nat -> nat) {
    forall i: nat :: swaps(i) <= i
  }

  function Swap<T>(s: seq<T>, i: nat, j: nat): (r: seq<T>)
    requires i < |s| && j < |s|
    ensures |r| == |s|
  {
    s[i := s[j]][j := s[i]]
  }

  lemma SwapPermutes<T>(s: seq<T>, i: nat, j: nat)
    requires i < |s| && j < |s|
    ensures multiset(Swap(s, i, j)) == multiset(s)
  {
    var t := s[i := s[j]];
    assert multiset(t) == multiset(s) - multiset{s[i]} + multiset{s[j]};
    if i != j {
      assert t[j] == s[j];
    }
  }

  /** The swaps of steps `i` down to 1 applied to `s`. */
  function ShuffleDown<T>(s: seq<T>, swaps: nat -> nat, i: nat): (r: seq<T>)
    requires ValidSwaps(swaps) && i < |s|
    ensures |r| == |s|
    decreases i
  {
    if i == 0 then s else ShuffleDown(Swap(s, i, swaps(i)), swaps, i - 1)
  }

  /** The items shuffled from the back with the indices `swaps`. */
  function Shuffled<T>(items: seq<T>, swaps: nat -> nat): (r: seq<T>)
    requires ValidSwaps(swaps)
    ensures |r| == |items|
  {
    if items == [] then [] else ShuffleDown(items, swaps, |items| - 1)
  }

  lemma {:induction false} ShuffleDownPermutes<T>(s: seq<T>, swaps: nat -> nat, i: nat)
    requires ValidSwaps(swaps) && i < |s|
    ensures multiset(ShuffleDown(s, swaps, i)) == multiset(s)
    decreases i
  {
    if i > 0 {
      var t := Swap(s, i, swaps(i));
      ShuffleDownPermutes(t, swaps, i - 1);
      SwapPermutes(s, i, swaps(i));
    }
  }

  /** The shuffle rearranges the items: same elements, same number. */
  lemma ShuffledPermutes<T>(items: seq<T>, swaps: nat -> nat)
    requires ValidSwaps(swaps)
    ensures multiset(Shuffled(items, swaps)) == multiset(items)
  {
    if items != [] {
      ShuffleDownPermutes(items, swaps, |items| - 1);
    }
  }

}
