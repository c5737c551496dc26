/** `Array.prototype.filter`, `map` and `splice`, and the counting done with
    `forEach`, on sequences. */
module Seqs {

  /** `s.filter(p)`: the elements of `s` that satisfy `p`, in their order. */
  function Filter<T>(s: seq<T>, p: T -> bool): (r: seq<T>)
    ensures |r| <= |s|
    ensures forall k | 0 <= k < |r| :: p(r[k])
  {
    if s == [] then [] else Filter(s[..|s| - 1], p) + (if p(s[|s| - 1]) then [s[|s| - 1]] else [])
  }

  /** The sum of `f` over `s`, accumulated front to back. */
  function SumOf<T>(s: seq<T>, f: T -> nat): nat {
    if s == [] then 0 else SumOf(s[..|s| - 1], f) + f(s[|s| - 1])
  }

  /** Filtering a concatenation filters each part and keeps them in order. */
  lemma {:induction false} FilterAppend<T>(a: seq<T>, b: seq<T>, p: T -> bool)
    ensures Filter(a + b, p) == Filter(a, p) + Filter(b, p)
    decreases |b|
  {
    if b == [] {
      assert a + b == a;
    } else {
      var b' := b[..|b| - 1];
      assert (a + b)[..|a + b| - 1] == a + b';
      FilterAppend(a, b', p);
    }
  }

  /** An element that fails the test can be appended without changing the filter. */
  lemma AppendRejected<T>(s: seq<T>, x: T, p: T -> bool)
    requires !p(x)
    ensures Filter(s + [x], p) == Filter(s, p)
  {
    assert (s + [x])[..|s|] == s;
  }

  /** An element survives the filter exactly when it was there and passes. */
  lemma {:induction false} FilterMembership<T>(s: seq<T>, p: T -> bool, x: T)
    ensures x in Filter(s, p) <==> x in s && p(x)
  {
    if s != [] {
      var init := s[..|s| - 1];
      FilterMembership(init, p, x);
      assert s == init + [s[|s| - 1]];
    }
  }

  /** Filtering keeps everything when every element passes. */
  lemma {:induction false} FilterKeepsAll<T>(s: seq<T>, p: T -> bool)
    requires forall k | 0 <= k < |s| :: p(s[k])
    ensures Filter(s, p) == s
  {
    if s != [] {
      FilterKeepsAll(s[..|s| - 1], p);
    }
  }

  /** Filtering twice with the same test is filtering once. */
  lemma FilterIdempotent<T>(s: seq<T>, p: T -> bool)
    ensures Filter(Filter(s, p), p) == Filter(s, p)
  {
    FilterKeepsAll(Filter(s, p), p);
  }

  /** Sums of at most `k` per element are at most `k` times the length. */
  lemma {:induction false} SumOfBound<T>(s: seq<T>, f: T -> nat, k: nat)
    requires forall i | 0 <= i < |s| :: f(s[i]) <= k
    ensures SumOf(s, f) <= k * |s|
  {
    if s != [] {
      var init := s[..|s| - 1];
      assert forall i | 0 <= i < |init| :: init[i] == s[i];
      SumOfBound(init, f, k);
      assert k * |s| == k * |init| + k;
    }
  }

  /** Sums of exactly `k` per element are `k` times the length. */
  lemma {:induction false} SumOfConstant<T>(s: seq<T>, f: T -> nat, k: nat)
    requires forall i | 0 <= i < |s| :: f(s[i]) == k
    ensures SumOf(s, f) == k * |s|
  {
    if s != [] {
      var init := s[..|s| - 1];
      assert forall i | 0 <= i < |init| :: init[i] == s[i];
      SumOfConstant(init, f, k);
      assert k * |s| == k * |init| + k;
    }
  }

  /** Narrowing a filter to `keep` from a wider test `valid` only drops
      elements that count zero: the sum is the same and there are no more
      elements than before. */
  lemma {:induction false} NarrowerFilterDropsZeros<T>(s: seq<T>, keep: T -> bool, valid: T -> bool, f: T -> nat)
    requires forall i | 0 <= i < |s| :: keep(s[i]) ==> valid(s[i])
    requires forall i | 0 <= i < |s| :: valid(s[i]) && !keep(s[i]) ==> f(s[i]) == 0
    ensures SumOf(Filter(s, keep), f) == SumOf(Filter(s, valid), f)
    ensures |Filter(s, keep)| <= |Filter(s, valid)|
  {
    if s != [] {
      var init, x := s[..|s| - 1], s[|s| - 1];
      assert forall i | 0 <= i < |init| :: init[i] == s[i];
      NarrowerFilterDropsZeros(init, keep, valid, f);
      var fk, fv := Filter(init, keep), Filter(init, valid);
      SumOfAppendOne(fk, x, f);
      SumOfAppendOne(fv, x, f);
      assert fk + [] == fk && fv + [] == fv;
      if keep(x) {
        assert Filter(s, keep) == fk + [x] && Filter(s, valid) == fv + [x];
      } else if valid(x) {
        assert Filter(s, keep) == fk && Filter(s, valid) == fv + [x];
        assert f(x) == 0;
      } else {
        assert Filter(s, keep) == fk && Filter(s, valid) == fv;
      }
    }
  }

  lemma SumOfAppendOne<T>(s: seq<T>, x: T, f: T -> nat)
    ensures SumOf(s + [x], f) == SumOf(s, f) + f(x)
  {
    assert (s + [x])[..|s|] == s;
  }

  /** `s.map(f)` */
  function Map<A, B>(s: seq<A>, f: A -> B): (r: seq<B>)
    ensures |r| == |s|
    ensures forall k | 0 <= k < |s| :: r[k] == f(s[k])
  {
    seq(|s|, k requires 0 <= k < |s| => f(s[k]))
  }

  /** Mapping out and back again gives the original when `g` undoes `f` on it. */
  lemma MapRoundTrip<A, B>(s: seq<A>, f: A -> B, g: B -> A)
    requires forall k | 0 <= k < |s| :: g(f(s[k])) == s[k]
    ensures Map(Map(s, f), g) == s
  {
  }

  lemma MapAppend<A, B>(s: seq<A>, x: A, f: A -> B)
    ensures Map(s + [x], f) == Map(s, f) + [f(x)]
  {
  }

  lemma MapUpdate<A, B>(s: seq<A>, i: nat, x: A, f: A -> B)
    requires i < |s|
    ensures Map(s[i := x], f) == Map(s, f)[i := f(x)]
  {
  }

  /** Where `splice(index, 1)` starts on an array of length `len`: a negative
      index counts from the end, and both ends are clamped. */
  function SpliceStart(len: nat, index: int): (start: nat)
    ensures start <= len
    ensures 0 <= index <= len ==> start == index
    ensures index < 0 && 0 <= len + index ==> start == len + index
    ensures len + index < 0 ==> start == 0
  {
    if index < 0 then (if len + index < 0 then 0 else len + index)
    else if index > len then len else index
  }

  /** `s.splice(index, 1)` applied to a copy of `s`. */
  function Spliced<T>(s: seq<T>, index: int): (r: seq<T>)
    ensures var start := SpliceStart(|s|, index);
            if start < |s| then
              && |r| == |s| - 1
              && (forall k | 0 <= k < start :: r[k] == s[k])
              && (forall k | start <= k < |r| :: r[k] == s[k + 1])
            else r == s
  {
    var start := SpliceStart(|s|, index);
    if start < |s| then s[..start] + s[start + 1..] else s
  }

  lemma MapSpliced<A, B>(s: seq<A>, index: int, f: A -> B)
    ensures Map(Spliced(s, index), f) == Spliced(Map(s, f), index)
  {
  }
}
