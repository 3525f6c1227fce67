/** Bounded histories: Python's `xs[-n:]` applied only when `len(xs) > n`. */
module Seqs {

  function Min(a: int, b: int): int { if a <= b then a else b }

  /** `[f(x) for x in xs]`. */
  function Map<A, B>(f: A -> B, xs: seq<A>): (ys: seq<B>)
    ensures |ys| == |xs|
    ensures forall i :: 0 <= i < |xs| ==> ys[i] == f(xs[i])
  {
    seq(|xs|, i requires 0 <= i < |xs| => f(xs[i]))
  }

  /** The first `i + 1` elements are the first `i` and then element `i`. */
  lemma PrefixSnoc<T>(xs: seq<T>, i: nat)
    requires i < |xs|
    ensures xs[..i + 1] == xs[..i] + [xs[i]]
  {
  }

  /** Sequences with the same elements at every index are equal. */
  lemma SameElements<T>(a: seq<T>, b: seq<T>)
    requires |a| == |b| && forall i :: 0 <= i < |a| ==> a[i] == b[i]
    ensures a == b
  {
  }

  /** Mapping two parts maps their concatenation. */
  lemma MapConcat<A, B>(f: A -> B, xs: seq<A>, ys: seq<A>)
    ensures Map(f, xs + ys) == Map(f, xs) + Map(f, ys)
  {
    var m := Map(f, xs + ys);
    forall i | 0 <= i < |m| ensures m[i] == (Map(f, xs) + Map(f, ys))[i] {
      if i < |xs| {
        assert (xs + ys)[i] == xs[i];
      } else {
        assert (xs + ys)[i] == ys[i - |xs|];
      }
    }
  }

  /** `xs[-n:] if len(xs) > n else xs`: the newest `n` entries, in order. */
  function KeepLast<T>(xs: seq<T>, n: nat): (r: seq<T>)
    ensures |r| == Min(|xs|, n)
    ensures r == xs[|xs| - |r|..]
  {
    if |xs| > n then xs[|xs| - n..] else xs
  }

  /** Trimming is idempotent and a no-op below the cap. */
  lemma KeepLastIdempotent<T>(xs: seq<T>, n: nat)
    ensures KeepLast(KeepLast(xs, n), n) == KeepLast(xs, n)
    ensures |xs| <= n ==> KeepLast(xs, n) == xs
  {
  }

  /** Trimming early and appending more is the same as trimming once at the
      end: whatever the moments at which trimming happens, what survives is
      always the newest `n` entries in the order they were added. */
  lemma {:induction false} KeepLastAppend<T>(xs: seq<T>, ys: seq<T>, n: nat)
    ensures KeepLast(KeepLast(xs, n) + ys, n) == KeepLast(xs + ys, n)
  {
    var k := KeepLast(xs, n);
    var r1 := KeepLast(k + ys, n);
    var r2 := KeepLast(xs + ys, n);
    assert |r1| == |r2|;
    forall i | 0 <= i < |r1| ensures r1[i] == r2[i] {
      var m := |r1|;
      if |ys| - m + i >= 0 {
        assert r1[i] == ys[|ys| - m + i];
        assert r2[i] == ys[|ys| - m + i];
      } else {
        assert r1[i] == k[|k| + |ys| - m + i];
        assert r2[i] == xs[|xs| + |ys| - m + i];
      }
    }
  }
}
