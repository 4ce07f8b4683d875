/**
  Batch ranges over `[0, n)`: batch `s` covers `[s * size, min((s + 1) * size, n))`,
  and there are `ceil(n / size)` of them.
 */
module Batching {

  /** `math.ceil(n / size)`: the least number of batches of `size` that hold `n` items. */
  function CeilDiv(n: nat, size: nat): (r: nat)
    requires size >= 1
    ensures r * size >= n
    ensures r == 0 || (r - 1) * size < n
  {
    if n == 0 then 0 else 1 + CeilDiv(if n <= size then 0 else n - size, size)
  }

  /** `xs[a:b]` for non-negative bounds: Python clamps both to the length. */
  function Slice<T>(xs: seq<T>, a: nat, b: nat): (r: seq<T>)
    ensures a <= b <= |xs| ==> r == xs[a..b]
    ensures |r| <= if b < a then 0 else b - a
  {
    var hi := if b < |xs| then b else |xs|;
    var lo := if a < hi then a else hi;
    xs[lo..hi]
  }

  /** Slicing on from where a prefix stops extends that prefix. */
  lemma SliceExtends<T>(xs: seq<T>, a: nat, b: nat)
    requires a <= b
    ensures xs[..if a < |xs| then a else |xs|] + Slice(xs, a, b) == xs[..if b < |xs| then b else |xs|]
  {
  }

  /** The first index of batch `s`. */
  function BatchStart(s: nat, size: nat): nat {
    s * size
  }

  /** One past the last index of batch `s`, clamped to `n`. */
  function BatchEnd(s: nat, size: nat, n: nat): nat {
    if (s + 1) * size < n then (s + 1) * size else n
  }

  /** The batches tile `[0, n)`: each one is non-empty and holds at most `size`
      indices, the first starts at 0, each ends where the next starts, and
      the last ends at `n`. */
  lemma BatchesTile(n: nat, size: nat, s: nat)
    requires size >= 1 && s < CeilDiv(n, size)
    ensures BatchStart(s, size) < BatchEnd(s, size, n) <= BatchStart(s, size) + size
    ensures s + 1 < CeilDiv(n, size) ==> BatchEnd(s, size, n) == BatchStart(s + 1, size)
    ensures s + 1 == CeilDiv(n, size) ==> BatchEnd(s, size, n) == n
  {
    var steps := CeilDiv(n, size);
    assert s * size <= (steps - 1) * size by {
      MulMono(s, steps - 1, size);
    }
    assert (s + 1) * size == s * size + size;
    if s + 1 < steps {
      assert (s + 1) * size <= (steps - 1) * size by {
        MulMono(s + 1, steps - 1, size);
      }
    }
  }

  /** Batch `s` of `xs` is the slice `xs[s * size:(s + 1) * size]`. */
  lemma BatchSlice<T>(xs: seq<T>, size: nat, s: nat)
    requires size >= 1 && s < CeilDiv(|xs|, size)
    ensures Slice(xs, s * size, (s + 1) * size) == xs[BatchStart(s, size)..BatchEnd(s, size, |xs|)]
  {
    BatchesTile(|xs|, size, s);
  }

  lemma MulMono(a: nat, b: nat, c: nat)
    requires a <= b
    ensures a * c <= b * c
  {
  }
}
