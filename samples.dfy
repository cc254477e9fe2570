/**
 * Sample buffers as sequences of reals: absolute value, peaks over index
 * ranges, scaling by a gain, and the concatenation of a list of chunks.
 * Float32Array rounding is not modelled; every sample is an exact real.
 */
module Samples {

  /** `Math.abs` on a real sample. */
  function Abs(x: real): real {
    if x < 0.0 then -x else x
  }

  /** `Math.max` of two reals. */
  function Max(a: real, b: real): real {
    if a >= b then a else b
  }

  /** `Math.min` of two integers. */
  function Min(a: int, b: int): int {
    if a <= b then a else b
  }

  /**
   * The running maximum `m = Math.max(m, Math.abs(s[j]))` over `lo <= j < hi`,
   * started from 0, as every scan of the enhancement stages computes it.
   */
  function RangePeak(s: seq<real>, lo: nat, hi: nat): real
    requires lo <= hi <= |s|
    decreases hi - lo
  {
    if lo == hi then 0.0 else Max(RangePeak(s, lo, hi - 1), Abs(s[hi - 1]))
  }

  /**
   * The scan's result is the least upper bound of the absolute samples of
   * the range: non-negative, at least every one of them, and either 0 (an
   * empty or silent range) or attained by one of them.
   */
  lemma {:induction false} RangePeakBounds(s: seq<real>, lo: nat, hi: nat)
    requires lo <= hi <= |s|
    ensures 0.0 <= RangePeak(s, lo, hi)
    ensures forall j :: lo <= j < hi ==> Abs(s[j]) <= RangePeak(s, lo, hi)
    ensures RangePeak(s, lo, hi) == 0.0 || exists j :: lo <= j < hi && RangePeak(s, lo, hi) == Abs(s[j])
    decreases hi - lo
  {
    if lo < hi {
      RangePeakBounds(s, lo, hi - 1);
    }
  }

  /** The absolute peak of a whole buffer. */
  function Peak(s: seq<real>): real {
    RangePeak(s, 0, |s|)
  }

  /** Every sample multiplied by the gain `c`. */
  function Scale(s: seq<real>, c: real): (r: seq<real>)
    ensures |r| == |s|
  {
    seq(|s|, i requires 0 <= i < |s| => s[i] * c)
  }

  /** A value that bounds every absolute sample and is attained by one of them is the peak. */
  lemma PeakIs(s: seq<real>, v: real, k: nat)
    requires k < |s| && Abs(s[k]) == v
    requires forall j :: 0 <= j < |s| ==> Abs(s[j]) <= v
    ensures Peak(s) == v
  {
    RangePeakBounds(s, 0, |s|);
  }

  /** `Abs` commutes with a non-negative gain. */
  lemma AbsScaled(x: real, g: real)
    requires 0.0 <= g
    ensures Abs(x * g) == Abs(x) * g
  {
    if x < 0.0 { assert x * g <= 0.0; } else { assert x * g >= 0.0; }
  }

  /** The in-order concatenation of a list of chunks. */
  function Flatten(chunks: seq<seq<real>>): seq<real> {
    if chunks == [] then [] else chunks[0] + Flatten(chunks[1..])
  }

  /** The summed length of the chunks, as `_mergeAudioChunks` computes it first. */
  function TotalLength(chunks: seq<seq<real>>): nat {
    if chunks == [] then 0 else |chunks[0]| + TotalLength(chunks[1..])
  }

  /** The concatenation holds exactly the summed length of the chunks. */
  lemma {:induction false} FlattenLength(chunks: seq<seq<real>>)
    ensures |Flatten(chunks)| == TotalLength(chunks)
  {
    if chunks != [] {
      FlattenLength(chunks[1..]);
    }
  }

  /** Concatenation distributes over appending chunk lists. */
  lemma {:induction false} FlattenConcat(a: seq<seq<real>>, b: seq<seq<real>>)
    ensures Flatten(a + b) == Flatten(a) + Flatten(b)
  {
    if a == [] {
      assert a + b == b;
    } else {
      assert (a + b)[0] == a[0];
      assert (a + b)[1..] == a[1..] + b;
      FlattenConcat(a[1..], b);
    }
  }

  /** Taking one more chunk of the list appends that chunk and adds its length. */
  lemma FlattenSnoc(chunks: seq<seq<real>>, c: nat)
    requires c < |chunks|
    ensures Flatten(chunks[..c + 1]) == Flatten(chunks[..c]) + chunks[c]
    ensures TotalLength(chunks[..c + 1]) == TotalLength(chunks[..c]) + |chunks[c]|
  {
    assert chunks[..c + 1] == chunks[..c] + [chunks[c]];
    FlattenConcat(chunks[..c], [chunks[c]]);
    assert Flatten([chunks[c]]) == chunks[c] + Flatten([]);
    FlattenLength(chunks[..c + 1]);
    FlattenLength(chunks[..c]);
  }

  /** The chunks before `c` hold at most all the samples. */
  lemma FlattenPrefix(chunks: seq<seq<real>>, c: nat)
    requires c <= |chunks|
    ensures TotalLength(chunks[..c]) <= TotalLength(chunks)
  {
    assert chunks == chunks[..c] + chunks[c..];
    FlattenConcat(chunks[..c], chunks[c..]);
    FlattenLength(chunks);
    FlattenLength(chunks[..c]);
    FlattenLength(chunks[c..]);
  }
}
