/** The streaming resampler and the whole-clip resampler of internal/audio.

    Samples are integers and interpolation is done in exact rationals: a value
    `a + (b - a) * f / dst` is truncated toward zero, as Go's `int16(x)` does.
    The whole-clip output (`WholeClip`) is the reference; the streaming class is
    proved to produce it for every way of cutting the clip into pushes. */
module Resampler {
  import opened Arithmetic
  import opened Basics

  // ---------- positions ----------

  /** Input index under output k. */
  function Pos(k: nat, src: int, dst: int): nat
    requires src > 0 && dst > 0
  {
    DivBelow(k * src, dst, 0);
    k * src / dst
  }

  /** Distance of output k behind that index, in units of 1/dst. */
  function Frac(k: nat, src: int, dst: int): (f: nat)
    requires src > 0 && dst > 0
    ensures f < dst
  {
    k * src % dst
  }

  /** Length of the resampling of n samples. */
  function Limit(n: nat, src: int, dst: int): nat
    requires src > 0 && dst > 0
  {
    DivBelow(n * dst, src, 0);
    n * dst / src
  }

  lemma {:induction false} PosIs(k: nat, src: int, dst: int, i: nat)
    requires src > 0 && dst > 0
    ensures Pos(k, src, dst) < i <==> k * src < i * dst
  {
    DivBelow(k * src, dst, i);
  }

  lemma {:induction false} LimitIs(n: nat, src: int, dst: int, k: nat)
    requires src > 0 && dst > 0
    ensures k < Limit(n, src, dst) <==> k * src + src <= n * dst
  {
    DivBelow(n * dst, src, k + 1);
    assert (k + 1) * src == k * src + src;
  }

  lemma {:induction false} PosGrows(k: nat, src: int, dst: int)
    requires src > 0 && dst > 0
    ensures Pos(k, src, dst) <= Pos(k + 1, src, dst)
  {
    var i := Pos(k + 1, src, dst) + 1;
    PosIs(k + 1, src, dst, i);
    PosIs(k, src, dst, i);
    assert (k + 1) * src == k * src + src;
  }

  lemma {:induction false} LimitGrows(n: nat, m: nat, src: int, dst: int)
    requires src > 0 && dst > 0 && n <= m
    ensures Limit(n, src, dst) <= Limit(m, src, dst)
  {
    var k := Limit(n, src, dst);
    if k > 0 {
      LimitIs(n, src, dst, k - 1);
      LimitIs(m, src, dst, k - 1);
      Scale(n, m, dst);
    }
  }

  /** Outputs below the limit have their input index inside the clip. */
  lemma {:induction false} PosInClip(k: nat, n: nat, src: int, dst: int)
    requires src > 0 && dst > 0 && k < Limit(n, src, dst)
    ensures Pos(k, src, dst) < n
  {
    PosIs(k, src, dst, n);
    LimitIs(n, src, dst, k);
  }

  // ---------- exact interpolation ----------

  /** The value a fraction f/dst of the way from a to b, truncated toward zero. */
  function Lerp(a: int, b: int, f: int, dst: int): int
    requires dst > 0
  {
    TruncDiv(a * dst + (b - a) * f, dst)
  }

  /** Output sample k of a clip; past the last sample the value is held. */
  function SampleAt(clip: seq<int>, k: nat, src: int, dst: int): int
    requires src > 0 && dst > 0 && Pos(k, src, dst) < |clip|
  {
    var i := Pos(k, src, dst);
    if i + 1 < |clip| then Lerp(clip[i], clip[i + 1], Frac(k, src, dst), dst) else clip[i]
  }

  /** Outputs a..b of a clip. */
  function Outputs(clip: seq<int>, a: nat, b: nat, src: int, dst: int): seq<int>
    requires src > 0 && dst > 0 && a <= b <= Limit(|clip|, src, dst)
    decreases b - a
  {
    if a == b then []
    else
      PosInClip(b - 1, |clip|, src, dst);
      Outputs(clip, a, b - 1, src, dst) + [SampleAt(clip, b - 1, src, dst)]
  }

  /** Reference: the resampling of a whole clip. */
  function WholeClip(clip: seq<int>, src: int, dst: int): seq<int>
    requires src > 0 && dst > 0
  {
    Outputs(clip, 0, Limit(|clip|, src, dst), src, dst)
  }

  /** The reference, sample by sample. */
  lemma {:induction false} OutputsAt(clip: seq<int>, a: nat, b: nat, src: int, dst: int, k: nat)
    requires src > 0 && dst > 0 && a <= k < b <= Limit(|clip|, src, dst)
    ensures |Outputs(clip, a, b, src, dst)| == b - a
    ensures Pos(k, src, dst) < |clip| && Outputs(clip, a, b, src, dst)[k - a] == SampleAt(clip, k, src, dst)
    decreases b
  {
    hide Pos, Limit, SampleAt;
    PosInClip(k, |clip|, src, dst);
    OutputsLength(clip, a, b - 1, src, dst);
    if k < b - 1 {
      OutputsAt(clip, a, b - 1, src, dst, k);
    }
  }

  lemma {:induction false} OutputsLength(clip: seq<int>, a: nat, b: nat, src: int, dst: int)
    requires src > 0 && dst > 0 && a <= b <= Limit(|clip|, src, dst)
    ensures |Outputs(clip, a, b, src, dst)| == b - a
    decreases b
  {
    hide Pos, Limit, SampleAt;
    if a < b {
      OutputsLength(clip, a, b - 1, src, dst);
    }
  }

  lemma {:induction false} OutputsSplit(clip: seq<int>, a: nat, m: nat, b: nat, src: int, dst: int)
    requires src > 0 && dst > 0 && a <= m <= b <= Limit(|clip|, src, dst)
    ensures Outputs(clip, a, b, src, dst) == Outputs(clip, a, m, src, dst) + Outputs(clip, m, b, src, dst)
    decreases b
  {
    hide Pos, Limit, SampleAt;
    if m < b {
      OutputsSplit(clip, a, m, b - 1, src, dst);
    }
  }

  /** Interpolation never leaves the range of its two neighbours, so `int16` cannot wrap. */
  lemma {:induction false} LerpBetween(a: int, b: int, f: int, dst: int, lo: int, hi: int)
    requires dst > 0 && 0 <= f <= dst && lo <= 0 <= hi && lo <= a <= hi && lo <= b <= hi
    ensures lo <= Lerp(a, b, f, dst) <= hi
  {
    hide TruncDiv;
    var x := a * dst + (b - a) * f;
    assert x == a * (dst - f) + b * f;
    WeightsBetween(lo, a, b, dst - f, f);
    WeightsBetween(-hi, -a, -b, dst - f, f);
    assert (-a) * (dst - f) == -(a * (dst - f)) && (-b) * f == -(b * f) && (-hi) * dst == -(hi * dst);
    TruncDivBetween(x, dst, lo, hi);
  }

  lemma {:induction false} WeightsBetween(lo: int, a: int, b: int, u: int, v: int)
    requires lo <= a && lo <= b && u >= 0 && v >= 0
    ensures lo * (u + v) <= a * u + b * v
  {
    Scale(lo, a, u);
    Scale(lo, b, v);
  }

  lemma {:induction false} WholeClipFitsInt16(clip: seq<int>, src: int, dst: int, k: nat)
    requires src > 0 && dst > 0 && k < Limit(|clip|, src, dst)
    requires forall i :: 0 <= i < |clip| ==> -0x8000 <= clip[i] <= 0x7FFF
    ensures |WholeClip(clip, src, dst)| == Limit(|clip|, src, dst)
    ensures -0x8000 <= WholeClip(clip, src, dst)[k] <= 0x7FFF
  {
    hide Pos, Limit, Lerp;
    OutputsAt(clip, 0, Limit(|clip|, src, dst), src, dst, k);
    var i := Pos(k, src, dst);
    if i + 1 < |clip| {
      LerpBetween(clip[i], clip[i + 1], Frac(k, src, dst), dst, -0x8000, 0x7FFF);
    }
  }

  /** What the reference computes, without its own terms: output k lies f/dst of the way
      from sample i to sample i + 1, where k*src = i*dst + f, and is that weighted mean
      truncated toward zero; past the last sample it holds the last sample. */
  lemma {:induction false} WholeClipValue(clip: seq<int>, src: int, dst: int, k: nat, i: nat, f: nat)
    requires src > 0 && dst > 0 && k < |clip| * dst / src
    requires k * src == i * dst + f && f < dst
    ensures |WholeClip(clip, src, dst)| == |clip| * dst / src && i < |clip|
    ensures i + 1 < |clip| ==> Truncates(WholeClip(clip, src, dst)[k], clip[i] * (dst - f) + clip[i + 1] * f, dst)
    ensures i + 1 == |clip| ==> WholeClip(clip, src, dst)[k] == clip[i]
  {
    assert k < Limit(|clip|, src, dst);
    PositionIs(k, src, dst, i, f);
    hide Pos, Frac, Limit, TruncDiv;
    assert Limit(|clip|, src, dst) == |clip| * dst / src by { LimitIsQuotient(|clip|, src, dst); }
    OutputsAt(clip, 0, Limit(|clip|, src, dst), src, dst, k);
    if i + 1 < |clip| {
      var num := clip[i] * dst + (clip[i + 1] - clip[i]) * f;
      assert num == clip[i] * (dst - f) + clip[i + 1] * f;
      TruncDivIs(num, dst);
    }
  }

  lemma {:induction false} LimitIsQuotient(n: nat, src: int, dst: int)
    requires src > 0 && dst > 0
    ensures Limit(n, src, dst) == n * dst / src
  {
  }

  lemma {:induction false} PositionIs(k: nat, src: int, dst: int, i: nat, f: nat)
    requires src > 0 && dst > 0 && k * src == i * dst + f && f < dst
    ensures Pos(k, src, dst) == i && Frac(k, src, dst) == f
  {
    DivBelow(k * src, dst, i);
    DivBelow(k * src, dst, i + 1);
    assert (i + 1) * dst == i * dst + dst;
  }

  // ---------- what a push may emit ----------

  /** How many outputs are decided by the first n samples when more may follow:
      those whose right neighbour has arrived. */
  function Decided(n: nat, src: int, dst: int): nat
    requires src > 0 && dst > 0
  {
    if n == 0 then 0
    else
      DivBelow((n - 1) * dst + src - 1, src, 0);
      Min(((n - 1) * dst + src - 1) / src, Limit(n, src, dst))
  }

  lemma {:induction false} DecidedIff(k: nat, n: nat, src: int, dst: int)
    requires src > 0 && dst > 0
    ensures k < Decided(n, src, dst) <==> k < Limit(n, src, dst) && Pos(k, src, dst) + 1 < n
  {
    hide Pos, Limit;
    if n > 0 {
      DivBelow((n - 1) * dst + src - 1, src, k + 1);
      PosIs(k, src, dst, n - 1);
      assert (k + 1) * src == k * src + src;
    }
  }

  lemma {:induction false} DecidedGrows(n: nat, m: nat, src: int, dst: int)
    requires src > 0 && dst > 0 && n <= m
    ensures Decided(n, src, dst) <= Decided(m, src, dst) <= Limit(m, src, dst)
  {
    hide *;
    var d := Decided(n, src, dst);
    if d > 0 {
      DecidedIff(d - 1, n, src, dst);
      LimitGrows(n, m, src, dst);
      DecidedIff(d - 1, m, src, dst);
    }
    DecidedIff(Limit(m, src, dst), m, src, dst);
  }

  /** Decided outputs do not depend on samples that arrive later. */
  lemma {:induction false} DecidedStable(fed: seq<int>, more: seq<int>, a: nat, b: nat, src: int, dst: int)
    requires src > 0 && dst > 0 && a <= b <= Decided(|fed|, src, dst)
    requires b <= Limit(|fed|, src, dst) && b <= Limit(|fed + more|, src, dst)
    ensures Outputs(fed, a, b, src, dst) == Outputs(fed + more, a, b, src, dst)
    decreases b
  {
    hide Pos, Limit, Decided;
    if a < b {
      DecidedIff(b - 1, |fed|, src, dst);
      DecidedStable(fed, more, a, b - 1, src, dst);
      var i := Pos(b - 1, src, dst);
      assert fed[i] == (fed + more)[i] && fed[i + 1] == (fed + more)[i + 1];
    }
  }

  // ---------- chunk invariance ----------

  /** Everything returned by the pushes of these chunks, in order: each push returns
      the outputs that became decided with it. */
  function PushAll(chunks: seq<seq<int>>, src: int, dst: int): seq<int>
    requires src > 0 && dst > 0
  {
    if chunks == [] then []
    else
      var before := Flatten(chunks[..|chunks| - 1]);
      var fed := Flatten(chunks);
      DecidedGrows(|before|, |fed|, src, dst);
      PushAll(chunks[..|chunks| - 1], src, dst)
      + Outputs(fed, Decided(|before|, src, dst), Decided(|fed|, src, dst), src, dst)
  }

  lemma {:induction false} PushAllIsDecidedPrefix(chunks: seq<seq<int>>, src: int, dst: int)
    requires src > 0 && dst > 0
    ensures Decided(|Flatten(chunks)|, src, dst) <= Limit(|Flatten(chunks)|, src, dst)
    ensures PushAll(chunks, src, dst)
         == Outputs(Flatten(chunks), 0, Decided(|Flatten(chunks)|, src, dst), src, dst)
    decreases |chunks|
  {
    hide Pos, Limit, SampleAt;
    var fed := Flatten(chunks);
    DecidedGrows(|fed|, |fed|, src, dst);
    if chunks != [] {
      var front := chunks[..|chunks| - 1];
      var before := Flatten(front);
      PushAllIsDecidedPrefix(front, src, dst);
      DecidedGrows(|before|, |fed|, src, dst);
      var m := Decided(|before|, src, dst);
      DecidedStable(before, chunks[|chunks| - 1], 0, m, src, dst);
      OutputsSplit(fed, 0, m, Decided(|fed|, src, dst), src, dst);
    }
  }

  /** Main theorem: however a clip is cut into pushes, the pushes followed by one
      flush produce the whole-clip resampling, of length floor(N*dst/src). */
  lemma {:induction false} ChunkInvariance(chunks: seq<seq<int>>, src: int, dst: int)
    requires src > 0 && dst > 0
    ensures var clip := Flatten(chunks);
            var d := Decided(|clip|, src, dst);
            d <= Limit(|clip|, src, dst)
            && PushAll(chunks, src, dst) + Outputs(clip, d, Limit(|clip|, src, dst), src, dst) == WholeClip(clip, src, dst)
            && |WholeClip(clip, src, dst)| == |clip| * dst / src
  {
    hide Pos, SampleAt;
    var clip := Flatten(chunks);
    PushAllIsDecidedPrefix(chunks, src, dst);
    OutputsSplit(clip, 0, Decided(|clip|, src, dst), Limit(|clip|, src, dst), src, dst);
    OutputsLength(clip, 0, Limit(|clip|, src, dst), src, dst);
  }

  // ---------- the streaming class ----------

  class PCMResampler {
    const src: int
    const dst: int
    var input: seq<int>
    var base: int
    var total: int
    var output: int
    ghost var fed: seq<int>  // every sample pushed so far

    /** The retained samples are the tail of what was pushed, and start at or before
        the position of the next output. */
    ghost predicate Valid()
      reads this
    {
      && total == |fed| && 0 <= base <= total && input == fed[base..]
      && 0 <= output
      && (src > 0 && dst > 0 ==> base <= Pos(output, src, dst) && output <= Limit(total, src, dst))
    }

    constructor (src: int, dst: int)
      ensures Valid() && fed == [] && output == 0
      ensures this.src == src && this.dst == dst
    {
      this.src, this.dst := src, dst;
      input, base, total, output, fed := [], 0, 0, 0, [];
    }

    /** Returns the outputs that have become decided, and keeps at most 1 + src/dst samples. */
    method Push(samples: seq<int>) returns (out: seq<int>)
      requires Valid()
      modifies this
      ensures Valid() && fed == old(fed) + samples
      ensures !(src > 0 && dst > 0) ==> out == [] && output == old(output)
      ensures src > 0 && dst > 0 ==>
        && output == Max(old(output), Decided(|fed|, src, dst))
        && out == Outputs(fed, old(output), output, src, dst)
        && (|fed| - base) * dst < dst + src && |input| <= 1 + src / dst
    {
      hide Pos, Limit, Decided, Outputs;
      input := input + samples;
      total := total + |samples|;
      fed := fed + samples;
      if src > 0 && dst > 0 {
        LimitGrows(|old(fed)|, |fed|, src, dst);
      }
      out := Emit(false);
      if src > 0 && dst > 0 {
        Retained(base, total, output, src, dst);
      }
    }

    /** Returns every remaining output; the last ones hold the last sample. */
    method Flush() returns (out: seq<int>)
      requires Valid()
      modifies this
      ensures Valid() && fed == old(fed)
      ensures !(src > 0 && dst > 0) ==> out == [] && output == old(output)
      ensures src > 0 && dst > 0 ==>
        && output == Limit(|fed|, src, dst)
        && out == Outputs(fed, old(output), output, src, dst)
    {
      out := Emit(true);
    }

    method Emit(final: bool) returns (out: seq<int>)
      requires Valid()
      modifies this`input, this`base, this`output
      ensures Valid()
      ensures !(src > 0 && dst > 0) ==> out == [] && output == old(output) && base == old(base)
      ensures src > 0 && dst > 0 ==>
        && output == (if final then Limit(total, src, dst) else Max(old(output), Decided(total, src, dst)))
        && (base == total || base == Pos(output, src, dst))
        && out == Outputs(fed, old(output), output, src, dst)
    {
      hide Pos, Frac, Limit, Decided, Lerp;
      if src <= 0 || dst <= 0 {
        return [];
      }
      out := [];
      var limit := Limit(total, src, dst);
      DecidedGrows(total, total, src, dst);
      while output < limit
        invariant old(output) <= output <= limit
        invariant base == old(base) && input == old(input) && base <= Pos(output, src, dst)
        invariant out == Outputs(fed, old(output), output, src, dst)
        invariant final || output <= Max(old(output), Decided(total, src, dst))
        decreases limit - output
      {
        var index := Pos(output, src, dst);
        DecidedIff(output, total, src, dst);
        if !final && index + 1 >= total {
          break;
        }
        PosInClip(output, total, src, dst);
        var i := index - base;
        var value := input[i];
        if i + 1 < |input| {
          value := Lerp(value, input[i + 1], Frac(output, src, dst), dst);
        }
        out := out + [value];
        PosGrows(output, src, dst);
        output := output + 1;
      }
      var next := Pos(output, src, dst);
      var drop := Min(next - base, |input|);
      input := input[drop..];
      base := base + drop;
    }
  }

  /** Memory bound, in exact form: fewer than 1 + src/dst samples' worth is retained. */
  lemma {:induction false} Retained(base: nat, total: nat, output: nat, src: int, dst: int)
    requires src > 0 && dst > 0 && base <= total && Decided(total, src, dst) <= output
    requires base == total || base == Pos(output, src, dst)
    ensures (total - base) * dst < dst + src && total - base <= 1 + src / dst
  {
    hide Pos, Limit, Decided;
    DecidedIff(output, total, src, dst);
    if base < total {
      if base + 1 < total {
        LimitIs(total, src, dst, output);
        PosIs(output, src, dst, base + 1);
        assert (total - base) * dst == total * dst - base * dst;
        assert (base + 1) * dst == base * dst + dst;
      } else {
        assert (total - base) * dst == dst;
      }
    } else {
      assert (total - base) * dst == 0;
    }
    DivBelow(src, dst, total - base - 1);
    assert (total - base - 1) * dst == (total - base) * dst - dst;
  }

  /** The class over a whole clip: any cut into pushes, then one flush. A rate that is not
      positive yields nothing. */
  method ResampleChunks(chunks: seq<seq<int>>, src: int, dst: int) returns (out: seq<int>)
    ensures src > 0 && dst > 0 ==> out == WholeClip(Flatten(chunks), src, dst)
    ensures !(src > 0 && dst > 0) ==> out == []
  {
    hide Pos, Limit, Decided, Outputs;
    var r := new PCMResampler(src, dst);
    out := [];
    if src > 0 && dst > 0 {
      NothingYet(src, dst);
    }
    var i := 0;
    while i < |chunks|
      invariant 0 <= i <= |chunks| && fresh(r) && r.Valid() && r.src == src && r.dst == dst
      invariant r.fed == Flatten(chunks[..i])
      invariant src > 0 && dst > 0 ==> r.output == Decided(|r.fed|, src, dst) <= Limit(|r.fed|, src, dst)
      invariant out == if src > 0 && dst > 0 then PushAll(chunks[..i], src, dst) else []
    {
      assert chunks[..i + 1][..i] == chunks[..i];
      if src > 0 && dst > 0 {
        DecidedGrows(|Flatten(chunks[..i])|, |Flatten(chunks[..i + 1])|, src, dst);
      }
      var more := r.Push(chunks[i]);
      out := out + more;
      i := i + 1;
    }
    assert chunks[..i] == chunks;
    if src > 0 && dst > 0 {
      ChunkInvariance(chunks, src, dst);
    }
    var last := r.Flush();
    out := out + last;
  }

  lemma {:induction false} NothingYet(src: int, dst: int)
    requires src > 0 && dst > 0
    ensures Decided(0, src, dst) == 0 <= Limit(0, src, dst)
  {
  }

  /** The whole-clip routine: equal rates return the input, otherwise index by index. */
  method ResampleInt16(samples: seq<int>, srcRate: int, dstRate: int) returns (out: seq<int>)
    requires srcRate > 0 && dstRate > 0
    ensures out == WholeClip(samples, srcRate, dstRate)
  {
    hide Pos, Limit, Frac, Lerp;
    if srcRate == dstRate || |samples| == 0 {
      SameRate(samples, srcRate, dstRate);
      return samples;
    }
    var outLen := Limit(|samples|, srcRate, dstRate);
    var buf := new int[outLen];
    var i := 0;
    while i < outLen
      invariant 0 <= i <= outLen
      invariant buf[..i] == Outputs(samples, 0, i, srcRate, dstRate)
    {
      var idx := Pos(i, srcRate, dstRate);
      var frac := Frac(i, srcRate, dstRate);
      PosInClip(i, |samples|, srcRate, dstRate);
      if idx + 1 < |samples| {
        var s0, s1 := samples[idx], samples[idx + 1];
        WeightedIsLerp(s0, s1, frac, dstRate);
        buf[i] := TruncDiv(s0 * (dstRate - frac) + s1 * frac, dstRate);
      } else if idx < |samples| {
        buf[i] := samples[idx];
      }
      assert buf[..i + 1] == buf[..i] + [SampleAt(samples, i, srcRate, dstRate)];
      i := i + 1;
    }
    out := buf[..];
    assert out == buf[..i];
  }

  lemma {:induction false} WeightedIsLerp(s0: int, s1: int, f: int, dst: int)
    requires dst > 0
    ensures TruncDiv(s0 * (dst - f) + s1 * f, dst) == Lerp(s0, s1, f, dst)
  {
    assert s0 * (dst - f) + s1 * f == s0 * dst + (s1 - s0) * f;
  }

  /** Equal rates leave a clip unchanged (and an empty clip stays empty). */
  lemma {:induction false} SameRate(clip: seq<int>, src: int, dst: int)
    requires src > 0 && dst > 0 && (src == dst || clip == [])
    ensures WholeClip(clip, src, dst) == clip
  {
    hide Pos, Limit, Frac, Lerp;
    var n := |clip|;
    LimitIs(n, src, dst, n);
    if n > 0 {
      LimitIs(n, src, dst, n - 1);
      assert (n - 1) * src + src == n * src;
    } else {
      LimitIs(n, src, dst, 0);
    }
    OutputsLength(clip, 0, n, src, dst);
    forall k | 0 <= k < n ensures WholeClip(clip, src, dst)[k] == clip[k] {
      OutputsAt(clip, 0, n, src, dst, k);
      SameRateAt(clip, k, src);
    }
  }

  lemma {:induction false} SameRateAt(clip: seq<int>, k: nat, rate: int)
    requires rate > 0 && k < |clip|
    ensures Pos(k, rate, rate) == k && SampleAt(clip, k, rate, rate) == clip[k]
  {
    MultipleDivides(k, rate);
    MultipleDivides(clip[k], rate);
    MultipleDivides(-clip[k], rate);
    assert Frac(k, rate, rate) == 0;
    assert -(clip[k] * rate) == (-clip[k]) * rate;
  }
}
