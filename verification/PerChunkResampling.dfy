/** The other playback path (playSession.push in internal/webrtc/client.go) resamples every
    chunk as a clip of its own. This is where chunking does change what is played. */
module PerChunkResampling {
  import opened Arithmetic
  import opened Basics
  import R = Resampler

  /** What two pushes append to opusIn. */
  function Pushed(a: seq<int>, b: seq<int>, src: int, dst: int): seq<int>
    requires src > 0 && dst > 0
  {
    R.WholeClip(a, src, dst) + R.WholeClip(b, src, dst)
  }

  /** What any number of pushes append to opusIn. */
  function PushedAll(chunks: seq<seq<int>>, src: int, dst: int): seq<int>
    requires src > 0 && dst > 0
  {
    if chunks == [] then []
    else PushedAll(chunks[..|chunks| - 1], src, dst) + R.WholeClip(chunks[|chunks| - 1], src, dst)
  }

  /** The cut falls on an output position, and no output lies between the last sample
      before it and the cut. Both can be computed from lengths and rates. */
  predicate CutAligned(a: nat, b: nat, src: int, dst: int)
    requires src > 0 && dst > 0
  {
    var la, lb := R.Limit(a, src, dst), R.Limit(b, src, dst);
    a == 0 || b == 0 ||
    (R.Limit(a + b, src, dst) == la + lb
     && (la > 0 ==> (la - 1) * src <= (a - 1) * dst)
     && (lb > 0 ==> la * src == a * dst))
  }

  lemma {:induction false} WholeAt(clip: seq<int>, src: int, dst: int, k: nat)
    requires src > 0 && dst > 0
    ensures |R.WholeClip(clip, src, dst)| == R.Limit(|clip|, src, dst)
    ensures k < R.Limit(|clip|, src, dst) ==>
              R.Pos(k, src, dst) < |clip| && R.WholeClip(clip, src, dst)[k] == R.SampleAt(clip, k, src, dst)
  {
    hide R.Pos, R.Limit, R.SampleAt;
    var n := R.Limit(|clip|, src, dst);
    R.OutputsLength(clip, 0, n, src, dst);
    if k < n {
      R.OutputsAt(clip, 0, n, src, dst, k);
    }
  }

  lemma {:induction false} LerpAtZero(x: int, y: int, dst: int)
    requires dst > 0
    ensures R.Lerp(x, y, 0, dst) == x
  {
    MultipleDivides(x, dst);
    MultipleDivides(-x, dst);
    assert (-x) * dst == -(x * dst);
    assert (y - x) * 0 == 0;
    if x >= 0 { Scale(0, x, dst); } else { Scale(x, -1, dst); }
  }

  lemma {:induction false} LerpBelowOne(y: int, f: nat, dst: int)
    requires dst > 0 && f < dst && (y == 0 || y == 1)
    ensures R.Lerp(0, y, f, dst) == 0
    ensures f > 0 ==> R.Lerp(1, 0, f, dst) == 0
  {
    DivBelow(y * f, dst, 0);
    DivBelow(y * f, dst, 1);
    DivBelow(dst - f, dst, 0);
    DivBelow(dst - f, dst, 1);
  }

  lemma {:induction false} PosAt(k: nat, src: int, dst: int, q: nat, r: nat)
    requires src > 0 && dst > 0 && k * src == q * dst + r && r < dst
    ensures R.Pos(k, src, dst) == q && R.Frac(k, src, dst) == r
  {
    DivBelow(k * src, dst, q);
    DivBelow(k * src, dst, q + 1);
    assert (q + 1) * dst == q * dst + dst;
  }

  lemma {:induction false} PosSplit(k: nat, src: int, dst: int)
    requires src > 0 && dst > 0
    ensures k * src == R.Pos(k, src, dst) * dst + R.Frac(k, src, dst)
  {
  }

  // ---------- aligned cuts agree ----------

  lemma {:induction false} AgreeBefore(a: seq<int>, b: seq<int>, src: int, dst: int, k: nat)
    requires src > 0 && dst > 0 && a != [] && b != [] && CutAligned(|a|, |b|, src, dst)
    requires k < R.Limit(|a|, src, dst)
    ensures R.Pos(k, src, dst) < |a| && R.SampleAt(a, k, src, dst) == R.SampleAt(a + b, k, src, dst)
  {
    var la := R.Limit(|a|, src, dst);
    hide R.Pos, R.Limit, R.Frac, R.Lerp;
    R.PosInClip(k, |a|, src, dst);
    var i := R.Pos(k, src, dst);
    if i + 1 == |a| {
      PosSplit(k, src, dst);
      Scale(k, la - 1, src);
      assert R.Frac(k, src, dst) == 0;
      LerpAtZero(a[i], b[0], dst);
    }
  }

  lemma {:induction false} AgreeAfter(a: seq<int>, b: seq<int>, src: int, dst: int, j: nat)
    requires src > 0 && dst > 0 && a != [] && b != [] && CutAligned(|a|, |b|, src, dst)
    requires j < R.Limit(|b|, src, dst)
    ensures var k := R.Limit(|a|, src, dst) + j;
            && R.Pos(j, src, dst) < |b| && R.Pos(k, src, dst) < |a + b|
            && R.SampleAt(b, j, src, dst) == R.SampleAt(a + b, k, src, dst)
  {
    var la := R.Limit(|a|, src, dst);
    hide R.Pos, R.Limit, R.Frac, R.Lerp;
    R.PosInClip(j, |b|, src, dst);
    PosSplit(j, src, dst);
    var p := R.Pos(j, src, dst);
    assert (la + j) * src == la * src + j * src;
    assert (|a| + p) * dst == |a| * dst + p * dst;
    PosAt(la + j, src, dst, |a| + p, R.Frac(j, src, dst));
  }

  lemma {:induction false} AlignedAgree(a: seq<int>, b: seq<int>, src: int, dst: int)
    requires src > 0 && dst > 0 && CutAligned(|a|, |b|, src, dst)
    ensures Pushed(a, b, src, dst) == R.WholeClip(a + b, src, dst)
  {
    if a == [] {
      R.SameRate(a, src, dst);
      assert a + b == b;
    } else if b == [] {
      R.SameRate(b, src, dst);
      assert a + b == a;
    } else {
      var la, lb := R.Limit(|a|, src, dst), R.Limit(|b|, src, dst);
      WholeAt(a, src, dst, 0);
      WholeAt(b, src, dst, 0);
      WholeAt(a + b, src, dst, 0);
      assert |a + b| == |a| + |b|;
      hide R.Pos, R.Limit, R.Frac, R.Lerp, R.WholeClip, R.SampleAt;
      forall k | 0 <= k < la + lb ensures Pushed(a, b, src, dst)[k] == R.WholeClip(a + b, src, dst)[k] {
        WholeAt(a + b, src, dst, k);
        if k < la {
          WholeAt(a, src, dst, k);
          AgreeBefore(a, b, src, dst, k);
        } else {
          WholeAt(b, src, dst, k - la);
          AgreeAfter(a, b, src, dst, k - la);
        }
      }
    }
  }

  // ---------- other cuts are audible ----------

  /** Output k of the two chunks is audibly wrong, whatever follows them. */
  ghost predicate Audible(a: seq<int>, b: seq<int>, src: int, dst: int, k: nat)
    requires src > 0 && dst > 0
  {
    && k < |Pushed(a, b, src, dst)| && k < R.Limit(|a| + |b|, src, dst)
    && R.Pos(k, src, dst) + 1 < |a + b|
    && Pushed(a, b, src, dst)[k] != R.SampleAt(a + b, k, src, dst)
  }

  /** The last output before the cut holds its sample instead of moving towards the next. */
  lemma {:induction false} HeldInstead(a: seq<int>, b: seq<int>, src: int, dst: int)
    requires src > 0 && dst > 0 && a != [] && b != []
    requires (forall i :: 0 <= i < |a| ==> a[i] == 1) && forall i :: 0 <= i < |b| ==> b[i] == 0
    requires var la := R.Limit(|a|, src, dst); la > 0 && (la - 1) * src > (|a| - 1) * dst
    requires R.Limit(|a| + |b|, src, dst) == R.Limit(|a|, src, dst) + R.Limit(|b|, src, dst)
    ensures Audible(a, b, src, dst, R.Limit(|a|, src, dst) - 1)
  {
    var k := R.Limit(|a|, src, dst) - 1;
    hide R.Pos, R.Limit, R.Frac, R.Lerp, R.WholeClip;
    assert |a + b| == |a| + |b|;
    WholeAt(a, src, dst, k);
    R.PosIs(k, src, dst, |a| - 1);
    PosSplit(k, src, dst);
    LerpBelowOne(0, R.Frac(k, src, dst), dst);
    assert Pushed(a, b, src, dst)[k] == 1;
    assert R.SampleAt(a + b, k, src, dst) == 0;
  }

  /** The second chunk starts with its own first sample instead of an interpolated one. */
  lemma {:induction false} RestartsInstead(a: seq<int>, b: seq<int>, src: int, dst: int)
    requires src > 0 && dst > 0 && a != [] && b != []
    requires (forall i :: 0 <= i < |a| ==> a[i] == 0) && forall i :: 0 <= i < |b| ==> b[i] == 1
    requires R.Limit(|b|, src, dst) > 0 && R.Limit(|a|, src, dst) * src != |a| * dst
    requires R.Limit(|a| + |b|, src, dst) == R.Limit(|a|, src, dst) + R.Limit(|b|, src, dst)
    ensures Audible(a, b, src, dst, R.Limit(|a|, src, dst))
  {
    var k := R.Limit(|a|, src, dst);
    hide R.Pos, R.Limit, R.Frac, R.Lerp, R.WholeClip;
    assert |a + b| == |a| + |b|;
    var zero: nat := 0;
    WholeAt(a, src, dst, zero);
    WholeAt(b, src, dst, zero);
    PosAt(zero, src, dst, zero, zero);
    LerpAtZero(1, 1, dst);
    assert Pushed(a, b, src, dst)[k] == 1;
    StillBefore(a, b, src, dst);
  }

  lemma {:induction false} StillBefore(a: seq<int>, b: seq<int>, src: int, dst: int)
    requires src > 0 && dst > 0 && a != [] && b != []
    requires (forall i :: 0 <= i < |a| ==> a[i] == 0) && forall i :: 0 <= i < |b| ==> b[i] == 1
    requires R.Limit(|a|, src, dst) * src != |a| * dst
    ensures var k := R.Limit(|a|, src, dst); R.Pos(k, src, dst) < |a| && R.SampleAt(a + b, k, src, dst) == 0
  {
    var k := R.Limit(|a|, src, dst);
    hide R.Pos, R.Limit, R.Frac, R.Lerp;
    if k > 0 {
      R.LimitIs(|a|, src, dst, k - 1);
      assert (k - 1) * src + src == k * src;
    }
    R.PosIs(k, src, dst, |a|);
    var i := R.Pos(k, src, dst);
    LerpBelowOne((a + b)[i + 1], R.Frac(k, src, dst), dst);
  }

  /** Two chunks at a cut that is not aligned: the outputs come out too few, or one of them
      is audibly wrong. */
  lemma {:induction false} Misfit(na: nat, nb: nat, src: int, dst: int) returns (a: seq<int>, b: seq<int>, k: nat)
    requires src > 0 && dst > 0 && !CutAligned(na, nb, src, dst)
    ensures |a| == na && |b| == nb
    ensures R.Limit(na + nb, src, dst) > R.Limit(na, src, dst) + R.Limit(nb, src, dst) || Audible(a, b, src, dst, k)
  {
    hide R.WholeClip, R.Limit, Audible;
    var la, lb := R.Limit(na, src, dst), R.Limit(nb, src, dst);
    LimitJoins(na, nb, src, dst);
    if R.Limit(na + nb, src, dst) != la + lb {
      a, b, k := seq(na, _ => 0), seq(nb, _ => 0), 0;
    } else if la > 0 && (la - 1) * src > (na - 1) * dst {
      a, b, k := seq(na, _ => 1), seq(nb, _ => 0), la - 1;
      HeldInstead(a, b, src, dst);
    } else {
      a, b, k := seq(na, _ => 0), seq(nb, _ => 1), la;
      RestartsInstead(a, b, src, dst);
    }
  }

  /** Resampling two clips apart never yields more than resampling them together. */
  lemma {:induction false} LimitJoins(n: nat, m: nat, src: int, dst: int)
    requires src > 0 && dst > 0
    ensures R.Limit(n, src, dst) + R.Limit(m, src, dst) <= R.Limit(n + m, src, dst)
  {
    hide R.Limit;
    var a, b := R.Limit(n, src, dst), R.Limit(m, src, dst);
    if a == 0 {
      R.LimitGrows(m, n + m, src, dst);
    } else if b == 0 {
      R.LimitGrows(n, n + m, src, dst);
    } else {
      R.LimitIs(n, src, dst, a - 1);
      R.LimitIs(m, src, dst, b - 1);
      R.LimitIs(n + m, src, dst, a + b - 1);
      assert (a - 1) * src + src == a * src && (b - 1) * src + src == b * src;
      assert (a + b - 1) * src + src == a * src + b * src && (n + m) * dst == n * dst + m * dst;
    }
  }

  // ---------- any number of pushes ----------

  function Sum(lengths: seq<nat>): nat
  {
    if lengths == [] then 0 else Sum(lengths[..|lengths| - 1]) + lengths[|lengths| - 1]
  }

  ghost predicate HasLengths(chunks: seq<seq<int>>, lengths: seq<nat>)
  {
    |chunks| == |lengths| && forall i :: 0 <= i < |chunks| ==> |chunks[i]| == lengths[i]
  }

  /** Every chunk is aligned with all that came before it. */
  predicate AllAligned(lengths: seq<nat>, src: int, dst: int)
    requires src > 0 && dst > 0
  {
    forall i :: 0 <= i < |lengths| ==> CutAligned(Sum(lengths[..i]), lengths[i], src, dst)
  }

  lemma {:induction false} FlattenLength(chunks: seq<seq<int>>, lengths: seq<nat>)
    requires HasLengths(chunks, lengths)
    ensures |Flatten(chunks)| == Sum(lengths)
    decreases |chunks|
  {
    if chunks != [] {
      FlattenLength(chunks[..|chunks| - 1], lengths[..|lengths| - 1]);
    }
  }

  lemma {:induction false} AllAlignedFront(lengths: seq<nat>, src: int, dst: int)
    requires src > 0 && dst > 0 && lengths != []
    ensures var n := |lengths| - 1;
            AllAligned(lengths, src, dst) <==>
              AllAligned(lengths[..n], src, dst) && CutAligned(Sum(lengths[..n]), lengths[n], src, dst)
  {
    hide CutAligned, Sum;
    var n := |lengths| - 1;
    assert forall i :: 0 <= i < n ==> lengths[..n][..i] == lengths[..i] && lengths[..n][i] == lengths[i];
    if AllAligned(lengths[..n], src, dst) && CutAligned(Sum(lengths[..n]), lengths[n], src, dst) {
      forall i | 0 <= i < |lengths| ensures CutAligned(Sum(lengths[..i]), lengths[i], src, dst) {
        if i < n {
          assert CutAligned(Sum(lengths[..n][..i]), lengths[..n][i], src, dst);
        }
      }
    }
  }

  lemma {:induction false} AllAlignedAgree(chunks: seq<seq<int>>, lengths: seq<nat>, src: int, dst: int)
    requires src > 0 && dst > 0 && HasLengths(chunks, lengths) && AllAligned(lengths, src, dst)
    ensures PushedAll(chunks, src, dst) == R.WholeClip(Flatten(chunks), src, dst)
    decreases |chunks|
  {
    hide R.WholeClip, R.Limit, CutAligned;
    if chunks == [] {
      R.SameRate([], src, dst);
    } else {
      var n := |chunks| - 1;
      AllAlignedFront(lengths, src, dst);
      AllAlignedAgree(chunks[..n], lengths[..n], src, dst);
      FlattenLength(chunks[..n], lengths[..n]);
      AlignedAgree(Flatten(chunks[..n]), chunks[n], src, dst);
    }
  }

  /** A clip cut into chunks of given lengths. */
  function CutInto(clip: seq<int>, lengths: seq<nat>): seq<seq<int>>
    requires |clip| == Sum(lengths)
    decreases |lengths|
  {
    if lengths == [] then []
    else
      var m := Sum(lengths[..|lengths| - 1]);
      CutInto(clip[..m], lengths[..|lengths| - 1]) + [clip[m..]]
  }

  lemma {:induction false} CutIntoIs(clip: seq<int>, lengths: seq<nat>)
    requires |clip| == Sum(lengths)
    ensures HasLengths(CutInto(clip, lengths), lengths) && Flatten(CutInto(clip, lengths)) == clip
    decreases |lengths|
  {
    if lengths != [] {
      var m := Sum(lengths[..|lengths| - 1]);
      CutIntoIs(clip[..m], lengths[..|lengths| - 1]);
      assert clip == clip[..m] + clip[m..];
    }
  }

  /** These chunks come out wrong, and keep doing so whatever is pushed after them: too few
      outputs, or an audible one. */
  ghost predicate Spoilt(chunks: seq<seq<int>>, src: int, dst: int, k: nat)
    requires src > 0 && dst > 0
  {
    var clip, out := Flatten(chunks), PushedAll(chunks, src, dst);
    |out| < R.Limit(|clip|, src, dst)
    || (k < |out| && k < R.Limit(|clip|, src, dst) && R.Pos(k, src, dst) + 1 < |clip|
        && out[k] != R.SampleAt(clip, k, src, dst))
  }

  lemma {:induction false} SpoiltDiffers(chunks: seq<seq<int>>, src: int, dst: int, k: nat)
    requires src > 0 && dst > 0 && Spoilt(chunks, src, dst, k)
    ensures PushedAll(chunks, src, dst) != R.WholeClip(Flatten(chunks), src, dst)
  {
    hide R.WholeClip, R.Limit, R.Pos, R.SampleAt;
    WholeAt(Flatten(chunks), src, dst, k);
  }

  lemma {:induction false} SpoiltStays(chunks: seq<seq<int>>, more: seq<int>, src: int, dst: int, k: nat)
    requires src > 0 && dst > 0 && Spoilt(chunks, src, dst, k)
    ensures Spoilt(chunks + [more], src, dst, k)
  {
    hide R.WholeClip, R.Limit, R.Pos, R.Frac, R.Lerp;
    var clip := Flatten(chunks);
    assert (chunks + [more])[..|chunks|] == chunks;
    assert Flatten(chunks + [more]) == clip + more;
    WholeAt(more, src, dst, 0);
    LimitJoins(|clip|, |more|, src, dst);
    assert |clip + more| == |clip| + |more|;
    if R.Pos(k, src, dst) + 1 < |clip| {
      assert R.SampleAt(clip + more, k, src, dst) == R.SampleAt(clip, k, src, dst);
    }
  }

  lemma {:induction false} SpoiltHere(front: seq<seq<int>>, b: seq<int>, src: int, dst: int, k: nat)
    requires src > 0 && dst > 0 && PushedAll(front, src, dst) == R.WholeClip(Flatten(front), src, dst)
    requires var a := Flatten(front);
             R.Limit(|a| + |b|, src, dst) > R.Limit(|a|, src, dst) + R.Limit(|b|, src, dst) || Audible(a, b, src, dst, k)
    ensures Spoilt(front + [b], src, dst, k)
  {
    hide R.WholeClip, R.Limit, R.Pos, R.SampleAt;
    assert (front + [b])[..|front|] == front;
    assert Flatten(front + [b]) == Flatten(front) + b;
    WholeAt(Flatten(front), src, dst, 0);
    WholeAt(b, src, dst, 0);
  }

  /** If some chunk is not aligned, there are samples for which it can be heard. */
  lemma {:induction false} SomeSpoilt(lengths: seq<nat>, src: int, dst: int) returns (chunks: seq<seq<int>>, k: nat)
    requires src > 0 && dst > 0 && !AllAligned(lengths, src, dst)
    ensures HasLengths(chunks, lengths) && Spoilt(chunks, src, dst, k)
    decreases |lengths|
  {
    hide CutAligned, Spoilt, Audible, R.WholeClip, R.Limit, AllAligned;
    assert lengths != [] by { NothingAligned(src, dst); }
    var n := |lengths| - 1;
    AllAlignedFront(lengths, src, dst);
    if AllAligned(lengths[..n], src, dst) {
      var a, b;
      a, b, k := Misfit(Sum(lengths[..n]), lengths[n], src, dst);
      var front := CutInto(a, lengths[..n]);
      CutIntoIs(a, lengths[..n]);
      AllAlignedAgree(front, lengths[..n], src, dst);
      SpoiltHere(front, b, src, dst, k);
      chunks := front + [b];
    } else {
      var front;
      front, k := SomeSpoilt(lengths[..n], src, dst);
      var rest := seq(lengths[n], _ => 0);
      SpoiltStays(front, rest, src, dst, k);
      chunks := front + [rest];
    }
  }

  lemma {:induction false} NothingAligned(src: int, dst: int)
    requires src > 0 && dst > 0
    ensures AllAligned([], src, dst)
  {
  }

  /** Main theorem: any number of pushes amount to one clip, for all samples, exactly when
      every chunk is aligned with what came before it. */
  lemma {:induction false} ChunkingInaudibleIff(lengths: seq<nat>, src: int, dst: int)
    requires src > 0 && dst > 0
    ensures (forall chunks :: HasLengths(chunks, lengths) ==>
               PushedAll(chunks, src, dst) == R.WholeClip(Flatten(chunks), src, dst))
       <==> AllAligned(lengths, src, dst)
  {
    hide *;
    if AllAligned(lengths, src, dst) {
      forall chunks | HasLengths(chunks, lengths)
        ensures PushedAll(chunks, src, dst) == R.WholeClip(Flatten(chunks), src, dst)
      {
        AllAlignedAgree(chunks, lengths, src, dst);
      }
    } else {
      var chunks, k := SomeSpoilt(lengths, src, dst);
      SpoiltDiffers(chunks, src, dst, k);
    }
  }

  /** When upsampling, as from any speech rate to 48 kHz, a clip in two or more nonempty
      chunks is never aligned: some samples are heard differently. */
  lemma {:induction false} UpsampledChunksHeard(lengths: seq<nat>, i: nat, j: nat, src: int, dst: int)
    requires 0 < src < dst && i < j < |lengths| && lengths[i] > 0 && lengths[j] > 0
    ensures !AllAligned(lengths, src, dst)
    ensures exists chunks :: HasLengths(chunks, lengths) && PushedAll(chunks, src, dst) != R.WholeClip(Flatten(chunks), src, dst)
  {
    hide CutAligned, Sum, R.WholeClip, PushedAll;
    SumAtLeast(lengths[..j], i);
    UpsamplingNeverAligned(Sum(lengths[..j]), lengths[j], src, dst);
    assert !AllAligned(lengths, src, dst);
    ChunkingInaudibleIff(lengths, src, dst);
  }

  lemma {:induction false} SumAtLeast(lengths: seq<nat>, i: nat)
    requires i < |lengths|
    ensures Sum(lengths) >= lengths[i]
  {
    if i < |lengths| - 1 {
      SumAtLeast(lengths[..|lengths| - 1], i);
    }
  }

  /** When upsampling, as from any speech rate to 48 kHz, no cut is aligned. */
  lemma {:induction false} UpsamplingNeverAligned(na: nat, nb: nat, src: int, dst: int)
    requires 0 < src < dst && na > 0 && nb > 0
    ensures !CutAligned(na, nb, src, dst)
  {
    hide R.Limit;
    var la, lb := R.Limit(na, src, dst), R.Limit(nb, src, dst);
    AtLeastOne(na, src, dst);
    AtLeastOne(nb, src, dst);
    assert (la - 1) * src == la * src - src && (na - 1) * dst == na * dst - dst;
  }

  lemma {:induction false} AtLeastOne(n: nat, src: int, dst: int)
    requires 0 < src < dst && n > 0
    ensures R.Limit(n, src, dst) > 0
  {
    R.LimitIs(n, src, dst, 0);
    Scale(1, n, dst);
  }
}
