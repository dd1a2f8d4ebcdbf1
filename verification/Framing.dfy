/** Cutting the resampled talkback stream into Opus frames (internal/webrtc/talkback.go).
    A frame is its block of 480 samples; the encoder itself is not modelled. */
module Framing {
  import opened Basics
  import R = Resampler

  const FRAME := 480        // opusFrameSize: 10 ms at 48 kHz
  const OPUS_RATE := 48000

  // ---------- blocks ----------

  function Zeros(n: nat): (z: seq<int>)
    ensures |z| == n && forall i :: 0 <= i < n ==> z[i] == 0
  {
    seq(n, _ => 0)
  }

  function Pad(s: seq<int>): seq<int>
    requires |s| <= FRAME
  {
    s + Zeros(FRAME - |s|)
  }

  /** The frames of a finished stream: full blocks, then the padded rest if there is one. */
  function Blocks(s: seq<int>): seq<seq<int>>
  {
    if s == [] then []
    else if |s| < FRAME then [Pad(s)]
    else [s[..FRAME]] + Blocks(s[FRAME..])
  }

  ghost predicate AllFrames(blocks: seq<seq<int>>) {
    forall i :: 0 <= i < |blocks| ==> |blocks[i]| == FRAME
  }

  /** Only the last block is padded, and by less than a block: the blocks spell the
      stream followed by fewer than 480 zeros. */
  lemma {:induction false} BlocksSpell(s: seq<int>)
    ensures AllFrames(Blocks(s))
    ensures |Blocks(s)| == (|s| + FRAME - 1) / FRAME
    ensures Flatten(Blocks(s)) == s + Zeros(FRAME * |Blocks(s)| - |s|)
    ensures FRAME * |Blocks(s)| - |s| < FRAME
  {
    if s == [] {
    } else if |s| < FRAME {
      assert Blocks(s)[..0] == [];
    } else {
      var rest := s[FRAME..];
      BlocksSpell(rest);
      FlattenConcat([s[..FRAME]], Blocks(rest));
      FlattenOne(s[..FRAME]);
      BlockCount(s);
      hide Blocks, Flatten;
      assert s == s[..FRAME] + rest;
      assert s[..FRAME] + (rest + Zeros(FRAME * |Blocks(s)| - |s|)) == s + Zeros(FRAME * |Blocks(s)| - |s|);
    }
  }

  lemma {:induction false} FlattenOne<T>(chunk: seq<T>)
    ensures Flatten([chunk]) == chunk
  {
    assert [chunk][..0] == [];
  }

  lemma {:induction false} BlockCount(s: seq<int>)
    requires |s| >= FRAME
    ensures |Blocks(s)| == |Blocks(s[FRAME..])| + 1 && Blocks(s) == [s[..FRAME]] + Blocks(s[FRAME..])
  {
  }

  lemma {:induction false} FlattenConcat<T>(a: seq<seq<T>>, b: seq<seq<T>>)
    ensures Flatten(a + b) == Flatten(a) + Flatten(b)
  {
    if b == [] {
      assert a + b == a;
    } else {
      var last := |b| - 1;
      FlattenConcat(a, b[..last]);
      assert (a + b)[..|a + b| - 1] == a + b[..last];
    }
  }

  /** Blocks already cut off stay as they are whatever follows. */
  lemma {:induction false} BlocksAfter(cut: seq<seq<int>>, rest: seq<int>)
    requires AllFrames(cut)
    ensures Blocks(Flatten(cut) + rest) == cut + Blocks(rest)
    decreases |cut|
  {
    if cut == [] {
      assert Flatten(cut) + rest == rest;
    } else {
      var front, last := cut[..|cut| - 1], cut[|cut| - 1];
      BlocksAfter(front, last + rest);
      assert Flatten(cut) + rest == Flatten(front) + (last + rest);
      assert (last + rest)[..FRAME] == last && (last + rest)[FRAME..] == rest;
      assert cut == front + [last];
    }
  }

  // ---------- what an utterance plays ----------

  /** The outputs of pushing one more chunk after `chunks`. */
  function PushOut(chunks: seq<seq<int>>, chunk: seq<int>, rate: int): seq<int>
    requires rate > 0
  {
    var n := |Flatten(chunks)|;
    var fed := Flatten(chunks + [chunk]);
    FlattenConcat(chunks, [chunk]);
    R.DecidedGrows(n, |fed|, rate, OPUS_RATE);
    R.Outputs(fed, R.Decided(n, rate, OPUS_RATE), R.Decided(|fed|, rate, OPUS_RATE), rate, OPUS_RATE)
  }

  /** The outputs of the final flush. */
  function FlushOut(chunks: seq<seq<int>>, rate: int): seq<int>
    requires rate > 0
  {
    var fed := Flatten(chunks);
    R.DecidedGrows(|fed|, |fed|, rate, OPUS_RATE);
    R.Outputs(fed, R.Decided(|fed|, rate, OPUS_RATE), R.Limit(|fed|, rate, OPUS_RATE), rate, OPUS_RATE)
  }

  /** The frames of a whole utterance, read as one clip. */
  function Target(chunks: seq<seq<int>>, rate: int): seq<seq<int>>
    requires chunks != [] ==> rate > 0
  {
    if chunks == [] then [] else Blocks(R.WholeClip(Flatten(chunks), rate, OPUS_RATE))
  }

  lemma {:induction false} PushAllSnoc(chunks: seq<seq<int>>, chunk: seq<int>, rate: int)
    requires rate > 0
    ensures R.PushAll(chunks + [chunk], rate, OPUS_RATE) == R.PushAll(chunks, rate, OPUS_RATE) + PushOut(chunks, chunk, rate)
  {
    hide R.Pos, R.Limit, R.Outputs, R.Decided, R.SampleAt;
    assert (chunks + [chunk])[..|chunks + [chunk]| - 1] == chunks;
  }

  /** Frames cut so far and the unframed rest spell the resampler's output so far. */
  ghost predicate Spells(chunks: seq<seq<int>>, rate: int, cut: seq<seq<int>>, rest: seq<int>)
  {
    && AllFrames(cut)
    && (if chunks == [] then cut == [] && rest == []
        else rate > 0 && R.PushAll(chunks, rate, OPUS_RATE) == Flatten(cut) + rest)
  }

  lemma {:induction false} SpellsPush(chunks: seq<seq<int>>, rate: int, cut: seq<seq<int>>, rest: seq<int>, chunk: seq<int>)
    requires Spells(chunks, rate, cut, rest) && rate > 0
    ensures Spells(chunks + [chunk], rate, cut, rest + PushOut(chunks, chunk, rate))
  {
    hide PushOut;
    PushAllSnoc(chunks, chunk, rate);
    var out := PushOut(chunks, chunk, rate);
    assert Flatten(cut) + rest + out == Flatten(cut) + (rest + out);
  }

  lemma {:induction false} SpellsCut(chunks: seq<seq<int>>, rate: int, cut: seq<seq<int>>, rest: seq<int>)
    requires Spells(chunks, rate, cut, rest) && |rest| >= FRAME
    ensures Spells(chunks, rate, cut + [rest[..FRAME]], rest[FRAME..])
  {
    hide R.PushAll;
    FlattenConcat(cut, [rest[..FRAME]]);
    assert [rest[..FRAME]][..0] == [];
    assert rest == rest[..FRAME] + rest[FRAME..];
    assert Flatten(cut) + rest == Flatten(cut) + rest[..FRAME] + rest[FRAME..];
  }

  /** Chunk invariance carries over to frames: once flushed, the frames cut so far and the
      blocks of the rest are the blocks of the whole-clip resampling. */
  lemma {:induction false} SpellsFlush(chunks: seq<seq<int>>, rate: int, cut: seq<seq<int>>, rest: seq<int>)
    requires Spells(chunks, rate, cut, rest)
    ensures chunks == [] ==> cut + Blocks(rest) == []
    ensures chunks != [] ==> cut + Blocks(rest + FlushOut(chunks, rate)) == Target(chunks, rate)
  {
    if chunks != [] {
      FlushCompletes(chunks, rate);
      BlocksAfter(cut, rest + FlushOut(chunks, rate));
      assert Flatten(cut) + rest + FlushOut(chunks, rate) == Flatten(cut) + (rest + FlushOut(chunks, rate));
    }
  }

  lemma {:induction false} FlushCompletes(chunks: seq<seq<int>>, rate: int)
    requires rate > 0
    ensures R.PushAll(chunks, rate, OPUS_RATE) + FlushOut(chunks, rate) == R.WholeClip(Flatten(chunks), rate, OPUS_RATE)
  {
    hide R.Pos, R.Limit, R.Decided, R.Outputs, R.SampleAt, R.PushAll, R.WholeClip;
    R.ChunkInvariance(chunks, rate, OPUS_RATE);
  }

  // ---------- the play-goroutine state of the sender ----------

  /** `pcmIn` and `resampler` of talkbackSender; the out-parameters are the frames handed
      to the paced queue, in order, when encoder and queue accept them all. */
  class Framer {
    var pcmIn: seq<int>
    var resampler: R.PCMResampler?
    ghost var chunks: seq<seq<int>>    // pushed since the last clear
    ghost var rate: int
    ghost var cut: seq<seq<int>>       // frames handed over since the last clear

    ghost predicate Valid()
      reads this, resampler
    {
      if resampler == null then chunks == [] && Spells(chunks, rate, cut, pcmIn)
      else chunks != [] && ValidWith(resampler)
    }

    /** The resampler has been fed exactly the chunks so far. */
    ghost predicate ValidWith(r: R.PCMResampler)
      reads this, r
    {
      && Spells(chunks, rate, cut, pcmIn)
      && r.Valid() && r.src == rate && r.dst == OPUS_RATE && rate > 0
      && r.fed == Flatten(chunks)
      && r.output == R.Decided(|Flatten(chunks)|, rate, OPUS_RATE)
    }

    constructor ()
      ensures Valid() && chunks == [] && pcmIn == [] && cut == []
    {
      pcmIn, resampler, chunks, rate, cut := [], null, [], 0, [];
    }

    /** One utterance keeps one source rate. */
    method PushPCM(pcm: seq<int>, srcRate: int) returns (ok: bool, frames: seq<seq<int>>)
      requires Valid() && (chunks != [] ==> srcRate == rate)
      modifies this, resampler
      ensures Valid() && ok == (srcRate > 0) && (resampler == old(resampler) || fresh(resampler))
      ensures !ok ==> frames == [] && chunks == old(chunks) && pcmIn == old(pcmIn) && cut == old(cut)
      ensures ok ==> chunks == old(chunks) + [pcm] && rate == srcRate && cut == old(cut) + frames && |pcmIn| < FRAME
    {
      hide R.Decided, R.Outputs, R.PushAll, R.Limit, R.Pos, R.WholeClip, Spells;
      if srcRate <= 0 {
        return false, [];
      }
      if resampler == null {
        resampler := new R.PCMResampler(srcRate, OPUS_RATE);
        rate := srcRate;
        StartSpells(srcRate, cut, pcmIn);
      }
      Feed(pcm);
      frames := Cut();
      ok := true;
    }

    method Feed(pcm: seq<int>)
      requires resampler != null && ValidWith(resampler)
      modifies this`pcmIn, this`chunks, resampler
      ensures resampler != null && ValidWith(resampler) && chunks == old(chunks) + [pcm]
    {
      hide R.Decided, R.Outputs, R.PushAll, R.Limit, R.Pos, R.WholeClip;
      SpellsPush(chunks, rate, cut, pcmIn, pcm);
      Grow(chunks, pcm, rate);
      var more := resampler.Push(pcm);
      pcmIn := pcmIn + more;
      chunks := chunks + [pcm];
    }

    method Cut() returns (frames: seq<seq<int>>)
      requires Spells(chunks, rate, cut, pcmIn)
      modifies this`pcmIn, this`cut
      ensures Spells(chunks, rate, cut, pcmIn) && cut == old(cut) + frames && |pcmIn| < FRAME
    {
      frames := [];
      while |pcmIn| >= FRAME
        invariant Spells(chunks, rate, cut, pcmIn) && cut == old(cut) + frames
        decreases |pcmIn|
      {
        SpellsCut(chunks, rate, cut, pcmIn);
        frames, cut := frames + [pcmIn[..FRAME]], cut + [pcmIn[..FRAME]];
        pcmIn := pcmIn[FRAME..];
      }
    }

    /** Main result for the sender's own state: flushing completes exactly the blocks of
        the whole-clip resampling, however the clip was cut into pushes. */
    method FlushPCM() returns (frames: seq<seq<int>>)
      requires Valid()
      modifies this, resampler
      ensures Valid() && pcmIn == [] && resampler == null && chunks == [] && cut == []
      ensures old(cut) + frames == Target(old(chunks), old(rate))
    {
      hide R.Decided, R.Outputs, R.PushAll, R.Limit, R.Pos, R.WholeClip;
      SpellsFlush(chunks, rate, cut, pcmIn);
      ghost var was := Blocks(pcmIn);
      if resampler != null {
        R.DecidedGrows(|Flatten(chunks)|, |Flatten(chunks)|, rate, OPUS_RATE);
        var more := resampler.Flush();
        pcmIn := pcmIn + more;
        resampler := null;
      }
      ghost var left := Blocks(pcmIn);
      frames := [];
      while |pcmIn| >= FRAME
        modifies this`pcmIn
        invariant frames + Blocks(pcmIn) == left
        decreases |pcmIn|
      {
        frames := frames + [pcmIn[..FRAME]];
        pcmIn := pcmIn[FRAME..];
      }
      if |pcmIn| > 0 {
        frames := frames + [Pad(pcmIn)];
        pcmIn := [];
      }
      chunks, cut := [], [];
    }

    /** The part of clearPending that concerns the framer. */
    method Clear()
      modifies this
      ensures Valid() && pcmIn == [] && resampler == null && chunks == [] && cut == []
    {
      pcmIn, resampler, chunks, cut := [], null, [], [];
    }
  }

  lemma {:induction false} StartSpells(rate: int, cut: seq<seq<int>>, rest: seq<int>)
    requires rate > 0
    ensures R.Decided(0, rate, OPUS_RATE) == 0
    ensures forall any :: Spells([], any, cut, rest) ==> Spells([], rate, cut, rest)
  {
  }

  lemma {:induction false} Grow(chunks: seq<seq<int>>, chunk: seq<int>, rate: int)
    requires rate > 0
    ensures Flatten(chunks + [chunk]) == Flatten(chunks) + chunk
    ensures R.Decided(|Flatten(chunks)|, rate, OPUS_RATE) <= R.Decided(|Flatten(chunks + [chunk])|, rate, OPUS_RATE)
  {
    hide R.Decided;
    FlattenConcat(chunks, [chunk]);
    assert [chunk][..0] == [];
    R.DecidedGrows(|Flatten(chunks)|, |Flatten(chunks + [chunk])|, rate, OPUS_RATE);
  }

  /** A whole utterance without errors, as PlayStream drives it: empty reads are skipped. */
  method PlayUtterance(framer: Framer, chunks: seq<seq<int>>, rate: int) returns (frames: seq<seq<int>>)
    requires framer.Valid() && framer.chunks == [] && framer.cut == [] && rate > 0
    modifies framer
    ensures framer.Valid() && framer.pcmIn == [] && framer.resampler == null && framer.chunks == []
    ensures frames == Blocks(R.WholeClip(Flatten(chunks), rate, OPUS_RATE))
  {
    hide R.WholeClip, Blocks, Spells;
    frames := [];
    var i := 0;
    while i < |chunks|
      modifies framer, framer.resampler
      invariant 0 <= i <= |chunks|
      invariant framer.Valid() && framer.cut == frames && (framer.chunks != [] ==> framer.rate == rate)
      invariant framer.resampler == null || fresh(framer.resampler)
      invariant Flatten(framer.chunks) == Flatten(chunks[..i])
    {
      assert chunks[..i + 1][..i] == chunks[..i];
      if |chunks[i]| > 0 {
        ghost var before := framer.chunks;
        var ok, more := framer.PushPCM(chunks[i], rate);
        assert framer.chunks[..|framer.chunks| - 1] == before;
        frames := frames + more;
      }
      i := i + 1;
    }
    assert chunks[..i] == chunks;
    TargetIs(framer.chunks, framer.rate, chunks, rate);
    var last := framer.FlushPCM();
    frames := frames + last;
  }

  lemma {:induction false} TargetIs(pushed: seq<seq<int>>, pushedRate: int, chunks: seq<seq<int>>, rate: int)
    requires rate > 0 && Flatten(pushed) == Flatten(chunks) && (pushed != [] ==> pushedRate == rate)
    ensures Target(pushed, pushedRate) == Blocks(R.WholeClip(Flatten(chunks), rate, OPUS_RATE))
  {
    hide R.WholeClip;
    if pushed == [] {
      R.SameRate([], rate, OPUS_RATE);
    }
  }
}
