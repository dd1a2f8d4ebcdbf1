/** The WAV codec of internal/audio/wav.go over byte strings. `int` is Go's 64-bit int. */
module Wav {
  import opened Basics
  import opened Arithmetic

  type byte = i: int | 0 <= i < 256
  type int16 = i: int | -0x8000 <= i <= 0x7FFF

  const TWO32 := 0x1_0000_0000
  const RIFF: seq<byte> := [82, 73, 70, 70]
  const WAVE: seq<byte> := [87, 65, 86, 69]
  const FMT: seq<byte> := [102, 109, 116, 32]
  const DATA: seq<byte> := [100, 97, 116, 97]

  datatype Result<T> = Ok(value: T) | Err(error: Error)

  datatype Error =
    | TooShort | NotRiffWave
    | FmtTooSmall(size: nat) | UnsupportedFormat(format: nat)
    | MissingFmt | MissingData
    | UnsupportedBits(bits: nat) | InvalidChannels | InvalidRate

  datatype Audio = Audio(samples: seq<int16>, rate: int)

  // ---------- little-endian numbers ----------

  function Low8(v: int): byte { v % 256 }

  /** Go's uint16 and uint32 conversions keep the low bits of any int. */
  function Le16(v: int): (b: seq<byte>)
    ensures |b| == 2
  {
    [Low8(v), Low8(v / 256)]
  }

  function Le32(v: int): (b: seq<byte>)
    ensures |b| == 4
  {
    [Low8(v), Low8(v / 256), Low8(v / 0x1_0000), Low8(v / 0x100_0000)]
  }

  function Uint16(b: seq<byte>): (u: nat)
    requires |b| == 2
    ensures u < 0x1_0000
  {
    var b0: int, b1: int := b[0], b[1];
    b0 + 256 * b1
  }

  function Uint32(b: seq<byte>): (u: nat)
    requires |b| == 4
    ensures u < TWO32
  {
    var b0: int, b1: int, b2: int, b3: int := b[0], b[1], b[2], b[3];
    b0 + 256 * b1 + 0x1_0000 * b2 + 0x100_0000 * b3
  }

  function Signed16(u: nat): int16
    requires u < 0x1_0000
  {
    if u < 0x8000 then u else u - 0x1_0000
  }

  /** Peeling off one more byte. */
  lemma {:induction false} ByteAbove(v: int, m: int)
    requires m > 0
    ensures v % (256 * m) == v % m + m * Low8(v / m)
  {
    var q, d, r := v / m / 256, v / m % 256, v % m;
    assert v / m == 256 * q + d;
    assert m * (v / m) == m * (256 * q) + m * d;
    var big := 256 * m;
    assert m * (256 * q) == q * big;
    assert v == q * big + (m * d + r);
    Scale(0, d, m);
    Scale(d, 255, m);
    DivBelow(v, big, q);
    DivBelow(v, big, q + 1);
    assert (q + 1) * big == q * big + big;
    assert v / big == q;
    assert v == big * (v / big) + v % big;
    assert big * q == q * big;
  }

  lemma {:induction false} Le32Inverse(v: int)
    ensures Uint32(Le32(v)) == v % TWO32
  {
    ByteAbove(v, 256);
    ByteAbove(v, 0x1_0000);
    ByteAbove(v, 0x100_0000);
    var b0, b1, b2, b3 := Low8(v), Low8(v / 256), Low8(v / 0x1_0000), Low8(v / 0x100_0000);
    assert b0 == v % 256;
    hide Low8;
    assert Le32(v) == [b0, b1, b2, b3];
  }

  lemma {:induction false} Uint16Is(b: seq<byte>)
    requires |b| == 2
    ensures Uint16(b) == 0 <==> b == [0, 0]
    ensures Uint16(b) == 16 <==> b == [16, 0]
  {
  }

  lemma {:induction false} Uint32Is(b: seq<byte>)
    requires |b| == 4
    ensures Uint32(b) == 0 <==> b == [0, 0, 0, 0]
  {
  }

  lemma {:induction false} Le16Inverse(v: int)
    ensures Uint16(Le16(v)) == v % 0x1_0000
  {
    ByteAbove(v, 256);
  }

  lemma {:induction false} SampleInverse(s: int16)
    ensures Signed16(Uint16(Le16(s))) == s
  {
    Le16Inverse(s);
  }

  // ---------- chunk lists ----------

  /** An id and a body, as the walk sees them. */
  datatype Part = Part(id: seq<byte>, body: seq<byte>)

  /** A chunk as written: an odd body is followed by some pad byte. */
  datatype Chunk = Chunk(part: Part, pad: byte)

  predicate WellFormed(c: Chunk) { |c.part.id| == 4 && |c.part.body| < TWO32 }

  function RenderOne(c: Chunk): seq<byte>
  {
    c.part.id + Le32(|c.part.body|) + c.part.body + (if |c.part.body| % 2 == 1 then [c.pad] else [])
  }

  function Render(chunks: seq<Chunk>): seq<byte>
  {
    if chunks == [] then [] else RenderOne(chunks[0]) + Render(chunks[1..])
  }

  function Parts(chunks: seq<Chunk>): seq<Part>
  {
    if chunks == [] then [] else [chunks[0].part] + Parts(chunks[1..])
  }

  /** The body size the walk uses: what the file says, or what is left of the file. */
  function BodySize(rest: seq<byte>): (size: nat)
    requires |rest| >= 8
    ensures 8 + size <= |rest|
  {
    var size := Uint32(rest[4..8]);
    if 8 + size > |rest| then |rest| - 8 else size
  }

  function AfterChunk(rest: seq<byte>): (after: seq<byte>)
    requires |rest| >= 8
    ensures |after| < |rest|
  {
    var next := 8 + BodySize(rest) + BodySize(rest) % 2;
    if next <= |rest| then rest[next..] else []
  }

  /** The chunks the walk finds in what follows the RIFF header. */
  function Split(rest: seq<byte>): seq<Part>
    decreases |rest|
  {
    if |rest| < 8 then []
    else [Part(rest[..4], rest[8..8 + BodySize(rest)])] + Split(AfterChunk(rest))
  }

  lemma {:induction false} Slices(id: seq<byte>, size: seq<byte>, more: seq<byte>, n: nat)
    requires |id| == 4 && |size| == 4 && n <= |more|
    ensures var rest := id + size + more;
            && |rest| == 8 + |more| && rest[..4] == id && rest[4..8] == size && rest[8 + n..] == more[n..]
            && rest[8..8 + n] == more[..n]
  {
  }

  lemma {:induction false} SplitOne(c: Chunk, tail: seq<byte>)
    requires WellFormed(c)
    ensures Split(RenderOne(c) + tail) == [c.part] + Split(tail)
  {
    hide Le32, Uint32;
    var n := |c.part.body|;
    var padding := if n % 2 == 1 then [c.pad] else [];
    var more := c.part.body + padding + tail;
    var rest := RenderOne(c) + tail;
    assert rest == c.part.id + Le32(n) + more;
    Le32Inverse(n);
    assert n % TWO32 == n;
    Slices(c.part.id, Le32(n), more, n);
    Slices(c.part.id, Le32(n), more, n + n % 2);
    assert more[..n] == c.part.body && more[n + n % 2..] == tail;
    assert BodySize(rest) == n;
  }

  /** Splitting undoes rendering, for any pad bytes and whatever follows. */
  lemma {:induction false} SplitRendered(chunks: seq<Chunk>, tail: seq<byte>)
    requires forall i :: 0 <= i < |chunks| ==> WellFormed(chunks[i])
    ensures Split(Render(chunks) + tail) == Parts(chunks) + Split(tail)
  {
    hide RenderOne, WellFormed, Split;
    if chunks == [] {
      assert Render(chunks) + tail == tail;
    } else {
      var more := Render(chunks[1..]) + tail;
      SplitRendered(chunks[1..], tail);
      SplitOne(chunks[0], more);
      assert Render(chunks) + tail == RenderOne(chunks[0]) + more;
    }
  }

  /** A final chunk cut short by the end of the file keeps what is there. */
  lemma {:induction false} SplitTruncated(id: seq<byte>, size: nat, present: seq<byte>)
    requires |id| == 4 && |present| <= size < TWO32
    ensures Split(id + Le32(size) + present) == [Part(id, present)]
  {
    hide Le32, Uint32;
    var rest := id + Le32(size) + present;
    Le32Inverse(size);
    assert size % TWO32 == size;
    Slices(id, Le32(size), present, |present|);
    assert BodySize(rest) == |present| && present[..|present|] == present;
    assert AfterChunk(rest) == [];
  }

  // ---------- what a chunk list means ----------

  /** The variables of the walk. */
  datatype Walk = Walk(rate: nat, channels: nat, bits: nat, haveFmt: bool, haveData: bool, pcm: seq<byte>)

  const START := Walk(0, 0, 0, false, false, [])

  function Read(w: Walk, p: Part): Result<Walk>
  {
    if p.id == FMT then
      if |p.body| < 16 then Err(FmtTooSmall(|p.body|))
      else if Uint16(p.body[..2]) != 1 then Err(UnsupportedFormat(Uint16(p.body[..2])))
      else Ok(w.(channels := Uint16(p.body[2..4]), rate := Uint32(p.body[4..8]), bits := Uint16(p.body[14..16]), haveFmt := true))
    else if p.id == DATA then Ok(w.(pcm := p.body, haveData := true))
    else Ok(w)
  }

  function ReadAll(w: Walk, parts: seq<Part>): Result<Walk>
    decreases |parts|
  {
    if parts == [] then Ok(w)
    else
      match Read(w, parts[0])
      case Err(e) => Err(e)
      case Ok(v) => ReadAll(v, parts[1..])
  }

  function Sum(s: seq<int16>): int { if s == [] then 0 else Sum(s[..|s| - 1]) + s[|s| - 1] }

  lemma {:induction false} SumBetween(s: seq<int16>)
    ensures -0x8000 * |s| <= Sum(s) <= 0x7FFF * |s|
  {
    if s != [] {
      SumBetween(s[..|s| - 1]);
    }
  }

  /** The average of one frame, truncated toward zero; it always fits 16 bits. */
  function Average(s: seq<int16>): int16
    requires s != []
  {
    SumBetween(s);
    TruncDivBetween(Sum(s), |s|, -0x8000, 0x7FFF);
    TruncDiv(Sum(s), |s|)
  }

  function Samples(pcm: seq<byte>): (s: seq<int16>)
    ensures |s| == |pcm| / 2
    ensures forall i :: 0 <= i < |s| ==> s[i] == Signed16(Uint16(pcm[2 * i..2 * i + 2]))
  {
    seq(|pcm| / 2, i requires 0 <= i < |pcm| / 2 => Signed16(Uint16(pcm[2 * i..2 * i + 2])))
  }

  /** One average per whole frame; samples of an incomplete last frame are dropped. */
  function Downmix(s: seq<int16>, channels: nat): (mono: seq<int16>)
    requires channels > 0
    decreases |s|
  {
    if |s| < channels then [] else [Average(s[..channels])] + Downmix(s[channels..], channels)
  }

  function Conclude(w: Walk): Result<Audio>
  {
    if !w.haveFmt then Err(MissingFmt)
    else if !w.haveData then Err(MissingData)
    else if w.bits != 16 then Err(UnsupportedBits(w.bits))
    else if w.channels < 1 then Err(InvalidChannels)
    else if w.rate <= 0 then Err(InvalidRate)
    else Ok(Audio(Downmix(Samples(w.pcm), w.channels), w.rate))
  }

  /** The decoder: split, read in order, conclude. */
  function Decode(file: seq<byte>): Result<Audio>
  {
    if |file| < 12 then Err(TooShort)
    else if file[..4] != RIFF || file[8..12] != WAVE then Err(NotRiffWave)
    else
      match ReadAll(START, Split(file[12..]))
      case Err(e) => Err(e)
      case Ok(w) => Conclude(w)
  }

  // ---------- the last fmt and the last data chunk count ----------

  /** Body of the last part with this id. */
  function LastBody(parts: seq<Part>, id: seq<byte>): Option<seq<byte>>
  {
    if parts == [] then None
    else
      var later := LastBody(parts[1..], id);
      if later.Some? || parts[0].id != id then later else Some(parts[0].body)
  }

  predicate ValidFmt(p: Part) { p.id == FMT ==> |p.body| >= 16 && Uint16(p.body[..2]) == 1 }

  lemma {:induction false} LastBodyLong(parts: seq<Part>)
    requires forall i :: 0 <= i < |parts| ==> ValidFmt(parts[i])
    ensures var b := LastBody(parts, FMT); b.Some? ==> |b.value| >= 16
  {
    if parts != [] {
      LastBodyLong(parts[1..]);
    }
  }

  /** What the last fmt and data bodies say, in the order the decoder checks it. */
  function Verdict(format: Option<seq<byte>>, data: Option<seq<byte>>): Result<Audio>
    requires format.Some? ==> |format.value| >= 16
  {
    if format.None? then Err(MissingFmt)
    else if data.None? then Err(MissingData)
    else
      var f := format.value;
      var channels, rate, bits := Uint16(f[2..4]), Uint32(f[4..8]), Uint16(f[14..16]);
      if bits != 16 then Err(UnsupportedBits(bits))
      else if channels < 1 then Err(InvalidChannels)
      else if rate <= 0 then Err(InvalidRate)
      else Ok(Audio(Downmix(Samples(data.value), channels), rate))
  }

  /** Which bodies are accepted, in their bytes (bytes 2-3, 4-7 and 14-15 of a fmt body
      are channels, rate and bits), and what then comes out. */
  lemma {:induction false} AcceptedIff(f: seq<byte>, d: seq<byte>)
    requires |f| >= 16
    ensures Verdict(None, Some(d)) == Verdict(None, None) == Err(MissingFmt)
    ensures Verdict(Some(f), None) == Err(MissingData)
    ensures var v := Verdict(Some(f), Some(d));
            && (v.Ok? <==> f[14] == 16 && f[15] == 0 && f[2..4] != [0, 0] && f[4..8] != [0, 0, 0, 0])
            && (v.Err? && v.error.UnsupportedBits? <==> f[14..16] != [16, 0])
            && (v == Err(InvalidChannels) <==> f[14..16] == [16, 0] && f[2..4] == [0, 0])
            && (v == Err(InvalidRate) <==> f[14..16] == [16, 0] && f[2..4] != [0, 0] && f[4..8] == [0, 0, 0, 0])
    ensures var v := Verdict(Some(f), Some(d));
            v.Ok? ==>
              && v.value.rate == Uint32(f[4..8])
              && Uint16(f[2..4]) > 0 && v.value.samples == Downmix(Samples(d), Uint16(f[2..4]))
  {
    hide Downmix, Samples;
    Uint16Is(f[14..16]);
    Uint16Is(f[2..4]);
    Uint32Is(f[4..8]);
    hide Uint16, Uint32, Le16, Le32;
  }

  lemma {:induction false} LastWins(w: Walk, parts: seq<Part>)
    requires forall i :: 0 <= i < |parts| ==> ValidFmt(parts[i])
    ensures ReadAll(w, parts).Ok?
    ensures var v := ReadAll(w, parts).value;
            var f := LastBody(parts, FMT);
            var d := LastBody(parts, DATA);
            && (d.Some? ==> v.haveData && v.pcm == d.value)
            && (d.None? ==> v.haveData == w.haveData && v.pcm == w.pcm)
            && (f.None? ==> v.haveFmt == w.haveFmt && v.rate == w.rate && v.channels == w.channels && v.bits == w.bits)
            && (f.Some? ==>
                  && v.haveFmt && |f.value| >= 16
                  && v.channels == Uint16(f.value[2..4]) && v.rate == Uint32(f.value[4..8]) && v.bits == Uint16(f.value[14..16]))
    decreases |parts|
  {
    hide Uint16, Uint32;
    if parts != [] {
      assert ValidFmt(parts[0]);
      LastWins(Read(w, parts[0]).value, parts[1..]);
    }
  }

  function File(size: seq<byte>, chunks: seq<Chunk>, tail: seq<byte>): seq<byte> { RIFF + size + WAVE + Render(chunks) + tail }

  /** Main theorem: a rendered list of chunks (unknown ids, odd sizes, any pad bytes),
      followed by anything at all, decodes to the last data chunk, downmixed by the last
      fmt chunk's channel count, or to the error those two determine. What follows may be
      a truncated final chunk (`SplitTruncated`) or too short to be a chunk. */
  lemma {:induction false} DecodesLast(size: seq<byte>, chunks: seq<Chunk>, tail: seq<byte>)
    requires |size| == 4 && forall i :: 0 <= i < |chunks| ==> WellFormed(chunks[i])
    requires var parts := Parts(chunks) + Split(tail); forall i :: 0 <= i < |parts| ==> ValidFmt(parts[i])
    ensures var parts := Parts(chunks) + Split(tail);
            var f := LastBody(parts, FMT);
            (f.Some? ==> |f.value| >= 16) && Decode(File(size, chunks, tail)) == Verdict(f, LastBody(parts, DATA))
  {
    hide Render, Split, Downmix, Samples, ValidFmt, Read, LastBody, Uint16, Uint32;
    var file := File(size, chunks, tail);
    var parts := Parts(chunks) + Split(tail);
    SplitRendered(chunks, tail);
    assert file[..4] == RIFF && file[8..12] == WAVE && file[12..] == Render(chunks) + tail;
    LastBodyLong(parts);
    LastWins(START, parts);
  }

  lemma {:induction false} PartsValid(chunks: seq<Chunk>)
    requires forall i :: 0 <= i < |chunks| ==> ValidFmt(chunks[i].part)
    ensures forall i :: 0 <= i < |Parts(chunks)| ==> ValidFmt(Parts(chunks)[i])
  {
    hide ValidFmt;
    if chunks != [] {
      PartsValid(chunks[1..]);
    }
  }

  /** A bad fmt chunk ends the walk, whatever follows it. */
  lemma {:induction false} BadFmtStops(size: seq<byte>, before: seq<Chunk>, bad: Chunk, after: seq<byte>)
    requires |size| == 4 && WellFormed(bad) && !ValidFmt(bad.part)
    requires forall i :: 0 <= i < |before| ==> WellFormed(before[i]) && ValidFmt(before[i].part)
    ensures Decode(RIFF + size + WAVE + Render(before) + RenderOne(bad) + after)
         == (if |bad.part.body| < 16 then Err(FmtTooSmall(|bad.part.body|)) else Err(UnsupportedFormat(Uint16(bad.part.body[..2]))))
  {
    hide Render, RenderOne, Conclude, Split, ReadAll, Parts, ValidFmt, WellFormed, Uint16;
    var file := RIFF + size + WAVE + Render(before) + RenderOne(bad) + after;
    SplitRendered(before, RenderOne(bad) + after);
    SplitOne(bad, after);
    assert file[..4] == RIFF && file[8..12] == WAVE;
    assert file[12..] == Render(before) + (RenderOne(bad) + after);
    PartsValid(before);
    ReadStops(START, Parts(before), bad.part, Split(after));
    assert Split(file[12..]) == Parts(before) + [bad.part] + Split(after);
  }

  lemma {:induction false} ReadStops(w: Walk, good: seq<Part>, bad: Part, more: seq<Part>)
    requires (forall i :: 0 <= i < |good| ==> ValidFmt(good[i])) && !ValidFmt(bad)
    ensures ReadAll(w, good + [bad] + more)
         == (if |bad.body| < 16 then Err(FmtTooSmall(|bad.body|)) else Err(UnsupportedFormat(Uint16(bad.body[..2]))))
    decreases |good|
  {
    hide Uint16, Uint32;
    if good == [] {
      assert good + [bad] + more == [bad] + more;
    } else {
      assert ValidFmt(good[0]);
      ReadStops(Read(w, good[0]).value, good[1..], bad, more);
      assert good + [bad] + more == [good[0]] + (good[1..] + [bad] + more);
    }
  }

  // ---------- downmixing ----------

  lemma {:induction false} DownmixMono(s: seq<int16>)
    ensures Downmix(s, 1) == s
  {
    if s != [] {
      DownmixMono(s[1..]);
      assert s[..1] == [s[0]] && [s[0]][..0] == [];
      assert Sum([s[0]]) == s[0];
      assert s == [s[0]] + s[1..];
    }
  }

  lemma {:induction false} FrameFits(n: nat, channels: nat, f: nat)
    requires channels > 0
    ensures f < n / channels <==> f * channels + channels <= n
    ensures 0 <= f * channels && n / channels >= 0
  {
    DivBelow(n, channels, f + 1);
    DivBelow(n, channels, 0);
    Scale(0, f, channels);
    assert (f + 1) * channels == f * channels + channels;
  }

  /** The samples of frame f. */
  function Frame(s: seq<int16>, channels: nat, f: nat): (frame: seq<int16>)
    requires channels > 0 && f < |s| / channels
    ensures |frame| == channels
  {
    FrameFits(|s|, channels, f);
    s[f * channels..f * channels + channels]
  }

  lemma {:induction false} FrameLater(s: seq<int16>, channels: nat, f: nat)
    requires channels > 0 && 0 < f < |s| / channels && channels <= |s| && f - 1 < (|s| - channels) / channels
    ensures Frame(s[channels..], channels, f - 1) == Frame(s, channels, f)
  {
    FrameFits(|s|, channels, f);
    FrameFits(|s| - channels, channels, f - 1);
    var at := (f - 1) * channels;
    assert f * channels == at + channels;
    SubSlice(s, channels, |s| - channels, at, at + channels);
  }

  /** The downmix frame by frame. */
  lemma {:induction false} DownmixAt(s: seq<int16>, channels: nat, f: nat)
    requires channels > 0
    ensures |Downmix(s, channels)| == |s| / channels
    ensures f < |s| / channels ==> Downmix(s, channels)[f] == Average(Frame(s, channels, f))
    decreases |s|
  {
    hide Average, Frame;
    var zero: nat := 0;
    FrameFits(|s|, channels, zero);
    if |s| >= channels {
      DivPeel(|s|, channels);
      DownmixAt(s[channels..], channels, if f > 0 then f - 1 else 0);
      if 0 < f < |s| / channels {
        FrameLater(s, channels, f);
      } else {
        FirstFrame(s, channels);
      }
    }
  }

  /** What the downmix computes, without its own terms: each output is the sum of its
      frame's samples divided by the number of channels, truncated toward zero. */
  lemma {:induction false} DownmixValue(s: seq<int16>, channels: nat, f: nat, at: nat)
    requires channels > 0 && f < |s| / channels && at == f * channels
    ensures |Downmix(s, channels)| == |s| / channels && at + channels <= |s|
    ensures Truncates(Downmix(s, channels)[f], Sum(s[at..at + channels]), channels)
  {
    DownmixAt(s, channels, f);
    FrameFits(|s|, channels, f);
    var frame := Frame(s, channels, f);
    AverageIs(frame);
    TruncDivIs(Sum(frame), channels);
    hide Sum, Average, Downmix, TruncDiv;
  }

  /** The sum adds up. */
  lemma {:induction false} SumConcat(a: seq<int16>, b: seq<int16>)
    ensures Sum(a + b) == Sum(a) + Sum(b)
    ensures |b| == 1 ==> Sum(b) == b[0]
  {
    if b == [] {
      assert a + b == a;
    } else {
      var n := |b| - 1;
      SumConcat(a, b[..n]);
      assert (a + b)[..|a + b| - 1] == a + b[..n];
    }
  }

  lemma {:induction false} FirstFrame(s: seq<int16>, channels: nat)
    requires channels > 0 && |s| >= channels && |s| / channels > 0
    ensures Frame(s, channels, 0) == s[..channels]
  {
    assert 0 * channels == 0;
  }

  lemma {:induction false} DivPeel(n: nat, d: nat)
    requires 0 < d <= n
    ensures (n - d) / d == n / d - 1
  {
    var q := (n - d) / d;
    DivBelow(n - d, d, q + 1);
    DivBelow(n - d, d, q);
    DivBelow(n, d, q + 2);
    DivBelow(n, d, q + 1);
    assert (q + 2) * d == (q + 1) * d + d && (q + 1) * d == q * d + d;
  }

  function Repeat(x: int16, n: nat): (s: seq<int16>)
    ensures |s| == n
  {
    if n == 0 then [] else Repeat(x, n - 1) + [x]
  }

  /** Every sample on all channels. */
  function Spread(mono: seq<int16>, channels: nat): seq<int16>
  {
    if mono == [] then [] else Repeat(mono[0], channels) + Spread(mono[1..], channels)
  }

  lemma {:induction false} SumRepeat(x: int16, n: nat)
    ensures Sum(Repeat(x, n)) == x * n
  {
    if n > 0 {
      SumRepeat(x, n - 1);
      assert Repeat(x, n)[..n - 1] == Repeat(x, n - 1);
      assert x * n == x * (n - 1) + x;
    }
  }

  /** Downmixing a mono recording put on every channel gives it back. */
  lemma {:induction false} DownmixSpread(mono: seq<int16>, channels: nat)
    requires channels > 0
    ensures Downmix(Spread(mono, channels), channels) == mono
  {
    hide Sum;
    if mono != [] {
      var x := mono[0];
      var s := Spread(mono, channels);
      DownmixSpread(mono[1..], channels);
      SumRepeat(x, channels);
      AverageOf(x, channels);
      assert s[..channels] == Repeat(x, channels) && s[channels..] == Spread(mono[1..], channels);
      assert mono == [x] + mono[1..];
    }
  }

  lemma {:induction false} AverageOf(x: int16, n: nat)
    requires n > 0
    ensures TruncDiv(x * n, n) == x
  {
    var y: int := x;
    MultipleDivides(y, n);
    MultipleDivides(-y, n);
    assert (-y) * n == -(y * n);
    if y >= 0 {
      Scale(0, y, n);
    } else {
      Scale(y, -1, n);
    }
  }

  // ---------- encoding ----------

  function SampleBytes(s: seq<int16>): (b: seq<byte>)
    ensures |b| == 2 * |s|
  {
    if s == [] then [] else SampleBytes(s[..|s| - 1]) + Le16(s[|s| - 1])
  }

  function FmtBody(rate: int): (b: seq<byte>)
    ensures |b| == 16
  {
    Le16(1) + Le16(1) + Le32(rate) + Le32(2 * rate) + Le16(2) + Le16(16)
  }

  /** The canonical 44-byte header and the samples. */
  function Encode(s: seq<int16>, rate: int): seq<byte>
  {
    RIFF + Le32(36 + 2 * |s|) + WAVE + FMT + Le32(16) + FmtBody(rate) + DATA + Le32(2 * |s|) + SampleBytes(s)
  }

  lemma {:induction false} SampleBytesAt(s: seq<int16>, i: nat)
    requires i < |s|
    ensures SampleBytes(s)[2 * i..2 * i + 2] == Le16(s[i])
  {
    var n := |s| - 1;
    if i < n {
      SampleBytesAt(s[..n], i);
      assert SampleBytes(s)[2 * i..2 * i + 2] == SampleBytes(s[..n])[2 * i..2 * i + 2];
    }
  }

  lemma {:induction false} SamplesInverse(s: seq<int16>)
    ensures Samples(SampleBytes(s)) == s
  {
    hide Le16, Uint16;
    forall i | 0 <= i < |s| ensures Samples(SampleBytes(s))[i] == s[i] {
      SampleBytesAt(s, i);
      SampleInverse(s[i]);
    }
  }

  lemma {:induction false} FmtBodyReads(rate: int)
    ensures var b := FmtBody(rate);
            && Uint16(b[..2]) == 1 && Uint16(b[2..4]) == 1 && Uint16(b[14..16]) == 16 && Uint32(b[4..8]) == rate % TWO32
  {
    var b := FmtBody(rate);
    assert b[..2] == Le16(1) && b[2..4] == Le16(1) && b[14..16] == Le16(16) && b[4..8] == Le32(rate);
    Le32Inverse(rate);
  }

  function Canonical(s: seq<int16>, rate: int): seq<Chunk>
  {
    [Chunk(Part(FMT, FmtBody(rate)), 0), Chunk(Part(DATA, SampleBytes(s)), 0)]
  }

  lemma {:induction false} EncodeIsRendering(s: seq<int16>, rate: int)
    ensures Encode(s, rate) == File(Le32(36 + 2 * |s|), Canonical(s, rate), [])
  {
    hide SampleBytes, FmtBody, Le32;
    var c := Canonical(s, rate);
    assert c[1..] == [c[1]] && c[1..][1..] == [];
    assert Render(c[1..][1..]) == [];
    assert Render(c[1..]) == RenderOne(c[1]);
    assert Render(c) == RenderOne(c[0]) + RenderOne(c[1]);
    assert RenderOne(c[0]) == FMT + Le32(16) + FmtBody(rate);
    assert RenderOne(c[1]) == DATA + Le32(2 * |s|) + SampleBytes(s);
  }

  lemma {:induction false} CanonicalBodies(s: seq<int16>, rate: int)
    ensures var parts := Parts(Canonical(s, rate));
            LastBody(parts, FMT) == Some(FmtBody(rate)) && LastBody(parts, DATA) == Some(SampleBytes(s))
  {
    hide SampleBytes, FmtBody;
    var c := Canonical(s, rate);
    assert c[1..] == [c[1]] && c[1..][1..] == [];
    assert Parts(c[1..][1..]) == [];
    assert Parts(c[1..]) == [c[1].part];
    var parts := Parts(c);
    assert parts == [c[0].part, c[1].part];
    assert parts[1..] == [c[1].part] && parts[1..][1..] == [];
    assert LastBody(parts[1..][1..], FMT) == None && LastBody(parts[1..][1..], DATA) == None;
    assert LastBody(parts[1..], DATA) == Some(SampleBytes(s)) && LastBody(parts[1..], FMT) == None;
  }

  lemma {:induction false} CanonicalValid(s: seq<int16>, rate: int)
    ensures forall i :: 0 <= i < |Parts(Canonical(s, rate))| ==> ValidFmt(Parts(Canonical(s, rate))[i])
  {
    hide FmtBody, SampleBytes;
    FmtBodyReads(rate);
    PartsValid(Canonical(s, rate));
  }

  lemma {:induction false} FieldsAt(file: seq<byte>, rate: int)
    requires |file| >= 36 && file[20..36] == FmtBody(rate)
    ensures Uint16(file[20..22]) == 1 && Uint16(file[22..24]) == 1
    ensures Uint32(file[24..28]) == rate % TWO32 && Uint32(file[28..32]) == 2 * rate % TWO32
    ensures Uint16(file[32..34]) == 2 && Uint16(file[34..36]) == 16
  {
    FmtFields(rate);
    hide Uint16, Uint32, FmtBody;
    SubSlice(file, 20, 16, 0, 2);
    SubSlice(file, 20, 16, 2, 4);
    SubSlice(file, 20, 16, 4, 8);
    SubSlice(file, 20, 16, 8, 12);
    SubSlice(file, 20, 16, 12, 14);
    SubSlice(file, 20, 16, 14, 16);
  }

  /** The header field by field, at its fixed offsets. */
  lemma {:induction false} HeaderFields(s: seq<int16>, rate: int)
    ensures var file := Encode(s, rate);
            && |file| == 44 + 2 * |s|
            && file[..4] == RIFF && file[8..12] == WAVE && file[12..16] == FMT && file[36..40] == DATA
            && Uint32(file[4..8]) == (|file| - 8) % TWO32 && Uint32(file[16..20]) == 16
            && Uint16(file[20..22]) == 1 && Uint16(file[22..24]) == 1
            && Uint32(file[24..28]) == rate % TWO32 && Uint32(file[28..32]) == 2 * rate % TWO32
            && Uint16(file[32..34]) == 2 && Uint16(file[34..36]) == 16
            && Uint32(file[40..44]) == 2 * |s| % TWO32
            && file[44..] == SampleBytes(s)
  {
    hide Uint32, Uint16, Le32, FmtBody;
    var file := Encode(s, rate);
    assert file[4..8] == Le32(36 + 2 * |s|) && file[16..20] == Le32(16) && file[40..44] == Le32(2 * |s|);
    assert file[20..36] == FmtBody(rate);
    FieldsAt(file, rate);
    Le32Inverse(36 + 2 * |s|);
    Le32Inverse(16);
    Le32Inverse(2 * |s|);
  }

  lemma {:induction false} FmtFields(rate: int)
    ensures var b := FmtBody(rate);
            && Uint16(b[0..2]) == 1 && Uint16(b[2..4]) == 1 && Uint32(b[4..8]) == rate % TWO32
            && Uint32(b[8..12]) == 2 * rate % TWO32 && Uint16(b[12..14]) == 2 && Uint16(b[14..16]) == 16
  {
    var b := FmtBody(rate);
    assert b[0..2] == Le16(1) && b[2..4] == Le16(1) && b[4..8] == Le32(rate);
    assert b[8..12] == Le32(2 * rate) && b[12..14] == Le16(2) && b[14..16] == Le16(16);
    Le32Inverse(rate);
    Le32Inverse(2 * rate);
  }

  /** Whatever decodes has fewer than 2^31 samples and a positive 32-bit rate. */
  lemma {:induction false} DecodedBounded(file: seq<byte>)
    requires Decode(file).Ok?
    ensures |Decode(file).value.samples| < 0x8000_0000 && 0 < Decode(file).value.rate < TWO32
  {
    hide Split, Downmix;
    BodiesBounded(file[12..]);
    ReadBounded(START, Split(file[12..]));
    var w := ReadAll(START, Split(file[12..])).value;
    DownmixAt(Samples(w.pcm), w.channels, 0);
    DivBelow(|w.pcm| / 2, w.channels, 0x8000_0000);
    Scale(1, w.channels, 0x8000_0000);
  }

  lemma {:induction false} BodiesBounded(rest: seq<byte>)
    ensures forall i :: 0 <= i < |Split(rest)| ==> |Split(rest)[i].body| < TWO32
    decreases |rest|
  {
    hide AfterChunk;
    if |rest| >= 8 {
      BodiesBounded(AfterChunk(rest));
    }
  }

  lemma {:induction false} ReadBounded(w: Walk, parts: seq<Part>)
    requires forall i :: 0 <= i < |parts| ==> |parts[i].body| < TWO32
    requires |w.pcm| < TWO32 && w.rate < TWO32
    ensures ReadAll(w, parts).Ok? ==> |ReadAll(w, parts).value.pcm| < TWO32 && ReadAll(w, parts).value.rate < TWO32
    decreases |parts|
  {
    if parts != [] && Read(w, parts[0]).Ok? {
      ReadBounded(Read(w, parts[0]).value, parts[1..]);
    }
  }

  /** Main theorem: decoding undoes encoding exactly within the 32-bit limits of the format. */
  lemma {:induction false} RoundTripIff(s: seq<int16>, rate: int)
    ensures Decode(Encode(s, rate)) == Ok(Audio(s, rate)) <==> 2 * |s| < TWO32 && 0 < rate < TWO32
  {
    hide Decode, Encode;
    if 2 * |s| < TWO32 && 0 < rate < TWO32 {
      RoundTrip(s, rate);
    }
    if Decode(Encode(s, rate)) == Ok(Audio(s, rate)) {
      DecodedBounded(Encode(s, rate));
    }
  }

  lemma {:induction false} RoundTrip(s: seq<int16>, rate: int)
    requires 2 * |s| < TWO32 && 0 < rate < TWO32
    ensures Decode(Encode(s, rate)) == Ok(Audio(s, rate))
  {
    hide Decode, Encode, File, Render, Samples, Downmix, SampleBytes, LastBody, FmtBody;
    EncodeIsRendering(s, rate);
    FmtBodyReads(rate);
    assert Split([]) == [];
    var parts := Parts(Canonical(s, rate));
    assert parts + [] == parts && forall i :: 0 <= i < |parts| ==> ValidFmt(parts[i]) by { CanonicalValid(s, rate); }
    DecodesLast(Le32(36 + 2 * |s|), Canonical(s, rate), []);
    CanonicalBodies(s, rate);
    SamplesInverse(s);
    DownmixMono(s);
  }

  // ---------- the encoder's buffer ----------

  /** Go's copy into buf[at:]; what was written before it stays. */
  method Copy(buf: array<byte>, at: nat, s: seq<byte>)
    requires at + |s| <= buf.Length
    modifies buf
    ensures buf[..at + |s|] == old(buf[..at]) + s
  {
    var i := 0;
    while i < |s|
      invariant 0 <= i <= |s|
      invariant buf[..at + i] == old(buf[..at]) + s[..i]
    {
      buf[at + i] := s[i];
      i := i + 1;
    }
  }

  method PutUint16LE(buf: array<byte>, at: nat, v: int)
    requires at + 2 <= buf.Length
    modifies buf
    ensures buf[..at + 2] == old(buf[..at]) + Le16(v)
  {
    buf[at] := Low8(v);
    buf[at + 1] := Low8(v / 256);
  }

  method PutUint32LE(buf: array<byte>, at: nat, v: int)
    requires at + 4 <= buf.Length
    modifies buf
    ensures buf[..at + 4] == old(buf[..at]) + Le32(v)
  {
    buf[at] := Low8(v);
    buf[at + 1] := Low8(v / 256);
    buf[at + 2] := Low8(v / 0x1_0000);
    buf[at + 3] := Low8(v / 0x100_0000);
  }

  method PutHeader(buf: array<byte>, sampleRate: int, dataSize: nat)
    requires buf.Length >= 44
    modifies buf
    ensures buf[..44] == RIFF + Le32(36 + dataSize) + WAVE + FMT + Le32(16) + FmtBody(sampleRate) + DATA + Le32(dataSize)
  {
    hide Le16, Le32;
    Copy(buf, 0, RIFF);
    PutUint32LE(buf, 4, 36 + dataSize);
    Copy(buf, 8, WAVE);
    Copy(buf, 12, FMT);
    PutUint32LE(buf, 16, 16);
    ghost var front := buf[..20];
    PutUint16LE(buf, 20, 1);
    PutUint16LE(buf, 22, 1);
    PutUint32LE(buf, 24, sampleRate);
    PutUint32LE(buf, 28, 2 * sampleRate);
    PutUint16LE(buf, 32, 2);
    PutUint16LE(buf, 34, 16);
    assert buf[..36] == front + FmtBody(sampleRate);
    Copy(buf, 36, DATA);
    PutUint32LE(buf, 40, dataSize);
  }

  /** Proved to be the inverse of the decoder above (`RoundTripIff`). */
  method EncodeWAVPCM16(samples: seq<int16>, sampleRate: int) returns (file: seq<byte>)
    ensures file == Encode(samples, sampleRate)
  {
    hide Le16, Le32, FmtBody;
    var dataSize := 2 * |samples|;
    var buf := new byte[44 + dataSize];
    PutHeader(buf, sampleRate, dataSize);
    ghost var header := buf[..44];
    var i, offset := 0, 44;
    while i < |samples|
      invariant 0 <= i <= |samples| && offset == 44 + 2 * i
      invariant buf[..offset] == header + SampleBytes(samples[..i])
    {
      assert samples[..i + 1][..i] == samples[..i];
      PutUint16LE(buf, offset, samples[i]);
      offset := offset + 2;
      i := i + 1;
    }
    assert samples[..i] == samples;
    file := buf[..];
    assert file == buf[..offset];
  }

  // ---------- the decoder's walk ----------

  function Rest(data: seq<byte>, off: nat): seq<byte> { if off <= |data| then data[off..] else [] }

  lemma {:induction false} WalkStep(data: seq<byte>, off: nat, size: nat)
    requires off + 8 <= |data|
    requires var said := Uint32(data[off + 4..off + 8]);
             size == if off + 8 + said > |data| then |data| - (off + 8) else said
    ensures Split(Rest(data, off))
         == [Part(data[off..off + 4], data[off + 8..off + 8 + size])] + Split(Rest(data, off + 8 + size + size % 2))
  {
    hide Uint32;
    var rest := data[off..];
    assert rest[4..8] == data[off + 4..off + 8] && rest[..4] == data[off..off + 4];
    assert BodySize(rest) == size;
    assert rest[8..8 + size] == data[off + 8..off + 8 + size];
    assert AfterChunk(rest) == Rest(data, off + 8 + size + size % 2);
  }

  /** Every index is in range for every byte string: the slices below carry no
      precondition beyond what the code has checked. */
  method DecodeWAVPCM16(data: seq<byte>) returns (r: Result<Audio>)
    ensures r == Decode(data)
  {
    hide Split, Uint16, Uint32, Samples, Downmix, Rest;
    if |data| < 12 {
      return Err(TooShort);
    }
    if data[0..4] != RIFF || data[8..12] != WAVE {
      return Err(NotRiffWave);
    }
    var sampleRate, numChannels, bitsPerSample: nat := 0, 0, 0;
    var haveFmt, haveData, pcm := false, false, [];
    var off: nat := 12;
    RestIs(data, 12);
    while off + 8 <= |data|
      invariant ReadAll(Walk(sampleRate, numChannels, bitsPerSample, haveFmt, haveData, pcm), Split(Rest(data, off)))
             == ReadAll(START, Split(data[12..]))
      decreases |data| - off
    {
      var id := data[off..off + 4];
      var size := Uint32(data[off + 4..off + 8]);
      var body := off + 8;
      if size < 0 || body + size > |data| {
        size := |data| - body;
      }
      WalkStep(data, off, size);
      ghost var w := Walk(sampleRate, numChannels, bitsPerSample, haveFmt, haveData, pcm);
      ghost var p := Part(id, data[body..body + size]);
      ReadOne(w, p, Split(Rest(data, body + size + size % 2)));
      if id == FMT {
        if size < 16 {
          return Err(FmtTooSmall(size));
        }
        FmtSlices(data, body, size);
        var format := Uint16(data[body..body + 2]);
        numChannels := Uint16(data[body + 2..body + 4]);
        sampleRate := Uint32(data[body + 4..body + 8]);
        bitsPerSample := Uint16(data[body + 14..body + 16]);
        if format != 1 {
          return Err(UnsupportedFormat(format));
        }
        haveFmt := true;
      } else if id == DATA {
        pcm := data[body..body + size];
        haveData := true;
      }
      off := body + size;
      if size % 2 == 1 {
        off := off + 1;
      }
    }
    RestIs(data, off);
    r := Finish(Walk(sampleRate, numChannels, bitsPerSample, haveFmt, haveData, pcm));
  }

  lemma {:induction false} RestIs(data: seq<byte>, off: nat)
    ensures off <= |data| ==> Rest(data, off) == data[off..]
    ensures |data| < off + 8 ==> Split(Rest(data, off)) == []
  {
  }

  lemma {:induction false} ReadOne(w: Walk, p: Part, more: seq<Part>)
    ensures ReadAll(w, [p] + more) == match Read(w, p) case Err(e) => Err(e) case Ok(v) => ReadAll(v, more)
  {
    assert ([p] + more)[1..] == more;
  }

  lemma {:induction false} FmtSlices(data: seq<byte>, body: nat, size: nat)
    requires body + size <= |data| && size >= 16
    ensures var b := data[body..body + size];
            && b[..2] == data[body..body + 2] && b[2..4] == data[body + 2..body + 4]
            && b[4..8] == data[body + 4..body + 8] && b[14..16] == data[body + 14..body + 16]
  {
    SubSlice(data, body, size, 2, 4);
    SubSlice(data, body, size, 4, 8);
    SubSlice(data, body, size, 14, 16);
  }

  lemma {:induction false} SubSlice<T>(data: seq<T>, at: nat, size: nat, i: nat, j: nat)
    requires at + size <= |data| && i <= j <= size
    ensures data[at..at + size][i..j] == data[at + i..at + j]
  {
    var a, b := data[at..at + size][i..j], data[at + i..at + j];
    assert |a| == |b| == j - i;
    assert forall k :: 0 <= k < j - i ==> a[k] == data[at + i + k] && b[k] == data[at + i + k];
  }

  /** The checks after the walk, and the downmix. */
  method Finish(w: Walk) returns (r: Result<Audio>)
    ensures r == Conclude(w)
  {
    hide Samples, Downmix;
    if !w.haveFmt {
      return Err(MissingFmt);
    }
    if !w.haveData {
      return Err(MissingData);
    }
    if w.bits != 16 {
      return Err(UnsupportedBits(w.bits));
    }
    if w.channels < 1 {
      return Err(InvalidChannels);
    }
    if w.rate <= 0 {
      return Err(InvalidRate);
    }
    var interleaved := Interleaved(w.pcm);
    if w.channels == 1 {
      DownmixMono(interleaved);
      return Ok(Audio(interleaved, w.rate));
    }
    var mono := Mono(interleaved, w.channels);
    r := Ok(Audio(mono, w.rate));
  }

  method Interleaved(pcm: seq<byte>) returns (s: seq<int16>)
    ensures s == Samples(pcm)
  {
    hide Uint16;
    var total := |pcm| / 2;
    var a := new int16[total];
    var i := 0;
    while i < total
      invariant 0 <= i <= total
      invariant forall k :: 0 <= k < i ==> a[k] == Samples(pcm)[k]
    {
      a[i] := Signed16(Uint16(pcm[2 * i..2 * i + 2]));
      i := i + 1;
    }
    s := a[..];
  }

  method Mono(interleaved: seq<int16>, channels: nat) returns (mono: seq<int16>)
    requires channels > 0
    ensures mono == Downmix(interleaved, channels)
  {
    hide Downmix, Average, Sum;
    DivBelow(|interleaved|, channels, 0);
    var frames: nat := |interleaved| / channels;
    var out := new int16[frames];
    DownmixAt(interleaved, channels, 0);
    var f := 0;
    while f < frames
      invariant 0 <= f <= frames
      invariant forall k :: 0 <= k < f ==> out[k] == Downmix(interleaved, channels)[k]
    {
      DownmixAt(interleaved, channels, f);
      FrameFits(|interleaved|, channels, f);
      var acc := FrameSum(interleaved, f * channels, channels);
      AverageIs(Frame(interleaved, channels, f));
      out[f] := TruncDiv(acc, channels);
      f := f + 1;
    }
    mono := out[..];
  }

  lemma {:induction false} AverageIs(s: seq<int16>)
    requires s != []
    ensures Average(s) == TruncDiv(Sum(s), |s|)
  {
  }

  method FrameSum(s: seq<int16>, at: nat, channels: nat) returns (acc: int)
    requires at + channels <= |s|
    ensures acc == Sum(s[at..at + channels])
  {
    acc := 0;
    var c := 0;
    while c < channels
      invariant 0 <= c <= channels && acc == Sum(s[at..at + c])
    {
      assert s[at..at + c + 1][..c] == s[at..at + c];
      acc := acc + s[at + c];
      c := c + 1;
    }
  }
}
