/** Timestamp arithmetic and gap concealment of readRemoteTrack (internal/webrtc/client.go):
    how many 16 kHz samples are delivered, decoded or concealed, for a list of packets.
    RTP timestamps are 32-bit and wrap. */
module RemoteTimeline {
  import opened Basics
  import opened Arithmetic
  import R = Resampler

  const MODEL_RATE := 16000
  const MAX_CONCEAL := 1920   // 120 ms at the model rate, the length of pcmBuf
  const TWO32 := 0x1_0000_0000

  datatype Codec = Opus | Pcmu

  function ClockRate(c: Codec): int { if c.Opus? then 48000 else 8000 }

  function Low32(k: int): int { k % TWO32 }

  /** Go's `int32` of a 32-bit value. */
  function Signed32(k: int): int {
    if Low32(k) < TWO32 / 2 then Low32(k) else Low32(k) - TWO32
  }

  /** One packet: its timestamp, how many samples its payload decodes to (None when the
      decoder fails), and whether packet loss concealment would succeed just before it. */
  datatype Arrival = Arrival(timestamp: int, decoded: Option<nat>, plc: bool)

  /** `timestamp` and `previousSamples` of the loop. */
  datatype Clock = Clock(stamp: int, previous: nat)

  datatype Piece = Piece(samples: nat, concealed: bool)

  const FRESH := Clock(0, 0)

  // ---------- one packet ----------

  /** uint32 arithmetic: timestamp + previousSamples * clockRate / 16000. */
  function Expected(c: Clock, codec: Codec): int {
    Low32(c.stamp + Low32(Low32(c.previous) * ClockRate(codec)) / MODEL_RATE)
  }

  function Gap(c: Clock, codec: Codec, a: Arrival): int {
    Signed32(a.timestamp - Expected(c, codec))
  }

  /** Missing model-rate samples, truncated toward zero. */
  function Missing(gap: int, codec: Codec): int {
    TruncDiv(gap * MODEL_RATE, ClockRate(codec))
  }

  /** How much to conceal: Opus conceals whole multiples of 2.5 ms. */
  function Concealable(missing: int, codec: Codec): nat {
    if !(0 < missing <= MAX_CONCEAL) then 0
    else if codec.Opus? then missing / 40 * 40
    else missing
  }

  /** What is concealed in front of a packet. */
  function Fill(c: Clock, codec: Codec, a: Arrival): nat {
    if c.previous == 0 || (codec.Opus? && !a.plc) then 0
    else Concealable(Missing(Gap(c, codec, a), codec), codec)
  }

  function Played(c: Clock, codec: Codec, a: Arrival): seq<Piece> {
    (if Fill(c, codec, a) > 0 then [Piece(Fill(c, codec, a), true)] else [])
    + (if a.decoded.Some? then [Piece(a.decoded.value, false)] else [])
  }

  /** A failed decode leaves the clock alone. */
  function After(c: Clock, a: Arrival): Clock {
    if a.decoded.Some? then Clock(a.timestamp, a.decoded.value) else c
  }

  /** Concealment never writes past the 120 ms buffer, whatever the timestamps are. */
  lemma {:induction false} FillFitsBuffer(c: Clock, codec: Codec, a: Arrival)
    ensures Fill(c, codec, a) <= MAX_CONCEAL
    ensures codec.Opus? ==> Fill(c, codec, a) % 40 == 0
  {
    var m := Missing(Gap(c, codec, a), codec);
    assert 0 <= m ==> m / 40 * 40 <= m;
  }

  // ---------- a list of packets ----------

  function ClockAfter(c: Clock, arrivals: seq<Arrival>): Clock
  {
    if arrivals == [] then c
    else After(ClockAfter(c, arrivals[..|arrivals| - 1]), arrivals[|arrivals| - 1])
  }

  function Play(c: Clock, codec: Codec, arrivals: seq<Arrival>): seq<Piece>
  {
    if arrivals == [] then []
    else
      var front := arrivals[..|arrivals| - 1];
      Play(c, codec, front) + Played(ClockAfter(c, front), codec, arrivals[|arrivals| - 1])
  }

  function Total(pieces: seq<Piece>): nat
  {
    if pieces == [] then 0 else Total(pieces[..|pieces| - 1]) + pieces[|pieces| - 1].samples
  }

  lemma {:induction false} TotalConcat(a: seq<Piece>, b: seq<Piece>)
    ensures Total(a + b) == Total(a) + Total(b)
  {
    if b == [] {
      assert a + b == a;
    } else {
      TotalConcat(a, b[..|b| - 1]);
      assert (a + b)[..|a + b| - 1] == a + b[..|b| - 1];
    }
  }

  lemma {:induction false} TotalOne(p: Piece)
    ensures Total([p]) == p.samples
  {
    assert [p][..0] == [];
  }

  lemma {:induction false} TotalPlayed(c: Clock, codec: Codec, a: Arrival)
    ensures Total(Played(c, codec, a)) == Fill(c, codec, a) + (if a.decoded.Some? then a.decoded.value else 0)
  {
    hide Fill;
    TotalConcat(if Fill(c, codec, a) > 0 then [Piece(Fill(c, codec, a), true)] else [],
                if a.decoded.Some? then [Piece(a.decoded.value, false)] else []);
    TotalOne(Piece(Fill(c, codec, a), true));
    if a.decoded.Some? {
      TotalOne(Piece(a.decoded.value, false));
    }
  }

  // ---------- true time ----------

  /** The timestamps are the low 32 bits of these times. */
  ghost predicate Stamped(arrivals: seq<Arrival>, times: seq<int>)
  {
    |times| == |arrivals| && forall i :: 0 <= i < |arrivals| ==> arrivals[i].timestamp == Low32(times[i])
  }

  /** The samples of the last decoded packet, in clock units. */
  function Span(samples: nat, codec: Codec): int {
    if codec.Opus? then 3 * samples else samples / 2
  }

  lemma {:induction false} GapIsTrue(c: Clock, codec: Codec, a: Arrival, last: int, now: int)
    requires c.stamp == Low32(last) && a.timestamp == Low32(now)
    requires c.previous * ClockRate(codec) < TWO32 && (codec.Pcmu? ==> c.previous % 2 == 0)
    requires 0 <= now - last - Span(c.previous, codec) < TWO32 / 2
    ensures Gap(c, codec, a) == now - last - Span(c.previous, codec)
  {
    ScaledIsSpan(c.previous, codec);
    var span := Span(c.previous, codec);
    LowSub(now, last + span);
    LowAdd(last, span);
    SignedSmall(now - last - span);
    hide Low32, Signed32, Span;
    assert Gap(c, codec, a) == Signed32(Low32(now) - Low32(last + span));
    SignedLow(Low32(now) - Low32(last + span), now - last - span);
  }

  lemma {:induction false} ScaledIsSpan(previous: nat, codec: Codec)
    requires previous * ClockRate(codec) < TWO32 && (codec.Pcmu? ==> previous % 2 == 0)
    ensures Low32(Low32(previous) * ClockRate(codec)) / MODEL_RATE == Span(previous, codec)
  {
    assert Low32(previous) == previous;
    assert Low32(previous * ClockRate(codec)) == previous * ClockRate(codec);
  }

  lemma {:induction false} SignedSmall(k: int)
    requires 0 <= k < TWO32 / 2
    ensures Signed32(k) == k
  {
  }

  lemma {:induction false} SignedLow(a: int, b: int)
    requires Low32(a) == Low32(b)
    ensures Signed32(a) == Signed32(b)
  {
  }

  lemma {:induction false} LowAdd(a: int, b: int)
    ensures Low32(Low32(a) + b) == Low32(a + b)
  {
  }

  lemma {:induction false} LowSub(a: int, b: int)
    ensures Low32(Low32(a) - Low32(b)) == Low32(a - b)
  {
  }

  // ---------- PCMU: exact ----------

  /** Samples of a mu-law payload at the model rate: the length ResampleFloat32 gives it. */
  function PcmuSamples(bytes: nat): nat { R.Limit(bytes, 8000, MODEL_RATE) }

  lemma {:induction false} PcmuDoubles(bytes: nat)
    ensures PcmuSamples(bytes) == 2 * bytes
  {
  }

  /** Every payload is non-empty and fits a datagram, and every gap lasts at most 120 ms. */
  ghost predicate PcmuCall(arrivals: seq<Arrival>, bytes: seq<nat>, times: seq<int>)
  {
    && Stamped(arrivals, times) && |bytes| == |arrivals|
    && (forall i :: 0 <= i < |arrivals| ==> 0 < bytes[i] <= 0xFFFF && arrivals[i].decoded == Some(PcmuSamples(bytes[i])))
    && (forall i :: 0 < i < |arrivals| ==> 0 <= times[i] - times[i - 1] - bytes[i - 1] <= 960)
  }

  lemma {:induction false} PcmuClock(arrivals: seq<Arrival>, bytes: seq<nat>, times: seq<int>)
    requires PcmuCall(arrivals, bytes, times) && arrivals != []
    ensures ClockAfter(FRESH, arrivals) == Clock(Low32(times[|times| - 1]), 2 * bytes[|bytes| - 1])
  {
    hide Low32, PcmuSamples;
    PcmuDoubles(bytes[|bytes| - 1]);
  }

  /** One more packet. */
  lemma {:induction false} PlayOneMore(codec: Codec, arrivals: seq<Arrival>)
    requires arrivals != []
    ensures var n := |arrivals| - 1;
            var a := arrivals[n];
            Total(Play(FRESH, codec, arrivals))
              == Total(Play(FRESH, codec, arrivals[..n])) + Fill(ClockAfter(FRESH, arrivals[..n]), codec, a)
                 + (if a.decoded.Some? then a.decoded.value else 0)
  {
    hide Fill, Played, Total;
    var n := |arrivals| - 1;
    var c := ClockAfter(FRESH, arrivals[..n]);
    TotalConcat(Play(FRESH, codec, arrivals[..n]), Played(c, codec, arrivals[n]));
    TotalPlayed(c, codec, arrivals[n]);
  }

  lemma {:induction false} PcmuFront(arrivals: seq<Arrival>, bytes: seq<nat>, times: seq<int>)
    requires PcmuCall(arrivals, bytes, times) && |arrivals| > 1
    ensures var n := |arrivals| - 1;
            && PcmuCall(arrivals[..n], bytes[..n], times[..n])
            && 0 <= times[n] - times[n - 1] - bytes[n - 1] <= 960 && 0 < bytes[n - 1] <= 0xFFFF
  {
    hide Low32, PcmuSamples;
  }

  lemma {:induction false} PcmuLast(arrivals: seq<Arrival>, bytes: seq<nat>, times: seq<int>)
    requires PcmuCall(arrivals, bytes, times) && arrivals != []
    ensures var n := |arrivals| - 1;
            |bytes| == |times| == n + 1 && arrivals[n].decoded == Some(2 * bytes[n]) && arrivals[n].timestamp == Low32(times[n])
  {
    PcmuDoubles(bytes[|bytes| - 1]);
  }

  /** Main theorem for PCMU: within one epoch what is delivered, heard and concealed
      together, is exactly the time from the first timestamp to the end of the last
      packet, across any number of 32-bit wraps. */
  lemma {:induction false} PcmuTimeline(arrivals: seq<Arrival>, bytes: seq<nat>, times: seq<int>)
    requires PcmuCall(arrivals, bytes, times) && arrivals != []
    ensures |times| == |bytes| == |arrivals|
    ensures Total(Play(FRESH, Pcmu, arrivals)) == 2 * (times[|times| - 1] - times[0]) + 2 * bytes[|bytes| - 1]
    decreases |arrivals|
  {
    hide *;
    var n := |arrivals| - 1;
    PcmuLast(arrivals, bytes, times);
    PlayOneMore(Pcmu, arrivals);
    if n > 0 {
      PcmuFront(arrivals, bytes, times);
      PcmuTimeline(arrivals[..n], bytes[..n], times[..n]);
      PcmuClock(arrivals[..n], bytes[..n], times[..n]);
      PcmuFill(ClockAfter(FRESH, arrivals[..n]), arrivals[n], times[n - 1], times[n]);
    } else {
      assert arrivals[..0] == [];
      NothingPlayed(Pcmu);
      NothingBefore(Pcmu, arrivals[n]);
    }
  }

  lemma {:induction false} NothingPlayed(codec: Codec)
    ensures Total(Play(FRESH, codec, [])) == 0 && ClockAfter(FRESH, []) == FRESH
  {
  }

  lemma {:induction false} NothingBefore(codec: Codec, a: Arrival)
    ensures Fill(FRESH, codec, a) == 0
  {
  }

  lemma {:induction false} PcmuFill(c: Clock, a: Arrival, last: int, now: int)
    requires c.stamp == Low32(last) && a.timestamp == Low32(now)
    requires 0 < c.previous <= 2 * 0xFFFF && c.previous % 2 == 0
    requires 0 <= now - last - c.previous / 2 <= 960
    ensures Fill(c, Pcmu, a) == 2 * (now - last) - c.previous
  {
    GapIsTrue(c, Pcmu, a, last, now);
    hide Low32, Gap;
  }

  // ---------- Opus: the exact balance ----------

  /** Decoded samples fit the 120 ms buffer, and no timestamp is behind the audio already
      heard or more than 120 ms past it. */
  ghost predicate OpusCall(arrivals: seq<Arrival>, times: seq<int>)
  {
    && Stamped(arrivals, times)
    && (forall i :: 0 <= i < |arrivals| ==> arrivals[i].decoded.Some? ==> 0 < arrivals[i].decoded.value <= MAX_CONCEAL)
    && (forall i :: 0 <= i < |arrivals| ==> LastHeard(arrivals[..i]) >= 0 ==> 0 <= OpusGap(arrivals, times, i) <= 5760)
  }

  /** Index of the last packet that decoded, or -1. */
  function LastHeard(arrivals: seq<Arrival>): (i: int)
    ensures -1 <= i < |arrivals| && (i >= 0 ==> arrivals[i].decoded.Some?)
  {
    if arrivals == [] then -1
    else if arrivals[|arrivals| - 1].decoded.Some? then |arrivals| - 1
    else LastHeard(arrivals[..|arrivals| - 1])
  }

  function FirstHeard(arrivals: seq<Arrival>): (i: int)
    ensures -1 <= i < |arrivals| && (i >= 0 ==> arrivals[i].decoded.Some?)
  {
    if arrivals == [] then -1
    else
      var i := FirstHeard(arrivals[..|arrivals| - 1]);
      if i < 0 && arrivals[|arrivals| - 1].decoded.Some? then |arrivals| - 1 else i
  }

  /** Time between the end of the last packet heard before packet i and packet i. */
  function OpusGap(arrivals: seq<Arrival>, times: seq<int>, i: nat): int
    requires i < |arrivals| == |times| && LastHeard(arrivals[..i]) >= 0
  {
    var h := LastHeard(arrivals[..i]);
    times[i] - times[h] - 3 * arrivals[h].decoded.value
  }

  /** Clock units left unconcealed in front of packets that were heard. */
  function Shortfall(arrivals: seq<Arrival>, times: seq<int>): int
    requires |arrivals| == |times|
  {
    if arrivals == [] then 0
    else
      var n := |arrivals| - 1;
      var front := arrivals[..n];
      Shortfall(front, times[..n])
      + if arrivals[n].decoded.None? || LastHeard(front) < 0 then 0
        else OpusGap(arrivals, times, n) - 3 * Fill(ClockAfter(FRESH, front), Opus, arrivals[n])
  }

  /** Samples concealed in front of packets that then failed to decode. */
  function Repeated(arrivals: seq<Arrival>): nat
  {
    if arrivals == [] then 0
    else
      var n := |arrivals| - 1;
      Repeated(arrivals[..n])
      + if arrivals[n].decoded.Some? then 0 else Fill(ClockAfter(FRESH, arrivals[..n]), Opus, arrivals[n])
  }

  lemma {:induction false} OpusClock(arrivals: seq<Arrival>, times: seq<int>)
    requires Stamped(arrivals, times)
    ensures var h := LastHeard(arrivals);
            ClockAfter(FRESH, arrivals) == if h < 0 then FRESH else Clock(Low32(times[h]), arrivals[h].decoded.value)
  {
    hide Low32;
    if arrivals != [] {
      OpusClock(arrivals[..|arrivals| - 1], times[..|times| - 1]);
    }
  }

  lemma {:induction false} OpusFront(arrivals: seq<Arrival>, times: seq<int>)
    requires OpusCall(arrivals, times) && arrivals != []
    ensures OpusCall(arrivals[..|arrivals| - 1], times[..|times| - 1])
  {
    hide Low32;
    var n := |arrivals| - 1;
    forall i | 0 <= i < n ensures arrivals[..n][..i] == arrivals[..i] {
    }
  }

  /** Main theorem for Opus, for every mix of decode and concealment failures: what is
      delivered equals the elapsed time, less the shortfall, plus what was concealed in
      front of packets that failed and is therefore concealed a second time. */
  lemma {:induction false} OpusBalance(arrivals: seq<Arrival>, times: seq<int>)
    requires OpusCall(arrivals, times)
    ensures var h := LastHeard(arrivals);
            var f := FirstHeard(arrivals);
            var heard := 3 * (Total(Play(FRESH, Opus, arrivals)) - Repeated(arrivals)) + Shortfall(arrivals, times);
            && (h < 0 <==> f < 0)
            && heard == if h < 0 then 0 else times[h] - times[f] + 3 * arrivals[h].decoded.value
    decreases |arrivals|
  {
    hide Low32, Fill, Played;
    if arrivals != [] {
      var n := |arrivals| - 1;
      var front := arrivals[..n];
      var c := ClockAfter(FRESH, front);
      OpusFront(arrivals, times);
      OpusBalance(front, times[..n]);
      OpusClock(front, times[..n]);
      PlayOneMore(Opus, arrivals);
      if LastHeard(front) < 0 {
        NothingBefore(Opus, arrivals[n]);
      }
    }
  }

  lemma {:induction false} OpusFill(c: Clock, a: Arrival, last: int, now: int)
    requires c.stamp == Low32(last) && a.timestamp == Low32(now) && a.plc
    requires 0 < c.previous <= MAX_CONCEAL
    requires 0 <= now - last - 3 * c.previous <= 5760
    ensures 0 <= now - last - 3 * c.previous - 3 * Fill(c, Opus, a) < 120
    ensures now - last == 3 * c.previous ==> Fill(c, Opus, a) == 0
  {
    GapIsTrue(c, Opus, a, last, now);
    hide Low32, Gap;
  }

  /** Gaps in front of packets that were heard. */
  function Gaps(arrivals: seq<Arrival>, times: seq<int>): nat
    requires |arrivals| == |times|
  {
    if arrivals == [] then 0
    else
      var n := |arrivals| - 1;
      var front := arrivals[..n];
      Gaps(front, times[..n])
      + if arrivals[n].decoded.Some? && LastHeard(front) >= 0 && OpusGap(arrivals, times, n) > 0 then 1 else 0
  }

  /** Concealment never exceeds a gap, and where it succeeds the shortfall is under 40
      samples (120 clock units) a gap. */
  lemma {:induction false} ShortfallBounded(arrivals: seq<Arrival>, times: seq<int>)
    requires OpusCall(arrivals, times)
    ensures 0 <= Shortfall(arrivals, times)
    ensures (forall i :: 0 <= i < |arrivals| ==> arrivals[i].plc) ==> Shortfall(arrivals, times) <= 119 * Gaps(arrivals, times)
    decreases |arrivals|
  {
    hide Low32, Fill;
    if arrivals != [] {
      var n := |arrivals| - 1;
      var front := arrivals[..n];
      OpusFront(arrivals, times);
      ShortfallBounded(front, times[..n]);
      OpusClock(front, times[..n]);
      var h := LastHeard(front);
      if h >= 0 {
        assert arrivals[..n][h] == arrivals[h] && times[..n][h] == times[h];
        assert OpusGap(arrivals, times, n) == times[n] - times[h] - 3 * arrivals[h].decoded.value;
        if arrivals[n].plc {
          OpusFill(ClockAfter(FRESH, front), arrivals[n], times[h], times[n]);
        } else {
          NoPlcNoFill(ClockAfter(FRESH, front), arrivals[n]);
        }
      }
    }
  }

  lemma {:induction false} NoPlcNoFill(c: Clock, a: Arrival)
    requires !a.plc
    ensures Fill(c, Opus, a) == 0
  {
  }

  /** Packet i fails to decode at least 2.5 ms after the end of what was last heard, and
      concealment works. All of this is known before the decoder is called. */
  ghost predicate RepeatsAt(arrivals: seq<Arrival>, times: seq<int>, i: nat)
    requires i < |arrivals| == |times|
  {
    && arrivals[i].decoded.None? && arrivals[i].plc
    && LastHeard(arrivals[..i]) >= 0 && OpusGap(arrivals, times, i) >= 120
  }

  ghost predicate NoRepeats(arrivals: seq<Arrival>, times: seq<int>)
    requires |arrivals| == |times|
  {
    forall i :: 0 <= i < |arrivals| ==> !RepeatsAt(arrivals, times, i)
  }

  /** One packet's share: it conceals in vain exactly when it `RepeatsAt`. */
  lemma {:induction false} FailedFillIff(arrivals: seq<Arrival>, times: seq<int>)
    requires OpusCall(arrivals, times) && arrivals != [] && arrivals[|arrivals| - 1].decoded.None?
    ensures var n := |arrivals| - 1;
            Fill(ClockAfter(FRESH, arrivals[..n]), Opus, arrivals[n]) > 0 <==> RepeatsAt(arrivals, times, n)
  {
    hide Low32;
    var n := |arrivals| - 1;
    var front, a := arrivals[..n], arrivals[n];
    OpusFront(arrivals, times);
    OpusClock(front, times[..n]);
    var h := LastHeard(front);
    if h < 0 {
      NothingBefore(Opus, a);
    } else if !a.plc {
      NoPlcNoFill(ClockAfter(FRESH, front), a);
    } else {
      assert front[h] == arrivals[h] && times[..n][h] == times[h];
      OpusFill(ClockAfter(FRESH, front), a, times[h], times[n]);
      FillFitsBuffer(ClockAfter(FRESH, front), Opus, a);
      hide Fill;
    }
  }

  lemma {:induction false} RepeatsFront(arrivals: seq<Arrival>, times: seq<int>, i: nat)
    requires |arrivals| == |times| && i + 1 < |arrivals|
    ensures var n := |arrivals| - 1; RepeatsAt(arrivals[..n], times[..n], i) <==> RepeatsAt(arrivals, times, i)
  {
    assert arrivals[..|arrivals| - 1][..i] == arrivals[..i];
  }

  /** Nothing is concealed twice exactly when no packet fails that way. */
  lemma {:induction false} RepeatedIff(arrivals: seq<Arrival>, times: seq<int>)
    requires OpusCall(arrivals, times)
    ensures Repeated(arrivals) == 0 <==> NoRepeats(arrivals, times)
    decreases |arrivals|
  {
    hide Fill, RepeatsAt, Low32;
    if arrivals != [] {
      var n := |arrivals| - 1;
      OpusFront(arrivals, times);
      RepeatedIff(arrivals[..n], times[..n]);
      forall i | 0 <= i < n ensures RepeatsAt(arrivals[..n], times[..n], i) <==> RepeatsAt(arrivals, times, i) {
        RepeatsFront(arrivals, times, i);
      }
      if arrivals[n].decoded.None? {
        FailedFillIff(arrivals, times);
      } else {
        HeardNeverRepeats(arrivals, times, n);
      }
    }
  }

  lemma {:induction false} HeardNeverRepeats(arrivals: seq<Arrival>, times: seq<int>, i: nat)
    requires i < |arrivals| == |times| && arrivals[i].decoded.Some?
    ensures !RepeatsAt(arrivals, times, i)
  {
  }

  /** The timeline is exact up to the shortfall, for every mix of failures, exactly when no
      packet fails at least 2.5 ms after what was last heard with concealment working. */
  lemma {:induction false} OpusExactIff(arrivals: seq<Arrival>, times: seq<int>)
    requires OpusCall(arrivals, times) && LastHeard(arrivals) >= 0
    ensures FirstHeard(arrivals) >= 0
    ensures 3 * Total(Play(FRESH, Opus, arrivals)) + Shortfall(arrivals, times) == Due(arrivals, times)
       <==> NoRepeats(arrivals, times)
  {
    hide Low32, Fill, Play, Shortfall, NoRepeats;
    OpusBalance(arrivals, times);
    RepeatedIff(arrivals, times);
  }

  /** From the first packet heard to the end of the last one, in clock units. */
  function Due(arrivals: seq<Arrival>, times: seq<int>): int
    requires |arrivals| == |times| && LastHeard(arrivals) >= 0 && FirstHeard(arrivals) >= 0
  {
    times[LastHeard(arrivals)] - times[FirstHeard(arrivals)] + 3 * arrivals[LastHeard(arrivals)].decoded.value
  }

  /** Under that condition the timeline never runs ahead, and where concealment succeeds it
      falls short by under 40 samples a gap. Packets may fail to decode. */
  lemma {:induction false} OpusTimeline(arrivals: seq<Arrival>, times: seq<int>)
    requires OpusCall(arrivals, times) && LastHeard(arrivals) >= 0 && NoRepeats(arrivals, times)
    ensures FirstHeard(arrivals) >= 0
    ensures 3 * Total(Play(FRESH, Opus, arrivals)) <= Due(arrivals, times)
    ensures (forall i :: 0 <= i < |arrivals| ==> arrivals[i].plc) ==>
              Due(arrivals, times) - 119 * Gaps(arrivals, times) <= 3 * Total(Play(FRESH, Opus, arrivals))
  {
    hide Low32, Fill, Play, Shortfall, NoRepeats, Due;
    OpusExactIff(arrivals, times);
    ShortfallBounded(arrivals, times);
  }

  /** With a decode failure it can run ahead: 20 ms heard, a packet 20 ms late that fails,
      then the next one. The first 20 ms of the gap are concealed twice. */
  lemma {:induction false} FailedDecodeRepeats()
    ensures var arrivals := [Arrival(0, Some(320), true), Arrival(1920, None, true), Arrival(2880, Some(320), true)];
            && OpusCall(arrivals, [0, 1920, 2880])
            && 3 * Total(Play(FRESH, Opus, arrivals)) == (2880 - 0 + 3 * 320) + 3 * 320
  {
    hide *;
    var a := [Arrival(0, Some(320), true), Arrival(1920, None, true), Arrival(2880, Some(320), true)];
    var times := [0, 1920, 2880];
    var c := Clock(0, 320);
    ExampleClock(a, times);
    ExampleFill(a);
    RepeatOfThree(a, times, c);
    OpusBalance(a, times);
  }

  lemma {:induction false} ExampleFill(a: seq<Arrival>)
    requires a == [Arrival(0, Some(320), true), Arrival(1920, None, true), Arrival(2880, Some(320), true)]
    ensures Fill(Clock(0, 320), Opus, a[1]) == 320 && Fill(Clock(0, 320), Opus, a[2]) == 640
  {
    var c := Clock(0, 320);
    OpusFill(c, a[1], 0, 1920);
    OpusFill(c, a[2], 0, 2880);
    FillFitsBuffer(c, Opus, a[1]);
    FillFitsBuffer(c, Opus, a[2]);
    hide Fill;
  }

  lemma {:induction false} ExampleClock(a: seq<Arrival>, times: seq<int>)
    requires a == [Arrival(0, Some(320), true), Arrival(1920, None, true), Arrival(2880, Some(320), true)]
    requires times == [0, 1920, 2880]
    ensures OpusCall(a, times) && FirstHeard(a) == 0 && LastHeard(a) == 2
    ensures ClockAfter(FRESH, a[..1]) == Clock(0, 320) == ClockAfter(FRESH, a[..2])
  {
    assert a[..2][..1] == a[..1] && a[..1][..0] == [] && a[..0] == [];
    assert LastHeard(a[..0]) == -1 && LastHeard(a[..1]) == 0 && LastHeard(a[..2]) == 0;
    assert FirstHeard(a[..1]) == 0 && FirstHeard(a[..2]) == 0;
    assert ClockAfter(FRESH, a[..1]) == Clock(0, 320);
  }

  lemma {:induction false} RepeatOfThree(a: seq<Arrival>, times: seq<int>, c: Clock)
    requires |a| == |times| == 3 && a[0].decoded.Some? && a[1].decoded.None? && a[2].decoded.Some?
    requires ClockAfter(FRESH, a[..1]) == c && ClockAfter(FRESH, a[..2]) == c
    ensures Repeated(a) == Fill(c, Opus, a[1])
    ensures Shortfall(a, times) == times[2] - times[0] - 3 * a[0].decoded.value - 3 * Fill(c, Opus, a[2])
  {
    hide Fill, ClockAfter;
    var b, u := a[..2], times[..2];
    assert b[..1] == a[..1] && u[..1] == times[..1] && a[..1][..0] == [] && times[..1][..0] == [];
    assert LastHeard(a[..1]) == 0 && LastHeard(b) == 0 && LastHeard([]) == -1;
    assert Shortfall([], []) == 0;
    assert Repeated(a[..1]) == 0;
    assert Shortfall(a[..1], times[..1]) == 0;
    assert Repeated(b) == Fill(c, Opus, a[1]) && Shortfall(b, u) == 0;
  }

  // ---------- where each piece stands ----------

  /** How many decoded packets a list of pieces holds. */
  function DecodedCount(pieces: seq<Piece>): nat
  {
    if pieces == [] then 0
    else DecodedCount(pieces[..|pieces| - 1]) + (if pieces[|pieces| - 1].concealed then 0 else 1)
  }

  /** How many packets of a list decode. */
  function HeardCount(arrivals: seq<Arrival>): nat
  {
    if arrivals == [] then 0
    else HeardCount(arrivals[..|arrivals| - 1]) + (if arrivals[|arrivals| - 1].decoded.Some? then 1 else 0)
  }

  lemma {:induction false} CountConcat(a: seq<Piece>, b: seq<Piece>)
    ensures DecodedCount(a + b) == DecodedCount(a) + DecodedCount(b)
  {
    if b == [] {
      assert a + b == a;
    } else {
      CountConcat(a, b[..|b| - 1]);
      assert (a + b)[..|a + b| - 1] == a + b[..|b| - 1];
    }
  }

  lemma {:induction false} PlayPrefix(codec: Codec, arrivals: seq<Arrival>, i: nat)
    requires i <= |arrivals|
    ensures Play(FRESH, codec, arrivals[..i]) <= Play(FRESH, codec, arrivals)
    decreases |arrivals|
  {
    hide Played;
    if i == |arrivals| {
      assert arrivals[..i] == arrivals;
    } else {
      var front := arrivals[..|arrivals| - 1];
      PlayPrefix(codec, front, i);
      assert front[..i] == arrivals[..i];
    }
  }

  lemma {:induction false} CountHeard(codec: Codec, arrivals: seq<Arrival>)
    ensures DecodedCount(Play(FRESH, codec, arrivals)) == HeardCount(arrivals)
  {
    hide Fill;
    if arrivals == [] {
    } else {
      var n := |arrivals| - 1;
      CountHeard(codec, arrivals[..n]);
      var c := ClockAfter(FRESH, arrivals[..n]);
      PlayedIs(c, codec, arrivals[n]);
      CountConcat(Play(FRESH, codec, arrivals[..n]), Played(c, codec, arrivals[n]));
    }
  }

  lemma {:induction false} PlayedIs(c: Clock, codec: Codec, a: Arrival)
    ensures DecodedCount(Played(c, codec, a)) == if a.decoded.Some? then 1 else 0
  {
    hide Fill;
    var p := Played(c, codec, a);
    CountConcat(if Fill(c, codec, a) > 0 then [Piece(Fill(c, codec, a), true)] else [],
                if a.decoded.Some? then [Piece(a.decoded.value, false)] else []);
    CountOne(Piece(Fill(c, codec, a), true));
    if a.decoded.Some? {
      CountOne(Piece(a.decoded.value, false));
    }
  }

  lemma {:induction false} CountOne(p: Piece)
    ensures DecodedCount([p]) == if p.concealed then 0 else 1
  {
    assert [p][..0] == [];
  }

  /** Position k is where packet i is heard: the packets heard before it, and only those,
      come before, and what was concealed for its gap, if anything, is the piece right in
      front of it. */
  ghost predicate HeardAt(codec: Codec, arrivals: seq<Arrival>, i: nat, k: nat)
    requires i < |arrivals| && arrivals[i].decoded.Some?
  {
    var pieces := Play(FRESH, codec, arrivals);
    var fill := Fill(ClockAfter(FRESH, arrivals[..i]), codec, arrivals[i]);
    && k < |pieces| && pieces[k] == Piece(arrivals[i].decoded.value, false)
    && DecodedCount(pieces[..k]) == HeardCount(arrivals[..i])
    && (fill > 0 ==> k > 0 && pieces[k - 1] == Piece(fill, true))
    && (fill == 0 ==> pieces[..k] == Play(FRESH, codec, arrivals[..i]))
    && (fill > 0 ==> pieces[..k] == Play(FRESH, codec, arrivals[..i]) + [Piece(fill, true)])
  }

  lemma {:induction false} Placed(codec: Codec, arrivals: seq<Arrival>, i: nat) returns (k: nat)
    requires i < |arrivals| && arrivals[i].decoded.Some?
    ensures HeardAt(codec, arrivals, i, k)
    ensures Total(Play(FRESH, codec, arrivals)[..k]) + arrivals[i].decoded.value == Total(Play(FRESH, codec, arrivals[..i + 1]))
  {
    var c := ClockAfter(FRESH, arrivals[..i]);
    var before, upTo, all := Play(FRESH, codec, arrivals[..i]), Play(FRESH, codec, arrivals[..i + 1]), Play(FRESH, codec, arrivals);
    assert arrivals[..i + 1][..i] == arrivals[..i];
    assert upTo == before + Played(c, codec, arrivals[i]);
    PlayPrefix(codec, arrivals, i + 1);
    CountHeard(codec, arrivals[..i]);
    hide Play, Fill, ClockAfter, HeardCount;
    var fill := Fill(c, codec, arrivals[i]);
    var own := Piece(arrivals[i].decoded.value, false);
    var lead := if fill > 0 then [Piece(fill, true)] else [];
    assert upTo == before + lead + [own];
    k := |before| + |lead|;
    assert all[..k] == before + lead && all[k] == own;
    CountConcat(before, lead);
    CountOne(Piece(fill, true));
    TotalConcat(before + lead, [own]);
    TotalOne(own);
  }

  /** PCMU, packet by packet: exactly i decoded packets come before packet i, it starts at
      its own time, and what fills the gap in front of it stands directly in front of it. */
  lemma {:induction false} PcmuPlacement(arrivals: seq<Arrival>, bytes: seq<nat>, times: seq<int>, i: nat) returns (k: nat)
    requires PcmuCall(arrivals, bytes, times) && i < |arrivals|
    ensures |bytes| == |times| == |arrivals|
    ensures var pieces := Play(FRESH, Pcmu, arrivals);
            && k < |pieces| && pieces[k] == Piece(2 * bytes[i], false) && DecodedCount(pieces[..k]) == i
            && Total(pieces[..k]) == 2 * (times[i] - times[0])
    ensures i > 0 ==>
              var pieces := Play(FRESH, Pcmu, arrivals);
              var gap := times[i] - times[i - 1] - bytes[i - 1];
              && (gap > 0 ==> k > 0 && pieces[k - 1] == Piece(2 * gap, true))
              && (gap == 0 ==> k > 0 && !pieces[k - 1].concealed)
  {
    hide *;
    var upTo := arrivals[..i + 1];
    PcmuUpTo(arrivals, bytes, times, i);
    PcmuLast(upTo, bytes[..i + 1], times[..i + 1]);
    PcmuTimeline(upTo, bytes[..i + 1], times[..i + 1]);
    k := Placed(Pcmu, arrivals, i);
    assert upTo[..i] == arrivals[..i];
    PcmuHeard(arrivals, bytes, times, i);
    HeardAtMeans(Pcmu, arrivals, i, k);
    if i > 0 {
      PcmuFront(upTo, bytes[..i + 1], times[..i + 1]);
      PcmuClock(arrivals[..i], bytes[..i], times[..i]);
      PcmuFill(ClockAfter(FRESH, arrivals[..i]), arrivals[i], times[i - 1], times[i]);
      PcmuLast(arrivals[..i], bytes[..i], times[..i]);
      LastIsHeard(Pcmu, arrivals[..i]);
    }
  }

  lemma {:induction false} PcmuUpTo(arrivals: seq<Arrival>, bytes: seq<nat>, times: seq<int>, i: nat)
    requires PcmuCall(arrivals, bytes, times) && i < |arrivals|
    ensures |bytes| == |times| == |arrivals|
    ensures PcmuCall(arrivals[..i + 1], bytes[..i + 1], times[..i + 1])
    ensures i > 0 ==> bytes[..i + 1][..i] == bytes[..i] && times[..i + 1][..i] == times[..i] && PcmuCall(arrivals[..i], bytes[..i], times[..i])
  {
    hide Low32, PcmuSamples;
  }

  lemma {:induction false} PcmuHeard(arrivals: seq<Arrival>, bytes: seq<nat>, times: seq<int>, i: nat)
    requires PcmuCall(arrivals, bytes, times) && i <= |arrivals|
    ensures HeardCount(arrivals[..i]) == i
  {
    hide Low32, PcmuSamples;
    if i > 0 {
      PcmuHeard(arrivals, bytes, times, i - 1);
      assert arrivals[..i][..i - 1] == arrivals[..i - 1];
    }
  }

  lemma {:induction false} HeardAtMeans(codec: Codec, arrivals: seq<Arrival>, i: nat, k: nat)
    requires i < |arrivals| && arrivals[i].decoded.Some? && HeardAt(codec, arrivals, i, k)
    ensures var pieces := Play(FRESH, codec, arrivals);
            var fill := Fill(ClockAfter(FRESH, arrivals[..i]), codec, arrivals[i]);
            && k < |pieces| && pieces[k] == Piece(arrivals[i].decoded.value, false)
            && DecodedCount(pieces[..k]) == HeardCount(arrivals[..i])
            && (fill > 0 ==> k > 0 && pieces[k - 1] == Piece(fill, true))
            && (fill == 0 ==> pieces[..k] == Play(FRESH, codec, arrivals[..i]))
  {
    hide Play, Fill, ClockAfter, DecodedCount, HeardCount;
  }

  lemma {:induction false} LastIsHeard(codec: Codec, arrivals: seq<Arrival>)
    requires arrivals != [] && arrivals[|arrivals| - 1].decoded.Some?
    ensures var pieces := Play(FRESH, codec, arrivals); pieces != [] && !pieces[|pieces| - 1].concealed
  {
    hide Fill;
  }

  /** Opus, packet by packet, for any mix of failures: what comes before a packet that is
      heard lasts exactly from the first packet heard to its own time, less the shortfall up
      to it, plus what was concealed in vain before it. */
  lemma {:induction false} OpusPlacement(arrivals: seq<Arrival>, times: seq<int>, i: nat) returns (k: nat)
    requires OpusCall(arrivals, times) && i < |arrivals| && arrivals[i].decoded.Some?
    ensures |times| == |arrivals| && HeardAt(Opus, arrivals, i, k)
    ensures FirstHeard(arrivals[..i + 1]) >= 0
    ensures 3 * (Total(Play(FRESH, Opus, arrivals)[..k]) - Repeated(arrivals[..i])) + Shortfall(arrivals[..i + 1], times[..i + 1])
         == times[i] - times[FirstHeard(arrivals[..i + 1])]
  {
    hide *;
    OpusUpTo(arrivals, times, i);
    k := Placed(Opus, arrivals, i);
    OpusBalance(arrivals[..i + 1], times[..i + 1]);
    assert arrivals[..i + 1][..i] == arrivals[..i];
    RepeatedHeard(arrivals[..i + 1]);
  }

  lemma {:induction false} OpusUpTo(arrivals: seq<Arrival>, times: seq<int>, i: nat)
    requires OpusCall(arrivals, times) && i < |arrivals| && arrivals[i].decoded.Some?
    ensures |times| == |arrivals| && OpusCall(arrivals[..i + 1], times[..i + 1])
    ensures LastHeard(arrivals[..i + 1]) == i
    decreases |arrivals|
  {
    hide Low32;
    var n := |arrivals| - 1;
    if i == n {
      assert arrivals[..i + 1] == arrivals && times[..i + 1] == times;
    } else {
      OpusFront(arrivals, times);
      OpusUpTo(arrivals[..n], times[..n], i);
      assert arrivals[..n][..i + 1] == arrivals[..i + 1] && times[..n][..i + 1] == times[..i + 1];
    }
  }

  lemma {:induction false} RepeatedHeard(arrivals: seq<Arrival>)
    requires arrivals != [] && arrivals[|arrivals| - 1].decoded.Some?
    ensures Repeated(arrivals) == Repeated(arrivals[..|arrivals| - 1])
  {
    hide Fill;
  }

  // ---------- which gaps are concealed ----------

  /** Concealment is for gaps of up to 120 ms: nothing is concealed for a timestamp that is
      not ahead, or too far ahead, or without a previous packet. */
  lemma {:induction false} FillIff(c: Clock, codec: Codec, a: Arrival)
    ensures var gap := Gap(c, codec, a);
            && (codec.Pcmu? ==>
                  Fill(c, codec, a) == if c.previous > 0 && 0 < gap <= 960 then 2 * gap else 0)
            && (codec.Opus? ==>
                  && (Fill(c, codec, a) > 0 <==> c.previous > 0 && a.plc && 120 <= gap < 5763)
                  && (Fill(c, codec, a) > 0 ==>
                        Fill(c, codec, a) % 40 == 0 && 0 <= gap - 3 * Fill(c, codec, a) < 120))
  {
    FillFitsBuffer(c, codec, a);
    hide Gap;
  }

  // ---------- the loop ----------

  /** The variables of the decode loop that outlive a packet. */
  class Concealer {
    const codec: Codec
    var timestamp: int
    var previousSamples: nat

    constructor (codec: Codec)
      ensures Now() == FRESH && this.codec == codec
    {
      this.codec, timestamp, previousSamples := codec, 0, 0;
    }

    ghost function Now(): Clock
      reads this
    {
      Clock(timestamp, previousSamples)
    }

    method Process(batch: seq<Arrival>) returns (pieces: seq<Piece>)
      modifies this`timestamp, this`previousSamples
      ensures Now() == ClockAfter(old(Now()), batch)
      ensures pieces == Play(old(Now()), codec, batch)
    {
      hide Fill, Concealable, Missing, Gap, Low32;
      pieces := [];
      var i := 0;
      while i < |batch|
        invariant 0 <= i <= |batch|
        invariant Now() == ClockAfter(old(Now()), batch[..i])
        invariant pieces == Play(old(Now()), codec, batch[..i])
      {
        assert batch[..i + 1][..i] == batch[..i];
        var p := batch[i];
        i := i + 1;
        var n := ConcealBefore(p);
        if n > 0 {
          pieces := pieces + [Piece(n, true)];
        }
        if p.decoded.None? {
          continue;
        }
        pieces := pieces + [Piece(p.decoded.value, false)];
        previousSamples := p.decoded.value;
        timestamp := p.timestamp;
      }
      assert batch[..i] == batch;
    }

    method ConcealBefore(p: Arrival) returns (n: nat)
      ensures n == Fill(Now(), codec, p) && n <= MAX_CONCEAL
    {
      FillFitsBuffer(Now(), codec, p);
      n := 0;
      if previousSamples > 0 {
        var clockRate := ClockRate(codec);
        var expected := Low32(timestamp + Low32(Low32(previousSamples) * clockRate) / MODEL_RATE);
        var gap := Signed32(p.timestamp - expected);
        var missing := TruncDiv(gap * MODEL_RATE, clockRate);
        if 0 < missing <= MODEL_RATE * 120 / 1000 {
          if codec.Opus? {
            if p.plc {
              n := missing / 40 * 40;
            }
          } else {
            n := missing;
          }
        }
      }
    }

    /** A new epoch starts with no previous packet. */
    method Reset()
      modifies this`previousSamples
      ensures previousSamples == 0
      ensures forall codec, a: Arrival :: Fill(Now(), codec, a) == 0
    {
      previousSamples := 0;
    }
  }
}
