/** Turn capture of internal/session/session.go and the arm, play, disarm, capture and stop
    steps of internal/ask/ask.go. Each method holds the session's mutex throughout, so
    concurrent feeds are feeds in some order. Samples are opaque integers, and of the two
    speech times only whether speech has started matters here. */
module Session {
  import opened Basics
  const PRE_ROLL := 4_000      // 16000 / 4
  const LIMIT := 1_920_000     // 16000 * 120

  /** One call of FeedPCM. */
  datatype Feed = Feed(samples: seq<int>, speech: bool)

  /** `signal` is the barge-in channel: None is nil, Some(n) holds n of its one slot. */
  datatype Capture = Capture(
    active: bool, captured: seq<int>, preRoll: seq<int>, started: bool,
    barged: bool, armed: bool, signal: Option<nat>)

  const NEW := Capture(false, [], [], false, false, false, None)

  function First(s: seq<int>, n: nat): seq<int> { if |s| <= n then s else s[..n] }

  function Last(s: seq<int>, n: nat): seq<int> { if |s| <= n then s else s[|s| - n..] }

  /** A prefix and a suffix, of n samples if there are that many. */
  lemma {:induction false} FirstAndLast(s: seq<int>, n: nat)
    ensures |First(s, n)| == Min(|s|, n) == |Last(s, n)|
    ensures First(s, n) == s[..Min(|s|, n)] && Last(s, n) == s[|s| - Min(|s|, n)..]
  {
  }

  // ---------- the operations ----------

  /** What holds between calls; the last two lines are why a send never blocks. */
  predicate Valid(c: Capture)
  {
    && (c.started ==> c.preRoll == []) && (!c.started ==> c.captured == [])
    && |c.preRoll| <= PRE_ROLL && |c.captured| <= LIMIT
    && (c.armed ==> c.signal.Some?)
    && (c.armed && !c.barged ==> c.signal == Some(0))
  }

  predicate Speaks(f: Feed) { f.speech && f.samples != [] }

  predicate Triggers(c: Capture, f: Feed) { Speaks(f) && c.armed && !c.barged }

  function Barged(c: Capture): Capture
  {
    c.(barged := true, active := true, captured := [], signal := Some(1))
  }

  function Fed(c: Capture, f: Feed): (r: Capture)
    requires Valid(c)
    ensures Valid(r)
  {
    var b := if Triggers(c, f) then Barged(c) else c;
    if f.samples == [] || !b.active then b
    else if b.started then b.(captured := First(b.captured + f.samples, LIMIT))
    else if f.speech then b.(started := true, captured := First(b.preRoll + f.samples, LIMIT), preRoll := [])
    else b.(preRoll := Last(b.preRoll + f.samples, PRE_ROLL))
  }

  function Armed(c: Capture): Capture { c.(signal := Some(0), armed := true, barged := false) }

  function Disarmed(c: Capture): Capture { c.(armed := false, signal := None) }

  function Started(c: Capture): Capture { c.(active := true, captured := [], preRoll := [], started := false) }

  function Stopped(c: Capture): Capture { c.(active := false) }

  function FedAll(c: Capture, feeds: seq<Feed>): (r: Capture)
    requires Valid(c)
    ensures Valid(r)
  {
    if feeds == [] then c else Fed(FedAll(c, feeds[..|feeds| - 1]), feeds[|feeds| - 1])
  }

  // ---------- the reference ----------

  /** Everything the microphone delivered, in order. */
  function Samples(feeds: seq<Feed>): seq<int>
  {
    if feeds == [] then [] else Samples(feeds[..|feeds| - 1]) + feeds[|feeds| - 1].samples
  }

  /** Index of the first chunk with speech, or the number of chunks. */
  function Onset(feeds: seq<Feed>): (o: nat)
    ensures o <= |feeds|
    ensures o < |feeds| ==> Speaks(feeds[o])
    ensures forall i :: 0 <= i < o ==> !Speaks(feeds[i])
  {
    if feeds == [] then 0
    else
      var o := Onset(feeds[..|feeds| - 1]);
      if o < |feeds| - 1 || Speaks(feeds[|feeds| - 1]) then o else |feeds|
  }

  /** The first two minutes of: a quarter second before the onset, and everything after. */
  function CaptureOf(feeds: seq<Feed>): seq<int>
  {
    var o := Onset(feeds);
    if o == |feeds| then [] else First(Last(Samples(feeds[..o]), PRE_ROLL) + Samples(feeds[o..]), LIMIT)
  }

  lemma {:induction false} FirstFirst(a: seq<int>, b: seq<int>, n: nat)
    ensures First(First(a, n) + b, n) == First(a + b, n)
  {
  }

  lemma {:induction false} LastLast(a: seq<int>, b: seq<int>, n: nat)
    ensures Last(Last(a, n) + b, n) == Last(a + b, n)
  {
  }

  lemma {:induction false} SamplesOne(f: Feed)
    ensures Samples([f]) == f.samples
  {
    assert [f][..0] == [];
  }

  lemma {:induction false} SamplesSnoc(feeds: seq<Feed>, o: nat)
    requires o < |feeds|
    ensures Samples(feeds[o..]) == Samples(feeds[o..|feeds| - 1]) + feeds[|feeds| - 1].samples
  {
    assert feeds[o..][..|feeds[o..]| - 1] == feeds[o..|feeds| - 1];
  }

  lemma {:induction false} SamplesConcat(a: seq<Feed>, b: seq<Feed>)
    ensures Samples(a + b) == Samples(a) + Samples(b)
  {
    if b == [] {
      assert a + b == a;
    } else {
      SamplesConcat(a, b[..|b| - 1]);
      assert (a + b)[..|a + b| - 1] == a + b[..|b| - 1];
    }
  }

  // ---------- capture refines the reference ----------

  /** The pre-roll held when the onset comes. */
  function Kept(c: Capture, feeds: seq<Feed>): seq<int>
  {
    if c.active then Last(c.preRoll + Samples(feeds[..Onset(feeds)]), PRE_ROLL) else c.preRoll
  }

  /** What a turn holds before and after the onset, from a state that has not started. */
  ghost predicate Tracks(c: Capture, feeds: seq<Feed>)
    requires Valid(c)
  {
    var r := FedAll(c, feeds);
    var o := Onset(feeds);
    && r.armed == c.armed
    && (o == |feeds| ==> !r.started && r.preRoll == Kept(c, feeds) && r.active == c.active && r.barged == c.barged)
    && (o < |feeds| ==>
          && r.started && r.active && r.barged == (c.armed || c.barged)
          && r.captured == First(Kept(c, feeds) + Samples(feeds[o..]), LIMIT))
  }

  ghost predicate Waits(c: Capture) { Valid(c) && !c.started && (c.active || (c.armed && !c.barged)) }

  lemma {:induction false} CaptureFrom(c: Capture, feeds: seq<Feed>)
    requires Waits(c)
    ensures Tracks(c, feeds)
    decreases |feeds|
  {
    hide *;
    assert Valid(c) by { WaitsValid(c); }
    if feeds == [] {
      EmptyStep(c);
    } else {
      CaptureFrom(c, feeds[..|feeds| - 1]);
      if Onset(feeds) < |feeds| - 1 {
        LaterStep(c, feeds);
      } else if Onset(feeds) == |feeds| - 1 {
        OnsetStep(c, feeds);
      } else {
        QuietStep(c, feeds);
      }
    }
  }

  lemma {:induction false} WaitsValid(c: Capture)
    requires Waits(c)
    ensures Valid(c)
  {
  }

  lemma {:induction false} EmptyStep(c: Capture)
    requires Waits(c)
    ensures Tracks(c, [])
  {
    assert c.preRoll + [] == c.preRoll;
  }

  lemma {:induction false} QuietStep(c: Capture, feeds: seq<Feed>)
    requires Waits(c) && feeds != [] && Tracks(c, feeds[..|feeds| - 1]) && Onset(feeds) == |feeds|
    ensures Tracks(c, feeds)
  {
    hide Last, Waits;
    WaitsValid(c);
    var front, f := feeds[..|feeds| - 1], feeds[|feeds| - 1];
    assert feeds[..|feeds|] == feeds && front[..|front|] == front;
    LastLast(c.preRoll + Samples(front), f.samples, PRE_ROLL);
    assert c.preRoll + Samples(feeds) == c.preRoll + Samples(front) + f.samples;
    FedQuiet(FedAll(c, front), f);
    hide Fed, Valid;
  }

  lemma {:induction false} FedQuiet(c: Capture, f: Feed)
    requires Valid(c) && !c.started && !Speaks(f)
    ensures Fed(c, f) == if c.active then c.(preRoll := Last(c.preRoll + f.samples, PRE_ROLL)) else c
  {
    assert c.preRoll + [] == c.preRoll;
  }

  lemma {:induction false} OnsetStep(c: Capture, feeds: seq<Feed>)
    requires Waits(c) && feeds != [] && Tracks(c, feeds[..|feeds| - 1]) && Onset(feeds) == |feeds| - 1
    ensures Tracks(c, feeds)
  {
    hide Last;
    var n := |feeds| - 1;
    var front, f := feeds[..n], feeds[n];
    assert front[..n] == front && feeds[n..] == [f];
    SamplesOne(f);
  }

  lemma {:induction false} LaterStep(c: Capture, feeds: seq<Feed>)
    requires Waits(c) && feeds != [] && Tracks(c, feeds[..|feeds| - 1]) && Onset(feeds) < |feeds| - 1
    ensures Tracks(c, feeds)
  {
    hide Last, First, Waits;
    WaitsValid(c);
    var n := |feeds| - 1;
    var front, f := feeds[..n], feeds[n];
    var o := Onset(feeds);
    assert Onset(front) == o && front[..o] == feeds[..o] && front[o..] == feeds[o..n];
    SamplesSnoc(feeds, o);
    var before := Kept(c, feeds) + Samples(feeds[o..n]);
    assert FedAll(c, front).captured == First(before, LIMIT);
    assert Kept(c, feeds) + Samples(feeds[o..]) == before + f.samples;
    FirstFirst(before, f.samples, LIMIT);
    FedStarted(FedAll(c, front), f);
  }

  lemma {:induction false} FedStarted(c: Capture, f: Feed)
    requires Valid(c) && c.started && c.active && (c.armed ==> c.barged)
    ensures Fed(c, f) == c.(captured := First(c.captured + f.samples, LIMIT))
  {
    assert f.samples == [] ==> c.captured + f.samples == c.captured;
  }

  /** Main theorem: after StartCapture, in whatever state the session was (armed or not),
      the capture is the reference for the chunks fed since. */
  lemma {:induction false} CaptureRefines(c: Capture, feeds: seq<Feed>)
    requires Valid(c)
    ensures FedAll(Started(c), feeds).captured == CaptureOf(feeds)
  {
    CaptureFrom(Started(c), feeds);
    assert [] + Samples(feeds[..Onset(feeds)]) == Samples(feeds[..Onset(feeds)]);
    assert Valid(FedAll(Started(c), feeds));
  }

  // ---------- barge-in ----------

  /** A barge-in capture consists of the pre-roll held at that moment and the chunks from
      the trigger on. */
  lemma {:induction false} BargeCaptures(c: Capture, f: Feed)
    requires Valid(c) && Triggers(c, f)
    ensures Fed(c, f).captured == First(c.preRoll + f.samples, LIMIT)
    ensures Fed(c, f).barged && Fed(c, f).active && Fed(c, f).started && Fed(c, f).signal == Some(1)
  {
    assert [] + f.samples == f.samples;
  }

  /** It starts with the trigger chunk, whatever that chunk is, exactly when no pre-roll
      is left over from an earlier capture without speech. */
  lemma {:induction false} TriggerFirstIff(c: Capture)
    requires Valid(c) && c.armed && !c.barged
    ensures (forall f :: Triggers(c, f) ==> First(f.samples, LIMIT) <= Fed(c, f).captured) <==> c.preRoll == []
  {
    if c.preRoll == [] {
      forall f | Triggers(c, f) ensures First(f.samples, LIMIT) <= Fed(c, f).captured {
        BargeCaptures(c, f);
        assert [] + f.samples == f.samples;
      }
    } else {
      var f := Feed([c.preRoll[0] + 1], true);
      BargeCaptures(c, f);
      assert Triggers(c, f) && First(f.samples, LIMIT)[0] != Fed(c, f).captured[0];
    }
  }

  /** A left-over pre-roll is reachable: capture some silence, stop, then arm. */
  lemma {:induction false} StalePreRoll(noise: int)
    ensures var c := Armed(Stopped(FedAll(Started(NEW), [Feed([noise], false)])));
            Valid(c) && c.preRoll == [noise]
            && Fed(c, Feed([noise + 1], true)).captured == [noise, noise + 1]
  {
    assert [Feed([noise], false)][..0] == [];
    assert [] + [noise] == [noise];
    assert [noise] + [noise + 1] == [noise, noise + 1];
  }

  // ---------- the ask flow ----------

  /** One turn: chunks `a` before arming, `b` until disarming, `c` until the capture opens
      and `d` until it stops. */
  function Ask(bargeIn: bool, a: seq<Feed>, b: seq<Feed>, c: seq<Feed>, d: seq<Feed>): seq<int>
  {
    var s1 := FedAll(NEW, a);
    var s2 := FedAll(if bargeIn then Armed(s1) else s1, b);
    var barged := s2.barged;
    var s3 := FedAll(Disarmed(s2), c);
    var s4 := FedAll(if barged then s3 else Started(s3), d);
    Stopped(s4).captured
  }

  lemma {:induction false} Unheard(c: Capture, feeds: seq<Feed>)
    requires Valid(c) && !c.active && !(c.armed && !c.barged)
    ensures FedAll(c, feeds) == c
  {
    if feeds != [] {
      Unheard(c, feeds[..|feeds| - 1]);
    }
  }

  /** Once capturing with speech started and no barge-in pending, chunks only append. */
  lemma {:induction false} Appends(c: Capture, feeds: seq<Feed>)
    requires Valid(c) && c.active && c.started && (c.armed ==> c.barged)
    ensures FedAll(c, feeds) == c.(captured := First(c.captured + Samples(feeds), LIMIT))
  {
    if feeds == [] {
      assert c.captured + [] == c.captured;
    } else {
      var n := |feeds| - 1;
      Appends(c, feeds[..n]);
      FedStarted(FedAll(c, feeds[..n]), feeds[n]);
      FirstFirst(c.captured + Samples(feeds[..n]), feeds[n].samples, LIMIT);
      assert c.captured + Samples(feeds) == c.captured + Samples(feeds[..n]) + feeds[n].samples;
    }
  }

  /** Main theorem: if the user speaks while barge-in is armed, the turn records everything
      from that chunk on, through disarming and the opening of the capture; otherwise it
      records exactly the reference for the chunks fed after the capture opened. */
  lemma {:induction false} AskKeepsTrigger(bargeIn: bool, a: seq<Feed>, b: seq<Feed>, c: seq<Feed>, d: seq<Feed>)
    ensures var o := Onset(b);
            Ask(bargeIn, a, b, c, d) == if bargeIn && o < |b| then First(Samples(b[o..] + c + d), LIMIT) else CaptureOf(d)
  {
    hide Fed, CaptureOf;
    Unheard(NEW, a);
    if bargeIn {
      CaptureFrom(Armed(NEW), b);
    } else {
      Unheard(NEW, b);
    }
    var s2 := FedAll(if bargeIn then Armed(NEW) else NEW, b);
    var o := Onset(b);
    if bargeIn && o < |b| {
      var s3 := FedAll(Disarmed(s2), c);
      Appends(Disarmed(s2), c);
      Appends(s3, d);
      SamplesConcat(b[o..], c);
      SamplesConcat(b[o..] + c, d);
      assert [] + Samples(b[o..]) == Samples(b[o..]);
      FirstFirst(Samples(b[o..]), Samples(c), LIMIT);
      FirstFirst(Samples(b[o..]) + Samples(c), Samples(d), LIMIT);
    } else {
      CaptureRefines(FedAll(Disarmed(s2), c), d);
    }
  }

  // ---------- the session object ----------

  class Turn {
    var captureActive: bool
    var captured: seq<int>
    var preRoll: seq<int>
    var speechStarted: bool
    var barged: bool
    var bargeArmed: bool
    var bargeCh: Option<nat>

    ghost function View(): Capture
      reads this
    {
      Capture(captureActive, captured, preRoll, speechStarted, barged, bargeArmed, bargeCh)
    }

    constructor ()
      ensures View() == NEW
    {
      captureActive, captured, preRoll, speechStarted := false, [], [], false;
      barged, bargeArmed, bargeCh := false, false, None;
    }

    method ArmBargeIn()
      modifies this
      ensures View() == Armed(old(View())) && (old(Valid(View())) ==> Valid(View()))
      ensures forall f :: Speaks(f) ==> Triggers(View(), f)
    {
      bargeCh, bargeArmed, barged := Some(0), true, false;
    }

    method DisarmBargeIn() returns (was: bool)
      modifies this
      ensures View() == Disarmed(old(View())) && was == barged && (old(Valid(View())) ==> Valid(View()))
      ensures forall f :: !Triggers(View(), f)
      ensures captured == old(captured) && captureActive == old(captureActive)
    {
      bargeArmed, bargeCh := false, None;
      was := barged;
    }

    method StartCapture()
      modifies this
      ensures View() == Started(old(View())) && (old(Valid(View())) ==> Valid(View()))
      ensures captureActive && captured == [] && preRoll == [] && !speechStarted
      ensures barged == old(barged) && bargeArmed == old(bargeArmed)
    {
      captureActive, captured, preRoll, speechStarted := true, [], [], false;
    }

    method StopCapture() returns (r: seq<int>)
      modifies this`captureActive
      ensures View() == Stopped(old(View())) && r == captured && (old(Valid(View())) ==> Valid(View()))
      ensures captured == old(captured) && (old(Valid(View())) ==> |r| <= LIMIT)
    {
      captureActive := false;
      r := captured;
    }

    /** The other end of the channel takes the signal. */
    method ReceiveBarge() returns (got: bool)
      requires Valid(View())
      modifies this`bargeCh
      ensures Valid(View()) && got == (old(bargeCh).Some? && old(bargeCh).value > 0)
      ensures View() == old(View()).(signal := if got then Some(old(bargeCh).value - 1) else old(bargeCh))
    {
      got := bargeCh.Some? && bargeCh.value > 0;
      if got {
        bargeCh := Some(bargeCh.value - 1);
      }
    }

    /** A send that would block (a nil channel, or a full slot) is excluded by `requires`. */
    method Signal()
      requires bargeCh == Some(0)
      modifies this`bargeCh
      ensures bargeCh == Some(1)
    {
      bargeCh := Some(bargeCh.value + 1);
    }

    method FeedPCM(chunk: seq<int>, speech: bool)
      requires Valid(View())
      modifies this
      ensures View() == Fed(old(View()), Feed(chunk, speech)) && Valid(View())
      ensures |chunk| == 0 ==> View() == old(View())
      ensures barged == (old(barged) || (old(bargeArmed) && speech && |chunk| > 0)) && bargeArmed == old(bargeArmed)
      ensures bargeCh == if barged && !old(barged) then Some(1) else old(bargeCh)
    {
      hide First, Last;
      ghost var before := View();
      if |chunk| == 0 {
        return;
      }
      if speech && bargeArmed && !barged {
        barged, captureActive, captured := true, true, [];
        Signal();
      }
      if captureActive {
        if speech && !speechStarted {
          speechStarted := true;
          captured := captured + preRoll;
          preRoll := [];
          assert captured == before.preRoll;
        }
        if !speechStarted {
          preRoll := preRoll + chunk;
          KeepLast(before.preRoll + chunk);
          if |preRoll| > PRE_ROLL {
            preRoll := preRoll[|preRoll| - PRE_ROLL..];
          }
          return;
        }
        var remaining := LIMIT - |captured|;
        var samples := chunk;
        Truncates(captured, chunk);
        if |samples| > remaining {
          samples := samples[..remaining];
        }
        captured := captured + samples;
      }
    }
  }

  /** The microphone feeding a turn. */
  method FeedEach(turn: Turn, feeds: seq<Feed>)
    requires Valid(turn.View())
    modifies turn
    ensures Valid(turn.View()) && turn.View() == FedAll(old(turn.View()), feeds)
  {
    hide Fed, Valid;
    var i := 0;
    while i < |feeds|
      invariant 0 <= i <= |feeds| && Valid(turn.View())
      invariant turn.View() == FedAll(old(turn.View()), feeds[..i])
    {
      assert feeds[..i + 1][..i] == feeds[..i];
      turn.FeedPCM(feeds[i].samples, feeds[i].speech);
      i := i + 1;
    }
    assert feeds[..i] == feeds;
  }

  /** The session side of one ask, chunks arriving between any two of its steps. */
  method RunAsk(bargeIn: bool, a: seq<Feed>, b: seq<Feed>, c: seq<Feed>, d: seq<Feed>) returns (captured: seq<int>)
    ensures captured == Ask(bargeIn, a, b, c, d)
  {
    hide Fed, FedAll;
    var sess := new Turn();
    FeedEach(sess, a);
    if bargeIn {
      sess.ArmBargeIn();
    }
    FeedEach(sess, b);
    var barged := sess.DisarmBargeIn();
    FeedEach(sess, c);
    if !barged {
      sess.StartCapture();
    }
    FeedEach(sess, d);
    captured := sess.StopCapture();
  }

  lemma {:induction false} KeepLast(s: seq<int>)
    ensures Last(s, PRE_ROLL) == if |s| > PRE_ROLL then s[|s| - PRE_ROLL..] else s
  {
  }

  lemma {:induction false} Truncates(captured: seq<int>, chunk: seq<int>)
    requires |captured| <= LIMIT
    ensures var room := LIMIT - |captured|;
            First(captured + chunk, LIMIT) == captured + (if |chunk| > room then chunk[..room] else chunk)
  {
  }
}
