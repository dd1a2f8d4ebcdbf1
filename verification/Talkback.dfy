/** The talkback sender as a protocol (internal/webrtc/talkback.go and the talkback branch
    of PlayStream in internal/webrtc/client.go): one utterance at a time feeds a paced
    queue, a pacer goroutine writes it out, and close, peer failure, write failure and
    cancellation may strike between any two critical sections. */
module Talkback {
  import opened Basics
  import F = Framing

  const LIMIT := 100

  /** A queued frame, tagged with the utterance it belongs to. */
  datatype Frame = Frame(utterance: nat, block: seq<int>)

  // ---------- the fields behind the mutex ----------

  datatype Monitor = Monitor(queue: seq<Frame>, closed: bool, inFlight: bool)

  datatype Verdict = Go | MustWait | Cancelled | Closed

  function Offer(m: Monitor, cancelled: bool): Verdict {
    if |m.queue| >= LIMIT && !m.closed && !cancelled then MustWait
    else if cancelled then Cancelled
    else if m.closed then Closed
    else Go
  }

  function Drained(m: Monitor, cancelled: bool): Verdict {
    if (m.queue != [] || m.inFlight) && !m.closed && !cancelled then MustWait
    else if cancelled then Cancelled
    else if m.closed then Closed
    else Go
  }

  function Enqueued(m: Monitor, f: Frame): Monitor { m.(queue := m.queue + [f]) }

  function Taken(m: Monitor): Monitor
    requires m.queue != []
  {
    m.(queue := m.queue[1..], inFlight := true)
  }

  function ShutDown(m: Monitor): Monitor { m.(queue := [], closed := true) }

  // ---------- player, pacer and their surroundings ----------

  datatype Phase = Idle | Feeding | Flushing | Draining | Leaving(ok: bool)

  /** `Writing` carries the frame on its way to the track, or silence; `Clearing` is the
      moment between a successful write and taking the lock again. */
  datatype Pacer = Waiting | Writing(carried: Option<Frame>) | Clearing(speech: bool) | Stopped

  /** `resampler` holds the chunks pushed into the current resampler, `hand` the encoded
      frame waiting in enqueue. The rest is history: `chunks` and `sent` are the chunks
      read and the frames enqueued by the current utterance, `written` is every speech
      frame written to the track. */
  datatype State = State(
    m: Monitor,
    phase: Phase, parked: bool, utterance: nat, rate: int,
    resampler: Option<seq<seq<int>>>, pcmIn: seq<int>, hand: Option<seq<int>>,
    cancelled: bool, callback: bool,
    pacer: Pacer,
    chunks: seq<seq<int>>, sent: seq<seq<int>>, written: seq<Frame>)

  datatype Event =
    | Begin(sampleRate: int)
    | Feed(chunk: seq<int>)
    | Encode(good: bool)      // cut and encode the next full frame
    | Enqueue                 // one pass of the waiting loop in enqueue
    | SourceEnds
    | EncodeLast(done: bool)  // pad and encode what is left after the flush
    | AllFramed
    | Drain                   // one pass of the waiting loop in waitDrained
    | GiveUp                  // route or source error
    | Leave                   // the deferred clearPending
    | Cancel
    | Callback
    | Take                    // the ticker fires
    | WriteOk
    | WriteFails
    | Clear
    | ContextEnds             // the pacer's own context
    | PeerFails               // peer connection failure or close()

  ghost predicate Enabled(s: State, e: Event)
  {
    var atWork := !s.parked && s.hand == None;
    match e
    case Begin(_) => s.phase == Idle
    case Feed(chunk) => s.phase == Feeding && atWork && |s.pcmIn| < F.FRAME && chunk != []
    case Encode(_) => (s.phase == Feeding || s.phase == Flushing) && atWork && |s.pcmIn| >= F.FRAME
    case Enqueue => s.hand != None && !s.parked
    case SourceEnds => s.phase == Feeding && atWork && |s.pcmIn| < F.FRAME
    case EncodeLast(_) => s.phase == Flushing && atWork && 0 < |s.pcmIn| < F.FRAME
    case AllFramed => s.phase == Flushing && atWork && s.pcmIn == []
    case Drain => s.phase == Draining && !s.parked
    case GiveUp => s.phase == Feeding && atWork
    case Leave => s.phase.Leaving?
    case Cancel => s.phase != Idle && !s.cancelled
    case Callback => s.callback
    case Take => s.pacer == Waiting
    case WriteOk => s.pacer.Writing?
    case WriteFails => s.pacer.Writing?
    case Clear => s.pacer.Clearing?
    case ContextEnds => s.pacer == Waiting
    case PeerFails => true
  }

  function Wake(s: State): State { s.(parked := false) }

  /** Local variables of the failing call are gone; the deferred clean-up comes next. */
  function Abort(s: State): State { s.(phase := Leaving(false), hand := None) }

  function FeedStep(s: State, chunk: seq<int>): State
  {
    if s.rate <= 0 then Abort(s)
    else
      var before := if s.resampler == None then [] else s.resampler.value;
      s.(resampler := Some(before + [chunk]), chunks := s.chunks + [chunk],
         pcmIn := s.pcmIn + F.PushOut(before, chunk, s.rate))
  }

  function SourceEndStep(s: State): State
  {
    var more := if s.resampler == None || s.rate <= 0 then [] else F.FlushOut(s.resampler.value, s.rate);
    s.(phase := Flushing, resampler := None, pcmIn := s.pcmIn + more)
  }

  function EncodeStep(s: State, good: bool): State
    requires |s.pcmIn| >= F.FRAME
  {
    var t := s.(pcmIn := s.pcmIn[F.FRAME..]);
    if good then t.(hand := Some(s.pcmIn[..F.FRAME])) else Abort(t)
  }

  function EncodeLastStep(s: State, done: bool): State
    requires |s.pcmIn| < F.FRAME
  {
    var t := s.(pcmIn := []);
    if done then t.(hand := Some(F.Pad(s.pcmIn))) else Abort(t)
  }

  function EnqueueStep(s: State): State
    requires s.hand != None
  {
    match Offer(s.m, s.cancelled)
    case MustWait => s.(parked := true)
    case Go => s.(m := Enqueued(s.m, Frame(s.utterance, s.hand.value)), hand := None, sent := s.sent + [s.hand.value])
    case _ => Abort(s)
  }

  function DrainStep(s: State): State
  {
    match Drained(s.m, s.cancelled)
    case MustWait => s.(parked := true)
    case Go => s.(phase := Leaving(true))
    case _ => Abort(s)
  }

  function TakeStep(s: State): State
  {
    if s.m.closed then s.(pacer := Stopped)
    else if s.m.queue == [] then s.(pacer := Writing(None))
    else Wake(s.(m := Taken(s.m), pacer := Writing(Some(s.m.queue[0]))))
  }

  function WriteStep(s: State): State
    requires s.pacer.Writing?
  {
    match s.pacer.carried
    case None => s.(pacer := Clearing(false))
    case Some(f) => s.(pacer := Clearing(true), written := s.written + [f])
  }

  function Next(s: State, e: Event): State
    requires Enabled(s, e)
  {
    match e
    case Begin(r) => s.(phase := Feeding, utterance := s.utterance + 1, rate := r, cancelled := false, callback := false, chunks := [], sent := [])
    case Feed(chunk) => FeedStep(s, chunk)
    case Encode(good) => EncodeStep(s, good)
    case Enqueue => EnqueueStep(s)
    case SourceEnds => SourceEndStep(s)
    case EncodeLast(done) => EncodeLastStep(s, done)
    case AllFramed => s.(phase := Draining)
    case Drain => DrainStep(s)
    case GiveUp => Abort(s)
    case Leave => Wake(s.(m := s.m.(queue := []), pcmIn := [], resampler := None, phase := Idle))
    case Cancel => s.(cancelled := true, callback := true)
    case Callback => Wake(s.(callback := false))
    case Take => TakeStep(s)
    case WriteOk => WriteStep(s)
    case WriteFails => Wake(s.(m := ShutDown(s.m).(inFlight := false), pacer := Stopped))
    case Clear => Wake(s.(m := s.m.(inFlight := false), pacer := Waiting))
    case ContextEnds => Wake(s.(m := ShutDown(s.m), pacer := Stopped))
    case PeerFails => Wake(s.(m := ShutDown(s.m)))
  }

  const INITIAL := State(Monitor([], false, false), Idle, false, 0, 0, None, [], None, false, false, Waiting, [], [], [])

  ghost predicate IsRun(events: seq<Event>, states: seq<State>)
  {
    && |states| == |events| + 1 && states[0] == INITIAL
    && forall i :: 0 <= i < |events| ==>
         Enabled(states[i], events[i]) && states[i + 1] == Next(states[i], events[i])
  }

  // ---------- frames on their way ----------

  /** The blocks of one utterance, in order. */
  function Of(frames: seq<Frame>, u: nat): seq<seq<int>>
  {
    if frames == [] then []
    else
      var last := frames[|frames| - 1];
      Of(frames[..|frames| - 1], u) + (if last.utterance == u then [last.block] else [])
  }

  function Carried(p: Pacer): seq<Frame> {
    if p.Writing? && p.carried.Some? then [p.carried.value] else []
  }

  /** Written, being written, and waiting: the order in which frames reach the track. */
  function Line(s: State): seq<Frame> { s.written + Carried(s.pacer) + s.m.queue }

  ghost predicate Rising(frames: seq<Frame>, top: nat) {
    && (forall i, j :: 0 <= i < j < |frames| ==> frames[i].utterance <= frames[j].utterance)
    && (forall i :: 0 <= i < |frames| ==> frames[i].utterance <= top)
  }

  lemma {:induction false} OfConcat(a: seq<Frame>, b: seq<Frame>, u: nat)
    ensures Of(a + b, u) == Of(a, u) + Of(b, u)
  {
    if b == [] {
      assert a + b == a;
    } else {
      var last := |b| - 1;
      OfConcat(a, b[..last], u);
      assert (a + b)[..|a + b| - 1] == a + b[..last];
    }
  }

  lemma {:induction false} OfOne(f: Frame, u: nat)
    ensures Of([f], u) == if f.utterance == u then [f.block] else []
  {
    assert [f][..0] == [];
  }

  lemma {:induction false} OfNone(frames: seq<Frame>, top: nat, u: nat)
    requires Rising(frames, top) && top < u
    ensures Of(frames, u) == []
  {
    if frames != [] {
      OfNone(frames[..|frames| - 1], top, u);
    }
  }

  // ---------- the invariant ----------

  function InHand(s: State): seq<seq<int>> { if s.hand == None then [] else [s.hand.value] }

  /** What the player still holds, together with what it enqueued, is right for its phase;
      nothing at all is held between utterances. */
  ghost predicate Framed(s: State)
  {
    && (s.chunks != [] ==> s.rate > 0)
    && match s.phase
       case Feeding =>
         && s.resampler == (if s.chunks == [] then None else Some(s.chunks))
         && F.Spells(s.chunks, s.rate, s.sent + InHand(s), s.pcmIn)
       case Flushing => s.resampler == None && s.sent + InHand(s) + F.Blocks(s.pcmIn) == F.Target(s.chunks, s.rate)
       case Draining => s.resampler == None && s.pcmIn == [] && s.hand == None && s.sent == F.Target(s.chunks, s.rate)
       case Leaving(ok) =>
         && s.hand == None
         && (ok ==> && s.m.queue == [] && Carried(s.pacer) == []
                    && s.sent == F.Target(s.chunks, s.rate) && Of(s.written, s.utterance) == s.sent)
       case Idle => s.resampler == None && s.pcmIn == [] && s.hand == None && s.m.queue == []
  }

  /** Frames move along the line in order, one utterance after the other, and while the
      sender is open none of the current utterance is missing from it. */
  ghost predicate Lined(s: State)
  {
    && Rising(Line(s), s.utterance)
    && Of(Line(s), s.utterance) <= s.sent
    && (!s.m.closed && s.phase != Idle ==> Of(Line(s), s.utterance) == s.sent)
    && (forall i :: 0 <= i < |s.m.queue| ==> s.m.queue[i].utterance == s.utterance)
  }

  ghost predicate Guarded(s: State)
  {
    && |s.m.queue| <= LIMIT && (s.m.closed ==> s.m.queue == [])
    && (s.pacer == Stopped ==> s.m.closed)
    && (s.m.inFlight <==> Carried(s.pacer) != [] || s.pacer == Clearing(true))
    && (s.parked ==>
          && !s.m.closed && (s.cancelled ==> s.callback)
          && (s.hand != None || s.phase == Draining)
          && (s.hand != None ==> |s.m.queue| == LIMIT)
          && (s.phase == Draining ==> s.m.queue != [] || s.m.inFlight))
  }

  ghost predicate Inv(s: State) { Framed(s) && Lined(s) && Guarded(s) }

  // ---------- every step keeps it ----------

  lemma {:induction false} FeedKeeps(s: State, chunk: seq<int>)
    requires Inv(s) && Enabled(s, Feed(chunk))
    ensures Inv(FeedStep(s, chunk))
  {
    hide F.Spells, F.PushOut, F.Target, F.Blocks, Of, Rising;
    if s.rate > 0 {
      F.SpellsPush(s.chunks, s.rate, s.sent + InHand(s), s.pcmIn, chunk);
    }
  }

  lemma {:induction false} SourceEndKeeps(s: State)
    requires Inv(s) && Enabled(s, SourceEnds)
    ensures Inv(SourceEndStep(s))
  {
    hide F.Spells, F.FlushOut, F.Blocks, Of, Rising;
    F.SpellsFlush(s.chunks, s.rate, s.sent + InHand(s), s.pcmIn);
    if s.chunks == [] {
      hide F.Target;
      assert s.pcmIn == [] by { SpellsNothing(s); }
    }
  }

  lemma {:induction false} SpellsNothing(s: State)
    requires F.Spells([], s.rate, s.sent + InHand(s), s.pcmIn)
    ensures s.pcmIn == [] && F.Target([], s.rate) == []
  {
  }

  lemma {:induction false} EncodeKeeps(s: State, good: bool)
    requires Inv(s) && Enabled(s, Encode(good))
    ensures Inv(EncodeStep(s, good))
  {
    hide F.Spells, F.Target, Of, Rising;
    var block := s.pcmIn[..F.FRAME];
    assert s.sent + InHand(s) == s.sent;
    if s.phase == Feeding {
      F.SpellsCut(s.chunks, s.rate, s.sent, s.pcmIn);
    } else {
      assert s.sent + F.Blocks(s.pcmIn) == s.sent + [block] + F.Blocks(s.pcmIn[F.FRAME..]);
    }
  }

  lemma {:induction false} EncodeLastKeeps(s: State, done: bool)
    requires Inv(s) && Enabled(s, EncodeLast(done))
    ensures Inv(EncodeLastStep(s, done))
  {
    hide F.Spells, F.Target, F.Pad, Of, Rising;
    assert s.sent + InHand(s) == s.sent;
    assert s.sent + [F.Pad(s.pcmIn)] + [] == s.sent + [F.Pad(s.pcmIn)];
  }

  lemma {:induction false} AllFramedKeeps(s: State)
    requires Inv(s) && Enabled(s, AllFramed)
    ensures Inv(s.(phase := Draining))
  {
    hide F.Spells, F.Target, F.Pad, Of, Rising;
    assert s.sent + [] + [] == s.sent;
  }

  lemma {:induction false} EnqueueKeeps(s: State)
    requires Inv(s) && Enabled(s, Enqueue)
    ensures Inv(EnqueueStep(s))
  {
    hide F.Spells, F.Target, F.Blocks, Of, Rising;
    var t := EnqueueStep(s);
    if Offer(s.m, s.cancelled) == Go {
      var f := Frame(s.utterance, s.hand.value);
      assert s.sent + InHand(s) == t.sent + InHand(t);
      assert Line(t) == Line(s) + [f];
      OfConcat(Line(s), [f], s.utterance);
      OfOne(f, s.utterance);
      RisingSnoc(Line(s), f, s.utterance);
    }
  }

  lemma {:induction false} RisingSnoc(frames: seq<Frame>, f: Frame, top: nat)
    requires Rising(frames, top) && f.utterance == top
    ensures Rising(frames + [f], top)
  {
  }

  lemma {:induction false} DrainKeeps(s: State)
    requires Inv(s) && Enabled(s, Drain)
    ensures Inv(DrainStep(s))
  {
    hide F.Spells, F.Target, F.Blocks, Of, Rising;
    if Drained(s.m, s.cancelled) == Go {
      assert Line(s) == s.written;
    }
  }

  lemma {:induction false} TakeKeeps(s: State)
    requires Inv(s) && Enabled(s, Take)
    ensures Inv(TakeStep(s)) && Line(TakeStep(s)) == Line(s)
  {
    hide F.Spells, F.Target, F.Blocks, Of, Rising;
    assert s.m.queue != [] ==> s.m.queue == [s.m.queue[0]] + s.m.queue[1..];
    assert Line(TakeStep(s)) == Line(s);
  }

  lemma {:induction false} WriteKeeps(s: State)
    requires Inv(s) && Enabled(s, WriteOk)
    ensures Inv(WriteStep(s)) && Line(WriteStep(s)) == Line(s)
  {
    hide F.Spells, F.Target, F.Blocks, Of, Rising;
    assert Line(WriteStep(s)) == Line(s);
  }

  lemma {:induction false} PrefixOfLine(a: seq<Frame>, b: seq<Frame>, u: nat, top: nat)
    requires a <= b && Rising(b, top)
    ensures Rising(a, top) && Of(a, u) <= Of(b, u)
  {
    hide Of;
    assert b == a + b[|a|..];
    OfConcat(a, b[|a|..], u);
  }

  /** Steps that drop what is queued, and perhaps what is being written. */
  lemma {:induction false} DropKeeps(s: State, t: State)
    requires Inv(s) && Line(t) <= Line(s) && t.m.queue == [] && Framed(t) && Guarded(t)
    requires t.m.closed || t.phase == Idle
    requires t.utterance == s.utterance && t.sent == s.sent
    ensures Inv(t)
  {
    hide Framed, Guarded, Of, Rising;
    PrefixOfLine(Line(t), Line(s), s.utterance, s.utterance);
  }

  lemma {:induction false} DroppingKeeps(s: State, e: Event)
    requires Inv(s) && Enabled(s, e) && (e.Leave? || e.WriteFails? || e.ContextEnds? || e.PeerFails?)
    ensures Inv(Next(s, e))
  {
    hide F.Spells, F.Target, F.Blocks, Of, Rising;
    DropKeeps(s, Next(s, e));
  }

  lemma {:induction false} BeginKeeps(s: State, r: int)
    requires Inv(s) && Enabled(s, Begin(r))
    ensures Inv(Next(s, Begin(r)))
  {
    hide F.Target, F.Blocks, Of;
    OfNone(Line(s), s.utterance, s.utterance + 1);
    assert Line(Next(s, Begin(r))) == Line(s);
  }

  lemma {:induction false} StepKeeps(s: State, e: Event)
    requires Inv(s) && Enabled(s, e)
    ensures Inv(Next(s, e))
  {
    hide FeedStep, SourceEndStep, EncodeStep, EncodeLastStep, EnqueueStep, DrainStep, TakeStep, WriteStep;
    hide F.Spells, F.Target, F.Blocks, Of, Rising;
    match e
    case Begin(r) => BeginKeeps(s, r);
    case Feed(chunk) => FeedKeeps(s, chunk);
    case Encode(good) => EncodeKeeps(s, good);
    case Enqueue => EnqueueKeeps(s);
    case SourceEnds => SourceEndKeeps(s);
    case EncodeLast(done) => EncodeLastKeeps(s, done);
    case AllFramed => AllFramedKeeps(s);
    case Drain => DrainKeeps(s);
    case Take => TakeKeeps(s);
    case WriteOk => WriteKeeps(s);
    case Leave | WriteFails | ContextEnds | PeerFails => DroppingKeeps(s, e);
    case GiveUp | Cancel | Callback | Clear =>
  }

  lemma {:induction false} RunKeeps(events: seq<Event>, states: seq<State>, i: nat)
    requires IsRun(events, states) && i < |states|
    ensures Inv(states[i])
  {
    hide Next, Enabled, Inv;
    if i == 0 {
      InitialInv();
    } else {
      RunKeeps(events, states, i - 1);
      StepKeeps(states[i - 1], events[i - 1]);
    }
  }

  lemma {:induction false} InitialInv()
    ensures Inv(INITIAL)
  {
  }

  // ---------- main results ----------

  /** The chunks read since the last utterance began, and its source rate. */
  function ReadSince(events: seq<Event>): (seq<seq<int>>, int)
  {
    if events == [] then ([], 0)
    else
      var (chunks, rate) := ReadSince(events[..|events| - 1]);
      match events[|events| - 1]
      case Begin(r) => ([], r)
      case Feed(chunk) => (chunks + [chunk], rate)
      case _ => (chunks, rate)
  }

  lemma {:induction false} HistoryIsRead(events: seq<Event>, states: seq<State>, i: nat)
    requires IsRun(events, states) && i < |states|
    ensures Succeeding(states[i]) ==>
              (states[i].chunks, states[i].rate) == ReadSince(events[..i])
  {
    hide Next, Enabled;
    if i > 0 {
      HistoryIsRead(events, states, i - 1);
      assert events[..i][..i - 1] == events[..i - 1];
      HistoryStep(states[i - 1], events[i - 1]);
    }
  }

  ghost predicate Succeeding(s: State) { s.phase != Idle && s.phase != Leaving(false) }

  predicate OfPacer(e: Event) {
    e.Take? || e.WriteOk? || e.WriteFails? || e.Clear? || e.ContextEnds? || e.PeerFails?
  }

  /** The pacer and the connection never touch what belongs to the player ... */
  lemma {:induction false} PacerLeavesPlayer(s: State, e: Event)
    requires Enabled(s, e) && OfPacer(e)
    ensures var t := Next(s, e);
            t.phase == s.phase && t.chunks == s.chunks && t.rate == s.rate && t.utterance == s.utterance
  {
  }

  /** ... and the player never touches the track. */
  lemma {:induction false} PlayerLeavesTrack(s: State, e: Event)
    requires Enabled(s, e) && !OfPacer(e)
    ensures var t := Next(s, e);
            t.written == s.written && t.pacer == s.pacer && t.utterance == s.utterance + (if e.Begin? then 1 else 0)
    ensures Next(s, e).phase == Idle ==> s.phase == Idle || e.Leave?
  {
    hide F.PushOut, F.FlushOut, F.Pad;
  }

  lemma {:induction false} HistoryStep(s: State, e: Event)
    requires Enabled(s, e)
    ensures var t := Next(s, e);
            Succeeding(t) ==>
              match e
              case Begin(r) => t.chunks == [] && t.rate == r
              case Feed(chunk) => Succeeding(s) && t.chunks == s.chunks + [chunk] && t.rate == s.rate
              case _ => Succeeding(s) && t.chunks == s.chunks && t.rate == s.rate
  {
    hide F.PushOut, F.FlushOut, F.Pad, TakeStep, WriteStep, ShutDown, Wake;
    if OfPacer(e) {
      PacerLeavesPlayer(s, e);
    } else {
      PlayerHistory(s, e);
    }
  }

  lemma {:induction false} PlayerHistory(s: State, e: Event)
    requires Enabled(s, e) && !OfPacer(e)
    ensures var t := Next(s, e);
            Succeeding(t) ==>
              match e
              case Begin(r) => t.chunks == [] && t.rate == r
              case Feed(chunk) => Succeeding(s) && t.chunks == s.chunks + [chunk] && t.rate == s.rate
              case _ => Succeeding(s) && t.chunks == s.chunks && t.rate == s.rate
  {
    hide F.PushOut, F.FlushOut, F.Pad, TakeStep, WriteStep, ShutDown;
  }

  /** Main theorem: when an utterance ends without error, in any interleaving with pacer,
      cancellation and shutdown, and however its clip was cut into reads, the frames of it
      written to the track are exactly the blocks of the whole-clip resampling, in order,
      after everything written for earlier utterances. */
  lemma {:induction false} UtterancePlayed(events: seq<Event>, states: seq<State>, i: nat)
    requires IsRun(events, states) && i < |states| && states[i].phase == Leaving(true)
    ensures var (chunks, rate) := ReadSince(events[..i]);
            && (chunks != [] ==> rate > 0)
            && Of(states[i].written, states[i].utterance) == states[i].sent == F.Target(chunks, rate)
    ensures Rising(states[i].written, states[i].utterance)
  {
    hide F.Target, F.Spells, Of, Rising;
    RunKeeps(events, states, i);
    HistoryIsRead(events, states, i);
    PrefixOfLine(states[i].written, Line(states[i]), 0, states[i].utterance);
  }

  /** Nothing goes wrong from outside: rates are positive, the encoder, the track, the
      connection and the source work, and nobody cancels. */
  predicate Undisturbed(e: Event) {
    match e
    case Begin(r) => r > 0
    case Encode(good) => good
    case EncodeLast(done) => done
    case GiveUp | Cancel | WriteFails | ContextEnds | PeerFails => false
    case _ => true
  }

  ghost predicate Healthy(s: State)
  {
    !s.m.closed && !s.cancelled && s.phase != Leaving(false) && (s.phase == Feeding ==> s.rate > 0)
  }

  lemma {:induction false} HealthyStep(s: State, e: Event)
    requires Healthy(s) && Enabled(s, e) && Undisturbed(e)
    ensures Healthy(Next(s, e))
  {
    hide F.PushOut, F.FlushOut, F.Pad;
  }

  /** An utterance fails only for a reason from outside: in every run without one the sender
      stays open and no utterance is ever left with an error. */
  lemma {:induction false} NoFailureWithoutCause(events: seq<Event>, states: seq<State>, i: nat)
    requires IsRun(events, states) && i < |states|
    requires forall k :: 0 <= k < i ==> Undisturbed(events[k])
    ensures states[i].phase != Leaving(false) && !states[i].m.closed && Healthy(states[i])
  {
    hide Next, Enabled;
    if i > 0 {
      NoFailureWithoutCause(events, states, i - 1);
      HealthyStep(states[i - 1], events[i - 1]);
    }
  }

  predicate UnderWay(s: State) { s.phase == Feeding || s.phase == Flushing || s.phase == Draining }

  /** The pacer's next move. */
  function PacerMove(p: Pacer): Event {
    if p == Waiting then Take else if p.Writing? then WriteOk else Clear
  }

  /** A move that brings an utterance closer to its end. */
  function Closer(s: State): Event
  {
    if s.parked then PacerMove(s.pacer)
    else if s.hand != None then if |s.m.queue| < LIMIT then Enqueue else PacerMove(s.pacer)
    else if s.phase == Draining then if s.m.queue != [] || s.m.inFlight then PacerMove(s.pacer) else Drain
    else if |s.pcmIn| >= F.FRAME then Encode(true)
    else if s.phase == Feeding then SourceEnds
    else if s.pcmIn != [] then EncodeLast(true)
    else AllFramed
  }

  function Rank(s: State): nat { if s.phase == Feeding then 2 else if s.phase == Flushing then 1 else 0 }

  function Hands(s: State): nat { if s.hand == None then 0 else 1 }

  function Stage(p: Pacer): nat { if p.Writing? then 2 else if p.Clearing? then 1 else 0 }

  ghost predicate Less(t: State, s: State)
  {
    || Rank(t) < Rank(s)
    || (Rank(t) == Rank(s)
        && (|t.pcmIn| < |s.pcmIn|
            || (|t.pcmIn| == |s.pcmIn|
                && (Hands(t) < Hands(s)
                    || (Hands(t) == Hands(s)
                        && (|t.m.queue| < |s.m.queue|
                            || (|t.m.queue| == |s.m.queue| && Stage(t.pacer) < Stage(s.pacer))))))))
  }

  lemma {:induction false} CloserStep(s: State)
    requires Inv(s) && Healthy(s) && UnderWay(s)
    ensures Enabled(s, Closer(s)) && Undisturbed(Closer(s))
    ensures var t := Next(s, Closer(s)); t.phase == Leaving(true) || (UnderWay(t) && Less(t, s))
  {
    hide F.PushOut, F.FlushOut, F.Pad, F.Spells, F.Target, F.Blocks, Lined;
  }

  ghost predicate IsPath(events: seq<Event>, states: seq<State>)
  {
    && |states| == |events| + 1
    && forall i :: 0 <= i < |events| ==>
         Enabled(states[i], events[i]) && Undisturbed(events[i]) && states[i + 1] == Next(states[i], events[i])
  }

  /** Progress: as long as nothing goes wrong from outside, an utterance under way can be
      brought to its successful end from wherever it stands, by the moves of player and
      pacer alone. */
  lemma {:induction false} CanComplete(s: State) returns (events: seq<Event>, states: seq<State>)
    requires Inv(s) && Healthy(s) && UnderWay(s)
    ensures IsPath(events, states) && states[0] == s && states[|events|].phase == Leaving(true)
    decreases Rank(s), |s.pcmIn|, Hands(s), |s.m.queue|, Stage(s.pacer)
  {
    hide Next, Enabled, Inv, Healthy, Closer;
    CloserStep(s);
    StepKeeps(s, Closer(s));
    HealthyStep(s, Closer(s));
    var t := Next(s, Closer(s));
    if t.phase == Leaving(true) {
      events, states := [Closer(s)], [s, t];
    } else {
      var more, rest := CanComplete(t);
      events, states := [Closer(s)] + more, [s] + rest;
    }
  }

  /** The same for every run so far undisturbed. */
  lemma {:induction false} RunCanComplete(events: seq<Event>, states: seq<State>)
    returns (more: seq<Event>, rest: seq<State>)
    requires IsRun(events, states) && UnderWay(states[|events|])
    requires forall k :: 0 <= k < |events| ==> Undisturbed(events[k])
    ensures IsPath(more, rest) && rest[0] == states[|events|] && rest[|more|].phase == Leaving(true)
  {
    hide Next, Enabled, Inv, Healthy;
    RunKeeps(events, states, |events|);
    NoFailureWithoutCause(events, states, |events|);
    more, rest := CanComplete(states[|events|]);
  }

  /** Whatever happens, the current utterance has written a prefix of what it enqueued, at
      most 100 frames wait, and nobody sleeps through a condition that holds. */
  lemma {:induction false} Bounded(events: seq<Event>, states: seq<State>, i: nat)
    requires IsRun(events, states) && i < |states|
    ensures var s := states[i];
            && Of(s.written, s.utterance) <= s.sent && |s.m.queue| <= LIMIT
            && (s.parked ==>
                  && !s.m.closed && s.pacer != Stopped && (s.cancelled ==> s.callback)
                  && (|s.m.queue| == LIMIT || (s.phase == Draining && (s.m.queue != [] || s.m.inFlight))))
  {
    hide F.Target, F.Spells, F.Blocks, Of, Rising;
    RunKeeps(events, states, i);
    var s := states[i];
    PrefixOfLine(s.written, Line(s), s.utterance, s.utterance);
  }

  /** Between utterances the sender holds nothing of the last one. */
  lemma {:induction false} NothingLeftOver(events: seq<Event>, states: seq<State>, i: nat)
    requires IsRun(events, states) && i < |states| && states[i].phase == Idle
    ensures var s := states[i]; s.pcmIn == [] && s.resampler == None && s.hand == None && s.m.queue == []
  {
    hide F.Target, F.Spells, F.Blocks, Of, Rising;
    RunKeeps(events, states, i);
  }

  ghost predicate Past(s: State, v: nat) { v < s.utterance || (s.phase == Idle && v == s.utterance) }

  function WrittenOrCarried(s: State): seq<Frame> { s.written + Carried(s.pacer) }

  lemma {:induction false} PastStep(s: State, e: Event, v: nat)
    requires Inv(s) && Enabled(s, e) && Past(s, v)
    ensures var t := Next(s, e);
            && Past(t, v) && Of(s.written, v) <= Of(t.written, v)
            && Of(WrittenOrCarried(t), v) <= Of(WrittenOrCarried(s), v)
  {
    hide Of, Next, Enabled, Framed, Lined, Guarded;
    var t := Next(s, e);
    if !OfPacer(e) {
      PlayerPast(s, e, v);
    } else {
      PacerLeavesPlayer(s, e);
      PacerWrites(s, e);
      assert t.written == s.written + t.written[|s.written|..];
      OfConcat(s.written, t.written[|s.written|..], v);
      if WrittenOrCarried(t) <= WrittenOrCarried(s) {
        var a, b := WrittenOrCarried(t), WrittenOrCarried(s);
        OfConcat(a, b[|a|..], v);
        assert b == a + b[|a|..];
      } else {
        NotQueued(s, v);
        OfConcat(WrittenOrCarried(s), [s.m.queue[0]], v);
        OfOne(s.m.queue[0], v);
      }
    }
  }

  lemma {:induction false} PlayerPast(s: State, e: Event, v: nat)
    requires Inv(s) && Enabled(s, e) && Past(s, v) && !OfPacer(e)
    ensures var t := Next(s, e); Past(t, v) && t.written == s.written && WrittenOrCarried(t) == WrittenOrCarried(s)
  {
    hide Next, Enabled, Inv;
    PlayerLeavesTrack(s, e);
    if s.phase == Idle {
      IdleBegins(s, e);
    }
  }

  lemma {:induction false} IdleBegins(s: State, e: Event)
    requires Inv(s) && Enabled(s, e) && s.phase == Idle && !OfPacer(e)
    ensures Next(s, e).phase == Idle || e.Begin?
  {
    hide Lined, Guarded, F.PushOut, F.FlushOut, F.Pad;
  }

  lemma {:induction false} PacerWrites(s: State, e: Event)
    requires Enabled(s, e) && OfPacer(e)
    ensures var t := Next(s, e);
            && s.written <= t.written
            && (WrittenOrCarried(t) <= WrittenOrCarried(s)
                || (s.m.queue != [] && WrittenOrCarried(t) == WrittenOrCarried(s) + [s.m.queue[0]]))
  {
    hide TakeStep, WriteStep;
    if e.Take? {
      assert s.written + [] == s.written;
      TakeWrites(s);
    } else if e.WriteOk? {
      WriteWrites(s);
    }
  }

  lemma {:induction false} TakeWrites(s: State)
    requires s.pacer == Waiting
    ensures var t := TakeStep(s);
            t.written == s.written && Carried(t.pacer) == if s.m.closed || s.m.queue == [] then [] else [s.m.queue[0]]
  {
  }

  lemma {:induction false} WriteWrites(s: State)
    requires s.pacer.Writing?
    ensures var t := WriteStep(s); t.written == s.written + Carried(s.pacer) && Carried(t.pacer) == []
  {
    assert s.written + [] == s.written;
  }

  /** The queue only ever holds frames of the utterance being played. */
  lemma {:induction false} NotQueued(s: State, v: nat)
    requires Inv(s) && Past(s, v) && s.m.queue != []
    ensures s.m.queue[0].utterance != v
  {
    hide Guarded, Of, Rising, F.Target, F.Spells, F.Blocks;
  }

  /** After an utterance has been left, cancelled or not, all that can still reach the
      track of it is the one frame that was being written at that moment. */
  lemma {:induction false} AtMostOneLate(events: seq<Event>, states: seq<State>, i: nat, j: nat, v: nat)
    requires IsRun(events, states) && i <= j < |states| && Past(states[i], v)
    ensures Past(states[j], v) && Of(states[i].written, v) <= Of(states[j].written, v)
    ensures Of(states[j].written, v) <= Of(WrittenOrCarried(states[j]), v) <= Of(WrittenOrCarried(states[i]), v)
    ensures |Of(WrittenOrCarried(states[i]), v)| <= |Of(states[i].written, v)| + 1
    decreases j
  {
    hide Next, Enabled, Inv, Of;
    OfConcat(states[j].written, Carried(states[j].pacer), v);
    if i == j {
      CarriedIsOne(states[i], v);
    } else {
      AtMostOneLate(events, states, i, j - 1, v);
      RunKeeps(events, states, j - 1);
      PastStep(states[j - 1], events[j - 1], v);
    }
  }

  lemma {:induction false} CarriedIsOne(s: State, v: nat)
    ensures |Of(WrittenOrCarried(s), v)| <= |Of(s.written, v)| + 1
  {
    OfConcat(s.written, Carried(s.pacer), v);
    if Carried(s.pacer) != [] {
      OfOne(s.pacer.carried.value, v);
    }
  }

  // ---------- the monitor as an object ----------

  /** The critical sections of enqueue, waitDrained, clearPending, run and close;
      `cancelled` is the state of the caller's context when the section runs. */
  class PacedQueue {
    var queue: seq<Frame>
    var closed: bool
    var inFlight: bool

    ghost function M(): Monitor
      reads this
    {
      Monitor(queue, closed, inFlight)
    }

    constructor ()
      ensures M() == INITIAL.m
    {
      queue, closed, inFlight := [], false, false;
    }

    method Enqueue(frame: Frame, cancelled: bool) returns (v: Verdict)
      modifies this`queue
      ensures v == Offer(old(M()), cancelled)
      ensures M() == if v == Go then Enqueued(old(M()), frame) else old(M())
      ensures v == Go ==> !closed && !cancelled && |old(queue)| < LIMIT && queue == old(queue) + [frame]
      ensures v != Go ==> queue == old(queue)
      ensures v == Go <==> !cancelled && !closed && |old(queue)| < 100
      ensures v == MustWait <==> !cancelled && !closed && |old(queue)| >= 100
      ensures v == Cancelled <==> cancelled
      ensures v == Closed <==> !cancelled && closed
      ensures closed == old(closed) && inFlight == old(inFlight)
    {
      if |queue| >= LIMIT && !closed && !cancelled {
        return MustWait;
      }
      if cancelled {
        return Cancelled;
      }
      if closed {
        return Closed;
      }
      queue := queue + [frame];
      return Go;
    }

    method WaitDrained(cancelled: bool) returns (v: Verdict)
      ensures v == Drained(M(), cancelled)
      ensures v == Go <==> !closed && !cancelled && queue == [] && !inFlight
      ensures v == MustWait <==> !closed && !cancelled && (queue != [] || inFlight)
      ensures v == Cancelled <==> cancelled
      ensures v == Closed <==> !cancelled && closed
    {
      if (|queue| > 0 || inFlight) && !closed && !cancelled {
        return MustWait;
      }
      if cancelled {
        return Cancelled;
      }
      return if closed then Closed else Go;
    }

    /** None when the pacer stops, Some(None) for silence. */
    method Take() returns (frame: Option<Option<Frame>>)
      modifies this`queue, this`inFlight
      ensures old(closed) ==> frame == None && M() == old(M())
      ensures !old(closed) && old(queue) == [] ==> frame == Some(None) && M() == old(M())
      ensures !old(closed) && old(queue) != [] ==> frame == Some(Some(old(queue)[0])) && M() == Taken(old(M()))
      ensures frame.Some? && frame.value.Some? ==> inFlight && [frame.value.value] + queue == old(queue)
      ensures frame == None <==> old(closed)
      ensures frame == Some(None) <==> !old(closed) && old(queue) == []
      ensures frame == None || frame == Some(None) ==> queue == old(queue) && inFlight == old(inFlight)
    {
      if closed {
        return None;
      }
      frame := Some(None);
      if |queue| > 0 {
        frame := Some(Some(queue[0]));
        queue := queue[1..];
        inFlight := true;
      }
    }

    method WriteDone(ok: bool)
      modifies this
      ensures M() == if ok then old(M()).(inFlight := false) else ShutDown(old(M())).(inFlight := false)
      ensures !inFlight && (!ok ==> closed && queue == []) && (ok ==> queue == old(queue))
    {
      if !ok {
        closed, queue := true, [];
      }
      inFlight := false;
    }

    method ClearPending()
      modifies this`queue
      ensures M() == old(M()).(queue := []) && queue == []
    {
      queue := [];
    }

    method Shut()
      modifies this`queue, this`closed
      ensures M() == ShutDown(old(M())) && closed && queue == [] && inFlight == old(inFlight)
    {
      closed, queue := true, [];
    }
  }
}
