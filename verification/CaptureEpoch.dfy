/** Capture epochs of the receive path (internal/webrtc/client.go): the RTP reader tags
    packets, the decoder loop drops what is out of date, and ResetCapture starts a new
    epoch between two callbacks. Every load of the shared counter is a step of its own. */
module CaptureEpoch {
  import opened Basics
  import J = JitterWindow

  const QUEUE := 32

  /** A packet and the epoch the reader gave it. */
  datatype Tagged = Tagged(id: nat, epoch: nat)

  /** An RTP packet on its way into the queue: `Offering` has been tagged for the
      non-blocking send, `Full` found the queue full, `Dropped` has dropped the oldest
      entry, `Sending` has been tagged again for the blocking send. */
  datatype Reader = Reading | Offering(first: Tagged) | Full(unsent: nat) | Dropped(pending: nat) | Sending(second: Tagged)

  /** Where the decoder loop stands; `Filling` and `Decoding` are the two deliveries for
      the first packet of a batch. */
  datatype Loop = Top | Selecting | Admitting(received: Tagged) | Ticking | Filling(todo: seq<Tagged>) | Decoding(rest: seq<Tagged>)

  /** A call of onAudioRx: the epochs of the packets its samples derive from, and the
      shared epoch when it was made. */
  datatype Call = Call(tags: set<nat>, during: nat)

  /** `previous` is the packet behind `timestamp` while previousSamples is positive. */
  datatype State = State(
    current: nat, queue: seq<Tagged>, reader: Reader,
    loop: Loop, epoch: nat, held: seq<Tagged>, previous: Option<Tagged>,
    calling: bool, calls: seq<Call>)

  datatype Event =
    | Read(id: nat)
    | Offer
    | DropOldest
    | TagAgain
    | Send
    | CheckEpoch
    | Receive
    | Tick
    | Admit(pushed: seq<Tagged>, kept: seq<Tagged>)   // what the window hands out and keeps
    | Release(due: seq<Tagged>, still: seq<Tagged>)
    | Fill(emit: bool)
    | Decode(result: Option<bool>)                    // None: failed; Some(b): any samples?
    | CallEnds
    | ResetCapture

  predicate Among(part: seq<Tagged>, whole: seq<Tagged>) {
    forall i :: 0 <= i < |part| ==> part[i] in whole
  }

  /** The window's contents once the loop has caught up with an epoch. */
  function HeldFor(s: State, epoch: nat): seq<Tagged> { if s.epoch == epoch then s.held else [] }

  ghost predicate Enabled(s: State, e: Event)
  {
    match e
    case Read(_) => s.reader == Reading
    case Offer => s.reader.Offering?
    case DropOldest => s.reader.Full?
    case TagAgain => s.reader.Dropped?
    case Send => s.reader.Sending? && |s.queue| < QUEUE
    case CheckEpoch => s.loop == Top
    case Receive => s.loop == Selecting && s.queue != []
    case Tick => s.loop == Selecting
    case Admit(pushed, kept) =>
      s.loop.Admitting? &&
      var all := HeldFor(s, s.loop.received.epoch) + [s.loop.received];
      Among(pushed, all) && Among(kept, all)
    case Release(due, still) => s.loop == Ticking && Among(due, HeldFor(s, s.current)) && Among(still, HeldFor(s, s.current))
    case Fill(_) => s.loop.Filling? && !s.calling && s.loop.todo != []
    case Decode(_) => s.loop.Decoding? && !s.calling && s.loop.rest != []
    case CallEnds => s.calling
    case ResetCapture => !s.calling
  }

  /** The loop notices a new epoch: a fresh window and no previous packet. */
  function CatchUp(s: State, epoch: nat): State
  {
    if s.epoch == epoch then s else s.(epoch := epoch, held := [], previous := None)
  }

  /** deliverEpoch under the callback mutex. */
  function Deliver(s: State, tags: set<nat>): State
  {
    if s.epoch == s.current then s.(calling := true, calls := s.calls + [Call(tags, s.current)]) else s
  }

  function Batch(s: State, packets: seq<Tagged>, kept: seq<Tagged>): State
  {
    s.(held := kept, loop := if packets == [] then Top else Filling(packets))
  }

  function AdmitStep(s: State, pushed: seq<Tagged>, kept: seq<Tagged>): State
    requires s.loop.Admitting?
  {
    var t := s.loop.received;
    if t.epoch != s.current then s.(held := [], previous := None, loop := Top)
    else Batch(CatchUp(s, t.epoch), pushed, kept)
  }

  function FillStep(s: State, emit: bool): State
    requires s.loop.Filling? && s.loop.todo != []
  {
    var t := s.(loop := Decoding(s.loop.todo));
    if emit && s.previous.Some? then Deliver(t, {s.previous.value.epoch, s.loop.todo[0].epoch}) else t
  }

  function DecodeStep(s: State, result: Option<bool>): State
    requires s.loop.Decoding? && s.loop.rest != []
  {
    var p := s.loop.rest[0];
    var t := s.(loop := if |s.loop.rest| == 1 then Top else Filling(s.loop.rest[1..]));
    if result == None then t
    else Deliver(t.(previous := if result.value then Some(p) else None), {p.epoch})
  }

  function Next(s: State, e: Event): State
    requires Enabled(s, e)
  {
    match e
    case Read(id) => s.(reader := Offering(Tagged(id, s.current)))
    case Offer =>
      if |s.queue| < QUEUE then s.(queue := s.queue + [s.reader.first], reader := Reading)
      else s.(reader := Full(s.reader.first.id))
    case DropOldest => s.(queue := if s.queue == [] then [] else s.queue[1..], reader := Dropped(s.reader.unsent))
    case TagAgain => s.(reader := Sending(Tagged(s.reader.pending, s.current)))
    case Send => s.(queue := s.queue + [s.reader.second], reader := Reading)
    case CheckEpoch => CatchUp(s, s.current).(loop := Selecting)
    case Receive => s.(queue := s.queue[1..], loop := Admitting(s.queue[0]))
    case Tick => s.(loop := Ticking)
    case Admit(pushed, kept) => AdmitStep(s, pushed, kept)
    case Release(due, still) => Batch(CatchUp(s, s.current), due, still)
    case Fill(emit) => FillStep(s, emit)
    case Decode(result) => DecodeStep(s, result)
    case CallEnds => s.(calling := false)
    case ResetCapture => s.(current := s.current + 1)
  }

  /** A track opened at some epoch: the loop reads the counter as it starts. */
  predicate IsInitial(s: State)
  {
    && s.queue == [] && s.reader == Reading && s.loop == Top && s.held == [] && s.previous == None
    && !s.calling && s.calls == [] && s.epoch <= s.current
  }

  ghost predicate IsRun(events: seq<Event>, states: seq<State>)
  {
    && |states| == |events| + 1 && IsInitial(states[0])
    && forall i :: 0 <= i < |events| ==> Enabled(states[i], events[i]) && states[i + 1] == Next(states[i], events[i])
  }

  // ---------- the invariant ----------

  predicate AllTagged(packets: seq<Tagged>, epoch: nat) {
    forall i :: 0 <= i < |packets| ==> packets[i].epoch == epoch
  }

  function InBatch(loop: Loop): seq<Tagged> {
    if loop.Filling? then loop.todo else if loop.Decoding? then loop.rest else []
  }

  /** Everything the loop works on carries its epoch. */
  predicate OneEpoch(s: State)
  {
    && AllTagged(s.held, s.epoch) && AllTagged(InBatch(s.loop), s.epoch)
    && (s.previous.Some? ==> s.previous.value.epoch == s.epoch)
    && s.epoch <= s.current && |s.queue| <= QUEUE
  }

  /** Every call so far carried audio of the one epoch current when it was made, and a
      call in progress is still current. */
  predicate Honest(s: State)
  {
    && (forall i :: 0 <= i < |s.calls| ==> s.calls[i].tags == {s.calls[i].during} && s.calls[i].during <= s.current)
    && (s.calling ==> s.calls != [] && s.calls[|s.calls| - 1].during == s.current)
  }

  predicate Inv(s: State) { OneEpoch(s) && Honest(s) }

  lemma {:induction false} AmongTagged(part: seq<Tagged>, whole: seq<Tagged>, epoch: nat)
    requires Among(part, whole) && AllTagged(whole, epoch)
    ensures AllTagged(part, epoch)
  {
  }

  lemma {:induction false} DeliverKeeps(s: State, tags: set<nat>)
    requires Inv(s) && !s.calling && tags == {s.epoch}
    ensures Inv(Deliver(s, tags))
  {
  }

  lemma {:induction false} WindowKeeps(s: State, e: Event)
    requires Inv(s) && Enabled(s, e) && (e.Admit? || e.Release?)
    ensures Inv(Next(s, e))
  {
    match e
    case Admit(pushed, kept) =>
      var t := s.loop.received;
      AmongTagged(pushed, HeldFor(s, t.epoch) + [t], t.epoch);
      AmongTagged(kept, HeldFor(s, t.epoch) + [t], t.epoch);
    case Release(due, still) =>
      AmongTagged(due, HeldFor(s, s.current), s.current);
      AmongTagged(still, HeldFor(s, s.current), s.current);
  }

  lemma {:induction false} DeliveryKeeps(s: State, e: Event)
    requires Inv(s) && Enabled(s, e) && (e.Fill? || e.Decode?)
    ensures Inv(Next(s, e))
  {
    match e
    case Fill(emit) =>
      var t := s.(loop := Decoding(s.loop.todo));
      if s.previous.Some? {
        assert {s.previous.value.epoch, s.loop.todo[0].epoch} == {s.epoch};
        DeliverKeeps(t, {s.previous.value.epoch, s.loop.todo[0].epoch});
      }
    case Decode(result) =>
      var p := s.loop.rest[0];
      var t := s.(loop := if |s.loop.rest| == 1 then Top else Filling(s.loop.rest[1..]));
      if result.Some? {
        DeliverKeeps(t.(previous := if result.value then Some(p) else None), {p.epoch});
      }
  }

  lemma {:induction false} StepKeeps(s: State, e: Event)
    requires Inv(s) && Enabled(s, e)
    ensures Inv(Next(s, e)) && s.current <= Next(s, e).current && s.calls <= Next(s, e).calls
    ensures forall i :: |s.calls| <= i < |Next(s, e).calls| ==> Next(s, e).calls[i].during == s.current
  {
    if e.Admit? || e.Release? {
      WindowKeeps(s, e);
    } else if e.Fill? || e.Decode? {
      DeliveryKeeps(s, e);
    }
  }

  lemma {:induction false} RunKeeps(events: seq<Event>, states: seq<State>, i: nat)
    requires IsRun(events, states) && i < |states|
    ensures Inv(states[i])
  {
    hide Next, Enabled;
    if i > 0 {
      RunKeeps(events, states, i - 1);
      StepKeeps(states[i - 1], events[i - 1]);
    }
  }

  // ---------- main results ----------

  /** In every interleaving, the window and the batch hold only packets of the loop's
      epoch, and every callback carries only audio of the epoch current at that call. */
  lemma {:induction false} NoStaleAudio(events: seq<Event>, states: seq<State>, i: nat, k: nat)
    requires IsRun(events, states) && i < |states|
    ensures AllTagged(states[i].held, states[i].epoch) && AllTagged(InBatch(states[i].loop), states[i].epoch)
    ensures k < |states[i].calls| ==> states[i].calls[k].tags == {states[i].calls[k].during}
    ensures |states[i].queue| <= QUEUE
  {
    hide Next, Enabled;
    RunKeeps(events, states, i);
  }

  /** ResetCapture joins the active callback, and once it has returned every later call
      carries only packets tagged after it. */
  lemma {:induction false} ResetIsFinal(events: seq<Event>, states: seq<State>, i: nat, j: nat, k: nat)
    requires IsRun(events, states) && i < j < |states| && events[i] == ResetCapture
    requires |states[i + 1].calls| <= k < |states[j].calls|
    ensures !states[i + 1].calling
    ensures forall tag :: tag in states[j].calls[k].tags ==> tag > states[i].current
  {
    hide Next, Enabled, Inv;
    assert !states[i + 1].calling && states[i + 1].current == states[i].current + 1 by { ResetStep(states[i]); }
    CallsAfter(events, states, i + 1, j, k);
    RunKeeps(events, states, j);
    CallTags(states[j], k);
  }

  lemma {:induction false} ResetStep(s: State)
    requires Enabled(s, ResetCapture)
    ensures Next(s, ResetCapture).current == s.current + 1 && !Next(s, ResetCapture).calling
  {
  }

  lemma {:induction false} CallTags(s: State, k: nat)
    requires Inv(s) && k < |s.calls|
    ensures s.calls[k].tags == {s.calls[k].during}
  {
  }

  lemma {:induction false} CallsAfter(events: seq<Event>, states: seq<State>, i: nat, j: nat, k: nat)
    requires IsRun(events, states) && i <= j < |states|
    ensures states[i].current <= states[j].current && states[i].calls <= states[j].calls
    ensures |states[i].calls| <= k < |states[j].calls| ==> states[j].calls[k].during >= states[i].current
    decreases j
  {
    hide Next, Enabled, Inv;
    if i < j {
      CallsAfter(events, states, i, j - 1, k);
      RunKeeps(events, states, j - 1);
      StepKeeps(states[j - 1], events[j - 1]);
    }
  }

  /** Nothing current is withheld: while the loop's epoch is current, every decoded packet
      reaches the callback at once, and so does what was concealed in front of it; when it
      is not, nothing does. */
  lemma {:induction false} CurrentAudioHeard(events: seq<Event>, states: seq<State>, i: nat)
    requires IsRun(events, states) && i < |events|
    ensures var s, t := states[i], states[i + 1];
            && (events[i].Decode? && events[i].result.Some? ==>
                  t.calls == if s.epoch == s.current then s.calls + [Call({s.current}, s.current)] else s.calls)
            && (events[i].Fill? && events[i].emit && s.previous.Some? ==>
                  t.calls == if s.epoch == s.current then s.calls + [Call({s.current}, s.current)] else s.calls)
            && (events[i] == Decode(None) ==> t.calls == s.calls)
  {
    RunKeeps(events, states, i);
    var s := states[i];
    if events[i].Fill? && s.previous.Some? {
      assert {s.previous.value.epoch, s.loop.todo[0].epoch} == {s.epoch};
    }
  }

  /** A received packet of the current epoch goes into the window of that epoch; a stale one
      is dropped together with whatever was held. */
  lemma {:induction false} AdmittedIffCurrent(events: seq<Event>, states: seq<State>, i: nat)
    requires IsRun(events, states) && i < |events| && events[i].Admit?
    ensures var s, t := states[i], states[i + 1];
            var tag := s.loop.received.epoch;
            && (tag == s.current ==> t.epoch == tag && t.held == events[i].kept && InBatch(t.loop) == events[i].pushed)
            && (tag != s.current ==> t.held == [] && t.previous == None && t.loop == Top)
  {
  }

  /** The queue is first in, first out: the reader only appends the packet it has read, and
      only the oldest entry is ever taken out. */
  lemma {:induction false} QueueIsFifo(events: seq<Event>, states: seq<State>, i: nat)
    requires IsRun(events, states) && i < |events|
    ensures var s, t := states[i], states[i + 1];
            || t.queue == s.queue
            || (s.queue != [] && t.queue == s.queue[1..] && (events[i] == Receive || events[i] == DropOldest))
            || (t.reader == Reading && t.queue != [] && t.queue[..|t.queue| - 1] == s.queue
                && t.queue[|t.queue| - 1] == if events[i] == Offer then s.reader.first else s.reader.second)
    ensures events[i] == Send || (events[i] == Offer && |states[i].queue| < 32) ==> |states[i + 1].queue| == |states[i].queue| + 1
  {
    hide Among;
  }

  // ---------- the callback gate ----------

  /** deliverEpoch and ResetCapture under the callback mutex. */
  class CallbackGate {
    var captureEpoch: nat
    var delivered: seq<seq<int>>

    constructor ()
      ensures captureEpoch == 0 && delivered == []
    {
      captureEpoch, delivered := 0, [];
    }

    /** `listening`: a callback is registered and the client's context is live. */
    method DeliverEpoch(samples: seq<int>, epoch: nat, listening: bool)
      modifies this`delivered
      ensures delivered == if listening && epoch == captureEpoch then old(delivered) + [samples] else old(delivered)
    {
      if listening && epoch == captureEpoch {
        delivered := delivered + [samples];
      }
    }

    method ResetCapture()
      modifies this`captureEpoch
      ensures captureEpoch == old(captureEpoch) + 1
    {
      captureEpoch := captureEpoch + 1;
    }
  }

  // ---------- the window never invents a packet ----------

  lemma {:induction false} InOrderHolds(pending: map<int, J.Packet>, a: int, b: int, i: nat)
    requires i < |J.InOrder(pending, a, b)|
    ensures var n := J.InOrder(pending, a, b)[i]; n.number in pending && pending[n.number] == n.packet
    decreases b - a
  {
    if i < |J.InOrder(pending, a, b - 1)| {
      InOrderHolds(pending, a, b - 1, i);
    }
  }

  /** `Admit` and `Release` are what the jitter window does: whatever holds of all packets
      it held, and of the one pushed, holds of all it hands out and of all it keeps. */
  lemma {:induction false} PushInventsNothing(w: J.Window, k: int, p: J.Packet, now: int, good: J.Packet -> bool)
    requires J.Settled(w) && |w.pending| < J.FORCE_AT && good(p)
    requires forall i :: i in w.pending ==> good(w.pending[i])
    ensures forall i :: 0 <= i < |J.PushedOutput(w, k, p, now)| ==> good(J.PushedOutput(w, k, p, now)[i].packet)
    ensures forall i :: i in J.Pushed(w, k, p, now).pending ==> good(J.Pushed(w, k, p, now).pending[i])
  {
    hide J.Drained, J.InOrder;
    if J.Accepts(w, k) {
      var a := J.Insert(w, k, p);
      J.PushStep(w, k, p, now);
      DrainInventsNothing(a, now, |a.pending| >= J.FORCE_AT, good);
    }
  }

  lemma {:induction false} DrainInventsNothing(w: J.Window, now: int, force: bool, good: J.Packet -> bool)
    requires J.Drainable(w) && forall i :: i in w.pending ==> good(w.pending[i])
    ensures var v := J.Drained(w, now, force);
            && (forall i :: 0 <= i < |J.Output(w, v)| ==> good(J.Output(w, v)[i].packet))
            && (forall i :: i in v.pending ==> good(v.pending[i]))
  {
    hide J.Drained, J.InOrder;
    var v := J.Drained(w, now, force);
    J.DrainStep(w, now, force);
    forall i | 0 <= i < |J.Output(w, v)| ensures good(J.Output(w, v)[i].packet) {
      InOrderHolds(w.pending, w.next, v.next, i);
    }
  }
}
