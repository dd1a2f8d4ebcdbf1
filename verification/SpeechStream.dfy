/** The bounded PCM stream between synthesis and playback (internal/ai/speech.go).
    Sample conversion is per sample and not modelled: samples are integers. */
module SpeechStream {
  import opened Basics
  const MAX_AUDIO_SECONDS := 120

  datatype Error = TooLong | Failure(code: nat)

  /** The fields behind the mutex. */
  datatype Core = Core(buf: seq<int>, done: bool, err: Option<Error>, total: nat)

  // ---------- the critical sections ----------

  predicate Overflows(c: Core, rate: int, n: nat) {
    c.total + n > rate * MAX_AUDIO_SECONDS
  }

  /** The size check that opens a push. */
  function Began(c: Core, rate: int, n: nat): Core {
    if Overflows(c, rate, n) then c.(done := true, err := Some(TooLong)) else c.(total := c.total + n)
  }

  datatype Progress = Again | MustWait | Sent | Cancelled | Closed

  datatype Turned = Turned(core: Core, rest: seq<int>, progress: Progress)

  /** One round of the push loop, from the wait condition to the broadcast. */
  function Turn(c: Core, rate: int, rest: seq<int>, cancelled: bool): Turned
  {
    if rest == [] then Turned(c, rest, Sent)
    else if |c.buf| >= 2 * rate && !cancelled && !c.done then Turned(c, rest, MustWait)
    else if cancelled then Turned(c, rest, Cancelled)
    else if c.done then Turned(c, rest, Closed)
    else
      var n := Min(|rest|, 2 * rate - |c.buf|);
      Turned(c.(buf := c.buf + rest[..n]), rest[n..], Again)
  }

  /** Rounds until the push returns or has to wait, with nobody else taking the lock. */
  function Filled(c: Core, rate: int, rest: seq<int>, cancelled: bool): Turned
    decreases |rest|
  {
    var t := Turn(c, rate, rest, cancelled);
    if t.progress == Again then Filled(t.core, rate, t.rest, cancelled) else t
  }

  lemma {:induction false} FilledStep(c: Core, rate: int, rest: seq<int>, cancelled: bool)
    ensures var t := Turn(c, rate, rest, cancelled);
            Filled(c, rate, rest, cancelled) == if t.progress == Again then Filled(t.core, rate, t.rest, cancelled) else t
  {
  }

  lemma {:induction false} FilledReturns(c: Core, rate: int, rest: seq<int>, cancelled: bool)
    ensures Filled(c, rate, rest, cancelled).progress != Again
    decreases |rest|
  {
    var t := Turn(c, rate, rest, cancelled);
    if t.progress == Again {
      FilledReturns(t.core, rate, t.rest, cancelled);
    }
  }

  /** A live push that runs alone moves exactly what fits. */
  lemma {:induction false} FilledFillsUp(c: Core, rate: int, rest: seq<int>)
    requires !c.done && |c.buf| <= Max(0, 2 * rate)
    ensures var n := Min(|rest|, Max(0, 2 * rate) - |c.buf|);
            Filled(c, rate, rest, false) == Turned(c.(buf := c.buf + rest[..n]), rest[n..], if n == |rest| then Sent else MustWait)
    decreases |rest|
  {
    var t := Turn(c, rate, rest, false);
    if t.progress == Again {
      FilledFillsUp(t.core, rate, t.rest);
      assert t.core.buf + t.rest[..0] == t.core.buf && t.rest[0..] == t.rest;
    } else {
      assert c.buf + rest[..0] == c.buf && rest[0..] == rest;
    }
  }

  /** The other outcomes of a push: nothing to do, cancelled, closed. */
  lemma {:induction false} FillOutcome(c: Core, rate: int, rest: seq<int>, cancelled: bool)
    ensures rest == [] ==> Filled(c, rate, rest, cancelled) == Turned(c, rest, Sent)
    ensures rest != [] && cancelled ==> Filled(c, rate, rest, cancelled) == Turned(c, rest, Cancelled)
    ensures rest != [] && !cancelled && c.done ==> Filled(c, rate, rest, cancelled) == Turned(c, rest, Closed)
    ensures !cancelled && !c.done && |c.buf| <= Max(0, 2 * rate) ==>
              var n := Min(|rest|, Max(0, 2 * rate) - |c.buf|);
              Filled(c, rate, rest, cancelled) == Turned(c.(buf := c.buf + rest[..n]), rest[n..], if n == |rest| then Sent else MustWait)
  {
    if !cancelled && !c.done && |c.buf| <= Max(0, 2 * rate) {
      FilledFillsUp(c, rate, rest);
    }
  }

  datatype Reading = BadChunk | Wait | ReadCancelled | Samples(out: seq<int>) | End(result: Option<Error>)

  /** One round of a read: what it returns (`Wait` parks it) and what it leaves. */
  function Read(c: Core, chunk: int, cancelled: bool): (Core, Reading)
  {
    if chunk <= 0 then (c, BadChunk)
    else if c.buf == [] && !c.done && !cancelled then (c, Wait)
    else if cancelled then (c, ReadCancelled)
    else if c.buf == [] then (c, End(c.err))
    else
      var n := Min(chunk, |c.buf|);
      (c.(buf := c.buf[n..]), Samples(c.buf[..n]))
  }

  function Finished(c: Core, err: Option<Error>): Core {
    if c.done then c else c.(done := true, err := err)
  }

  // ---------- producer and consumer around one condition variable ----------

  datatype Thread = Idle | Running | Parked

  /** `pushCallback` and `readCallback`: the context is cancelled and its wake-up
      goroutine has not yet taken the lock. `accepted` is every sample of a push that
      passed the size check, `got` every sample read, `ends` every end reported to the
      reader, `cut` whether an accepted push has returned an error. */
  datatype State = State(
    core: Core,
    producer: Thread, rest: seq<int>, pushCancelled: bool, pushCallback: bool,
    consumer: Thread, chunk: int, readCancelled: bool, readCallback: bool,
    accepted: seq<int>, got: seq<int>, ends: seq<Option<Error>>, cut: bool)

  /** All pushes share the synthesis context; each read brings its own. */
  datatype Event =
    | Push(samples: seq<int>)
    | Continue                          // a running push executes one round
    | CancelPush
    | PushCallback
    | StartRead(size: int, expired: bool)
    | Consume                           // a running read executes one round
    | CancelRead
    | ReadCallback
    | Finish(reason: Option<Error>)

  const INITIAL := State(Core([], false, None, 0), Idle, [], false, false, Idle, 0, false, false, [], [], [], false)

  predicate Enabled(s: State, e: Event)
  {
    match e
    case Push(_) => s.producer == Idle
    case Continue => s.producer == Running
    case CancelPush => !s.pushCancelled
    case PushCallback => s.pushCallback
    case StartRead(size, _) => s.consumer == Idle && size > 0
    case Consume => s.consumer == Running
    case CancelRead => s.consumer != Idle && !s.readCancelled
    case ReadCallback => s.readCallback
    case Finish(_) => true
  }

  /** Broadcast: whoever is parked contends for the lock again. */
  function Wake(s: State): State
  {
    s.(producer := if s.producer == Parked then Running else s.producer,
       consumer := if s.consumer == Parked then Running else s.consumer)
  }

  function PushStep(s: State, rate: int, samples: seq<int>): State
  {
    var t := s.(core := Began(s.core, rate, |samples|));
    if Overflows(s.core, rate, |samples|) then Wake(t)
    else t.(accepted := s.accepted + samples, rest := samples, producer := Running,
            pushCallback := s.pushCallback || s.pushCancelled)
  }

  function ContinueStep(s: State, rate: int): State
  {
    var t := Turn(s.core, rate, s.rest, s.pushCancelled);
    match t.progress
    case Again => Wake(s.(core := t.core, rest := t.rest))
    case MustWait => s.(producer := Parked)
    case Sent => s.(producer := Idle)
    case Cancelled | Closed => s.(producer := Idle, rest := [], cut := true)
  }

  function ConsumeStep(s: State): State
  {
    var (c, r) := Read(s.core, s.chunk, s.readCancelled);
    match r
    case Wait => s.(consumer := Parked)
    case BadChunk | ReadCancelled => s.(consumer := Idle)
    case Samples(out) => Wake(s.(core := c, consumer := Idle, got := s.got + out))
    case End(e) => s.(consumer := Idle, ends := s.ends + [e])
  }

  function Next(s: State, rate: int, e: Event): State
    requires Enabled(s, e)
  {
    match e
    case Push(samples) => PushStep(s, rate, samples)
    case Continue => ContinueStep(s, rate)
    case CancelPush => s.(pushCancelled := true, pushCallback := s.producer != Idle)
    case PushCallback => Wake(s.(pushCallback := false))
    case StartRead(size, expired) => s.(consumer := Running, chunk := size, readCancelled := expired, readCallback := expired)
    case Consume => ConsumeStep(s)
    case CancelRead => s.(readCancelled := true, readCallback := true)
    case ReadCallback => Wake(s.(readCallback := false))
    case Finish(reason) => Wake(s.(core := Finished(s.core, reason)))
  }

  ghost predicate IsRun(events: seq<Event>, states: seq<State>, rate: int)
  {
    && |states| == |events| + 1 && states[0] == INITIAL
    && forall i :: 0 <= i < |events| ==>
         Enabled(states[i], events[i]) && states[i + 1] == Next(states[i], rate, events[i])
  }

  // ---------- the invariant ----------

  ghost predicate Bounded(s: State, rate: int)
  {
    && |s.core.buf| <= Max(0, 2 * rate)
    && s.core.total == |s.accepted| <= Max(0, MAX_AUDIO_SECONDS * rate)
  }

  /** Every accepted sample is read, buffered or still with its push, in that order;
      a push that gave up leaves a prefix. */
  ghost predicate InOrder(s: State)
  {
    && (!s.cut ==> s.got + s.core.buf + s.rest == s.accepted)
    && (s.cut ==> (s.pushCancelled || s.core.done) && s.got + s.core.buf <= s.accepted)
  }

  /** Nobody sleeps through a condition that holds. */
  ghost predicate Attentive(s: State, rate: int)
  {
    && (s.producer == Parked ==>
          && s.rest != [] && |s.core.buf| >= 2 * rate > 0 && !s.core.done
          && (s.pushCancelled ==> s.pushCallback))
    && (s.consumer == Parked ==> s.core.buf == [] && !s.core.done && (s.readCancelled ==> s.readCallback))
  }

  ghost predicate Tidy(s: State)
  {
    && (s.producer == Idle ==> s.rest == [])
    && (s.consumer != Idle ==> s.chunk > 0)
    && (s.ends != [] ==> s.core.done && s.core.buf == [])
    && (s.rest != [] ==> s.accepted != [])
  }

  ghost predicate Inv(s: State, rate: int)
  {
    Bounded(s, rate) && InOrder(s) && Attentive(s, rate) && Tidy(s)
  }

  lemma {:induction false} PushKeeps(s: State, rate: int, samples: seq<int>)
    requires Inv(s, rate) && Enabled(s, Push(samples))
    ensures Inv(PushStep(s, rate, samples), rate)
  {
    var t := PushStep(s, rate, samples);
    assert !s.cut && !Overflows(s.core, rate, |samples|) ==> t.got + t.core.buf + t.rest == t.accepted by {
      assert s.got + s.core.buf + [] == s.got + s.core.buf;
    }
  }

  lemma {:induction false} TurnFacts(c: Core, rate: int, rest: seq<int>, cancelled: bool)
    ensures var t := Turn(c, rate, rest, cancelled);
            && t.core == c.(buf := t.core.buf)
            && (t.progress == Again ==>
                  && c.buf + rest == t.core.buf + t.rest && rest != [] && c.buf <= t.core.buf
                  && |t.core.buf| <= 2 * rate && !c.done && !cancelled)
            && (t.progress != Again ==> t.core == c && t.rest == rest)
            && (t.progress == MustWait ==> rest != [] && |c.buf| >= 2 * rate && !c.done && !cancelled)
            && (t.progress == Sent ==> rest == [])
            && (t.progress == Cancelled ==> cancelled) && (t.progress == Closed ==> c.done)
  {
    var t := Turn(c, rate, rest, cancelled);
    if t.progress == Again {
      assert rest == rest[..|rest| - |t.rest|] + t.rest;
    }
  }

  lemma {:induction false} ContinueOrders(s: State, rate: int)
    requires InOrder(s) && (s.ends != [] ==> s.core.done)
    ensures InOrder(ContinueStep(s, rate))
  {
    hide Turn;
    TurnFacts(s.core, rate, s.rest, s.pushCancelled);
    var t := Turn(s.core, rate, s.rest, s.pushCancelled);
    if t.progress == Again {
      assert s.got + s.core.buf + s.rest == s.got + (s.core.buf + s.rest);
      assert s.got + t.core.buf + t.rest == s.got + (t.core.buf + t.rest);
    }
  }

  lemma {:induction false} ContinueKeeps(s: State, rate: int)
    requires Inv(s, rate) && Enabled(s, Continue)
    ensures Inv(ContinueStep(s, rate), rate)
  {
    hide Turn, InOrder;
    TurnFacts(s.core, rate, s.rest, s.pushCancelled);
    var t := Turn(s.core, rate, s.rest, s.pushCancelled);
    ContinueOrders(s, rate);
  }

  lemma {:induction false} ReadFacts(c: Core, chunk: int, cancelled: bool)
    ensures var (d, r) := Read(c, chunk, cancelled);
            && d == c.(buf := d.buf)
            && (r.Samples? ==> c.buf != [] && c.buf == r.out + d.buf)
            && (!r.Samples? ==> d == c)
            && (r.End? ==> c.buf == [] && c.done && r.result == c.err)
            && (r.Wait? ==> c.buf == [] && !c.done && !cancelled)
  {
  }

  /** A read changes nothing but the buffer, which it only shortens, and parks on an empty
      open stream only. */
  lemma {:induction false} ConsumeFacts(s: State)
    ensures var t := ConsumeStep(s);
            && t.core == s.core.(buf := t.core.buf) && |t.core.buf| <= |s.core.buf|
            && (t.ends != s.ends ==> s.core.done && s.core.buf == [])
            && (s.core.buf == [] ==> t.core.buf == [])
            && (t.consumer == Parked ==> s.core.buf == [] && !s.core.done && !s.readCancelled && t.core == s.core)
            && (t.producer == s.producer || (s.producer == Parked && t.producer == Running))
  {
    hide Read;
    ReadFacts(s.core, s.chunk, s.readCancelled);
    var (c, r) := Read(s.core, s.chunk, s.readCancelled);
    assert !r.Samples? && !r.End? ==> ConsumeStep(s).ends == s.ends;
  }

  lemma {:induction false} ConsumeKeeps(s: State, rate: int)
    requires Inv(s, rate) && Enabled(s, Consume)
    ensures Inv(ConsumeStep(s), rate)
  {
    ConsumeFacts(s);
    ConsumeOrders(s);
    ConsumeRest(s);
    ConsumeOnly(s);
    hide InOrder, ConsumeStep;
  }

  /** The part of the state that belongs to others. */
  lemma {:induction false} ConsumeRest(s: State)
    ensures var t := ConsumeStep(s);
            && t.accepted == s.accepted && t.rest == s.rest && t.chunk == s.chunk
            && t.pushCancelled == s.pushCancelled && t.pushCallback == s.pushCallback
            && t.readCancelled == s.readCancelled && t.readCallback == s.readCallback && t.cut == s.cut
  {
    hide Read;
  }

  /** A producer stays parked only if the buffer stays as it was. */
  lemma {:induction false} ConsumeOnly(s: State)
    ensures ConsumeStep(s).producer == Parked ==> ConsumeStep(s).core == s.core
  {
    hide Read;
  }

  lemma {:induction false} ConsumeOrders(s: State)
    requires InOrder(s)
    ensures InOrder(ConsumeStep(s))
  {
    hide Read;
    ReadFacts(s.core, s.chunk, s.readCancelled);
    var (c, r) := Read(s.core, s.chunk, s.readCancelled);
    if r.Samples? {
      assert s.got + s.core.buf == (s.got + r.out) + c.buf;
    }
  }

  lemma {:induction false} StepKeeps(s: State, rate: int, e: Event)
    requires Inv(s, rate) && Enabled(s, e)
    ensures Inv(Next(s, rate, e), rate)
  {
    hide PushStep, ContinueStep, ConsumeStep;
    match e
    case Push(samples) => PushKeeps(s, rate, samples);
    case Continue => ContinueKeeps(s, rate);
    case Consume => ConsumeKeeps(s, rate);
    case _ =>
  }

  lemma {:induction false} RunKeeps(events: seq<Event>, states: seq<State>, rate: int, i: nat)
    requires IsRun(events, states, rate) && i < |states|
    ensures Inv(states[i], rate)
  {
    hide Next, Enabled, Inv;
    if i == 0 {
      InitialInv(rate);
    } else {
      RunKeeps(events, states, rate, i - 1);
      StepKeeps(states[i - 1], rate, events[i - 1]);
    }
  }

  lemma {:induction false} InitialInv(rate: int)
    ensures Inv(INITIAL, rate)
  {
  }

  // ---------- main results ----------

  /** In every interleaving: what was read is a prefix of what was accepted, the buffer
      holds at most two seconds, at most 120 seconds are accepted, producer and consumer
      never sleep together, and a sleeper whose context is cancelled is about to be woken. */
  lemma {:induction false} BoundedStream(events: seq<Event>, states: seq<State>, rate: int, i: nat)
    requires IsRun(events, states, rate) && i < |states| && rate > 0
    ensures var s := states[i];
            && s.got <= s.accepted
            && |s.core.buf| <= 2 * rate && |s.accepted| <= MAX_AUDIO_SECONDS * rate
            && !(s.producer == Parked && s.consumer == Parked)
            && (s.producer == Parked ==> |s.core.buf| == 2 * rate && !s.core.done && (s.pushCancelled ==> s.pushCallback))
            && (s.consumer == Parked ==> s.core.buf == [] && !s.core.done && (s.readCancelled ==> s.readCallback))
  {
    RunKeeps(events, states, rate, i);
  }

  /** The reader learns of the end only after draining the buffer, and if no push gave up
      it has then read every accepted sample. */
  lemma {:induction false} EndMeansDrained(events: seq<Event>, states: seq<State>, rate: int, i: nat)
    requires IsRun(events, states, rate) && i < |states| && states[i].ends != []
    ensures states[i].core.done && states[i].core.buf == []
    ensures !states[i].cut && states[i].producer == Idle ==> states[i].got == states[i].accepted
  {
    RunKeeps(events, states, rate, i);
    var s := states[i];
    assert s.got + [] + [] == s.got;
  }

  /** Once done, nothing more enters the buffer: the end is reported after exactly the
      samples present then, however the run goes on. */
  lemma {:induction false} NothingAfterDone(events: seq<Event>, states: seq<State>, rate: int, i: nat, j: nat)
    requires IsRun(events, states, rate) && i <= j < |states| && states[i].core.done
    ensures states[j].core.done && states[j].got + states[j].core.buf == states[i].got + states[i].core.buf
    decreases j
  {
    if i < j {
      NothingAfterDone(events, states, rate, i, j - 1);
      DoneStep(states[j - 1], rate, events[j - 1]);
    }
  }

  lemma {:induction false} DoneStep(s: State, rate: int, e: Event)
    requires Enabled(s, e) && s.core.done
    ensures var t := Next(s, rate, e); t.core.done && t.got + t.core.buf == s.got + s.core.buf
  {
    hide Turn, Read;
    if e.Continue? {
      DoneTurn(s.core, rate, s.rest, s.pushCancelled);
    } else if e.Consume? {
      DoneRead(s.core, s.chunk, s.readCancelled, s.got);
    }
  }

  lemma {:induction false} DoneTurn(c: Core, rate: int, rest: seq<int>, cancelled: bool)
    requires c.done
    ensures Turn(c, rate, rest, cancelled).core == c && !Turn(c, rate, rest, cancelled).progress.MustWait?
    ensures !Turn(c, rate, rest, cancelled).progress.Again?
  {
  }

  lemma {:induction false} DoneRead(c: Core, chunk: int, cancelled: bool, got: seq<int>)
    requires c.done
    ensures var (d, r) := Read(c, chunk, cancelled);
            && d.done && d.err == c.err && !r.Wait?
            && got + c.buf == (if r.Samples? then got + r.out else got) + d.buf
  {
    var (d, r) := Read(c, chunk, cancelled);
    if r.Samples? {
      assert c.buf == r.out + d.buf;
    }
  }

  /** The recorded error of a finished stream survives a step unless the step is a push
      that fails the size check: `push` overwrites it there without looking at `done`. */
  lemma {:induction false} ErrorKeptIff(s: State, rate: int, e: Event)
    requires Enabled(s, e) && s.core.done
    ensures Next(s, rate, e).core.err == s.core.err
       <==> s.core.err == Some(TooLong) || !(e.Push? && Overflows(s.core, rate, |e.samples|))
  {
    hide Overflows;
    if e.Consume? {
      var (c, r) := Read(s.core, s.chunk, s.readCancelled);
      assert c.err == s.core.err;
    }
  }

  lemma {:induction false} ErrorKept(events: seq<Event>, states: seq<State>, rate: int, i: nat, j: nat)
    requires IsRun(events, states, rate) && i <= j < |states| && states[i].core.done
    requires forall k :: i <= k < j && events[k].Push? ==> !Overflows(states[k].core, rate, |events[k].samples|)
    ensures states[j].core.err == states[i].core.err
    decreases j
  {
    if i < j {
      ErrorKept(events, states, rate, i, j - 1);
      NothingAfterDone(events, states, rate, i, j - 1);
      ErrorKeptIff(states[j - 1], rate, events[j - 1]);
    }
  }

  /** No push after a finish, as prepareStream calls them: it finishes once generation, and
      with it every push, has returned. */
  ghost predicate FinishesLast(events: seq<Event>)
  {
    forall i, j :: 0 <= i < j < |events| && events[i].Finish? ==> !events[j].Push?
  }

  lemma {:induction false} DoneBecause(events: seq<Event>, states: seq<State>, rate: int, i: nat)
    requires IsRun(events, states, rate) && i < |states| && states[i].core.done
    ensures states[i].core.err == Some(TooLong) || exists k :: 0 <= k < i && events[k].Finish?
  {
    hide Next, Enabled;
    assert i > 0;
    if states[i - 1].core.done {
      DoneBecause(events, states, rate, i - 1);
      ErrorKeptIff(states[i - 1], rate, events[i - 1]);
      if events[i - 1].Push? && Overflows(states[i - 1].core, rate, |events[i - 1].samples|) {
        OversizedPush(states[i - 1], rate, events[i - 1]);
      }
    } else {
      BecomesDone(states[i - 1], rate, events[i - 1]);
    }
  }

  lemma {:induction false} OversizedPush(s: State, rate: int, e: Event)
    requires Enabled(s, e) && e.Push? && Overflows(s.core, rate, |e.samples|)
    ensures Next(s, rate, e).core.err == Some(TooLong)
  {
  }

  lemma {:induction false} BecomesDone(s: State, rate: int, e: Event)
    requires Enabled(s, e) && !s.core.done && Next(s, rate, e).core.done
    ensures e.Finish? || Next(s, rate, e).core.err == Some(TooLong)
  {
    hide Read, Turn;
    if e.Consume? {
      ReadFacts(s.core, s.chunk, s.readCancelled);
    } else if e.Continue? {
      TurnFacts(s.core, rate, s.rest, s.pushCancelled);
    }
  }

  /** Callers that push nothing after finishing never see a terminal result change: once
      the stream is done its error, or its clean end, stays for the rest of the run. */
  lemma {:induction false} EndIsFinal(events: seq<Event>, states: seq<State>, rate: int, i: nat, j: nat)
    requires IsRun(events, states, rate) && FinishesLast(events)
    requires i <= j < |states| && states[i].core.done
    ensures states[j].core.done && states[j].core.err == states[i].core.err
    decreases j
  {
    hide Next, Enabled;
    if i < j {
      EndIsFinal(events, states, rate, i, j - 1);
      NothingAfterDone(events, states, rate, i, j);
      DoneBecause(events, states, rate, j - 1);
      ErrorKeptIff(states[j - 1], rate, events[j - 1]);
    }
  }

  /** Hence all ends reported to the reader in such a run are the same. */
  lemma {:induction false} EndsAgree(events: seq<Event>, states: seq<State>, rate: int, i: nat, k: nat)
    requires IsRun(events, states, rate) && FinishesLast(events) && i < |states| && k < |states[i].ends|
    ensures states[i].core.done && states[i].ends[k] == states[i].core.err
    decreases i
  {
    hide Next, Enabled;
    assert i > 0;
    EndsGrow(states[i - 1], rate, events[i - 1]);
    if k < |states[i - 1].ends| {
      EndsAgree(events, states, rate, i - 1, k);
      EndIsFinal(events, states, rate, i - 1, i);
    }
  }

  lemma {:induction false} EndsGrow(s: State, rate: int, e: Event)
    requires Enabled(s, e)
    ensures var t := Next(s, rate, e);
            t.ends == s.ends || (t.ends == s.ends + [t.core.err] && t.core.done)
  {
    hide Read, Turn, Began, Finished;
    if e.Consume? {
      ConsumeEnds(s);
      hide ConsumeStep;
    }
  }

  lemma {:induction false} ConsumeEnds(s: State)
    ensures var t := ConsumeStep(s);
            t.ends == s.ends || (t.ends == s.ends + [t.core.err] && t.core.done)
  {
    hide Read;
    ReadFacts(s.core, s.chunk, s.readCancelled);
    var (c, r) := Read(s.core, s.chunk, s.readCancelled);
    assert r.End? ==> ConsumeStep(s).ends == s.ends + [s.core.err] && ConsumeStep(s).core == s.core;
    assert !r.End? ==> ConsumeStep(s).ends == s.ends;
  }

  /** "A terminal result is never overwritten" is false: after a clean end has been
      reported, any push longer than two minutes turns it into an error. */
  lemma {:induction false} EndOverwritten(rate: int, samples: seq<int>) returns (events: seq<Event>, states: seq<State>)
    requires |samples| > rate * MAX_AUDIO_SECONDS
    ensures IsRun(events, states, rate)
    ensures states[|events|].ends == [None, Some(TooLong)]
    ensures events == [Finish(None), StartRead(1, false), Consume, Push(samples), StartRead(1, false), Consume]
  {
    events := [Finish(None), StartRead(1, false), Consume, Push(samples), StartRead(1, false), Consume];
    var s1 := Next(INITIAL, rate, Finish(None));
    var s2 := Next(s1, rate, StartRead(1, false));
    var s3 := Next(s2, rate, Consume);
    assert s3.ends == [None];
    var s4 := Next(s3, rate, Push(samples));
    assert s4.core.err == Some(TooLong);
    var s5 := Next(s4, rate, StartRead(1, false));
    var s6 := Next(s5, rate, Consume);
    assert s6.ends == [None, Some(TooLong)];
    states := [INITIAL, s1, s2, s3, s4, s5, s6];
  }

  // ---------- the stream object ----------

  /** The critical sections of the three methods; `cancelled` is the state of the
      caller's context when the section runs. */
  class StreamingAudioStream {
    const rate: int
    var buf: seq<int>
    var done: bool
    var err: Option<Error>
    var total: nat

    ghost function View(): Core
      reads this
    {
      Core(buf, done, err, total)
    }

    constructor (rate: int)
      ensures View() == INITIAL.core && this.rate == rate
    {
      this.rate, buf, done, err, total := rate, [], false, None, 0;
    }

    method BeginPush(samples: seq<int>) returns (tooLong: bool)
      modifies this
      ensures View() == Began(old(View()), rate, |samples|) && tooLong == Overflows(old(View()), rate, |samples|)
      ensures tooLong <==> old(total) + |samples| > rate * 120
      ensures tooLong ==> done && err == Some(TooLong) && total == old(total)
      ensures !tooLong ==> total == old(total) + |samples| && done == old(done) && err == old(err)
      ensures buf == old(buf)
    {
      if total + |samples| > rate * MAX_AUDIO_SECONDS {
        done, err := true, Some(TooLong);
        return true;
      }
      total := total + |samples|;
      return false;
    }

    method Fill(samples: seq<int>, cancelled: bool) returns (rest: seq<int>, r: Progress)
      modifies this`buf
      ensures Turned(View(), rest, r) == Filled(old(View()), rate, samples, cancelled)
      ensures r != Again
      ensures samples == [] ==> r == Sent && buf == old(buf)
      ensures samples != [] && cancelled ==> r == Cancelled && rest == samples && buf == old(buf)
      ensures samples != [] && !cancelled && done ==> r == Closed && rest == samples && buf == old(buf)
      ensures !cancelled && !done && |old(buf)| <= Max(0, 2 * rate) ==>
                var n := Min(|samples|, Max(0, 2 * rate) - |old(buf)|);
                buf == old(buf) + samples[..n] && rest == samples[n..] && (r == Sent <==> n == |samples|)
    {
      hide Filled;
      FillOutcome(View(), rate, samples, cancelled);
      FilledReturns(View(), rate, samples, cancelled);
      rest := samples;
      while |rest| > 0
        invariant done == old(done)
        invariant Filled(View(), rate, rest, cancelled) == Filled(old(View()), rate, samples, cancelled)
      {
        FilledStep(View(), rate, rest, cancelled);
        if |buf| >= 2 * rate && !cancelled && !done {
          return rest, MustWait;
        }
        if cancelled {
          return rest, Cancelled;
        }
        if done {
          return rest, Closed;
        }
        var n := Min(|rest|, 2 * rate - |buf|);
        buf := buf + rest[..n];
        rest := rest[n..];
      }
      FilledStep(View(), rate, rest, cancelled);
      r := Sent;
    }

    method Finish(reason: Option<Error>)
      modifies this`done, this`err
      ensures View() == Finished(old(View()), reason)
      ensures done && err == (if old(done) then old(err) else reason)
    {
      if !done {
        done, err := true, reason;
      }
    }

    method ReadPCM16(chunk: int, cancelled: bool) returns (r: Reading)
      modifies this`buf
      ensures (View(), r) == Read(old(View()), chunk, cancelled)
      ensures r == BadChunk <==> chunk <= 0
      ensures r == ReadCancelled <==> chunk > 0 && cancelled
      ensures r == Wait <==> chunk > 0 && !cancelled && old(buf) == [] && !done
      ensures r.End? <==> chunk > 0 && !cancelled && old(buf) == [] && done
      ensures r.End? ==> r.result == err
      ensures chunk > 0 && !cancelled && old(buf) != [] ==>
                r.Samples? && |r.out| == Min(chunk, |old(buf)|) && r.out + buf == old(buf)
      ensures !r.Samples? ==> buf == old(buf)
    {
      if chunk <= 0 {
        return BadChunk;
      }
      if |buf| == 0 && !done && !cancelled {
        return Wait;
      }
      if cancelled {
        return ReadCancelled;
      }
      if |buf| == 0 {
        return End(err);
      }
      var n := Min(chunk, |buf|);
      r := Samples(buf[..n]);
      buf := buf[n..];
    }
  }
}
