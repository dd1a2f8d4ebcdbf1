/** State transitions of internal/node/node.go: setters publish a state under stateMutex and
    queue the transition while still holding it; one dispatcher delivers the queue. Both
    wait on the same condition variable, and a setter signals instead of broadcasting. */
module NodeDispatch {
  import opened Basics
  const LIMIT := 64
  const IDLE := 0

  datatype Link = Link(before: int, after: int)

  /** The fields behind queueMutex. */
  datatype Box = Box(queue: seq<Link>, closed: bool)

  predicate MustWait(b: Box) { |b.queue| >= LIMIT && !b.closed }

  function Queued(b: Box, link: Link): Box { if b.closed then b else b.(queue := b.queue + [link]) }

  function Taken(b: Box): Box
    requires b.queue != []
  {
    b.(queue := b.queue[1..])
  }

  function ShutDown(b: Box): Box { b.(closed := true) }

  /** The transition a SetState owes, if any. */
  function Change(published: int, state: int): Option<Link> {
    if published == state then None else Some(Link(published, state))
  }

  datatype Dispatcher = Looking | Delivering(link: Link) | Exited

  /** `holder` owns stateMutex and has a transition to queue; the parked ones wait on the
      condition variable. `queued` and `delivered` are history. */
  datatype State = State(
    published: int, holder: Option<nat>, link: Link,
    box: Box, dispatcher: Dispatcher,
    parkedSetters: set<nat>, dispatcherParked: bool,
    queued: seq<Link>, delivered: seq<Link>)

  /** Whom a Signal picks. */
  datatype Waiter = Setter(id: nat) | TheDispatcher

  datatype Event =
    | Publish(thread: nat, state: int)    // SetState up to and including n.state = newState
    | Enqueue(woken: Option<Waiter>)      // one pass of its waiting loop, then Signal
    | Look                                // one pass of the dispatcher's waiting loop
    | Deliver                             // the callbacks return
    | Close

  const INITIAL := State(IDLE, None, Link(IDLE, IDLE), Box([], false), Looking, {}, false, [], [])

  predicate Waits(s: State, w: Waiter) {
    match w
    case Setter(id) => id in s.parkedSetters
    case TheDispatcher => s.dispatcherParked
  }

  ghost predicate Enabled(s: State, e: Event)
  {
    match e
    case Publish(_, _) => s.holder == None
    case Enqueue(woken) =>
      && s.holder.Some? && s.holder.value !in s.parkedSetters
      && (MustWait(s.box) || (if woken.Some? then Waits(s, woken.value) else forall w :: !Waits(s, w)))
    case Look => s.dispatcher == Looking && !s.dispatcherParked
    case Deliver => s.dispatcher.Delivering?
    case Close => true
  }

  function Broadcast(s: State): State { s.(parkedSetters := {}, dispatcherParked := false) }

  function Signalled(s: State, woken: Option<Waiter>): State
  {
    match woken
    case None => s
    case Some(Setter(id)) => s.(parkedSetters := s.parkedSetters - {id})
    case Some(TheDispatcher) => s.(dispatcherParked := false)
  }

  function PublishStep(s: State, thread: nat, state: int): State
  {
    match Change(s.published, state)
    case None => s
    case Some(link) => s.(published := state, holder := Some(thread), link := link)
  }

  function EnqueueStep(s: State, woken: Option<Waiter>): State
    requires s.holder.Some?
  {
    if MustWait(s.box) then s.(parkedSetters := s.parkedSetters + {s.holder.value})
    else
      var t := s.(box := Queued(s.box, s.link), queued := if s.box.closed then s.queued else s.queued + [s.link]);
      Signalled(t.(holder := None), woken)
  }

  function LookStep(s: State): State
  {
    if s.box.queue == [] then
      if s.box.closed then s.(dispatcher := Exited) else s.(dispatcherParked := true)
    else Broadcast(s.(box := Taken(s.box), dispatcher := Delivering(s.box.queue[0])))
  }

  function Next(s: State, e: Event): State
    requires Enabled(s, e)
  {
    match e
    case Publish(thread, state) => PublishStep(s, thread, state)
    case Enqueue(woken) => EnqueueStep(s, woken)
    case Look => LookStep(s)
    case Deliver => s.(dispatcher := Looking, delivered := s.delivered + [s.dispatcher.link])
    case Close => Broadcast(s.(box := ShutDown(s.box)))
  }

  ghost predicate IsRun(events: seq<Event>, states: seq<State>)
  {
    && |states| == |events| + 1 && states[0] == INITIAL
    && forall i :: 0 <= i < |events| ==> Enabled(states[i], events[i]) && states[i + 1] == Next(states[i], events[i])
  }

  // ---------- the invariant ----------

  /** Each transition starts where the one before it ended, and none stays in place. */
  predicate Chain(links: seq<Link>, to: int)
  {
    && (forall i :: 0 <= i < |links| ==> links[i].before != links[i].after)
    && (forall i :: 0 <= i < |links| ==> links[i].before == End(links[..i]))
    && to == End(links)
  }

  function End(links: seq<Link>): int { if links == [] then IDLE else links[|links| - 1].after }

  function InHand(d: Dispatcher): seq<Link> { if d.Delivering? then [d.link] else [] }

  function Owed(s: State): seq<Link> { if s.holder.Some? then [s.link] else [] }

  predicate Ordered(s: State)
  {
    && s.delivered + InHand(s.dispatcher) + s.box.queue == s.queued
    && (!s.box.closed ==> Chain(s.queued + Owed(s), s.published))
    && Chain(s.queued, End(s.queued))
    && |s.box.queue| <= LIMIT
  }

  predicate Awake(s: State)
  {
    && (forall id :: id in s.parkedSetters ==> s.holder == Some(id))
    && (s.parkedSetters != {} ==> |s.box.queue| == LIMIT && !s.box.closed)
    && (s.dispatcherParked ==> s.dispatcher == Looking && s.box.queue == [] && !s.box.closed)
    && (s.dispatcher == Exited ==> s.box.closed && s.box.queue == [])
  }

  predicate Inv(s: State) { Ordered(s) && Awake(s) }

  lemma {:induction false} ChainSnoc(links: seq<Link>, at: int, to: int)
    requires Chain(links, at) && at != to
    ensures Chain(links + [Link(at, to)], to)
  {
    var longer := links + [Link(at, to)];
    forall i | 0 <= i < |longer| ensures longer[i].before == End(longer[..i]) {
      assert i < |links| ==> longer[..i] == links[..i];
      assert i == |links| ==> longer[..i] == links;
    }
  }

  lemma {:induction false} ChainEnd(links: seq<Link>, to: int)
    requires Chain(links, to)
    ensures to == End(links)
  {
  }

  lemma {:induction false} ChainPrefix(part: seq<Link>, whole: seq<Link>)
    requires part <= whole && Chain(whole, End(whole))
    ensures Chain(part, End(part))
  {
    forall i | 0 <= i < |part| ensures part[i].before == End(part[..i]) {
      assert part[..i] == whole[..i] && part[i] == whole[i];
    }
  }

  lemma {:induction false} PublishKeeps(s: State, thread: nat, state: int)
    requires Inv(s) && Enabled(s, Publish(thread, state))
    ensures Inv(PublishStep(s, thread, state))
  {
    hide Chain;
    assert s.queued + [] == s.queued;
    if !s.box.closed && s.published != state {
      ChainSnoc(s.queued, s.published, state);
    }
  }

  /** The Signal finds at most the dispatcher, and finds it whenever it sleeps. */
  lemma {:induction false} OnlyDispatcherWaits(s: State, woken: Option<Waiter>)
    requires Awake(s) && Enabled(s, Enqueue(woken)) && !MustWait(s.box)
    ensures s.parkedSetters == {} && (woken.None? || woken == Some(TheDispatcher))
    ensures s.dispatcherParked <==> woken.Some?
  {
    assert forall id :: id in s.parkedSetters ==> s.holder == Some(id);
    assert Waits(s, TheDispatcher) <==> s.dispatcherParked;
  }

  lemma {:induction false} EnqueueOrders(s: State, woken: Option<Waiter>)
    requires Ordered(s) && Enabled(s, Enqueue(woken)) && !MustWait(s.box)
    ensures Ordered(EnqueueStep(s, woken))
  {
    hide Chain, Waits;
    assert s.queued + [s.link] + [] == s.queued + [s.link];
    assert s.delivered + InHand(s.dispatcher) + (s.box.queue + [s.link]) == s.delivered + InHand(s.dispatcher) + s.box.queue + [s.link];
    if !s.box.closed {
      ChainEnd(s.queued + [s.link], s.published);
    }
  }

  lemma {:induction false} EnqueueKeeps(s: State, woken: Option<Waiter>)
    requires Inv(s) && Enabled(s, Enqueue(woken))
    ensures Inv(EnqueueStep(s, woken))
    ensures !MustWait(s.box) ==> woken.None? || woken == Some(TheDispatcher)
  {
    hide Chain, Waits;
    if !MustWait(s.box) {
      OnlyDispatcherWaits(s, woken);
      EnqueueOrders(s, woken);
      hide Ordered;
    }
  }

  lemma {:induction false} LookKeeps(s: State)
    requires Inv(s) && Enabled(s, Look)
    ensures Inv(LookStep(s))
  {
    hide Chain;
    assert s.box.queue != [] ==> s.delivered + [] + s.box.queue == s.delivered + [s.box.queue[0]] + s.box.queue[1..];
  }

  lemma {:induction false} StepKeeps(s: State, e: Event)
    requires Inv(s) && Enabled(s, e)
    ensures Inv(Next(s, e))
  {
    hide Chain, PublishStep, EnqueueStep, LookStep;
    match e
    case Publish(thread, state) => PublishKeeps(s, thread, state);
    case Enqueue(woken) => EnqueueKeeps(s, woken);
    case Look => LookKeeps(s);
    case Deliver => assert s.delivered + [s.dispatcher.link] + [] + s.box.queue == s.delivered + [s.dispatcher.link] + s.box.queue;
    case Close =>
  }

  lemma {:induction false} RunKeeps(events: seq<Event>, states: seq<State>, i: nat)
    requires IsRun(events, states) && i < |states|
    ensures Inv(states[i])
  {
    hide Next, Enabled, Inv;
    if i == 0 {
      InitialInv();
    } else {
      RunKeeps(events, states, i - 1);
      StepKeeps(states[i - 1], events[i - 1]);
    }
  }

  lemma {:induction false} InitialInv()
    ensures Inv(INITIAL)
  {
    assert Chain([], IDLE);
  }

  // ---------- main results ----------

  /** Before close, what was delivered, what is being delivered, what is queued and what the
      current setter still owes form one chain from IDLE to the published state, without
      self-loops; and the queue never exceeds 64. */
  lemma {:induction false} OneChain(events: seq<Event>, states: seq<State>, i: nat)
    requires IsRun(events, states) && i < |states|
    ensures var s := states[i];
            && |s.box.queue| <= LIMIT
            && (!s.box.closed ==> Chain(s.delivered + InHand(s.dispatcher) + s.box.queue + Owed(s), s.published))
  {
    hide Chain;
    RunKeeps(events, states, i);
  }

  /** Listeners only ever see a chain from IDLE, also after close. */
  lemma {:induction false} DeliveredInOrder(events: seq<Event>, states: seq<State>, i: nat)
    requires IsRun(events, states) && i < |states|
    ensures Chain(states[i].delivered, End(states[i].delivered))
  {
    RunKeeps(events, states, i);
    var s := states[i];
    ChainPrefix(s.delivered, s.queued);
  }

  /** The Signal of SetState finds nobody but the dispatcher to wake, so nothing is lost:
      the dispatcher sleeps only on an empty open queue, and a setter, the one that owns
      stateMutex, only on a full one. */
  lemma {:induction false} SignalSuffices(events: seq<Event>, states: seq<State>, i: nat)
    requires IsRun(events, states) && i < |states|
    ensures var s := states[i];
            && (s.dispatcherParked ==> s.box.queue == [] && !s.box.closed)
            && (s.parkedSetters != {} ==> |s.box.queue| == LIMIT && !s.box.closed && s.dispatcher != Exited)
            && !(s.dispatcherParked && s.parkedSetters != {})
            && (forall id :: id in s.parkedSetters ==> s.holder == Some(id))
    ensures i < |events| && events[i].Enqueue? && !MustWait(states[i].box) ==>
              events[i].woken.None? || events[i].woken == Some(TheDispatcher)
  {
    hide Chain;
    RunKeeps(events, states, i);
    if i < |events| && events[i].Enqueue? {
      EnqueueKeeps(states[i], events[i].woken);
    }
  }

  /** Close returns when the dispatcher has exited, and by then every transition ever
      queued has been delivered. */
  lemma {:induction false} CloseDrains(events: seq<Event>, states: seq<State>, i: nat)
    requires IsRun(events, states) && i < |states| && states[i].dispatcher == Exited
    ensures states[i].box.closed && states[i].delivered == states[i].queued
  {
    hide Chain;
    RunKeeps(events, states, i);
    var s := states[i];
    assert s.delivered + [] + [] == s.delivered;
  }

  // ---------- the node object ----------

  /** The critical sections of SetState, dispatchLoop and Close. */
  class PhysicalNode {
    var state: int
    var queue: seq<Link>
    var closed: bool

    ghost function View(): Box
      reads this
    {
      Box(queue, closed)
    }

    constructor ()
      ensures state == INITIAL.published && View() == INITIAL.box
    {
      state, queue, closed := IDLE, [], false;
    }

    /** Under stateMutex; None means there is nothing to queue. */
    method Publish(newState: int) returns (link: Option<Link>)
      modifies this`state
      ensures state == newState && link == Change(old(state), newState)
      ensures link == None <==> newState == old(state)
      ensures link.Some? ==> link.value.before == old(state) && link.value.after == state && link.value.before != link.value.after
    {
      var oldState := state;
      if oldState == newState {
        return None;
      }
      state := newState;
      return Some(Link(oldState, newState));
    }

    /** Under both mutexes; false means wait. */
    method Enqueue(link: Link) returns (done: bool)
      modifies this`queue
      ensures done == !MustWait(old(View()))
      ensures done <==> closed || |old(queue)| < 64
      ensures View() == if done then Queued(old(View()), link) else old(View())
      ensures !done ==> queue == old(queue) && |queue| >= LIMIT && !closed
      ensures done ==> queue == if closed then old(queue) else old(queue) + [link]
      ensures |old(queue)| <= LIMIT ==> |queue| <= LIMIT
    {
      if |queue| >= LIMIT && !closed {
        return false;
      }
      if !closed {
        queue := queue + [link];
      }
      return true;
    }

    /** The dispatcher's section: the next transition, or whether to wait or to exit. */
    method Look() returns (next: Option<Link>, exit: bool)
      modifies this`queue
      ensures old(queue) == [] ==> next == None && exit == closed && View() == old(View())
      ensures old(queue) != [] ==> next == Some(old(queue)[0]) && !exit && View() == Taken(old(View()))
      ensures next.Some? ==> [next.value] + queue == old(queue)
      ensures exit ==> closed && queue == []
    {
      if |queue| == 0 {
        return None, closed;
      }
      next, exit := Some(queue[0]), false;
      queue := queue[1..];
    }

    method Close()
      modifies this`closed
      ensures View() == ShutDown(old(View())) && closed && queue == old(queue)
    {
      closed := true;
    }
  }
}
