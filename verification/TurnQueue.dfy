/** The per-node turn queue of internal/brain/queue.go: `nodeQueue`.

    `Monitor` is the state the mutex protects, with the condition variable's wait set,
    and one function per critical section. `State` adds what lives outside the lock
    (contexts, AfterFunc callbacks, release closures); its events interleave freely.
    The class `NodeQueue` performs the critical sections over the indexed heap. */
module TurnQueue {
  import opened Basics
  import opened WaiterHeap

  const MAX_WAITERS := 32

  datatype Error = Cancelled | Closed | Full

  datatype Monitor = Monitor(queue: set<Ticket>, parked: set<Ticket>, next: nat, busy: bool, closed: bool)

  ghost predicate IsBest(t: Ticket, queue: set<Ticket>)
  {
    t in queue && forall u :: u in queue ==> u == t || Before(t, u)
  }

  // ---------- critical sections ----------

  /** How one pass of acquire's loop ends. */
  datatype Attempt = Failed(error: Error) | Granted | Parked

  /** The head of acquire: refuse, or join the queue under the next arrival number. */
  datatype Admission = Refused(error: Error) | Queued(ticket: Ticket)

  function Admit(m: Monitor, priority: int): Admission
  {
    if m.closed then Refused(Closed)
    else if |m.queue| >= MAX_WAITERS then Refused(Full)
    else Queued(Ticket(priority, m.next))
  }

  function Entered(m: Monitor, priority: int): Monitor
  {
    if Admit(m, priority).Refused? then m
    else m.(queue := m.queue + {Ticket(priority, m.next)}, next := m.next + 1)
  }

  ghost function Outcome(m: Monitor, t: Ticket, cancelled: bool): Attempt
  {
    if cancelled then Failed(Cancelled)
    else if m.closed then Failed(Closed)
    else if !m.busy && IsBest(t, m.queue) then Granted
    else Parked
  }

  ghost function Tried(m: Monitor, t: Ticket, cancelled: bool): Monitor
  {
    match Outcome(m, t, cancelled)
    case Failed(_) => m.(queue := m.queue - {t}, parked := if t in m.queue then {} else m.parked)
    case Granted => m.(queue := m.queue - {t}, busy := true)
    case Parked => m.(parked := m.parked + {t})
  }

  function Released(m: Monitor): Monitor
  {
    m.(busy := false, parked := {})
  }

  function Awakened(m: Monitor): Monitor
  {
    m.(parked := {})
  }

  function ShutDown(m: Monitor): Monitor
  {
    m.(closed := true, parked := {})
  }

  // ---------- the protocol ----------

  /** `cancelled`: tickets whose context is done. `callbacks`: AfterFunc callbacks that
      have started but not yet broadcast. `granted`: tickets that ever got the node;
      `held`: those whose release has not run yet. */
  datatype State = State(
    m: Monitor, cancelled: set<Ticket>, callbacks: set<Ticket>, granted: set<Ticket>, held: set<Ticket>)

  const Init := State(Monitor({}, {}, 0, false, false), {}, {}, {}, {})

  datatype Event =
    | Acquire(priority: int, dead: bool)  // `dead`: the context was already cancelled
    | Run(runner: Ticket)                 // a waiter that is not parked makes one pass
    | Cancel(loser: Ticket)
    | Fire(caller: Ticket)                // a cancellation callback broadcasts
    | Retire(leaver: Ticket)              // `stop` prevents the callback of a caller that returned
    | Release(owner: Ticket)              // any call of a release closure, first or repeated
    | Close

  ghost predicate Enabled(s: State, e: Event)
  {
    match e
    case Acquire(_, _) => true
    case Run(t) => t in s.m.queue && t !in s.m.parked
    case Cancel(t) => t.arrival < s.m.next
    case Fire(t) => t in s.callbacks
    case Retire(t) => t in s.callbacks && t !in s.m.queue
    case Release(t) => t in s.granted
    case Close => true
  }

  ghost function Next(s: State, e: Event): State
  {
    match e
    case Acquire(p, dead) =>
      if Admit(s.m, p).Refused? then s
      else
        var t := Ticket(p, s.m.next);
        s.(m := Entered(s.m, p),
           cancelled := if dead then s.cancelled + {t} else s.cancelled,
           callbacks := if dead then s.callbacks + {t} else s.callbacks)
    case Run(t) =>
      var got := Outcome(s.m, t, t in s.cancelled).Granted?;
      s.(m := Tried(s.m, t, t in s.cancelled),
         granted := if got then s.granted + {t} else s.granted,
         held := if got then s.held + {t} else s.held)
    case Cancel(t) =>
      s.(cancelled := s.cancelled + {t}, callbacks := if t in s.m.queue then s.callbacks + {t} else s.callbacks)
    case Fire(t) => s.(m := Awakened(s.m), callbacks := s.callbacks - {t})
    case Retire(t) => s.(callbacks := s.callbacks - {t})
    case Release(t) => if t in s.held then s.(m := Released(s.m), held := s.held - {t}) else s
    case Close => s.(m := ShutDown(s.m))
  }

  /** What every interleaving keeps. */
  ghost predicate Inv(s: State)
  {
    // tickets: arrivals are distinct and below the counter; nobody is in two places
    && (forall t :: t in s.m.queue || t in s.granted ==> t.arrival < s.m.next)
    && (forall t, u :: t in s.m.queue && u in s.m.queue && t.arrival == u.arrival ==> t == u)
    && s.m.parked <= s.m.queue && s.held <= s.granted && |s.m.queue| <= MAX_WAITERS
    // mutual exclusion
    && (s.m.busy <==> exists t :: t in s.held)
    && (forall t, u :: t in s.held && u in s.held ==> t == u)
    // wakeups: a parked waiter has a reason to sleep, and a cancelled one will be woken
    && (s.m.closed ==> s.m.parked == {})
    && (forall t :: t in s.m.parked && !s.m.busy ==> !IsBest(t, s.m.queue))
    && (forall t :: t in s.m.parked && t in s.cancelled ==> t in s.callbacks)
  }

  lemma {:induction false} InitInv()
    ensures Inv(Init)
  {
  }

  lemma {:induction false} StepInv(s: State, e: Event)
    requires Inv(s) && Enabled(s, e)
    ensures Inv(Next(s, e))
  {
    match e
    case Acquire(p, dead) => AcquireInv(s, p, dead);
    case Run(t) => RunInv(s, t);
    case Cancel(t) =>
    case Fire(t) =>
    case Retire(t) =>
    case Release(t) =>
    case Close =>
  }

  lemma {:induction false} AcquireInv(s: State, p: int, dead: bool)
    requires Inv(s)
    ensures Inv(Next(s, Acquire(p, dead)))
  {
    var t := Ticket(p, s.m.next);
    if Admit(s.m, p).Queued? {
      assert t !in s.m.queue;
      forall u | u in s.m.parked && !s.m.busy ensures !IsBest(u, s.m.queue + {t}) {
        var v :| v in s.m.queue && v != u && !Before(u, v);
      }
    }
  }

  lemma {:induction false} RunInv(s: State, t: Ticket)
    requires Inv(s) && t in s.m.queue && t !in s.m.parked
    ensures Inv(Next(s, Run(t)))
  {
  }

  // ---------- runs ----------

  /** A run: events in any order, each enabled where it happens. */
  ghost predicate IsRun(events: seq<Event>, states: seq<State>)
  {
    && |states| == |events| + 1
    && forall i :: 0 <= i < |events| ==> Enabled(states[i], events[i]) && states[i + 1] == Next(states[i], events[i])
  }

  lemma {:induction false} RunInvariant(events: seq<Event>, states: seq<State>, i: nat)
    requires IsRun(events, states) && Inv(states[0]) && i < |states|
    ensures Inv(states[i])
  {
    if i > 0 {
      RunInvariant(events, states, i - 1);
      StepInv(states[i - 1], events[i - 1]);
    }
  }

  /** Safety of every run: at most one turn is out, `busy` says exactly whether one is,
      and calling a release closure that does not hold the node changes nothing. */
  lemma {:induction false} OneTurnAtATime(events: seq<Event>, states: seq<State>, i: nat)
    requires IsRun(events, states) && states[0] == Init && i < |states|
    ensures var s := states[i];
            && (forall t, u :: t in s.held && u in s.held ==> t == u)
            && (s.m.busy <==> exists t :: t in s.held)
            && (forall t :: t in s.granted && t !in s.held ==> Next(s, Release(t)) == s)
  {
    InitInv();
    RunInvariant(events, states, i);
  }

  /** No wakeup is lost in any run: if the node is free and open and somebody queues, the
      best waiter is awake; if everybody queued is parked, a turn is out and not yet
      released; a parked waiter whose context is done has its callback under way; after
      close nobody is parked. */
  lemma {:induction false} NoLostWakeup(events: seq<Event>, states: seq<State>, i: nat, t: Ticket)
    requires IsRun(events, states) && states[0] == Init && i < |states| && t in states[i].m.queue
    ensures var s := states[i];
            && (!s.m.busy && IsBest(t, s.m.queue) ==> t !in s.m.parked)
            && (s.m.queue == s.m.parked ==> !s.m.closed && exists h :: h in s.held)
            && (t in s.m.parked && t in s.cancelled ==> t in s.callbacks)
            && (s.m.closed ==> t !in s.m.parked)
  {
    InitInv();
    RunInvariant(events, states, i);
    var s := states[i];
    if s.m.queue == s.m.parked && !s.m.busy {
      var b := Best(s.m.queue, t);
    }
  }

  /** A nonempty queue with distinct arrivals has a best ticket. */
  lemma {:induction false} Best(queue: set<Ticket>, t: Ticket) returns (b: Ticket)
    requires t in queue
    requires forall u, v :: u in queue && v in queue && u.arrival == v.arrival ==> u == v
    ensures IsBest(b, queue)
    decreases queue
  {
    var rest := queue - {t};
    assert forall v :: v in queue ==> v == t || v in rest;
    if u :| u in rest {
      b := Best(rest, u);
      if Before(t, b) { b := t; }
    } else {
      b := t;
    }
  }

  /** The turns granted between two states of a run. */
  ghost function GrantedIn(events: seq<Event>, states: seq<State>, i: nat, j: nat): set<Ticket>
    requires IsRun(events, states) && i <= j < |states|
  {
    states[j].granted - states[i].granted
  }

  lemma {:induction false} StepGrants(s: State, e: Event, t: Ticket)
    requires Inv(s) && Enabled(s, e)
    requires t in Next(s, e).granted && t !in s.granted
    ensures e == Run(t) && !s.m.closed && !s.m.busy && IsBest(t, s.m.queue) && t !in s.cancelled
    ensures t !in Next(s, e).m.queue
  {
  }

  lemma {:induction false} StepKeeps(s: State, e: Event, u: Ticket)
    requires Inv(s) && Enabled(s, e)
    ensures s.granted <= Next(s, e).granted && s.m.next <= Next(s, e).m.next && (s.m.closed ==> Next(s, e).m.closed)
    ensures u.arrival < s.m.next && u in Next(s, e).m.queue ==> u in s.m.queue
  {
  }

  /** Every grant of every run: the node is free and open, the caller is the best of all
      that queue, highest priority first and earliest arrival within it, its context is
      live, and it has left the queue afterwards. */
  lemma {:induction false} GrantsGoToBest(events: seq<Event>, states: seq<State>, i: nat, t: Ticket)
    requires IsRun(events, states) && Inv(states[0]) && i < |events|
    requires t in states[i + 1].granted && t !in states[i].granted
    ensures events[i] == Run(t) && !states[i].m.closed && !states[i].m.busy && t !in states[i].cancelled
    ensures IsBest(t, states[i].m.queue) && t !in states[i + 1].m.queue
  {
    hide Inv, Next, Enabled, IsBest;
    RunInvariant(events, states, i);
    StepGrants(states[i], events[i], t);
  }

  /** The best waiter of a free open node is served: in every run its pass is possible, and
      it then holds the node. With `RunInvariant` and `Best`, a free open node with a live
      best waiter never stands idle for want of a move. */
  lemma {:induction false} BestIsServed(events: seq<Event>, states: seq<State>, i: nat, t: Ticket)
    requires IsRun(events, states) && states[0] == Init && i < |states|
    requires !states[i].m.busy && !states[i].m.closed && IsBest(t, states[i].m.queue) && t !in states[i].cancelled
    ensures Enabled(states[i], Run(t)) && t in Next(states[i], Run(t)).held
    ensures i < |events| && events[i] == Run(t) ==> t in states[i + 1].held && t in states[i + 1].granted
  {
    hide IsBest;
    BestQueued(t, states[i].m.queue);
    NoLostWakeup(events, states, i, t);
  }

  lemma {:induction false} BestQueued(t: Ticket, queue: set<Ticket>)
    requires IsBest(t, queue)
    ensures t in queue
  {
  }

  /** Nobody is turned away without cause: a ticket that leaves the queue was granted the
      node, or its context was cancelled, or the queue was closed. */
  lemma {:induction false} LeavesForCause(events: seq<Event>, states: seq<State>, i: nat, t: Ticket)
    requires IsRun(events, states) && i < |events|
    requires t in states[i].m.queue && t !in states[i + 1].m.queue
    ensures events[i] == Run(t)
    ensures t in states[i + 1].granted || t in states[i].cancelled || states[i].m.closed
  {
    hide IsBest;
  }

  /** Everybody who asks an open node with room joins, under a new arrival number. */
  lemma {:induction false} AdmittedWhenRoom(events: seq<Event>, states: seq<State>, i: nat, priority: int, dead: bool)
    requires IsRun(events, states) && Inv(states[0]) && i < |events| && events[i] == Acquire(priority, dead)
    ensures var t := Ticket(priority, states[i].m.next);
            if states[i].m.closed || |states[i].m.queue| >= 32 then states[i + 1] == states[i]
            else t !in states[i].m.queue && states[i + 1].m.queue == states[i].m.queue + {t}
  {
    RunInvariant(events, states, i);
    hide IsBest;
  }

  /** After close nobody is granted a turn, in any run. */
  lemma {:induction false} NoGrantAfterClose(events: seq<Event>, states: seq<State>, i: nat, j: nat)
    requires IsRun(events, states) && Inv(states[0]) && i <= j < |states| && states[i].m.closed
    ensures states[j].m.closed && states[j].granted == states[i].granted
    decreases j
  {
    hide Inv, Next, Enabled, IsBest;
    if i < j {
      NoGrantAfterClose(events, states, i, j - 1);
      RunInvariant(events, states, j - 1);
      ClosedStep(states[j - 1], events[j - 1]);
    }
  }

  lemma {:induction false} ClosedStep(s: State, e: Event)
    requires Inv(s) && Enabled(s, e) && s.m.closed
    ensures Next(s, e).m.closed && Next(s, e).granted == s.granted
  {
    hide Inv, IsBest;
  }

  /** Order of service over any stretch of a run: while u waits, a turn granted to a later
      arrival t is one of strictly higher priority. */
  lemma {:induction false} OvertakenOnlyByHigher(events: seq<Event>, states: seq<State>, i: nat, j: nat, u: Ticket, t: Ticket)
    requires IsRun(events, states) && Inv(states[0]) && i <= j < |states|
    requires u in states[i].m.queue && u in states[j].m.queue
    requires t in GrantedIn(events, states, i, j)
    ensures t.priority > u.priority || (t.priority == u.priority && t.arrival < u.arrival)
    ensures u.arrival < t.arrival ==> t.priority > u.priority
    ensures !states[i].m.closed
    decreases j - i
  {
    hide Inv, Next, Enabled;
    RunInvariant(events, states, i);
    RunInvariant(events, states, j - 1);
    ArrivedBefore(states[i], u);
    KeepsWaiting(events, states, i, j - 1, u);
    StepKeeps(states[j - 1], events[j - 1], u);
    if t in states[j - 1].granted {
      OvertakenOnlyByHigher(events, states, i, j - 1, u, t);
    } else {
      StepGrants(states[j - 1], events[j - 1], t);
    }
  }

  lemma {:induction false} ArrivedBefore(s: State, u: Ticket)
    requires Inv(s) && u in s.m.queue
    ensures u.arrival < s.m.next
  {
  }

  lemma {:induction false} KeepsWaiting(events: seq<Event>, states: seq<State>, i: nat, j: nat, u: Ticket)
    requires IsRun(events, states) && Inv(states[0]) && i <= j < |states| && u in states[i].m.queue
    ensures states[i].m.next <= states[j].m.next && states[i].granted <= states[j].granted
    ensures states[i].m.closed ==> states[j].m.closed
    ensures u.arrival < states[j].m.next
    decreases j - i
  {
    hide Inv, Next, Enabled;
    RunInvariant(events, states, i);
    ArrivedBefore(states[i], u);
    if i < j {
      KeepsWaiting(events, states, i, j - 1, u);
      RunInvariant(events, states, j - 1);
      StepKeeps(states[j - 1], events[j - 1], u);
    }
  }

  /** Progress: waiters left alone come to rest. Each pass of a waiter lowers this bound,
      so no run of passes from s is longer. */
  ghost function Passes(s: State): nat
  {
    |s.m.queue| * (MAX_WAITERS + 1) + |s.m.queue - s.m.parked|
  }

  lemma {:induction false} PassesFall(s: State, t: Ticket)
    requires Inv(s) && Enabled(s, Run(t))
    ensures Passes(Next(s, Run(t))) < Passes(s)
  {
    var m := Next(s, Run(t)).m;
    if Outcome(s.m, t, t in s.cancelled).Parked? {
      assert m.queue == s.m.queue && m.parked == s.m.parked + {t};
      SleepsOnce(m.queue, s.m.parked, t);
    } else {
      assert m.queue == s.m.queue - {t};
      assert |m.queue| == |s.m.queue| - 1;
      SmallerSubset(m.queue - m.parked, m.queue);
    }
  }

  lemma {:induction false} SleepsOnce<T>(queue: set<T>, parked: set<T>, t: T)
    requires t in queue && t !in parked
    ensures |queue - (parked + {t})| == |queue - parked| - 1
  {
    assert queue - (parked + {t}) == (queue - parked) - {t};
  }

  lemma {:induction false} PassesEnd(events: seq<Event>, states: seq<State>)
    requires IsRun(events, states) && Inv(states[0]) && forall i :: 0 <= i < |events| ==> events[i].Run?
    ensures |events| + Passes(states[|events|]) <= Passes(states[0])
    decreases |events|
  {
    hide Inv, Passes, Next;
    var n := |events|;
    if n > 0 {
      PassesEnd(events[..n - 1], states[..n]);
      RunInvariant(events, states, n - 1);
      PassesFall(states[n - 1], events[n - 1].runner);
    }
  }

  // ---------- the monitor over the indexed heap ----------

  /** Different waiters have different arrival numbers, all below the counter. */
  predicate Numbered(items: seq<Waiter>, next: nat)
  {
    && (forall u, v :: u in items && v in items && u.arrival == v.arrival ==> u == v)
    && (forall u :: u in items ==> u.arrival < next)
  }

  function Tickets(ws: set<Waiter>): set<Ticket>
  {
    set w | w in ws :: w.Id()
  }

  lemma {:induction false} TicketsSize(items: seq<Waiter>, next: nat)
    requires Numbered(items, next) && forall i, j :: 0 <= i < j < |items| ==> items[i] != items[j]
    ensures |Tickets(set w | w in items)| == |items|
  {
    if items != [] {
      var front, w := items[..|items| - 1], items[|items| - 1];
      TicketsSize(front, next);
      assert Tickets(set u | u in items) == Tickets(set u | u in front) + {w.Id()};
      assert w.Id() !in Tickets(set u | u in front);
    }
  }

  lemma {:induction false} Joined(before: seq<Waiter>, after: seq<Waiter>, w: Waiter)
    requires multiset(after) == multiset(before) + multiset{w}
    requires Numbered(before, w.arrival)
    ensures (set u | u in after) == (set u | u in before) + {w} && Numbered(after, w.arrival + 1)
  {
    assert forall u :: u in after <==> u in multiset(after);
    assert forall u :: u in before <==> u in multiset(before);
    assert forall u :: u in after <==> u in before || u == w;
  }

  lemma {:induction false} Left(before: seq<Waiter>, after: seq<Waiter>, w: Waiter, next: nat)
    requires multiset(after) == multiset(before) - multiset{w} && w !in after && Numbered(before, next)
    ensures (set u | u in after) == (set u | u in before) - {w} && Numbered(after, next)
  {
    assert forall u :: u in after <==> u in multiset(after);
    assert forall u :: u in before <==> u in multiset(before);
    assert forall u :: u in after <==> u in before && u != w;
  }

  /** Tickets follow their waiters one to one. */
  lemma {:induction false} TicketsMinus(items: seq<Waiter>, next: nat, ws: set<Waiter>, w: Waiter)
    requires Numbered(items, next) && w in items && ws <= (set u | u in items)
    ensures Tickets(ws - {w}) == Tickets(ws) - {w.Id()}
    ensures w in ws <==> w.Id() in Tickets(ws)
  {
  }

  lemma {:induction false} TicketsPlus(ws: set<Waiter>, w: Waiter)
    ensures Tickets(ws + {w}) == Tickets(ws) + {w.Id()} && Tickets({}) == {}
  {
  }

  /** The heap's root holds the best ticket, and no other waiter does. */
  lemma {:induction false} RootIsBest(items: seq<Waiter>, next: nat, w: Waiter)
    requires Numbered(items, next) && Ordered(items) && w in items
    ensures items[0] == w <==> IsBest(w.Id(), Tickets(set u | u in items))
  {
    var root := items[0];
    assert root in items;
    forall u | u in items ensures u == root || Before(root.Id(), u.Id()) {
      var k :| 0 <= k < |items| && items[k] == u;
      RootIsFirst(items, k);
    }
    if items[0] != w {
      assert root.Id() in Tickets(set u | u in items);
      assert Before(root.Id(), w.Id());
    }
  }

  class NodeQueue {
    const pq: WaiterPQ
    var next: nat
    var busy: bool
    var closed: bool
    var waiting: set<Waiter>  // the condition variable's wait set

    ghost function Abs(): Monitor
      reads this, pq
    {
      Monitor(Tickets(pq.Members()), Tickets(waiting), next, busy, closed)
    }

    ghost predicate Valid()
      reads this, pq, pq.Members()
    {
      pq.Indexed() && Ordered(pq.items) && Numbered(pq.items, next) && waiting <= pq.Members()
    }

    constructor ()
      ensures Valid() && Abs() == Init.m && fresh(pq)
    {
      pq := new WaiterPQ();
      next, busy, closed, waiting := 0, false, false, {};
    }

    /** The head of acquire. */
    method Enter(priority: int) returns (a: Admission, w: Waiter?)
      requires Valid()
      modifies this, pq, pq.Members()
      ensures Valid() && Abs() == Entered(old(Abs()), priority) && a == Admit(old(Abs()), priority)
      ensures a.Queued? ==> w != null && fresh(w) && w in pq.items && w !in waiting && w.Id() == a.ticket
      ensures a == Refused(Closed) <==> closed
      ensures a == Refused(Full) <==> !closed && |old(pq.items)| >= 32
      ensures a == Queued(Ticket(priority, old(next))) <==> !closed && |old(pq.items)| < 32
    {
      hide Numbered, Ordered, Tickets;
      if closed {
        return Refused(Closed), null;
      }
      TicketsSize(pq.items, next);
      if |pq.items| >= MAX_WAITERS {
        return Refused(Full), null;
      }
      w := new Waiter(priority, next);
      TicketsPlus(pq.Members(), w);
      next := next + 1;
      pq.Push(w);
      Joined(old(pq.items), pq.items, w);
      a := Queued(w.Id());
    }

    /** One pass of acquire's loop by waiter w; `cancelled` is the state of its context. */
    method Pass(w: Waiter, cancelled: bool) returns (a: Attempt)
      requires Valid() && w in pq.items && w !in waiting
      modifies this, pq, pq.Members()
      ensures Valid() && a == Outcome(old(Abs()), w.Id(), cancelled) && Abs() == Tried(old(Abs()), w.Id(), cancelled)
      ensures a.Parked? <==> w in pq.items
      ensures a.Parked? ==> w in waiting
      ensures a == Failed(Cancelled) <==> cancelled
      ensures a == Failed(Closed) <==> !cancelled && closed
      ensures a == Granted <==> !cancelled && !closed && !old(busy) && old(pq.items)[0] == w
    {
      hide Numbered, Ordered, Tickets, IsBest;
      TicketsMinus(pq.items, next, pq.Members(), w);
      if cancelled || closed {
        if w.index >= 0 {
          Withdraw(w);
        }
        return if cancelled then Failed(Cancelled) else Failed(Closed);
      }
      RootIsBest(pq.items, next, w);
      if !busy && |pq.items| > 0 && pq.items[0] == w {
        Own(w);
        return Granted;
      }
      TicketsPlus(waiting, w);
      waiting := waiting + {w};
      a := Parked;
    }

    /** The failing caller leaves the heap, wherever it stands, and everybody wakes. */
    method Withdraw(w: Waiter)
      requires Valid() && w in pq.items
      modifies this`waiting, pq, pq.Members()
      ensures Valid() && w !in pq.items
      ensures Abs() == old(Abs()).(queue := old(Abs()).queue - {w.Id()}, parked := {})
    {
      hide Numbered, Ordered, Tickets;
      TicketsMinus(pq.items, next, pq.Members(), w);
      TicketsPlus(waiting, w);
      var x := pq.Remove(w.index);
      waiting := {};
      Left(old(pq.items), pq.items, w, next);
    }

    /** The caller at the root leaves the heap and owns the node. */
    method Own(w: Waiter)
      requires Valid() && pq.items != [] && pq.items[0] == w && w !in waiting
      modifies this`busy, pq, pq.Members()
      ensures Valid() && w !in pq.items
      ensures Abs() == old(Abs()).(queue := old(Abs()).queue - {w.Id()}, busy := true)
    {
      hide Numbered, Ordered, Tickets;
      TicketsMinus(pq.items, next, pq.Members(), w);
      var x := pq.Pop();
      busy := true;
      Left(old(pq.items), pq.items, w, next);
    }

    /** The callback registered with the context. */
    method Wake()
      requires Valid()
      modifies this
      ensures Valid() && Abs() == Awakened(old(Abs()))
    {
      waiting := {};
    }

    method Close()
      requires Valid()
      modifies this
      ensures Valid() && Abs() == ShutDown(old(Abs()))
    {
      closed := true;
      waiting := {};
    }
  }

  /** The release closure with its `sync.Once`. */
  class Turn {
    const q: NodeQueue
    var done: bool

    constructor (q: NodeQueue)
      ensures this.q == q && !done
    {
      this.q, done := q, false;
    }

    /** Only the first call releases the node. */
    method Release()
      requires q.Valid()
      modifies this, q
      ensures q.Valid() && done
      ensures q.Abs() == if old(done) then old(q.Abs()) else Released(old(q.Abs()))
    {
      if !done {
        done := true;
        q.busy := false;
        q.waiting := {};
      }
    }
  }
}
