/** The injector object and the 16-bit window object connected, as the simulator and the
    receiver are: one packet per 20 ms tick, received at any times of the tick with timed
    drains anywhere in between. */
module Transmission {
  import opened Basics
  import opened JitterWindow
  import opened DisorderComposition
  import Faults = FaultInjection
  import Sixteen = PacketWindows

  /** The window has made the calls of `log` and handed on `out`. */
  ghost predicate Ran(window: Sixteen.PacketWindow, log: seq<Call>, out: seq<Packet>)
    reads window
  {
    window.Valid() && window.ideal == Run16(log) && out == Run16Output(log)
  }

  lemma {:induction false} Run16OneMore(calls: seq<Call>, c: Call)
    ensures var w := Run16(calls);
            && Run16(calls + [c]) == Step(w, Call16(w, c))
            && Run16Output(calls + [c]) == Run16Output(calls) + Sixteen.Packets(StepOutput(w, Call16(w, c)))
  {
    assert (calls + [c])[..|calls|] == calls;
  }

  method TickOnce(window: Sixteen.PacketWindow, now: int, out: seq<Packet>, ghost log: seq<Call>) returns (more: seq<Packet>)
    requires Ran(window, log, out)
    modifies window
    ensures Ran(window, log + [Tick(now)], more)
  {
    hide Run16, Run16Output, Drained, Output;
    Run16OneMore(log, Tick(now));
    ghost var delivered;
    more, delivered := window.Tick(now);
    more := out + more;
  }

  method PushOnce(window: Sixteen.PacketWindow, x: Numbered, now: int, out: seq<Packet>, ghost log: seq<Call>)
    returns (more: seq<Packet>)
    requires Ran(window, log, out) && 0 <= x.packet.sequence < Sixteen.WRAP
    modifies window
    ensures Ran(window, log + [Arrive(x.number, x.packet, now)], more)
  {
    hide Run16, Run16Output, Pushed, PushedOutput, Sixteen.Unwrap;
    Run16OneMore(log, Arrive(x.number, x.packet, now));
    ghost var delivered;
    more, delivered := window.Push(x.packet, now);
    more := out + more;
  }

  /** The calls of one tick, appended to a log: these arrivals, at times of that tick. */
  ghost predicate Extends(log: seq<Call>, calls: seq<Call>, arrivals: seq<Numbered>, at: int)
  {
    Arrived(calls) == arrivals && During(calls, at, at + TICK)
  }

  lemma {:induction false} ExtendsMore(calls: seq<Call>, arrivals: seq<Numbered>, at: int, log: seq<Call>, c: Call)
    requires Extends(log, calls, arrivals, at) && at <= c.Time() < at + TICK
    ensures Extends(log, calls + [c], arrivals + Arrival(c), at) && log + (calls + [c]) == log + calls + [c]
    ensures c.Tick? ==> arrivals + Arrival(c) == arrivals
  {
    ArrivedSnoc(calls, c);
  }

  lemma {:induction false} ExtendsNone(log: seq<Call>, at: int)
    ensures Extends(log, [], [], at) && log + [] == log
  {
  }

  /** Any time of the tick that begins at `at`. */
  method SomeTime(at: int) returns (now: int)
    ensures at <= now < at + TICK
  {
    var delay: int := *;
    now := at + delay % TICK;
  }

  /** Any number of drains at any times of the tick. */
  method DrainSometimes(window: Sixteen.PacketWindow, at: int, out: seq<Packet>, ghost log: seq<Call>,
                        ghost calls: seq<Call>, ghost arrivals: seq<Numbered>)
    returns (more: seq<Packet>, ghost calls': seq<Call>)
    requires Ran(window, log + calls, out) && Extends(log, calls, arrivals, at)
    modifies window
    ensures Ran(window, log + calls', more) && Extends(log, calls', arrivals, at)
  {
    hide *;
    more, calls' := out, calls;
    var times: int :| times >= 0;
    for i := 0 to times
      invariant Ran(window, log + calls', more) && Extends(log, calls', arrivals, at)
    {
      var now := SomeTime(at);
      InTick(Tick(now), at);
      ExtendsMore(calls', arrivals, at, log, Tick(now));
      more := TickOnce(window, now, more, log + calls');
      calls' := calls' + [Tick(now)];
    }
  }

  lemma {:induction false} InTick(c: Call, at: int)
    ensures c.Tick? && at <= c.at < at + TICK ==> at <= c.Time() < at + TICK
    ensures c.Arrive? && at <= c.now < at + TICK ==> at <= c.Time() < at + TICK
    ensures c.Arrive? ==> Arrival(c) == [Numbered(c.number, c.packet)]
  {
  }

  /** The packets of one tick reach the window at any times of it, in order, with drains
      anywhere in between. */
  method Receive(window: Sixteen.PacketWindow, ready: seq<Numbered>, at: int, out: seq<Packet>, ghost log: seq<Call>)
    returns (more: seq<Packet>, ghost calls: seq<Call>)
    requires Ran(window, log, out) && forall i :: 0 <= i < |ready| ==> 0 <= ready[i].packet.sequence < Sixteen.WRAP
    modifies window
    ensures Ran(window, log + calls, more) && Extends(log, calls, ready, at)
  {
    hide *;
    ExtendsNone(log, at);
    more, calls := DrainSometimes(window, at, out, log, [], []);
    for i := 0 to |ready|
      invariant Ran(window, log + calls, more) && Extends(log, calls, ready[..i], at)
    {
      var x := ready[i];
      var now := SomeTime(at);
      ghost var c := Arrive(x.number, x.packet, now);
      InTick(c, at);
      ExtendsMore(calls, ready[..i], at, log, c);
      more := PushOnce(window, x, now, more, log + calls);
      calls := calls + [c];
      assert ready[..i] + [x] == ready[..i + 1];
      more, calls := DrainSometimes(window, at, more, log, calls, ready[..i + 1]);
    }
    assert ready[..|ready|] == ready;
  }

  /** All packets on their way carry 16-bit numbers. */
  ghost predicate InRange(list: seq<Numbered>)
  {
    forall x :: x in list ==> 0 <= x.packet.sequence < Sixteen.WRAP
  }

  /** One tick of the sender: the injector disturbs the packet, the window receives. */
  method Forward(injector: Faults.FaultInjector<Numbered>, window: Sixteen.PacketWindow, ghost first: int,
                 ghost stream: seq<Packet>, ghost start: int, at: int, x: Numbered, out: seq<Packet>, ghost ticks: seq<seq<Call>>)
    returns (more: seq<Packet>, ghost calls: seq<Call>)
    requires |ticks| < |stream| && x == Nth(first, stream, |ticks|) && injector.spec.dropEvery <= 0
    requires Follows(injector.spec, first, stream, start, ticks) && Ran(window, Flatten(ticks), out)
    requires injector.State() == After(injector.spec, first, stream, |ticks|)
    requires at == start + |ticks| * TICK && InRange([x]) && InRange(Faults.Contents(injector.pending))
    modifies injector, window
    ensures Follows(injector.spec, first, stream, start, ticks + [calls]) && Ran(window, Flatten(ticks + [calls]), more)
    ensures injector.State() == After(injector.spec, first, stream, |ticks| + 1)
    ensures InRange(Faults.Contents(injector.pending))
  {
    hide Faults.Pushed, Faults.Emitted, Faults.Contents, Ran, Run16, Run16Output, Arrived, During, Nth, Flatten;
    ghost var f := injector.State();
    Faults.NothingVanishes(injector.spec, f, x);
    var ready := injector.Push(x);
    more, calls := Receive(window, ready, at, out, Flatten(ticks));
    FollowsMore(injector.spec, first, stream, start, ticks, calls);
  }

  lemma {:induction false} FollowsMore(spec: Faults.FaultSpec, first: int, stream: seq<Packet>, start: int,
                                       ticks: seq<seq<Call>>, calls: seq<Call>)
    requires |ticks| < |stream| && Follows(spec, first, stream, start, ticks)
    requires var n := |ticks|;
             Extends(Flatten(ticks), calls, Faults.Emitted(spec, After(spec, first, stream, n), Nth(first, stream, n)),
                     start + n * TICK)
    ensures Follows(spec, first, stream, start, ticks + [calls]) && Flatten(ticks + [calls]) == Flatten(ticks) + calls
  {
    hide Faults.Emitted, Arrived, During, After;
    assert (ticks + [calls])[..|ticks|] == ticks;
  }

  /** Main theorem on the code: the injector and the 16-bit window, connected, restore every
      stream, for every specification without drops and every timing within the ticks.
      `waiting` and `delayed` packets are still held by the window and the injector. */
  method Transmit(spec: Faults.FaultSpec, first: int, stream: seq<Packet>, start: int)
    returns (out: seq<Packet>, lost: int, rejected: int, waiting: nat, delayed: nat)
    requires spec.dropEvery <= 0 && NumberedFrom(stream, first)
    ensures out <= stream && lost == 0 && rejected == 0
    ensures |out| + waiting + delayed == |stream| && waiting <= 1 && delayed <= Max(spec.burstFrames, 2)
  {
    hide *;
    var injector := new Faults.FaultInjector<Numbered>(spec);
    var window := new Sixteen.PacketWindow();
    out := [];
    ghost var ticks: seq<seq<Call>> := [];
    NothingSent(injector, window, first, stream, start);
    for n := 0 to |stream|
      invariant |ticks| == n && injector.spec == spec && fresh(injector) && fresh(window)
      invariant Follows(spec, first, stream, start, ticks) && Ran(window, Flatten(ticks), out)
      invariant injector.State() == After(spec, first, stream, n) && InRange(Faults.Contents(injector.pending))
    {
      SentInRange(stream, first, n);
      ghost var calls;
      out, calls := Forward(injector, window, first, stream, start, start + n * TICK, Nth(first, stream, n), out, ticks);
      ticks := ticks + [calls];
    }
    OrderRestoredOn16Bits(spec, first, stream, start, ticks);
    Observed(window, injector, Flatten(ticks), out);
    lost, rejected, waiting, delayed := window.lost, window.rejected, |window.pending|, |injector.pending|;
  }

  lemma {:induction false} NothingSent(injector: Faults.FaultInjector<Numbered>, window: Sixteen.PacketWindow,
                                       first: int, stream: seq<Packet>, start: int)
    requires injector.State() == Faults.Injector(0, 0, []) && window.Valid() && window.ideal == Fresh
    ensures Follows(injector.spec, first, stream, start, []) && Ran(window, Flatten<Call>([]), [])
    ensures injector.State() == After(injector.spec, first, stream, 0) && InRange(Faults.Contents(injector.pending))
  {
  }

  lemma {:induction false} SentInRange(stream: seq<Packet>, first: int, n: nat)
    requires NumberedFrom(stream, first) && n < |stream|
    ensures InRange([Nth(first, stream, n)])
  {
    Sixteen.DeltaIs(first + n, 0);
  }

  /** What the objects show is what the run says. */
  lemma {:induction false} Observed(window: Sixteen.PacketWindow, injector: Faults.FaultInjector<Numbered>,
                                    log: seq<Call>, out: seq<Packet>)
    requires Ran(window, log, out)
    ensures var w := Run16(log);
            window.lost == w.lost && window.rejected == w.rejected && |window.pending| == |w.pending|
    ensures out == Run16Output(log) && injector.State().pending == injector.pending
  {
    hide Sixteen.Represents;
    Sixteen.RepresentsSize(window.next, window.pending, window.ideal.next, window.ideal.pending);
  }
}
