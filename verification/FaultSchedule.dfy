/** When each packet leaves the fault injector, in arithmetic on ticks, over whole runs of
    the object from its initial state. Ticks count from 1; the packet of tick t is
    `stream[t - 1]`. */
module FaultSchedule {
  import opened Arithmetic
  import opened Basics
  import Faults = FaultInjection

  // ---------- the schedule ----------

  predicate DroppedAt(spec: Faults.FaultSpec, t: nat) { spec.dropEvery > 0 && t % spec.dropEvery == 0 }

  /** A burst starts at every multiple of burstEvery whose packet is not dropped. */
  predicate StartsBurst(spec: Faults.FaultSpec, t: nat) {
    t > 0 && spec.burstEvery > 0 && t % spec.burstEvery == 0 && !DroppedAt(spec, t)
  }

  /** The last burst start up to tick t, or 0. */
  function LastStart(spec: Faults.FaultSpec, t: nat): (b: nat)
    ensures b <= t && (b > 0 ==> StartsBurst(spec, b))
    ensures forall c :: b < c <= t ==> !StartsBurst(spec, c)
  {
    if t == 0 || StartsBurst(spec, t) then t else LastStart(spec, t - 1)
  }

  /** The tick at which the packet of tick t leaves, if it is not dropped: the end of the
      burst it falls into, or its own tick; a reordered one not before t + 2. */
  function LeaveTick(spec: Faults.FaultSpec, t: nat): (u: int)
    ensures u >= t
  {
    var b := LastStart(spec, t);
    var base := if b > 0 && t < b + spec.burstFrames then b + spec.burstFrames else t;
    if spec.reorderEvery > 0 && t % spec.reorderEvery == 0 then Max(base, t + 2) else base
  }

  /** The schedule spelled out: b is the last burst start up to t, if there is one. */
  lemma {:induction false} LeavesWhen(spec: Faults.FaultSpec, t: nat, b: nat)
    requires b <= t && (b > 0 ==> StartsBurst(spec, b)) && forall c :: b < c <= t ==> !StartsBurst(spec, c)
    ensures var inBurst := 0 < b && t < b + spec.burstFrames;
            var reordered := spec.reorderEvery > 0 && t % spec.reorderEvery == 0;
            && (!inBurst && !reordered ==> LeaveTick(spec, t) == t)
            && (inBurst && !reordered ==> LeaveTick(spec, t) == b + spec.burstFrames)
            && (!inBurst && reordered ==> LeaveTick(spec, t) == t + 2)
            && (inBurst && reordered ==> LeaveTick(spec, t) == Max(b + spec.burstFrames, t + 2))
  {
    LastStartUnique(spec, t, b);
  }

  lemma {:induction false} LastStartUnique(spec: Faults.FaultSpec, t: nat, b: nat)
    requires b <= t && (b > 0 ==> StartsBurst(spec, b)) && forall c :: b < c <= t ==> !StartsBurst(spec, c)
    ensures LastStart(spec, t) == b
  {
    hide StartsBurst;
  }

  /** Without drops the last burst start is the last multiple of burstEvery. */
  lemma {:induction false} LastStartIs(spec: Faults.FaultSpec, t: nat)
    requires spec.dropEvery <= 0 && spec.burstEvery > 0
    ensures LastStart(spec, t) == t - t % spec.burstEvery
  {
    Multiple(t, spec.burstEvery);
    var b: nat := t - t % spec.burstEvery;
    forall c | b < c <= t ensures !StartsBurst(spec, c) {
      NoMultiple(t, c, spec.burstEvery);
    }
    LastStartUnique(spec, t, b);
  }

  lemma {:induction false} Multiple(t: nat, m: int)
    requires m > 0
    ensures 0 <= t - t % m && (t - t % m) % m == 0
  {
    var q := t / m;
    assert t == q * m + t % m;
    DivBelow(t, m, 0);
    Scale(0, q, m);
    MultipleDivides(q, m);
  }

  lemma {:induction false} NoMultiple(t: nat, c: nat, m: int)
    requires m > 0 && t - t % m < c <= t
    ensures c % m != 0
  {
    var q := t / m;
    DivBelow(c, m, q);
    DivBelow(c, m, q + 1);
    assert (q + 1) * m == q * m + m;
    DivMod(t, m);
    DivMod(c, m);
  }

  /** A packet never leaves exactly when its tick is a multiple of dropEvery. */
  lemma {:induction false} NeverLeavesIff(spec: Faults.FaultSpec, t: nat)
    requires t > 0
    ensures (forall n: nat, u :: t !in LeaversAt(spec, n, u)) <==> spec.dropEvery > 0 && t % spec.dropEvery == 0
  {
    forall n: nat, u ensures t in LeaversAt(spec, n, u) ==> !DroppedAt(spec, t) {
      LeaversIff(spec, n, u, t);
    }
    LeaversIff(spec, t, LeaveTick(spec, t), t);
  }

  /** The ticks up to n whose packets leave at tick u, in order. */
  function LeaversAt(spec: Faults.FaultSpec, n: nat, u: int): seq<nat>
  {
    if n == 0 then []
    else LeaversAt(spec, n - 1, u) + (if !DroppedAt(spec, n) && LeaveTick(spec, n) == u then [n] else [])
  }

  ghost predicate Increasing(s: seq<nat>) {
    forall i, j :: 0 <= i < j < |s| ==> s[i] < s[j]
  }

  /** Each tick up to n is among them exactly when it is not dropped and due. */
  lemma {:induction false} LeaversIff(spec: Faults.FaultSpec, n: nat, u: int, t: nat)
    ensures t in LeaversAt(spec, n, u) <==> 1 <= t <= n && !DroppedAt(spec, t) && LeaveTick(spec, t) == u
  {
    hide DroppedAt, LeaveTick;
    if n > 0 {
      LeaversIff(spec, n - 1, u, t);
    }
  }

  lemma {:induction false} LeaversInOrder(spec: Faults.FaultSpec, n: nat, u: int)
    ensures Increasing(LeaversAt(spec, n, u))
    ensures forall i :: 0 <= i < |LeaversAt(spec, n, u)| ==> 1 <= LeaversAt(spec, n, u)[i] <= n
  {
    hide DroppedAt, LeaveTick;
    if n > 0 {
      LeaversInOrder(spec, n - 1, u);
    }
  }

  /** The packets of some ticks. */
  function PacketsAt<P>(stream: seq<P>, ticks: seq<nat>): (out: seq<P>)
    requires forall i :: 0 <= i < |ticks| ==> 1 <= ticks[i] <= |stream|
    ensures |out| == |ticks| && forall i :: 0 <= i < |out| ==> out[i] == stream[ticks[i] - 1]
  {
    seq(|ticks|, i requires 0 <= i < |ticks| => stream[ticks[i] - 1])
  }

  /** What leaves at tick u of the packets of the first n ticks. */
  function Leaving<P>(spec: Faults.FaultSpec, stream: seq<P>, n: nat, u: int): seq<P>
    requires n <= |stream|
  {
    LeaversInOrder(spec, n, u);
    PacketsAt(stream, LeaversAt(spec, n, u))
  }

  // ---------- the injector follows it ----------

  /** What is left of the packets of the first n ticks after tick u. */
  function Waiting<P>(spec: Faults.FaultSpec, stream: seq<P>, n: nat, u: int): seq<Faults.Delayed<P>>
    requires n <= |stream|
  {
    if n == 0 then []
    else
      Waiting(spec, stream, n - 1, u)
      + (if !DroppedAt(spec, n) && LeaveTick(spec, n) > u then [Faults.Delayed(LeaveTick(spec, n), stream[n - 1])] else [])
  }

  lemma {:induction false} LeavingOneMore<P>(spec: Faults.FaultSpec, stream: seq<P>, n: nat, u: int)
    requires 0 < n <= |stream|
    ensures Leaving(spec, stream, n, u)
         == Leaving(spec, stream, n - 1, u) + (if !DroppedAt(spec, n) && LeaveTick(spec, n) == u then [stream[n - 1]] else [])
  {
    hide DroppedAt, LeaveTick;
    LeaversInOrder(spec, n, u);
    LeaversInOrder(spec, n - 1, u);
  }

  /** A tick releases what is due then and keeps the rest. */
  lemma {:induction false} TickSifts<P>(spec: Faults.FaultSpec, stream: seq<P>, n: nat, u: int)
    requires n <= |stream|
    ensures Faults.Due(Waiting(spec, stream, n, u), u + 1) == Leaving(spec, stream, n, u + 1)
    ensures Faults.Kept(Waiting(spec, stream, n, u), u + 1) == Waiting(spec, stream, n, u + 1)
  {
    hide DroppedAt, LeaveTick, Leaving, Faults.Due, Faults.Kept;
    if n == 0 {
      Faults.SiftNone<P>(u + 1);
      NothingLeaves(spec, stream, u + 1);
    } else {
      TickSifts(spec, stream, n - 1, u);
      LeavingOneMore(spec, stream, n, u + 1);
      if !DroppedAt(spec, n) && LeaveTick(spec, n) > u {
        SiftLast(Waiting(spec, stream, n - 1, u), Faults.Delayed(LeaveTick(spec, n), stream[n - 1]), u + 1);
      } else {
        assert Waiting(spec, stream, n, u) == Waiting(spec, stream, n - 1, u);
      }
    }
  }

  lemma {:induction false} SiftLast<P>(pending: seq<Faults.Delayed<P>>, last: Faults.Delayed<P>, u: int)
    ensures Faults.Due(pending + [last], u) == Faults.Due(pending, u) + (if last.due <= u then [last.packet] else [])
    ensures Faults.Kept(pending + [last], u) == Faults.Kept(pending, u) + (if last.due <= u then [] else [last])
  {
    var all := pending + [last];
    assert all[..|pending|] == pending && all[..|pending| + 1] == all;
    Faults.SiftOne(all, |pending|, u);
  }

  lemma {:induction false} NothingLeaves<P>(spec: Faults.FaultSpec, stream: seq<P>, u: int)
    ensures Leaving(spec, stream, 0, u) == []
  {
  }

  /** The end of the last burst started up to tick n. */
  function EndOfBurst(spec: Faults.FaultSpec, n: nat): int
  {
    if LastStart(spec, n) == 0 then 0 else LastStart(spec, n) + spec.burstFrames
  }

  /** The injector after n ticks. */
  function StateAfter<P>(spec: Faults.FaultSpec, stream: seq<P>, n: nat): Faults.Injector<P>
    requires n <= |stream|
  {
    Faults.Injector(n, EndOfBurst(spec, n), Waiting(spec, stream, n, n))
  }

  lemma {:induction false} BurstFollows(spec: Faults.FaultSpec, n: nat)
    ensures DroppedAt(spec, n + 1) ==> EndOfBurst(spec, n + 1) == EndOfBurst(spec, n)
    ensures !DroppedAt(spec, n + 1) ==>
              && Faults.BurstEnd(spec, n + 1, EndOfBurst(spec, n)) == EndOfBurst(spec, n + 1)
              && Faults.DueTick(spec, n + 1, EndOfBurst(spec, n + 1)) == LeaveTick(spec, n + 1)
  {
    assert LastStart(spec, n + 1) == if StartsBurst(spec, n + 1) then n + 1 else LastStart(spec, n);
  }

  /** One push of the code's step takes it to the next tick's state, and emits exactly what
      the schedule says. */
  lemma {:induction false} PushFollows<P>(spec: Faults.FaultSpec, stream: seq<P>, n: nat)
    requires n < |stream|
    ensures Faults.Pushed(spec, StateAfter(spec, stream, n), stream[n]) == StateAfter(spec, stream, n + 1)
    ensures Faults.Emitted(spec, StateAfter(spec, stream, n), stream[n]) == Leaving(spec, stream, n + 1, n + 1)
  {
    TickSifts(spec, stream, n, n);
    LeavingOneMore(spec, stream, n + 1, n + 1);
    BurstFollows(spec, n);
    hide Faults.Due, Faults.Kept, Faults.BurstEnd, Faults.DueTick, Leaving, EndOfBurst, LeaveTick;
  }

  /** The object, pushed a whole stream: `outs[u - 1]` is what it emits at tick u. Main
      result on the disturbance: for every specification these are exactly the packets of
      the ticks t <= u that are not dropped and whose leaving tick is u, in order. */
  method Disturb<P>(spec: Faults.FaultSpec, stream: seq<P>) returns (outs: seq<seq<P>>, held: nat)
    ensures |outs| == |stream|
    ensures forall u :: 1 <= u <= |outs| ==> outs[u - 1] == Leaving(spec, stream, u, u)
    ensures held == |Waiting(spec, stream, |stream|, |stream|)|
  {
    hide Faults.Pushed, Faults.Emitted, Leaving;
    var injector := new Faults.FaultInjector<P>(spec);
    outs := [];
    for n := 0 to |stream|
      invariant fresh(injector) && injector.spec == spec && injector.State() == StateAfter(spec, stream, n)
      invariant |outs| == n && forall u :: 1 <= u <= n ==> outs[u - 1] == Leaving(spec, stream, u, u)
    {
      PushFollows(spec, stream, n);
      var out := injector.Push(stream[n]);
      outs := outs + [out];
    }
    held := |injector.pending|;
  }
}
