/** The simulator's transport disturbance (tools/simulator/faults.go): what one push emits
    and keeps, and how far packets can be disordered. */
module FaultInjection {
  import opened Basics

  datatype FaultSpec = FaultSpec(dropEvery: int, reorderEvery: int, burstEvery: int, burstFrames: int)

  datatype Delayed<P> = Delayed(due: int, packet: P)

  /** The state between pushes. */
  datatype Injector<P> = Injector(tick: int, burstEnd: int, pending: seq<Delayed<P>>)

  function Every(n: int, tick: int): bool
  {
    n > 0 && tick % n == 0
  }

  function Due<P>(pending: seq<Delayed<P>>, tick: int): (out: seq<P>)
    ensures |out| <= |pending|
  {
    if pending == [] then []
    else
      var last := pending[|pending| - 1];
      Due(pending[..|pending| - 1], tick) + (if last.due <= tick then [last.packet] else [])
  }

  function Kept<P>(pending: seq<Delayed<P>>, tick: int): (kept: seq<Delayed<P>>)
    ensures |kept| <= |pending|
  {
    if pending == [] then []
    else
      var last := pending[|pending| - 1];
      Kept(pending[..|pending| - 1], tick) + (if last.due <= tick then [] else [last])
  }

  lemma {:induction false} SiftNone<P>(tick: int)
    ensures Due<P>([], tick) == [] && Kept<P>([], tick) == []
  {
  }

  lemma {:induction false} SiftOne<P>(pending: seq<Delayed<P>>, i: nat, tick: int)
    requires i < |pending|
    ensures Due(pending[..i + 1], tick)
         == Due(pending[..i], tick) + (if pending[i].due <= tick then [pending[i].packet] else [])
    ensures Kept(pending[..i + 1], tick) == Kept(pending[..i], tick) + (if pending[i].due <= tick then [] else [pending[i]])
  {
    assert pending[..i + 1][..i] == pending[..i];
  }

  function BurstEnd(spec: FaultSpec, tick: int, burstEnd: int): int
  {
    if Every(spec.burstEvery, tick) then tick + spec.burstFrames else burstEnd
  }

  /** When the packet of this tick is to be emitted. */
  function DueTick(spec: FaultSpec, tick: int, burstEnd: int): int
  {
    var due := if tick < burstEnd then burstEnd else tick;
    if Every(spec.reorderEvery, tick) && due < tick + 2 then tick + 2 else due
  }

  function Pushed<P>(spec: FaultSpec, f: Injector<P>, packet: P): Injector<P>
  {
    var tick := f.tick + 1;
    var kept := Kept(f.pending, tick);
    if Every(spec.dropEvery, tick) then Injector(tick, f.burstEnd, kept)
    else
      var burstEnd := BurstEnd(spec, tick, f.burstEnd);
      var due := DueTick(spec, tick, burstEnd);
      Injector(tick, burstEnd, if due > tick then kept + [Delayed(due, packet)] else kept)
  }

  function Emitted<P>(spec: FaultSpec, f: Injector<P>, packet: P): seq<P>
  {
    var tick := f.tick + 1;
    var released := Due(f.pending, tick);
    if Every(spec.dropEvery, tick) || DueTick(spec, tick, BurstEnd(spec, tick, f.burstEnd)) > tick
    then released else released + [packet]
  }

  class FaultInjector<P> {
    const spec: FaultSpec
    var tick: int
    var burstEnd: int
    var pending: seq<Delayed<P>>

    function State(): Injector<P>
      reads this
    {
      Injector(tick, burstEnd, pending)
    }

    constructor (spec: FaultSpec)
      ensures this.spec == spec && State() == Injector(0, 0, [])
    {
      this.spec, tick, burstEnd, pending := spec, 0, 0, [];
    }

    method Push(packet: P) returns (out: seq<P>)
      modifies this
      ensures State() == Pushed(spec, old(State()), packet)
      ensures out == Emitted(spec, old(State()), packet)
    {
      hide Every, Due, Kept;
      tick := tick + 1;
      out := [];
      SiftNone<P>(tick);
      var kept: seq<Delayed<P>> := [];
      for i := 0 to |pending|
        invariant pending == old(pending) && tick == old(tick) + 1 && burstEnd == old(burstEnd)
        invariant out == Due(pending[..i], tick) && kept == Kept(pending[..i], tick)
      {
        SiftOne(pending, i, tick);
        if pending[i].due <= tick {
          out := out + [pending[i].packet];
        } else {
          kept := kept + [pending[i]];
        }
      }
      assert pending[..|pending|] == pending;
      pending := kept;
      if Every(spec.dropEvery, tick) {
        return;
      }
      var due := tick;
      if Every(spec.burstEvery, tick) {
        burstEnd := tick + spec.burstFrames;
      }
      if tick < burstEnd {
        due := burstEnd;
      }
      if Every(spec.reorderEvery, tick) {
        due := if due < tick + 2 then tick + 2 else due;
      }
      if due > tick {
        pending := pending + [Delayed(due, packet)];
      } else {
        out := out + [packet];
      }
    }
  }

  // ---------- what the injector keeps when nothing is dropped ----------

  /** The burst under way started at most burstFrames ticks ago. */
  ghost predicate BurstOk<P>(spec: FaultSpec, f: Injector<P>)
  {
    0 <= f.tick && (f.tick < f.burstEnd ==> f.burstEnd <= f.tick + spec.burstFrames)
  }

  /** A packet of tick s held past the current tick: by the current burst or because it
      was reordered, and for at most max(burstFrames, 2) ticks in all. */
  ghost predicate HeldOk<P>(spec: FaultSpec, f: Injector<P>, s: int, due: int)
  {
    && f.tick < due <= s + Max(spec.burstFrames, 2)
    && (due <= f.burstEnd || (due == s + 2 && Every(spec.reorderEvery, s)))
  }

  /** The pending packets are those of the last ticks, without a hole, leaving in order. */
  ghost predicate InStep<P>(spec: FaultSpec, f: Injector<P>)
  {
    && BurstOk(spec, f) && |f.pending| <= f.tick
    && (forall i :: 0 <= i < |f.pending| ==> HeldOk(spec, f, f.tick + 1 - |f.pending| + i, f.pending[i].due))
    && (forall i, j :: 0 <= i < j < |f.pending| ==> f.pending[i].due <= f.pending[j].due)
  }

  /** Only the packet of the tick before is pending, overtaken by the current one, and it
      leaves at the next tick. */
  ghost predicate Overtaken<P>(spec: FaultSpec, f: Injector<P>)
  {
    BurstOk(spec, f) && |f.pending| == 1 && f.pending[0].due == f.tick + 1
  }

  function Contents<P>(pending: seq<Delayed<P>>): (out: seq<P>)
    ensures |out| == |pending| && forall i :: 0 <= i < |out| ==> out[i] == pending[i].packet
  {
    seq(|pending|, i requires 0 <= i < |pending| => pending[i].packet)
  }

  lemma {:induction false} AllDue<P>(pending: seq<Delayed<P>>, tick: int)
    requires forall i :: 0 <= i < |pending| ==> pending[i].due <= tick
    ensures Due(pending, tick) == Contents(pending) && Kept(pending, tick) == []
  {
    if pending != [] {
      AllDue(pending[..|pending| - 1], tick);
      assert Contents(pending) == Contents(pending[..|pending| - 1]) + [pending[|pending| - 1].packet];
    }
  }

  /** With dues in order, a tick releases a prefix. */
  lemma {:induction false} ReleasesPrefix<P>(pending: seq<Delayed<P>>, tick: int)
    returns (n: nat)
    requires forall i, j :: 0 <= i < j < |pending| ==> pending[i].due <= pending[j].due
    ensures n <= |pending| && Due(pending, tick) == Contents(pending)[..n] && Kept(pending, tick) == pending[n..]
    ensures forall i :: n <= i < |pending| ==> pending[i].due > tick
  {
    if pending == [] || pending[|pending| - 1].due <= tick {
      n := |pending|;
      AllDue(pending, tick);
    } else {
      var front := pending[..|pending| - 1];
      n := ReleasesPrefix(front, tick);
      ContentsFront(pending, n);
      hide Contents;
      assert pending[n..] == front[n..] + [pending[|pending| - 1]];
    }
  }

  lemma {:induction false} ContentsFront<P>(pending: seq<Delayed<P>>, n: nat)
    requires n < |pending|
    ensures Contents(pending)[..n] == Contents(pending[..|pending| - 1])[..n]
  {
  }

  function Late<P>(spec: FaultSpec, f: Injector<P>): bool
  {
    DueTick(spec, f.tick + 1, BurstEnd(spec, f.tick + 1, f.burstEnd)) > f.tick + 1
  }

  /** One tick without drops, from a list without a hole: a prefix of the pending packets
      is released; the new packet joins the list, or leaves at once and then overtakes at
      most the packet of the tick before. */
  lemma {:induction false} TickInStep<P>(spec: FaultSpec, f: Injector<P>, packet: P) returns (n: nat)
    requires spec.dropEvery <= 0 && InStep(spec, f)
    ensures n <= |f.pending|
    ensures var g := Pushed(spec, f, packet);
            var late := Late(spec, f);
            && g.tick == f.tick + 1
            && Contents(g.pending) == Contents(f.pending)[n..] + (if late then [packet] else [])
            && Emitted(spec, f, packet) == Contents(f.pending)[..n] + (if late then [] else [packet])
            && (late || n == |f.pending| ==> InStep(spec, g))
            && (!late && n < |f.pending| ==> Overtaken(spec, g) && f.tick > 1)
  {
    n := ReleasesPrefix(f.pending, f.tick + 1);
    hide *;
    var g := Pushed(spec, f, packet);
    WithoutDrop(spec, f, packet);
    KeepsHeld(spec, f, g, n);
    if Late(spec, f) {
      HasBurst(spec, f);
      NewHeld(spec, f, g);
      LateInStep(spec, f, g, n, packet);
      ContentsTail(f.pending, n, [Delayed(DueTick(spec, g.tick, g.burstEnd), packet)]);
      ContentsOne(DueTick(spec, g.tick, g.burstEnd), packet);
    } else {
      assert f.pending[n..] + [] == f.pending[n..];
      ContentsTail(f.pending, n, []);
      if n < |f.pending| {
        LeavesOne(spec, f, g, n);
      } else {
        EmptyInStep(spec, g);
      }
    }
  }

  lemma {:induction false} HasBurst<P>(spec: FaultSpec, f: Injector<P>)
    requires InStep(spec, f)
    ensures BurstOk(spec, f)
  {
  }

  lemma {:induction false} EmptyInStep<P>(spec: FaultSpec, f: Injector<P>)
    requires BurstOk(spec, f) && f.pending == []
    ensures InStep(spec, f)
  {
  }

  lemma {:induction false} ContentsTail<P>(pending: seq<Delayed<P>>, n: nat, more: seq<Delayed<P>>)
    requires n <= |pending|
    ensures Contents(pending[n..] + more) == Contents(pending)[n..] + Contents(more)
    ensures |Contents(pending)| == |pending|
    ensures more == [] ==> Contents(more) == []
  {
  }

  lemma {:induction false} ContentsOne<P>(due: int, packet: P)
    ensures Contents([Delayed(due, packet)]) == [packet]
  {
  }

  lemma {:induction false} WithoutDrop<P>(spec: FaultSpec, f: Injector<P>, packet: P)
    requires spec.dropEvery <= 0
    ensures var g := Pushed(spec, f, packet);
            var kept, due := Kept(f.pending, f.tick + 1), Due(f.pending, f.tick + 1);
            && g.tick == f.tick + 1 && g.burstEnd == BurstEnd(spec, g.tick, f.burstEnd)
            && g.pending == (if Late(spec, f) then kept + [Delayed(DueTick(spec, g.tick, g.burstEnd), packet)] else kept)
            && Emitted(spec, f, packet) == (if Late(spec, f) then due else due + [packet])
  {
    assert !Every(spec.dropEvery, f.tick + 1);
    hide Every, Kept, Due;
  }

  /** The new packet's own entry. */
  lemma {:induction false} NewHeld<P>(spec: FaultSpec, f: Injector<P>, g: Injector<P>)
    requires BurstOk(spec, f) && Late(spec, f)
    requires g.tick == f.tick + 1 && g.burstEnd == BurstEnd(spec, g.tick, f.burstEnd)
    ensures BurstOk(spec, g) && HeldOk(spec, g, g.tick, DueTick(spec, g.tick, g.burstEnd))
  {
    hide Every;
  }

  lemma {:induction false} LateInStep<P>(spec: FaultSpec, f: Injector<P>, g: Injector<P>, n: nat, packet: P)
    requires InStep(spec, f) && n <= |f.pending| && g.tick == f.tick + 1 && Late(spec, f)
    requires BurstOk(spec, g) && g.burstEnd == BurstEnd(spec, g.tick, f.burstEnd)
    requires forall i :: n <= i < |f.pending| ==> HeldOk(spec, g, f.tick + 1 - |f.pending| + i, f.pending[i].due)
    requires HeldOk(spec, g, g.tick, DueTick(spec, g.tick, g.burstEnd))
    requires g.pending == f.pending[n..] + [Delayed(DueTick(spec, g.tick, g.burstEnd), packet)]
    ensures InStep(spec, g)
  {
    hide Every;
    var kept := f.pending[n..];
    forall i | 0 <= i < |g.pending| ensures HeldOk(spec, g, g.tick + 1 - |g.pending| + i, g.pending[i].due) {
      if i < |kept| {
        assert HeldOk(spec, g, f.tick + 1 - |f.pending| + (n + i), f.pending[n + i].due);
      }
    }
  }

  /** A packet leaving at once can only overtake the packet of the tick before. */
  lemma {:induction false} LeavesOne<P>(spec: FaultSpec, f: Injector<P>, g: Injector<P>, n: nat)
    requires InStep(spec, f) && n < |f.pending| && g.tick == f.tick + 1 && !Late(spec, f)
    requires BurstOk(spec, g) && g.burstEnd == BurstEnd(spec, g.tick, f.burstEnd)
    requires forall i :: n <= i < |f.pending| ==> HeldOk(spec, g, f.tick + 1 - |f.pending| + i, f.pending[i].due)
    requires g.pending == f.pending[n..]
    ensures Overtaken(spec, g) && f.tick > 1
  {
    forall i | n <= i < |f.pending| ensures i == |f.pending| - 1 && f.pending[i].due == g.tick + 1 {
      assert HeldOk(spec, g, f.tick + 1 - |f.pending| + i, f.pending[i].due);
    }
    assert f.pending[n].due == g.tick + 1;
    var s := f.tick;
    assert HeldOk(spec, g, s, f.pending[|f.pending| - 1].due);
    assert Every(spec.reorderEvery, s) && !Every(spec.reorderEvery, s + 1);
    assert s == 1 ==> spec.reorderEvery != 1;
  }

  lemma {:induction false} KeepsHeld<P>(spec: FaultSpec, f: Injector<P>, g: Injector<P>, n: nat)
    requires InStep(spec, f) && n <= |f.pending| && g.tick == f.tick + 1
    requires g.burstEnd == BurstEnd(spec, g.tick, f.burstEnd)
    requires forall i :: n <= i < |f.pending| ==> f.pending[i].due > g.tick
    ensures BurstOk(spec, g)
    ensures forall i :: n <= i < |f.pending| ==> HeldOk(spec, g, f.tick + 1 - |f.pending| + i, f.pending[i].due)
  {
    hide Every;
    forall i | n <= i < |f.pending| ensures HeldOk(spec, g, f.tick + 1 - |f.pending| + i, f.pending[i].due) {
      assert HeldOk(spec, f, f.tick + 1 - |f.pending| + i, f.pending[i].due);
    }
  }

  lemma {:induction false} TickOvertaken<P>(spec: FaultSpec, f: Injector<P>, packet: P)
    requires spec.dropEvery <= 0 && Overtaken(spec, f)
    ensures var g := Pushed(spec, f, packet);
            var late := Late(spec, f);
            && g.tick == f.tick + 1 && InStep(spec, g)
            && Contents(g.pending) == (if late then [packet] else [])
            && Emitted(spec, f, packet) == Contents(f.pending) + (if late then [] else [packet])
  {
    assert !Every(spec.dropEvery, f.tick + 1);
    hide Every;
    var g := Pushed(spec, f, packet);
    assert f.pending[..0] == [];
    assert Due(f.pending, f.tick + 1) == Contents(f.pending) && Kept(f.pending, f.tick + 1) == [];
    if Late(spec, f) {
      NewHeld(spec, f, g);
    }
  }

  /** Bound: between pushes the injector holds at most max(burstFrames, 2) packets. */
  lemma {:induction false} HeldBound<P>(spec: FaultSpec, f: Injector<P>)
    requires InStep(spec, f) || Overtaken(spec, f)
    ensures |f.pending| <= Max(spec.burstFrames, 2)
  {
    if InStep(spec, f) && f.pending != [] {
      assert HeldOk(spec, f, f.tick + 1 - |f.pending| + 0, f.pending[0].due);
    }
  }

  /** Without drops every packet pushed is emitted or still pending. */
  lemma {:induction false} NothingVanishes<P>(spec: FaultSpec, f: Injector<P>, packet: P)
    requires spec.dropEvery <= 0
    ensures |Emitted(spec, f, packet)| + |Pushed(spec, f, packet).pending| == |f.pending| + 1
    ensures forall x :: x in Emitted(spec, f, packet) ==> x in Contents(f.pending) || x == packet
    ensures forall x :: x in Contents(Pushed(spec, f, packet).pending) ==> x in Contents(f.pending) || x == packet
  {
    WithoutDrop(spec, f, packet);
    Sifted(f.pending, f.tick + 1);
    hide *;
    var g := Pushed(spec, f, packet);
    forall x | x in Contents(g.pending) ensures x in Contents(f.pending) || x == packet {
      var i :| 0 <= i < |g.pending| && g.pending[i].packet == x;
    }
  }

  lemma {:induction false} Sifted<P>(pending: seq<Delayed<P>>, tick: int)
    ensures |Due(pending, tick)| + |Kept(pending, tick)| == |pending|
    ensures forall x :: x in Due(pending, tick) ==> x in Contents(pending)
    ensures forall d :: d in Kept(pending, tick) ==> d.packet in Contents(pending)
  {
    if pending != [] {
      var front, last := pending[..|pending| - 1], pending[|pending| - 1];
      Sifted(front, tick);
      assert Contents(pending) == Contents(front) + [last.packet];
    }
  }
}
