/** The jitter window on 16-bit RTP sequence numbers (section 5.1 of RFC 3550), with the
    serial comparison of section 3.2 of RFC 1982, refining the unbounded window. */
module PacketWindows {
  import opened Basics
  import opened JitterWindow

  const WRAP := 0x1_0000

  /** The 16 bits of a packet number. */
  function Low16(k: int): int
  {
    k % WRAP
  }

  /** Go's `int16(a - b)` for 16-bit a and b. */
  function SerialDelta(a: int, b: int): int
  {
    if (a - b) % WRAP < WRAP / 2 then (a - b) % WRAP else (a - b) % WRAP - WRAP
  }

  /** The one number congruent to s in the 2^16 numbers around `next`. */
  function Unwrap(next: int, s: int): int
  {
    next + SerialDelta(s, next)
  }

  /** 16 bits identify a number exactly when it is within [-32768, 32767] of `next`. */
  lemma {:induction false} UnwrapExactIff(next: int, k: int)
    ensures Unwrap(next, Low16(k)) == k <==> -0x8000 <= k - next <= 0x7FFF
  {
  }

  lemma {:induction false} UnwrapLow(next: int, s: int)
    requires 0 <= s < WRAP
    ensures Low16(Unwrap(next, s)) == s && -0x8000 <= Unwrap(next, s) - next <= 0x7FFF
  {
  }

  lemma {:induction false} DeltaIs(next: int, s: int)
    ensures SerialDelta(s, Low16(next)) == Unwrap(next, s) - next
    ensures 0 <= Low16(next) < WRAP
    ensures Unwrap(next, s) >= next ==> Low16(s - Low16(next)) == Unwrap(next, s) - next
  {
  }

  lemma {:induction false} LowSelf(k: int)
    ensures 0 <= k < WRAP ==> Low16(k) == k
  {
  }

  lemma {:induction false} LowAdd(k: int, d: int)
    ensures Low16(Low16(k) + d) == Low16(k + d)
  {
  }

  /** The 16-bit fields (next, pending) stand for the unbounded window (at, held). */
  ghost predicate Represents(next: int, pending: map<int, Packet>, at: int, held: map<int, Packet>)
  {
    && next == Low16(at)
    && (forall k :: k in held ==> at <= k < at + 0x8000)
    && (forall k {:trigger Low16(k)} :: k in held ==> Low16(k) in pending && pending[Low16(k)] == held[k])
    && (forall s :: s in pending ==> 0 <= s < WRAP)
    && (forall s {:trigger Unwrap(at, s)} :: s in pending ==> Unwrap(at, s) in held)
  }

  lemma {:induction false} KeyOf(next: int, pending: map<int, Packet>, at: int, held: map<int, Packet>, s: int)
    requires Represents(next, pending, at, held)
    ensures s in pending ==> Low16(Unwrap(at, s)) == s && Unwrap(at, s) in held
    ensures forall k :: k in held && Low16(k) == s ==> Unwrap(at, s) == k
  {
    hide Low16, Unwrap;
    if s in pending { UnwrapLow(at, s); }
    forall k | k in held && Low16(k) == s ensures Unwrap(at, s) == k {
      UnwrapExactIff(at, k);
    }
  }

  lemma {:induction false} RepresentsRemove(next: int, pending: map<int, Packet>, at: int, held: map<int, Packet>, k: int)
    requires Represents(next, pending, at, held) && k in held
    ensures Represents(next, pending - {Low16(k)}, at, held - {k})
    ensures (pending - {Low16(k)}).Keys == pending.Keys - {Low16(k)}
  {
    hide Low16, Unwrap;
    forall i | i in held - {k} ensures Low16(i) != Low16(k) {
      UnwrapExactIff(at, i);
      UnwrapExactIff(at, k);
    }
    forall s | s in pending - {Low16(k)} ensures Unwrap(at, s) in held - {k} {
      KeyOf(next, pending, at, held, s);
    }
  }

  lemma {:induction false} RepresentsSize(next: int, pending: map<int, Packet>, at: int, held: map<int, Packet>)
    requires Represents(next, pending, at, held)
    ensures |pending| == |held|
    decreases held.Keys
  {
    hide Represents;
    if held != map[] {
      var k := AnyOf(held.Keys);
      assert (held - {k}).Keys == held.Keys - {k};
      RepresentsRemove(next, pending, at, held, k);
      InPending(next, pending, at, held, k);
      RepresentsSize(next, pending - {Low16(k)}, at, held - {k});
    } else if pending != map[] {
      var s := AnyOf(pending.Keys);
      KeyOf(next, pending, at, held, s);
    }
  }

  lemma {:induction false} InPending(next: int, pending: map<int, Packet>, at: int, held: map<int, Packet>, k: int)
    requires Represents(next, pending, at, held) && k in held
    ensures Low16(k) in pending && pending[Low16(k)] == held[k]
  {
  }

  /** The window may slide forward as long as it does not pass a packet it holds. */
  lemma {:induction false} RepresentsSlide(next: int, pending: map<int, Packet>, at: int, held: map<int, Packet>, to: int)
    requires Represents(next, pending, at, held) && at <= to
    requires forall k :: k in held ==> to <= k
    ensures Represents(Low16(to), pending, to, held)
  {
    hide Low16, Unwrap;
    forall s | s in pending ensures Unwrap(to, s) in held {
      KeyOf(next, pending, at, held, s);
      UnwrapExactIff(to, Unwrap(at, s));
    }
  }

  lemma {:induction false} RepresentsInsert(next: int, pending: map<int, Packet>, at: int, held: map<int, Packet>, s: int, p: Packet)
    requires Represents(next, pending, at, held) && 0 <= s < WRAP && Unwrap(at, s) >= at
    ensures s in pending <==> Unwrap(at, s) in held
    ensures Unwrap(at, s) !in held ==> Represents(next, pending[s := p], at, held[Unwrap(at, s) := p])
  {
    hide Low16, Unwrap;
    var k := Unwrap(at, s);
    UnwrapLow(at, s);
    KeyOf(next, pending, at, held, s);
    if k !in held {
      forall i | i in held ensures Low16(i) != s {
        UnwrapExactIff(at, i);
      }
    }
  }

  /** Whether the packet waited for is held can be read off the 16 bits. */
  lemma {:induction false} HeldAtNext(next: int, pending: map<int, Packet>, at: int, held: map<int, Packet>)
    requires Represents(next, pending, at, held)
    ensures next in pending <==> at in held
    ensures next in pending ==> pending[next] == held[at]
    ensures |pending| == |held|
    ensures |pending| > 0 ==> exists k :: k in held
  {
    RepresentsSize(next, pending, at, held);
    UnwrapExactIff(at, at);
    hide Low16, Unwrap;
    KeyOf(next, pending, at, held, next);
    if |pending| > 0 {
      var k := AnyOf(held.Keys);
    }
  }

  lemma {:induction false} DeliverRepresents(next: int, pending: map<int, Packet>, w: Window)
    requires Represents(next, pending, w.next, w.pending) && Drainable(w) && w.next in w.pending
    ensures var w' := Advance(w, w.next + 1);
            && Represents(Low16(next + 1), pending - {next}, w'.next, w'.pending)
            && w' == w.(next := w.next + 1, pending := w.pending - {w.next}, waiting := None)
  {
    LowAdd(w.next, 1);
    hide Low16, Unwrap;
    RepresentsRemove(next, pending, w.next, w.pending, w.next);
    hide Represents;
    RepresentsSlide(next, pending - {next}, w.next, w.pending - {w.next}, w.next + 1);
    assert w.pending - {w.next} == Advance(w, w.next + 1).pending;
  }

  lemma {:induction false} SkipRepresents(next: int, pending: map<int, Packet>, w: Window)
    requires Represents(next, pending, w.next, w.pending) && Drainable(w) && exists k :: k in w.pending
    ensures var w' := SkipGap(w);
            && Represents(Low16(next + (w'.next - w.next)), pending, w'.next, w'.pending)
            && w' == w.(next := Smallest(w.pending.Keys), lost := w.lost + (w'.next - w.next), waiting := None)
            && w.next <= w'.next
  {
    var m := Smallest(w.pending.Keys);
    LowAdd(w.next, m - w.next);
    hide Represents, Low16;
    RepresentsSlide(next, pending, w.next, w.pending, m);
    RepresentsNext(next, pending, w.next, w.pending);
  }

  lemma {:induction false} RepresentsNext(next: int, pending: map<int, Packet>, at: int, held: map<int, Packet>)
    requires Represents(next, pending, at, held)
    ensures next == Low16(at)
  {
  }

  /** The scan over the keys for the smallest 16-bit distance from `next`. */
  method Nearest(next: int, pending: map<int, Packet>, ghost at: int, ghost held: map<int, Packet>)
    returns (distance: int)
    requires Represents(next, pending, at, held) && (exists k :: k in held)
    ensures distance == Smallest(held.Keys) - at
  {
    hide Low16, Unwrap;
    distance := WRAP - 1;
    var keys := pending.Keys;
    ghost var m := Smallest(held.Keys);
    UnwrapExactIff(at, m);
    while |keys| > 0
      invariant keys <= pending.Keys
      invariant distance >= m - at
      invariant Low16(m) in keys || distance == m - at
    {
      var sequence := Any(keys);
      keys := keys - {sequence};
      KeyOf(next, pending, at, held, sequence);
      DeltaIs(at, sequence);
      var d := Low16(sequence - next);
      if d < distance {
        distance := d;
      }
    }
  }

  method Any<T>(s: set<T>) returns (x: T)
    requires |s| > 0
    ensures x in s
  {
    x :| x in s;
  }

  function Packets(out: seq<Numbered>): (r: seq<Packet>)
    ensures |r| == |out| && forall i :: 0 <= i < |out| ==> r[i] == out[i].packet
  {
    seq(|out|, i requires 0 <= i < |out| => out[i].packet)
  }

  /** The number a packet is taken for: the first one places the window, later ones are
      unwrapped around `next`. */
  function Taken(w: Window, p: Packet): int
  {
    if w.started then Unwrap(w.next, p.sequence) else p.sequence
  }

  class PacketWindow {
    var initialized: bool
    var next: int
    var pending: map<int, Packet>
    var waiting: Option<int>
    var lost: int
    var reordered: int
    var rejected: int
    ghost var ideal: Window  // the same window on unbounded numbers

    ghost predicate Same()
      reads this
    {
      && initialized == ideal.started && Represents(next, pending, ideal.next, ideal.pending)
      && waiting == ideal.waiting
      && lost == ideal.lost && reordered == ideal.reordered && rejected == ideal.rejected
    }

    ghost predicate Valid()
      reads this
    {
      Same() && Settled(ideal) && |ideal.pending| < FORCE_AT
    }

    constructor ()
      ensures Valid() && ideal == Fresh
    {
      initialized, next, pending, waiting := false, 0, map[], None;
      lost, reordered, rejected := 0, 0, 0;
      ideal := Fresh;
    }

    /** The step of the unbounded window for the number that the 16 bits stand for. */
    method Push(p: Packet, now: int) returns (out: seq<Packet>, ghost delivered: seq<Numbered>)
      requires Valid() && 0 <= p.sequence < WRAP
      modifies this
      ensures Valid()
      ensures ideal == Pushed(old(ideal), Taken(old(ideal), p), p, now)
      ensures delivered == PushedOutput(old(ideal), Taken(old(ideal), p), p, now)
      ensures out == Packets(delivered)
    {
      hide Unwrap, Low16, Represents, Settled, Drained, InOrder;
      ghost var k := if initialized then Unwrap(ideal.next, p.sequence) else p.sequence;
      ghost var w0 := ideal;
      if !initialized {
        FreshRepresents(ideal, p.sequence);
        initialized := true;
        next := p.sequence;
        pending := map[];
      }
      ideal := Start(w0, k);
      DeltaIs(ideal.next, p.sequence);
      RepresentsNext(next, pending, ideal.next, ideal.pending);
      var delta := SerialDelta(p.sequence, next);
      assert delta == k - ideal.next;
      if delta >= 0 {
        RepresentsInsert(next, pending, ideal.next, ideal.pending, p.sequence, p);
      }
      if delta < 0 || p.sequence in pending {
        RefusalSettles(w0);
        rejected := rejected + 1;
        ideal := ideal.(rejected := ideal.rejected + 1);
        return [], [];
      }
      if delta > 0 {
        reordered := reordered + 1;
      }
      pending := pending[p.sequence := p];
      ideal := Insert(w0, k, p);
      RepresentsSize(next, pending, ideal.next, ideal.pending);
      PushStep(w0, k, p, now);
      out, delivered := Drain(now, |pending| >= FORCE_AT);
      DrainStep(Insert(w0, k, p), now, |Insert(w0, k, p).pending| >= FORCE_AT);
    }

    /** A tick: drain(now, false), also on a window that has seen no packet yet. */
    method Tick(now: int) returns (out: seq<Packet>, ghost delivered: seq<Numbered>)
      requires Valid()
      modifies this
      ensures Valid()
      ensures ideal == Drained(old(ideal), now, false)
      ensures delivered == Output(old(ideal), ideal) && out == Packets(delivered)
    {
      hide Drained, Output, Represents, Settled, InOrder;
      TickStep(ideal, now);
      RepresentsSize(next, pending, ideal.next, ideal.pending);
      if |pending| == 0 {
        return [], [];
      }
      out, delivered := Drain(now, false);
    }

    /** Takes out the packet waited for. */
    method Deliver() returns (p: Packet)
      requires Same() && Drainable(ideal) && next in pending
      modifies this`pending, this`next, this`waiting, this`ideal
      ensures Same() && ideal == Advance(old(ideal), old(ideal).next + 1) && |pending| == |ideal.pending|
      ensures old(ideal).next in old(ideal).pending && p == old(ideal).pending[old(ideal).next]
      ensures |pending| < |old(pending)|
    {
      hide Advance, Represents, Low16;
      HeldAtNext(next, pending, ideal.next, ideal.pending);
      DeliverRepresents(next, pending, ideal);
      p := pending[next];
      pending := pending - {next};
      next := Low16(next + 1);
      waiting := None;
      ideal := Advance(ideal, ideal.next + 1);
      RepresentsSize(next, pending, ideal.next, ideal.pending);
    }

    /** Gives up on the numbers before the nearest packet held. */
    method Skip()
      requires Same() && Drainable(ideal) && exists k :: k in ideal.pending
      modifies this`next, this`lost, this`waiting, this`ideal
      ensures Same() && ideal == SkipGap(old(ideal)) && ideal.pending == old(ideal.pending)
    {
      hide SkipGap, Represents, Low16, Unwrap, Smallest;
      SkipRepresents(next, pending, ideal);
      var distance := Nearest(next, pending, ideal.next, ideal.pending);
      lost := lost + distance;
      next := Low16(next + distance);
      waiting := None;
      ideal := SkipGap(ideal);
    }

    /** The drain loop; `force` outlives deliveries and is spent on the first gap skipped. */
    method Drain(now: int, force: bool) returns (out: seq<Packet>, ghost delivered: seq<Numbered>)
      requires Same() && Drainable(ideal)
      modifies this
      ensures Same()
      ensures ideal == Drained(old(ideal), now, force)
      ensures delivered == Output(old(ideal), ideal) && out == Packets(delivered)
    {
      hide Drained, Output, SkipGap, Advance, Represents, Low16, Unwrap, Smallest, InOrder, From, RunLength;
      out, delivered := [], [];
      ghost var v := Drained(ideal, now, force);
      var forced := force;
      HeldAtNext(next, pending, ideal.next, ideal.pending);
      while |pending| > 0
        invariant Same() && Drainable(ideal) && |pending| == |ideal.pending|
        invariant v == Drained(ideal, now, forced)
        invariant delivered + Output(ideal, v) == Output(old(ideal), v)
        invariant out == Packets(delivered)
        decreases |pending|, if ideal.next in ideal.pending then 0 else 1
      {
        ghost var w := ideal;
        HeldAtNext(next, pending, w.next, w.pending);
        if next in pending {
          DrainDeliver(w, now, forced);
          var p := Deliver();
          out := out + [p];
          delivered := delivered + [Numbered(w.next, p)];
          continue;
        }
        if waiting.None? {
          waiting := Some(now);
        }
        if !forced && now - waiting.value < GAP_TIMEOUT {
          DrainWait(w, now);
          ideal := v;
          break;
        }
        DrainSkip(w, now, forced);
        SkipForgetsTimer(w, waiting);
        ideal := w.(waiting := waiting);
        Skip();
        forced := false;
      }
      if |pending| == 0 {
        DrainEmpty(ideal, now, forced);
      }
    }
  }

  lemma {:induction false} SkipForgetsTimer(w: Window, t: Option<int>)
    requires exists k :: k in w.pending
    ensures SkipGap(w.(waiting := t)) == SkipGap(w)
  {
  }

  lemma {:induction false} TickStep(w: Window, now: int)
    requires Settled(w) && |w.pending| < FORCE_AT
    ensures w.pending == map[] ==> Drained(w, now, false) == w && Output(w, w) == []
    ensures w.pending != map[] ==> Drainable(w)
    ensures Settled(Drained(w, now, false)) && |Drained(w, now, false).pending| < FORCE_AT
  {
    if w.pending == map[] {
      assert From(w.pending, w.next) == map[];
    } else {
      hide Drained;
      var k := AnyOf(w.pending.Keys);
      DrainStep(w, now, false);
      SmallerSubset(Drained(w, now, false).pending.Keys, w.pending.Keys);
    }
  }

  lemma {:induction false} RefusalSettles(w: Window)
    requires Settled(w)
    ensures Settled(w.(rejected := w.rejected + 1))
  {
  }

  lemma {:induction false} FreshRepresents(w: Window, s: int)
    requires 0 <= s < WRAP
    ensures Represents(s, map[], s, map[]) && Unwrap(s, s) == s
  {
  }
}
