/** One round of the decoder loop of readRemoteTrack (internal/webrtc/client.go) on the real
    window and clock: CaptureEpoch.dfy proves the interleavings, this class the code. */
module RemoteTrack {
  import opened Basics
  import J = JitterWindow
  import P = PacketWindows
  import T = RemoteTimeline
  import E = CaptureEpoch

  class ReceiveLoop {
    var epoch: nat
    var window: P.PacketWindow
    const clock: T.Concealer
    ghost var admitted: set<J.Packet>  // pushed into the window, all tagged with `epoch`

    ghost predicate Valid()
      reads this, window
    {
      window.Valid() && forall k :: k in window.ideal.pending ==> window.ideal.pending[k] in admitted
    }

    constructor (current: nat, codec: T.Codec)
      ensures Valid() && epoch == current && admitted == {} && fresh(window) && fresh(clock)
      ensures clock.previousSamples == 0
    {
      epoch := current;
      window := new P.PacketWindow();
      clock := new T.Concealer(codec);
      admitted := {};
    }

    method StartOver()
      modifies this`window, this`admitted, clock
      ensures Valid() && fresh(window) && window.ideal == J.Fresh && admitted == {} && clock.previousSamples == 0
    {
      window := new P.PacketWindow();
      clock.Reset();
      admitted := {};
    }

    /** The load at the top of the loop and on every tick. */
    method CatchUp(current: nat)
      requires Valid()
      modifies this, clock
      ensures Valid() && epoch == current
      ensures old(epoch) == current ==> window == old(window) && admitted == old(admitted) && clock.Now() == old(clock.Now())
      ensures old(epoch) != current ==>
                fresh(window) && window.ideal == J.Fresh && admitted == {} && clock.previousSamples == 0
    {
      if current != epoch {
        epoch := current;
        StartOver();
      }
    }

    /** A received packet: `current` is the counter as loaded just then. A stale one is
        dropped with everything held; a current one is pushed into the window of its epoch,
        and only packets admitted under that epoch come out. */
    method OnPacket(p: J.Packet, tag: nat, current: nat, now: int) returns (batch: seq<J.Packet>)
      requires Valid() && 0 <= p.sequence < P.WRAP
      modifies this, window, clock
      ensures Valid() && (window == old(window) || fresh(window))
      ensures tag != current ==> batch == [] && admitted == {} && clock.previousSamples == 0 && epoch == old(epoch)
      ensures tag != current ==> window.ideal == J.Fresh
      ensures tag == current ==> epoch == tag && admitted == (if old(epoch) == tag then old(admitted) else {}) + {p}
      ensures tag == current ==>
                && batch == Handed(WindowFor(old(epoch), old(window.ideal), tag), p, now)
                && window.ideal == Held(WindowFor(old(epoch), old(window.ideal), tag), p, now)
      ensures tag == current && old(epoch) == tag ==> clock.Now() == old(clock.Now())
      ensures tag == current && old(epoch) != tag ==> clock.previousSamples == 0
      ensures forall i :: 0 <= i < |batch| ==> batch[i] in admitted
    {
      hide Handed, Held;
      if tag != current {
        StartOver();
        return [];
      }
      CatchUp(tag);
      batch := Push(p, now);
    }

    method Push(p: J.Packet, now: int) returns (batch: seq<J.Packet>)
      requires Valid() && 0 <= p.sequence < P.WRAP
      modifies window, this`admitted
      ensures Valid() && admitted == old(admitted) + {p}
      ensures batch == Handed(old(window.ideal), p, now) && window.ideal == Held(old(window.ideal), p, now)
      ensures forall i :: 0 <= i < |batch| ==> batch[i] in admitted
    {
      hide J.Pushed, J.PushedOutput, J.Settled, P.Taken, P.Represents;
      ghost var w := window.ideal;
      ghost var known := admitted + {p};
      E.PushInventsNothing(w, P.Taken(w, p), p, now, q => q in known);
      ghost var delivered;
      batch, delivered := window.Push(p, now);
      admitted := known;
    }

    /** A tick catches up with the counter and drains the window. */
    method OnTick(current: nat, now: int) returns (batch: seq<J.Packet>)
      requires Valid()
      modifies this, window, clock
      ensures Valid() && epoch == current && (window == old(window) || fresh(window))
      ensures admitted == if old(epoch) == current then old(admitted) else {}
      ensures var w := WindowFor(old(epoch), old(window.ideal), current);
              && window.ideal == J.Drained(w, now, false)
              && batch == P.Packets(J.Output(w, window.ideal))
      ensures old(epoch) == current ==> clock.Now() == old(clock.Now())
      ensures old(epoch) != current ==> clock.previousSamples == 0
      ensures forall i :: 0 <= i < |batch| ==> batch[i] in admitted
    {
      hide J.Drained, J.Output;
      CatchUp(current);
      batch := Release(now);
    }

    method Release(now: int) returns (batch: seq<J.Packet>)
      requires Valid()
      modifies window
      ensures Valid()
      ensures window.ideal == J.Drained(old(window.ideal), now, false)
      ensures batch == P.Packets(J.Output(old(window.ideal), window.ideal))
      ensures forall i :: 0 <= i < |batch| ==> batch[i] in admitted
    {
      hide J.Drained, J.Output, J.Settled, P.Represents;
      ghost var w := window.ideal;
      ghost var known := admitted;
      TickInventsNothing(w, now, q => q in known);
      ghost var delivered;
      batch, delivered := window.Tick(now);
    }

    /** The batch goes through decoder and concealment, whatever the decoder makes of the
        Opus packets; mu-law always decodes. */
    method Play(batch: seq<J.Packet>) returns (pieces: seq<T.Piece>, ghost arrivals: seq<T.Arrival>)
      modifies clock
      ensures Heard(batch, arrivals, clock.codec)
      ensures pieces == T.Play(old(clock.Now()), clock.codec, arrivals)
      ensures clock.Now() == T.ClockAfter(old(clock.Now()), arrivals)
    {
      var heard: seq<T.Arrival> := [];
      for i := 0 to |batch|
        invariant Heard(batch[..i], heard, clock.codec)
      {
        var outcome: Option<nat>, plc: bool := *, *;
        if clock.codec.Pcmu? {
          outcome := Some(T.PcmuSamples(|batch[i].payload|));
        }
        heard := heard + [T.Arrival(batch[i].timestamp, outcome, plc)];
      }
      arrivals := heard;
      assert batch[..|batch|] == batch;
      pieces := clock.Process(heard);
    }

    /** One received packet, from the queue to the delivered pieces. */
    method Round(p: J.Packet, tag: nat, current: nat, now: int)
      returns (pieces: seq<T.Piece>, ghost batch: seq<J.Packet>, ghost arrivals: seq<T.Arrival>)
      requires Valid() && 0 <= p.sequence < P.WRAP
      modifies this, window, clock
      ensures Valid() && Heard(batch, arrivals, clock.codec)
      ensures forall i :: 0 <= i < |batch| ==> batch[i] in admitted
      ensures tag != current ==> pieces == []
      ensures tag == current ==> batch == Handed(WindowFor(old(epoch), old(window.ideal), tag), p, now)
      ensures tag == current && old(epoch) == tag ==> pieces == T.Play(old(clock.Now()), clock.codec, arrivals)
      ensures tag == current && old(epoch) != tag ==> exists c: T.Clock :: c.previous == 0 && pieces == T.Play(c, clock.codec, arrivals)
    {
      hide Handed, Held;
      var out := OnPacket(p, tag, current, now);
      batch := out;
      ghost var c := clock.Now();
      pieces, arrivals := Play(out);
    }
  }

  /** The window a packet of epoch `tag` meets. */
  function WindowFor(epoch: nat, w: J.Window, tag: nat): J.Window { if epoch == tag then w else J.Fresh }

  /** What the window hands out, and what it becomes. */
  ghost function Handed(w: J.Window, p: J.Packet, now: int): seq<J.Packet>
  {
    P.Packets(J.PushedOutput(w, P.Taken(w, p), p, now))
  }

  ghost function Held(w: J.Window, p: J.Packet, now: int): J.Window { J.Pushed(w, P.Taken(w, p), p, now) }

  /** The packets as the decode loop hears them. */
  ghost predicate Heard(batch: seq<J.Packet>, arrivals: seq<T.Arrival>, codec: T.Codec)
  {
    && |arrivals| == |batch|
    && forall i :: 0 <= i < |batch| ==>
         && arrivals[i].timestamp == batch[i].timestamp
         && (codec.Pcmu? ==> arrivals[i].decoded == Some(T.PcmuSamples(|batch[i].payload|)))
  }

  lemma {:induction false} TickInventsNothing(w: J.Window, now: int, good: J.Packet -> bool)
    requires J.Settled(w) && |w.pending| < J.FORCE_AT && forall i :: i in w.pending ==> good(w.pending[i])
    ensures var v := J.Drained(w, now, false);
            && (forall i :: 0 <= i < |J.Output(w, v)| ==> good(J.Output(w, v)[i].packet))
            && (forall i :: i in v.pending ==> good(v.pending[i]))
  {
    hide J.Drained, J.Output;
    P.TickStep(w, now);
    if w.pending != map[] {
      E.DrainInventsNothing(w, now, false, good);
    }
  }
}
