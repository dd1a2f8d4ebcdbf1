/** The receive jitter window of internal/webrtc/jitter.go.

    `Window` is the window on unbounded packet numbers: it has no wrap-around and
    says in closed form what one call does. PacketWindows.dfy holds the class on
    16-bit sequence numbers, proved to take exactly these steps. Times are integers
    in nanoseconds. */
module JitterWindow {
  import opened Basics

  /** An RTP packet; the payload is opaque here. */
  datatype Packet = Packet(sequence: int, timestamp: int, payload: seq<int>)

  /** A packet together with its unwrapped number. */
  datatype Numbered = Numbered(number: int, packet: Packet)

  const GAP_TIMEOUT := 40_000_000
  const FORCE_AT := 4

  // ---------- the window on unbounded numbers ----------

  datatype Window = Window(
    started: bool, next: int, pending: map<int, Packet>, waiting: Option<int>,
    lost: nat, reordered: nat, rejected: nat)

  const Fresh := Window(false, 0, map[], None, 0, 0, 0)

  /** The packets held at numbers a..b, in number order. */
  ghost function InOrder(pending: map<int, Packet>, a: int, b: int): seq<Numbered>
    decreases b - a
  {
    if a >= b then []
    else InOrder(pending, a, b - 1) + (if b - 1 in pending then [Numbered(b - 1, pending[b - 1])] else [])
  }

  /** The packets held at numbers from `next` on. */
  ghost function From(pending: map<int, Packet>, next: int): map<int, Packet>
  {
    map k | k in pending && next <= k :: pending[k]
  }

  /** Length of the run of consecutive numbers present from `next` on. */
  ghost function RunLength(next: int, keys: set<int>): (n: nat)
    ensures forall i :: next <= i < next + n ==> i in keys
    ensures next + n !in keys
    decreases keys
  {
    if next in keys then 1 + RunLength(next + 1, keys - {next}) else 0
  }

  ghost function Smallest(keys: set<int>): (m: int)
    requires exists k :: k in keys
    ensures m in keys
    ensures forall k :: k in keys ==> m <= k
  {
    var x :| x in keys;
    assert forall k :: k in keys ==> k == x || k in keys - {x};
    if exists y :: y in keys - {x} then
      var m := Smallest(keys - {x});
      if m < x then m else x
    else x
  }

  /** Deliver everything up to `to`; a delivery closes the open gap. */
  ghost function Advance(w: Window, to: int): Window
  {
    w.(next := to, pending := From(w.pending, to), waiting := if to > w.next then None else w.waiting)
  }

  /** Give up on the numbers before the smallest one held. */
  ghost function SkipGap(w: Window): Window
    requires exists k :: k in w.pending
  {
    var m := Smallest(w.pending.Keys);
    w.(next := m, lost := if m < w.next then w.lost else w.lost + (m - w.next), waiting := None)
  }

  /** The window after one drain: deliver the run at `next`; if packets remain behind
      a gap, either wait, or skip that one gap and deliver the run after it. */
  ghost function Drained(w: Window, now: int, force: bool): Window
  {
    AtGap(Advance(w, w.next + RunLength(w.next, w.pending.Keys)), now, force)
  }

  /** The rest of a drain once nothing is deliverable. */
  ghost function AtGap(w1: Window, now: int, force: bool): Window
  {
    if !exists k :: k in w1.pending then w1
    else
      var since := w1.waiting.GetOr(now);
      if !force && now - since < GAP_TIMEOUT then w1.(waiting := Some(since))
      else
        var w2 := SkipGap(w1);
        var w3 := Advance(w2, w2.next + RunLength(w2.next, w2.pending.Keys));
        if exists k :: k in w3.pending then w3.(waiting := Some(now)) else w3
  }

  /** What a call that takes w to v hands to the decoder. */
  ghost function Output(w: Window, v: Window): seq<Numbered>
  {
    InOrder(w.pending, w.next, v.next)
  }

  ghost function Start(w: Window, k: int): Window
  {
    if w.started then w else w.(started := true, next := k, pending := map[])
  }

  ghost predicate Accepts(w: Window, k: int)
  {
    !w.started || (w.next <= k && k !in w.pending)
  }

  ghost function Insert(w: Window, k: int, p: Packet): Window
  {
    var s := Start(w, k);
    s.(reordered := if k > s.next then s.reordered + 1 else s.reordered, pending := s.pending[k := p])
  }

  /** An arrival numbered k, then a drain, forced when four packets are held. */
  ghost function Pushed(w: Window, k: int, p: Packet, now: int): Window
  {
    if !Accepts(w, k) then w.(rejected := w.rejected + 1)
    else
      var a := Insert(w, k, p);
      Drained(a, now, |a.pending| >= FORCE_AT)
  }

  /** Packets handed to the decoder by that arrival. */
  ghost function PushedOutput(w: Window, k: int, p: Packet, now: int): seq<Numbered>
  {
    if !Accepts(w, k) then [] else Output(Insert(w, k, p), Pushed(w, k, p, now))
  }

  // ---------- one call ----------

  lemma {:induction false} InOrderSplit(pending: map<int, Packet>, a: int, m: int, b: int)
    requires a <= m <= b
    ensures InOrder(pending, a, b) == InOrder(pending, a, m) + InOrder(pending, m, b)
    decreases b - m
  {
    if m < b { InOrderSplit(pending, a, m, b - 1); }
  }

  lemma {:induction false} InOrderSame(p: map<int, Packet>, q: map<int, Packet>, a: int, b: int)
    requires forall k :: a <= k < b ==> (k in p <==> k in q) && (k in p ==> p[k] == q[k])
    ensures InOrder(p, a, b) == InOrder(q, a, b)
    decreases b - a
  {
    if a < b { InOrderSame(p, q, a, b - 1); }
  }

  lemma {:induction false} InOrderFull(pending: map<int, Packet>, a: int, b: int)
    requires a <= b && forall k :: a <= k < b ==> k in pending
    ensures |InOrder(pending, a, b)| == b - a
    decreases b - a
  {
    if a < b { InOrderFull(pending, a, b - 1); }
  }

  lemma {:induction false} InOrderNone(pending: map<int, Packet>, a: int, b: int)
    requires forall k :: a <= k < b ==> k !in pending
    ensures InOrder(pending, a, b) == []
    decreases b - a
  {
    if a < b { InOrderNone(pending, a, b - 1); }
  }

  ghost predicate Increasing(out: seq<Numbered>)
  {
    forall i, j :: 0 <= i < j < |out| ==> out[i].number < out[j].number
  }

  ghost predicate Within(out: seq<Numbered>, a: int, b: int)
  {
    forall i :: 0 <= i < |out| ==> a <= out[i].number < b
  }

  lemma {:induction false} InOrderIncreasing(pending: map<int, Packet>, a: int, b: int)
    ensures Increasing(InOrder(pending, a, b)) && Within(InOrder(pending, a, b), a, b)
    decreases b - a
  {
    if a < b { InOrderIncreasing(pending, a, b - 1); }
  }

  /** Does a drain of w skip a gap? It must have packets behind a gap, and be forced,
      or find that gap (not one opened by this call) already open for 40 ms. */
  ghost predicate Skips(w: Window, now: int, force: bool)
  {
    var n := RunLength(w.next, w.pending.Keys);
    && (exists k :: k in w.pending && k > w.next + n)
    && (force || (n == 0 && w.waiting.Some? && now - w.waiting.value >= GAP_TIMEOUT))
  }

  /** What holds between calls: nothing held is deliverable, and a gap is timed
      exactly while packets wait behind it. */
  ghost predicate Settled(w: Window)
  {
    && (!w.started ==> w.pending == map[] && w.lost == 0)
    && (forall k :: k in w.pending ==> w.next < k)
    && (w.waiting.Some? <==> exists k :: k in w.pending)
  }

  /** A window that a drain may start from. */
  ghost predicate Drainable(w: Window)
  {
    && w.started && (forall k :: k in w.pending ==> w.next <= k)
    && (w.waiting.Some? ==> exists k :: k in w.pending)
  }

  /** Delivering the run at `next` leaves exactly what lies behind the first hole. */
  lemma {:induction false} FirstRun(w: Window)
    requires Drainable(w)
    ensures var n1 := w.next + RunLength(w.next, w.pending.Keys);
            var w1 := Advance(w, n1);
            && n1 !in w.pending && (forall k :: k in w1.pending <==> k in w.pending && k > n1)
            && (forall k :: k in w.pending && n1 <= k ==> k > n1)
            && ((exists k :: k in w1.pending) <==> exists k :: k in w.pending && k > n1)
            && (w1.waiting.Some? ==> n1 == w.next && w1.waiting == w.waiting)
  {
    var n1 := w.next + RunLength(w.next, w.pending.Keys);
    var w1 := Advance(w, n1);
    if k :| k in w.pending && k > n1 {
      assert k in w1.pending;
    }
  }

  lemma {:induction false} FromFrom(pending: map<int, Packet>, a: int, b: int)
    requires a <= b
    ensures From(From(pending, a), b) == From(pending, b)
  {
  }

  lemma {:induction false} DrainStays(w: Window, now: int, force: bool)
    requires Drainable(w) && !Skips(w, now, force)
    ensures var v := Drained(w, now, force);
            && v.next == w.next + RunLength(w.next, w.pending.Keys)
            && v.pending == From(w.pending, v.next) && v.lost == w.lost && Settled(v)
            && (v.waiting.Some? ==> v.waiting.value == (if v.next == w.next then w.waiting.GetOr(now) else now))
  {
    FirstRun(w);
    hide RunLength, From, SkipGap;
  }

  /** From a window with nothing deliverable: the smallest number held is reached, and
      everything before it is counted lost. */
  lemma {:induction false} GapSkipped(w1: Window, now: int, force: bool) returns (m: int)
    requires w1.started && (forall k :: k in w1.pending ==> k > w1.next) && exists k :: k in w1.pending
    requires force || now - w1.waiting.GetOr(now) >= GAP_TIMEOUT
    ensures var v := AtGap(w1, now, force);
            && v.pending == From(w1.pending, v.next) && Settled(v)
            && w1.next < m < v.next && v.lost == w1.lost + (m - w1.next)
            && (forall i :: w1.next <= i < m ==> i !in w1.pending)
            && (forall i :: m <= i < v.next ==> i in w1.pending)
  {
    var w2 := SkipGap(w1);
    m := w2.next;
    hide Smallest;
    LandsOnRun(w2);
    hide RunLength;
  }

  lemma {:induction false} LandsOnRun(w: Window)
    requires w.next in w.pending
    ensures RunLength(w.next, w.pending.Keys) > 0
    ensures var n := w.next + RunLength(w.next, w.pending.Keys);
            n !in w.pending && forall i :: w.next <= i < n ==> i in w.pending
  {
  }

  lemma {:induction false} DrainSkips(w: Window, now: int, force: bool) returns (m: int)
    requires Drainable(w) && Skips(w, now, force)
    ensures var v := Drained(w, now, force);
            var n1 := w.next + RunLength(w.next, w.pending.Keys);
            && v.pending == From(w.pending, v.next) && Settled(v)
            && n1 < m < v.next && v.lost == w.lost + (m - n1)
            && (forall i :: n1 <= i < m ==> i !in w.pending)
            && (forall i :: m <= i < v.next ==> i in w.pending)
  {
    hide RunLength, From, AtGap, Advance, Drainable, Skips, Settled;
    var n1 := w.next + RunLength(w.next, w.pending.Keys);
    var w1 := Advance(w, n1);
    assert Drained(w, now, force) == AtGap(w1, now, force);
    SkipsMeans(w, now, force);
    hide Drained;
    m := GapSkipped(w1, now, force);
    FromFrom(w.pending, n1, AtGap(w1, now, force).next);
    FromKeeps(w.pending, n1);
  }

  lemma {:induction false} FromKeeps(pending: map<int, Packet>, a: int)
    ensures forall i :: a <= i ==> (i in pending <==> i in From(pending, a))
  {
  }

  lemma {:induction false} SkipsMeans(w: Window, now: int, force: bool)
    requires Drainable(w) && Skips(w, now, force)
    ensures var n1 := w.next + RunLength(w.next, w.pending.Keys);
            var w1 := Advance(w, n1);
            && w1.started && w1.next == n1 && w1.lost == w.lost && w1.pending == From(w.pending, n1)
            && (forall k :: k in w1.pending ==> k > n1) && (exists k :: k in w1.pending)
            && (force || now - w1.waiting.GetOr(now) >= GAP_TIMEOUT)
  {
    FirstRun(w);
    hide RunLength, From;
  }

  /** One drain: it leaves nothing deliverable, drops from `pending` exactly what it
      delivers, `next` advances by what was delivered or counted lost, and it counts
      a loss exactly when it skips. */
  lemma {:induction false} DrainStep(w: Window, now: int, force: bool)
    requires Drainable(w)
    ensures var v := Drained(w, now, force);
            && Settled(v) && w.next <= v.next && v.pending == From(w.pending, v.next)
            && v.next - w.next == |Output(w, v)| + v.lost - w.lost && v.lost >= w.lost
            && (v.lost > w.lost <==> Skips(w, now, force))
            && v.started == w.started && v.reordered == w.reordered && v.rejected == w.rejected
  {
    hide Skips, Settled;
    var n1 := w.next + RunLength(w.next, w.pending.Keys);
    InOrderFull(w.pending, w.next, n1);
    var v := Drained(w, now, force);
    if Skips(w, now, force) {
      var m := DrainSkips(w, now, force);
      InOrderSplit(w.pending, w.next, n1, v.next);
      InOrderSplit(w.pending, n1, m, v.next);
      InOrderNone(w.pending, n1, m);
      InOrderFull(w.pending, m, v.next);
    } else {
      DrainStays(w, now, force);
    }
  }

  lemma {:induction false} DrainUnstarted(w: Window, now: int)
    requires Settled(w) && !w.started
    ensures Drained(w, now, false) == w && Output(w, w) == []
  {
    assert From(w.pending, w.next) == map[];
  }

  /** One accepted arrival: every step a drain makes, and at most three packets are
      held afterwards. */
  lemma {:induction false} PushStep(w: Window, k: int, p: Packet, now: int)
    requires Settled(w) && |w.pending| < FORCE_AT && Accepts(w, k)
    ensures var a := Insert(w, k, p);
            var v := Pushed(w, k, p, now);
            && Drainable(a) && v == Drained(a, now, |a.pending| >= FORCE_AT) && |v.pending| < FORCE_AT
  {
    var a := Insert(w, k, p);
    var force := |a.pending| >= FORCE_AT;
    assert k in a.pending;
    assert |a.pending| == |Start(w, k).pending| + 1;
    assert a.pending != map[];
    var v := Drained(a, now, force);
    if Skips(a, now, force) {
      var m := DrainSkips(a, now, force);
      assert m in a.pending && m !in v.pending;
    } else {
      DrainStays(a, now, force);
      if force {
        assert v.next > a.next;
        assert a.next in a.pending && a.next !in v.pending;
      }
    }
    SmallerSubset(v.pending.Keys, a.pending.Keys);
  }

  /** An arrival is refused exactly when its number is behind `next` or already held, and
      counted as reordered exactly when it is accepted ahead of `next`. */
  lemma {:induction false} RefusedIff(w: Window, k: int, p: Packet, now: int)
    requires Settled(w) && |w.pending| < FORCE_AT
    ensures var v := Pushed(w, k, p, now);
            var refused := w.started && (k < w.next || k in w.pending);
            && v.rejected == w.rejected + (if refused then 1 else 0)
            && v.reordered == w.reordered + (if w.started && !refused && k > w.next then 1 else 0)
            && (refused ==> v == w.(rejected := w.rejected + 1) && PushedOutput(w, k, p, now) == [])
            && (!refused ==> v.started && (k in v.pending || Numbered(k, p) in PushedOutput(w, k, p, now)))
  {
    if Accepts(w, k) {
      var a := Insert(w, k, p);
      PushStep(w, k, p, now);
      hide Drained, InOrder, Settled, Skips;
      DrainStep(a, now, |a.pending| >= FORCE_AT);
      var v := Pushed(w, k, p, now);
      HandedOrHeld(a.pending, a.next, v.next, k);
    }
  }

  lemma {:induction false} HandedOrHeld(pending: map<int, Packet>, a: int, b: int, k: int)
    requires k in pending && a <= k
    ensures k in From(pending, b) || Numbered(k, pending[k]) in InOrder(pending, a, b)
    decreases b - a
  {
    if a < b && k != b - 1 && k < b {
      HandedOrHeld(pending, a, b - 1, k);
    }
  }

  /** How long a gap has been open: since the call that first found packets behind it. A
      delivery or a skip starts the next gap's time afresh. */
  lemma {:induction false} TimerIs(w: Window, now: int, force: bool)
    requires Drainable(w)
    ensures var v := Drained(w, now, force);
            v.waiting == if !(exists k :: k in v.pending) then None
                         else if v.next == w.next && w.waiting.Some? then w.waiting
                         else Some(now)
  {
    FirstRun(w);
    AtGapTimer(Advance(w, w.next + RunLength(w.next, w.pending.Keys)), now, force);
    hide RunLength, From, AtGap;
  }

  lemma {:induction false} AtGapTimer(w1: Window, now: int, force: bool)
    requires forall k :: k in w1.pending ==> k > w1.next
    requires w1.waiting.Some? ==> exists k :: k in w1.pending
    ensures var v := AtGap(w1, now, force);
            && v.next >= w1.next
            && v.waiting == if !(exists k :: k in v.pending) then None
                            else if v.next == w1.next then Some(w1.waiting.GetOr(now))
                            else Some(now)
  {
    if exists k :: k in w1.pending {
      var w2 := SkipGap(w1);
      assert w2.next in w1.pending;
    }
    hide RunLength, Smallest;
  }

  /** Exactly when an accepted arrival makes the window give up on a gap. */
  lemma {:induction false} PushLosesIff(w: Window, k: int, p: Packet, now: int)
    requires Settled(w) && |w.pending| < FORCE_AT && Accepts(w, k) && w.started
    ensures var held := w.pending.Keys + {k};
            Pushed(w, k, p, now).lost > w.lost
            <==> (exists i :: i in held && i > w.next + RunLength(w.next, held))
                 && (|w.pending| == 3 || (k > w.next && w.waiting.Some? && now - w.waiting.value >= GAP_TIMEOUT))
  {
    var a := Insert(w, k, p);
    PushStep(w, k, p, now);
    DrainStep(a, now, |a.pending| >= FORCE_AT);
    assert a.pending.Keys == w.pending.Keys + {k};
  }

  // ---------- whole runs ----------

  datatype Call = Arrive(number: int, packet: Packet, now: int) | Tick(at: int) {
    /** The time of the call. */
    function Time(): int { if Arrive? then now else at }
  }

  ghost function Step(w: Window, c: Call): Window
  {
    match c
    case Arrive(k, p, now) => Pushed(w, k, p, now)
    case Tick(now) => Drained(w, now, false)
  }

  ghost function StepOutput(w: Window, c: Call): seq<Numbered>
  {
    match c
    case Arrive(k, p, now) => PushedOutput(w, k, p, now)
    case Tick(now) => Output(w, Drained(w, now, false))
  }

  ghost function Run(calls: seq<Call>): Window
  {
    if calls == [] then Fresh else Step(Run(calls[..|calls| - 1]), calls[|calls| - 1])
  }

  ghost function RunOutput(calls: seq<Call>): seq<Numbered>
  {
    if calls == [] then []
    else
      var w := Run(calls[..|calls| - 1]);
      RunOutput(calls[..|calls| - 1]) + StepOutput(w, calls[|calls| - 1])
  }

  ghost function Arrived(calls: seq<Call>): seq<Numbered>
  {
    if calls == [] then []
    else
      Arrived(calls[..|calls| - 1]) + Arrival(calls[|calls| - 1])
  }

  ghost function Rejected(calls: seq<Call>): seq<Numbered>
  {
    if calls == [] then []
    else
      Rejected(calls[..|calls| - 1]) + Refusal(Run(calls[..|calls| - 1]), calls[|calls| - 1])
  }

  ghost function Held(pending: map<int, Packet>): multiset<Numbered>
  {
    multiset(set k | k in pending :: Numbered(k, pending[k]))
  }

  lemma {:induction false} InOrderHeld(pending: map<int, Packet>, a: int, b: int)
    requires a <= b && forall k :: k in pending ==> a <= k
    ensures Held(pending) == multiset(InOrder(pending, a, b)) + Held(From(pending, b))
    decreases b - a
  {
    hide Held, From;
    if a == b {
      FromSame(pending, a);
    } else {
      InOrderHeld(pending, a, b - 1);
      HeldOne(pending, b - 1);
    }
  }

  lemma {:induction false} FromSame(pending: map<int, Packet>, a: int)
    requires forall k :: k in pending ==> a <= k
    ensures From(pending, a) == pending
  {
  }

  lemma {:induction false} HeldOne(pending: map<int, Packet>, k: int)
    ensures Held(From(pending, k))
         == Held(From(pending, k + 1)) + (if k in pending then multiset{Numbered(k, pending[k])} else multiset{})
  {
    hide Held;
    if k in pending {
      HeldInsert(From(pending, k + 1), k, pending[k]);
      assert From(pending, k) == From(pending, k + 1)[k := pending[k]];
    } else {
      assert From(pending, k) == From(pending, k + 1);
    }
  }

  lemma {:induction false} HeldInsert(pending: map<int, Packet>, k: int, p: Packet)
    requires k !in pending
    ensures Held(pending[k := p]) == Held(pending) + multiset{Numbered(k, p)}
  {
    var q := pending[k := p];
    var s := set i | i in pending :: Numbered(i, pending[i]);
    var t := set i | i in q :: Numbered(i, q[i]);
    assert t == s + {Numbered(k, p)} by {
      forall x ensures x in t <==> x in s + {Numbered(k, p)} {
        assert x in s ==> x.number in q;
        assert k in q;
      }
    }
    assert Numbered(k, p) !in s;
  }

  /** What every run from a fresh window keeps: at most three packets are held between
      calls; the output is strictly increasing (so nothing is delivered twice);
      delivered, held and rejected packets are together exactly the arrivals; and
      `next` minus the first number is what was delivered plus what was counted lost. */
  ghost predicate Accounted(w: Window, out: seq<Numbered>, arrived: seq<Numbered>, rejected: seq<Numbered>)
  {
    && Settled(w) && |w.pending| < FORCE_AT && (w.started <==> arrived != [])
    && (!w.started ==> out == [])
    && Increasing(out)
    && (w.started ==> arrived[0].number <= w.next)
    && multiset(arrived) == multiset(out) + Held(w.pending) + multiset(rejected)
    && |rejected| == w.rejected
    && (w.started ==>
          && Within(out, arrived[0].number, w.next)
          && w.next - arrived[0].number == |out| + w.lost)
  }

  lemma {:induction false} RunAccounted(calls: seq<Call>)
    ensures Accounted(Run(calls), RunOutput(calls), Arrived(calls), Rejected(calls))
  {
    hide Accounted;
    if calls == [] {
      FreshAccounted();
    } else {
      var front, c := calls[..|calls| - 1], calls[|calls| - 1];
      RunAccounted(front);
      StepAccounted(Run(front), c, RunOutput(front), Arrived(front), Rejected(front));
    }
  }

  lemma {:induction false} FreshAccounted()
    ensures Accounted(Fresh, [], [], [])
  {
    assert Held(map[]) == multiset{};
  }

  ghost function Arrival(c: Call): seq<Numbered>
  {
    if c.Arrive? then [Numbered(c.number, c.packet)] else []
  }

  ghost function Refusal(w: Window, c: Call): seq<Numbered>
  {
    if c.Arrive? && !Accepts(w, c.number) then [Numbered(c.number, c.packet)] else []
  }

  lemma {:induction false} JoinIncreasing(a: seq<Numbered>, b: seq<Numbered>, lo: int, m: int, hi: int)
    requires Increasing(a) && Increasing(b) && Within(a, lo, m) && Within(b, m, hi) && lo <= m <= hi
    ensures Increasing(a + b) && Within(a + b, lo, hi)
  {
  }

  lemma {:induction false} BagsJoin<T>(a: multiset<T>, a': multiset<T>, o: multiset<T>, o': multiset<T>,
                    h: multiset<T>, h': multiset<T>, r: multiset<T>, r': multiset<T>)
    requires a == o + h + r && h + a' == o' + h' + r'
    ensures a + a' == (o + o') + h' + (r + r')
  {
    assert a + a' == o + (h + a') + r;
  }

  lemma {:induction false} AccountedJoin(w: Window, v: Window, out: seq<Numbered>, arrived: seq<Numbered>, rejected: seq<Numbered>,
                      more: seq<Numbered>, arrival: seq<Numbered>, refusal: seq<Numbered>, start: int)
    requires Accounted(w, out, arrived, rejected)
    requires Settled(v) && |v.pending| < FORCE_AT && (v.started <==> arrived + arrival != []) && |arrival| <= 1
    requires Increasing(more) && Within(more, start, v.next) && start <= v.next
    requires v.next - start == |more| + v.lost - w.lost && (!w.started ==> w.lost == 0)
    requires if w.started then start == w.next else if arrival != [] then start == arrival[0].number else more == []
    requires Held(w.pending) + multiset(arrival) == multiset(more) + Held(v.pending) + multiset(refusal)
    requires v.rejected == w.rejected + |refusal|
    ensures Accounted(v, out + more, arrived + arrival, rejected + refusal)
  {
    hide Held, Settled, Increasing, Within;
    BagsJoin(multiset(arrived), multiset(arrival), multiset(out), multiset(more), Held(w.pending), Held(v.pending),
             multiset(rejected), multiset(refusal));
    if w.started {
      assert (arrived + arrival)[0] == arrived[0];
      JoinIncreasing(out, more, arrived[0].number, w.next, v.next);
    } else {
      assert out + more == more && arrived + arrival == arrival;
    }
  }

  lemma {:induction false} StepAccounted(w: Window, c: Call, out: seq<Numbered>, arrived: seq<Numbered>, rejected: seq<Numbered>)
    requires Accounted(w, out, arrived, rejected)
    ensures Accounted(Step(w, c), out + StepOutput(w, c), arrived + Arrival(c), rejected + Refusal(w, c))
  {
    assert Settled(w) && |w.pending| < FORCE_AT && (w.started <==> arrived != []);
    hide *;
    StepMoves(w, c);
    AccountedJoin(w, Step(w, c), out, arrived, rejected, StepOutput(w, c), Arrival(c), Refusal(w, c), Entry(w, c));
  }

  /** Where the window stands when call c starts; the first arrival places it. */
  ghost function Entry(w: Window, c: Call): int
  {
    if c.Arrive? then Start(w, c.number).next else w.next
  }

  /** One call: `next` advances by what it delivers or counts lost, delivery is in order,
      and every packet held or arriving is delivered, held or rejected afterwards. */
  lemma {:induction false} StepMoves(w: Window, c: Call)
    requires Settled(w) && |w.pending| < FORCE_AT
    ensures var v := Step(w, c);
            var more := StepOutput(w, c);
            var start := Entry(w, c);
            && (if w.started then start == w.next else if c.Arrive? then start == c.number else more == [])
            && |Arrival(c)| == (if c.Arrive? then 1 else 0) && (c.Arrive? ==> Arrival(c)[0].number == c.number)
            && Settled(v) && |v.pending| < FORCE_AT && (v.started <==> w.started || c.Arrive?)
            && start <= v.next && Increasing(more) && Within(more, start, v.next)
            && v.next - start == |more| + v.lost - w.lost
            && Held(w.pending) + multiset(Arrival(c)) == multiset(more) + Held(v.pending) + multiset(Refusal(w, c))
            && v.rejected == w.rejected + |Refusal(w, c)|
            && (!w.started ==> w.lost == 0)
  {
    hide InOrder, Drained, Held;
    if c.Arrive? && !Accepts(w, c.number) {
    } else {
      var a := if c.Arrive? then Insert(w, c.number, c.packet) else w;
      var v := Step(w, c);
      if c.Arrive? {
        PushStep(w, c.number, c.packet, c.now);
        assert a.pending == w.pending[c.number := c.packet];
        HeldInsert(w.pending, c.number, c.packet);
        DrainStep(a, c.now, |a.pending| >= FORCE_AT);
      } else if w.started {
        DrainStep(a, c.at, false);
        SmallerSubset(v.pending.Keys, a.pending.Keys);
      } else {
        DrainUnstarted(w, c.at);
      }
      InOrderIncreasing(a.pending, a.next, v.next);
      InOrderHeld(a.pending, a.next, v.next);
    }
  }

  // ---------- bounded disorder is undone ----------

  /** A call that meets fewer than four packets and no gap open for 40 ms. */
  ghost predicate Calm(w: Window, c: Call)
  {
    && (c.Arrive? ==> |w.pending| + 1 < FORCE_AT)
    && (w.waiting.Some? ==> c.Time() - w.waiting.value < GAP_TIMEOUT)
  }

  ghost predicate CalmRun(calls: seq<Call>)
  {
    calls == [] || (CalmRun(calls[..|calls| - 1]) && Calm(Run(calls[..|calls| - 1]), calls[|calls| - 1]))
  }

  /** A calm call never gives up on a gap. */
  lemma {:induction false} CalmKeeps(w: Window, c: Call)
    requires Settled(w) && |w.pending| < FORCE_AT && Calm(w, c)
    ensures Step(w, c).lost == w.lost
  {
    if c.Tick? && !w.started {
      DrainUnstarted(w, c.at);
    } else if c.Tick? {
      DrainStep(w, c.at, false);
    } else if Accepts(w, c.number) {
      var a := Insert(w, c.number, c.packet);
      PushStep(w, c.number, c.packet, c.now);
      DrainStep(a, c.now, |a.pending| >= FORCE_AT);
      assert a.pending == w.pending[c.number := c.packet];
    }
  }

  lemma {:induction false} CalmRunLosesNothing(calls: seq<Call>)
    requires CalmRun(calls)
    ensures Run(calls).lost == 0
  {
    if calls != [] {
      var front := calls[..|calls| - 1];
      CalmRunLosesNothing(front);
      RunAccounted(front);
      CalmKeeps(Run(front), calls[|calls| - 1]);
    }
  }

  ghost predicate Distinct(arrived: seq<Numbered>)
  {
    forall i, j :: 0 <= i < j < |arrived| ==> arrived[i].number != arrived[j].number
  }

  lemma {:induction false} Contiguous(out: seq<Numbered>, first: int, i: nat)
    requires Increasing(out) && Within(out, first, first + |out|) && i < |out|
    ensures out[i].number == first + i
  {
    var j := 0;
    while j < i
      invariant j <= i && out[j].number >= first + j
    {
      j := j + 1;
    }
    while j < |out| - 1
      invariant i <= j < |out| && out[j].number - out[i].number >= j - i
    {
      j := j + 1;
    }
  }

  /** Without losses nothing distinct is ever refused. */
  lemma {:induction false} NothingRejected(calls: seq<Call>)
    requires CalmRun(calls) && Distinct(Arrived(calls))
    requires forall i :: 0 <= i < |Arrived(calls)| ==> Arrived(calls)[0].number <= Arrived(calls)[i].number
    ensures Rejected(calls) == []
  {
    hide *;
    LastCall(calls);
    if calls != [] {
      var front, c := calls[..|calls| - 1], calls[|calls| - 1];
      assert forall i :: 0 <= i < |Arrived(front)| ==> Arrived(front)[i] == Arrived(calls)[i];
      NothingRejected(front);
      RunAccounted(front);
      CalmRunLosesNothing(front);
      NothingRefused(Run(front), RunOutput(front), Arrived(front), c);
    }
  }

  lemma {:induction false} LastCall(calls: seq<Call>)
    ensures calls == [] ==> Rejected(calls) == []
    ensures calls != [] ==>
              var front, c := calls[..|calls| - 1], calls[|calls| - 1];
              && Arrived(calls) == Arrived(front) + Arrival(c)
              && Rejected(calls) == Rejected(front) + Refusal(Run(front), c)
              && (CalmRun(calls) ==> CalmRun(front))
              && (Distinct(Arrived(calls)) ==> Distinct(Arrived(front)))
  {
    hide Run, Refusal, Calm;
    if calls != [] {
      DistinctFront(Arrived(calls[..|calls| - 1]), Arrival(calls[|calls| - 1]));
    }
  }

  lemma {:induction false} DistinctFront(a: seq<Numbered>, b: seq<Numbered>)
    ensures Distinct(a + b) ==> Distinct(a)
  {
    assert forall i :: 0 <= i < |a| ==> a[i] == (a + b)[i];
  }

  lemma {:induction false} NothingRefused(w: Window, out: seq<Numbered>, arrived: seq<Numbered>, c: Call)
    requires Accounted(w, out, arrived, []) && w.lost == 0
    requires var all := arrived + Arrival(c);
             Distinct(all) && forall i :: 0 <= i < |all| ==> all[0].number <= all[i].number
    ensures Refusal(w, c) == []
  {
    hide Settled, Held, Increasing, Within;
    if c.Arrive? && arrived != [] {
      var all := arrived + Arrival(c);
      assert all[|arrived|].number == c.number && all[0] == arrived[0];
      assert forall i :: 0 <= i < |arrived| ==> arrived[i] == all[i];
      AcceptsNew(w, out, arrived, c.number);
    }
  }

  lemma {:induction false} AcceptsNew(w: Window, out: seq<Numbered>, arrived: seq<Numbered>, k: int)
    requires Accounted(w, out, arrived, []) && w.lost == 0 && arrived != []
    requires arrived[0].number <= k && forall i :: 0 <= i < |arrived| ==> arrived[i].number != k
    ensures Accepts(w, k)
  {
    hide Settled;
    DeliveredArrived(w, out, arrived);
    if k < w.next {
      Covers(out, arrived[0].number, k);
    }
  }

  lemma {:induction false} Covers(out: seq<Numbered>, first: int, k: int)
    requires Increasing(out) && Within(out, first, first + |out|) && first <= k < first + |out|
    ensures exists x :: x in out && x.number == k
  {
    Contiguous(out, first, k - first);
    assert out[k - first] in out;
  }

  /** With nothing rejected, whatever was delivered or is held has arrived. */
  lemma {:induction false} DeliveredArrived(w: Window, out: seq<Numbered>, arrived: seq<Numbered>)
    requires Accounted(w, out, arrived, [])
    ensures forall x :: x in out ==> exists i :: 0 <= i < |arrived| && arrived[i] == x
    ensures forall k :: k in w.pending ==> exists i :: 0 <= i < |arrived| && arrived[i].number == k
  {
    hide Settled;
    forall x | x in out ensures exists i :: 0 <= i < |arrived| && arrived[i] == x {
      assert x in multiset(out);
      assert x in multiset(arrived);
    }
    forall k | k in w.pending ensures exists i :: 0 <= i < |arrived| && arrived[i].number == k {
      assert Numbered(k, w.pending[k]) in Held(w.pending);
      assert Numbered(k, w.pending[k]) in multiset(arrived);
    }
  }

  lemma {:induction false} RangeSize(s: set<int>, a: int, b: int)
    requires a <= b && forall x :: x in s ==> a <= x < b
    ensures |s| <= b - a
    decreases b - a
  {
    if a == b {
      assert s == {};
    } else {
      RangeSize(s - {b - 1}, a, b - 1);
    }
  }

  lemma {:induction false} HeldSize(pending: map<int, Packet>)
    ensures |Held(pending)| == |pending|
    decreases pending.Keys
  {
    if pending != map[] {
      var k := AnyOf(pending.Keys);
      var rest := map i | i in pending && i != k :: pending[i];
      assert pending == rest[k := pending[k]];
      HeldSize(rest);
      HeldInsert(rest, k, pending[k]);
    } else {
      assert Held(pending) == multiset{};
    }
  }

  lemma {:induction false} HeldWithin(w: Window, out: seq<Numbered>, arrived: seq<Numbered>, top: int)
    requires Accounted(w, out, arrived, []) && forall i :: 0 <= i < |arrived| ==> arrived[i].number < top
    ensures forall k :: k in w.pending ==> w.next + 1 <= k < top
  {
    DeliveredArrived(w, out, arrived);
  }

  /** Main theorem on disorder: if the arrivals are a permutation of consecutive numbers
      beginning with the smallest, and every call is calm, the output is the whole
      sequence in order and nothing is lost, rejected or left behind. */
  lemma {:induction false} DisorderUndone(calls: seq<Call>)
    requires CalmRun(calls) && Arrived(calls) != [] && Distinct(Arrived(calls))
    requires var first := Arrived(calls)[0].number;
             forall i :: 0 <= i < |Arrived(calls)| ==> first <= Arrived(calls)[i].number < first + |Arrived(calls)|
    ensures var w := Run(calls);
            var out := RunOutput(calls);
            && w.lost == 0 && w.rejected == 0 && w.pending == map[]
            && multiset(out) == multiset(Arrived(calls))
            && forall i :: 0 <= i < |out| ==> out[i].number == Arrived(calls)[0].number + i
  {
    hide *;
    RunAccounted(calls);
    CalmRunLosesNothing(calls);
    NothingRejected(calls);
    AllDelivered(Run(calls), RunOutput(calls), Arrived(calls));
  }

  /** Accounting alone forces the order: no loss, no rejection, and no room for a packet
      held behind a gap. */
  lemma {:induction false} AllDelivered(w: Window, out: seq<Numbered>, arrived: seq<Numbered>)
    requires Accounted(w, out, arrived, []) && w.lost == 0 && arrived != []
    requires forall i :: 0 <= i < |arrived| ==> arrived[i].number < arrived[0].number + |arrived|
    ensures w.rejected == 0 && w.pending == map[] && multiset(out) == multiset(arrived)
    ensures forall i :: 0 <= i < |out| ==> out[i].number == arrived[0].number + i
  {
    var first := arrived[0].number;
    HeldSize(w.pending);
    assert |multiset(arrived)| == |arrived| == |out| + |w.pending|;
    HeldWithin(w, out, arrived, first + |arrived|);
    hide Increasing, Within, Settled;
    RangeSize(w.pending.Keys, w.next + 1, if w.next + 1 <= first + |arrived| then first + |arrived| else w.next + 1);
    assert w.pending == map[];
    assert Held(w.pending) == multiset{};
    forall i | 0 <= i < |out| ensures out[i].number == first + i {
      Contiguous(out, first, i);
    }
  }

  // ---------- the forced skip outlives its gap ----------

  /** `force` is decided once, after insertion. When the fourth packet held is the one
      that fills the gap, the flag survives the delivery and the next gap is skipped
      at once, with fewer than four packets behind it and no time elapsed. */
  lemma {:induction false} ForceOutlivesItsGap(p: Packet)
    ensures var calls := [Arrive(0, p, 0), Arrive(2, p, 0), Arrive(4, p, 0), Arrive(6, p, 0)];
            && Run(calls) == Window(true, 1, map[2 := p, 4 := p, 6 := p], Some(0), 0, 3, 0)
            && Run(calls + [Arrive(1, p, 0)]) == Window(true, 5, map[6 := p], Some(0), 1, 3, 0)
  {
    hide Run, Pushed;
    var w1 := Window(true, 1, map[], None, 0, 0, 0);
    var w2 := Window(true, 1, map[2 := p], Some(0), 0, 1, 0);
    var w3 := Window(true, 1, map[2 := p, 4 := p], Some(0), 0, 2, 0);
    var w4 := Window(true, 1, map[2 := p, 4 := p, 6 := p], Some(0), 0, 3, 0);
    var a0, a2, a4, a6 := Arrive(0, p, 0), Arrive(2, p, 0), Arrive(4, p, 0), Arrive(6, p, 0);
    assert RunsTo([a0], w1) by {
      FirstStays(p);
      RunOneMore([], a0);
      assert [] + [a0] == [a0];
    }
    assert RunsTo([a0] + [a2], w2) by {
      StaysBehindGap(w1, 2, p);
      RunOneMore([a0], a2);
    }
    assert RunsTo([a0] + [a2] + [a4], w3) by {
      StaysBehindGap(w2, 4, p);
      RunOneMore([a0] + [a2], a4);
    }
    assert RunsTo([a0] + [a2] + [a4] + [a6], w4) by {
      StaysBehindGap(w3, 6, p);
      RunOneMore([a0] + [a2] + [a4], a6);
    }
    assert [a0] + [a2] + [a4] + [a6] == [a0, a2, a4, a6];
    ForcedSkip(w4, p);
    RunOneMore([a0, a2, a4, a6], Arrive(1, p, 0));
  }

  ghost predicate RunsTo(calls: seq<Call>, w: Window)
  {
    Run(calls) == w
  }

  lemma {:induction false} RunOneMore(calls: seq<Call>, c: Call)
    ensures Run(calls + [c]) == Step(Run(calls), c) && Run([]) == Fresh
  {
    assert (calls + [c])[..|calls|] == calls;
  }

  lemma {:induction false} FirstStays(p: Packet)
    ensures Pushed(Fresh, 0, p, 0) == Window(true, 1, map[], None, 0, 0, 0)
  {
    var a := Insert(Fresh, 0, p);
    assert RunLength(0, a.pending.Keys) == 1;
    assert From(a.pending, 1) == map[];
  }

  lemma {:induction false} StaysBehindGap(w: Window, k: int, p: Packet)
    requires w.started && w.next == 1 && k > 1 && k !in w.pending && |w.pending| < 3
    requires forall i :: i in w.pending ==> i > 1
    requires w.waiting == None || w.waiting == Some(0)
    ensures Pushed(w, k, p, 0) == w.(pending := w.pending[k := p], waiting := Some(0), reordered := w.reordered + 1)
  {
    var a := Insert(w, k, p);
    assert RunLength(1, a.pending.Keys) == 0;
    assert From(a.pending, 1) == a.pending && k in a.pending;
  }

  lemma {:induction false} ForcedSkip(w: Window, p: Packet)
    requires w == Window(true, 1, map[2 := p, 4 := p, 6 := p], Some(0), 0, 3, 0)
    ensures Pushed(w, 1, p, 0) == Window(true, 5, map[6 := p], Some(0), 1, 3, 0)
  {
    hide RunLength, From, Smallest;
    var a := Window(true, 1, map[1 := p, 2 := p, 4 := p, 6 := p], Some(0), 0, 3, 0);
    assert w.pending[1 := p] == a.pending;
    assert Insert(w, 1, p) == a && |a.pending| == 4;
    var rest, last: map<int, Packet> := map[4 := p, 6 := p], map[6 := p];
    FourHeld(p);
    assert Advance(a, 3) == Window(true, 3, rest, None, 0, 3, 0);
    assert 4 in rest && 6 in last;
    assert SkipGap(Advance(a, 3)) == Window(true, 4, rest, None, 1, 3, 0);
    assert Advance(SkipGap(Advance(a, 3)), 5) == Window(true, 5, last, None, 1, 3, 0);
  }

  lemma {:induction false} FourHeld(p: Packet)
    ensures var all: map<int, Packet> := map[1 := p, 2 := p, 4 := p, 6 := p];
            var rest: map<int, Packet> := map[4 := p, 6 := p];
            && RunLength(1, all.Keys) == 2 && From(all, 3) == rest
            && 4 in rest.Keys && Smallest(rest.Keys) == 4 && RunLength(4, rest.Keys) == 1
            && From(rest, 5) == map[6 := p]
  {
    var all: map<int, Packet> := map[1 := p, 2 := p, 4 := p, 6 := p];
    var rest: map<int, Packet> := map[4 := p, 6 := p];
    assert 3 !in all.Keys - {1} - {2} && 5 !in rest.Keys - {4};
    assert RunLength(3, all.Keys - {1} - {2}) == 0;
    assert RunLength(2, all.Keys - {1}) == 1;
    assert RunLength(5, rest.Keys - {4}) == 0;
    assert 4 in rest.Keys && forall k :: k in rest.Keys ==> k == 4 || k == 6;
  }

  /** Exactly when an arrival skips a gap although fewer than four packets wait behind
      it and it has not been open for 40 ms: three packets were held, the arrival is
      the one being waited for, and they do not all follow it without a hole. */
  lemma {:induction false} SkipsEarlyIff(w: Window, k: int, p: Packet, now: int)
    requires Settled(w) && |w.pending| < FORCE_AT && w.started && Accepts(w, k)
    ensures var held := w.pending.Keys + {k};
            var gap := w.next + RunLength(w.next, held);
            && (Pushed(w, k, p, now).lost > w.lost
                && |set i | i in held && i > gap| < FORCE_AT
                && !(w.next == gap && w.waiting.Some? && now - w.waiting.value >= GAP_TIMEOUT))
            <==> (|w.pending| == 3 && k == w.next && exists i :: i in held && i > gap)
  {
    var held := w.pending.Keys + {k};
    var gap := w.next + RunLength(w.next, held);
    PushLosesIff(w, k, p, now);
    var behind := set i | i in held && i > gap;
    SmallerSubset(behind, held);
    assert |held| == |w.pending.Keys| + 1;
    if k == w.next {
      assert k in held && k !in behind;
    } else {
      assert w.next !in held;
      assert behind == held;
    }
  }

  // ---------- the steps of drain's loop ----------

  lemma {:induction false} DeliverOne(w: Window, now: int, force: bool)
    requires Drainable(w) && w.next in w.pending
    ensures var w' := Advance(w, w.next + 1);
            Drainable(w') && w'.pending == w.pending - {w.next} && Drained(w', now, force) == Drained(w, now, force)
  {
    var w' := Advance(w, w.next + 1);
    assert w'.pending.Keys == w.pending.Keys - {w.next};
    AdvanceTwice(w, RunLength(w.next, w.pending.Keys));
    SameFirstRun(w, w', now, force);
    hide Drained;
  }

  lemma {:induction false} AdvanceTwice(w: Window, n: nat)
    requires n > 0
    ensures Advance(Advance(w, w.next + 1), w.next + n) == Advance(w, w.next + n)
  {
    assert From(From(w.pending, w.next + 1), w.next + n) == From(w.pending, w.next + n);
  }

  lemma {:induction false} SameFirstRun(w: Window, v: Window, now: int, force: bool)
    requires Advance(w, w.next + RunLength(w.next, w.pending.Keys)) == Advance(v, v.next + RunLength(v.next, v.pending.Keys))
    ensures Drained(w, now, force) == Drained(v, now, force)
  {
    hide AtGap;
  }

  lemma {:induction false} DrainDeliver(w: Window, now: int, force: bool)
    requires Drainable(w) && w.next in w.pending
    ensures var w' := Advance(w, w.next + 1);
            && Drainable(w') && Drained(w', now, force) == Drained(w, now, force)
            && Output(w, Drained(w, now, force))
            == [Numbered(w.next, w.pending[w.next])] + Output(w', Drained(w, now, force))
  {
    hide Drained;
    DeliverOne(w, now, force);
    var w' := Advance(w, w.next + 1);
    var v := Drained(w, now, force);
    DrainStep(w', now, force);
    InOrderSplit(w.pending, w.next, w.next + 1, v.next);
    InOrderSame(w.pending, w'.pending, w.next + 1, v.next);
  }

  lemma {:induction false} SkipOne(w: Window, now: int, force: bool)
    requires Drainable(w) && w.next !in w.pending && (exists k :: k in w.pending)
    requires force || now - w.waiting.GetOr(now) >= GAP_TIMEOUT
    ensures var w' := SkipGap(w);
            && Drainable(w') && w'.next in w'.pending && w.next <= w'.next && w'.pending == w.pending
            && (forall i :: w.next <= i < w'.next ==> i !in w.pending)
            && Drained(w', now, false) == Drained(w, now, force)
  {
    assert RunLength(w.next, w.pending.Keys) == 0;
    assert From(w.pending, w.next) == w.pending;
    assert Advance(w, w.next) == w;
    var w' := SkipGap(w);
    hide RunLength, From;
    assert w'.next in w'.pending;
    LongRun(w'.next, w'.pending.Keys);
    SkipThenRun(w, now, force);
    hide Drained;
  }

  lemma {:induction false} LongRun(next: int, keys: set<int>)
    requires next in keys
    ensures RunLength(next, keys) > 0
  {
  }

  lemma {:induction false} SkipThenRun(w: Window, now: int, force: bool)
    requires (exists k :: k in w.pending) && Advance(w, w.next + RunLength(w.next, w.pending.Keys)) == w
    requires force || now - w.waiting.GetOr(now) >= GAP_TIMEOUT
    requires RunLength(SkipGap(w).next, SkipGap(w).pending.Keys) > 0
    ensures Drained(SkipGap(w), now, false) == Drained(w, now, force)
  {
    hide RunLength, From;
  }

  lemma {:induction false} DrainSkip(w: Window, now: int, force: bool)
    requires Drainable(w) && w.next !in w.pending && (exists k :: k in w.pending)
    requires force || now - w.waiting.GetOr(now) >= GAP_TIMEOUT
    ensures var w' := SkipGap(w);
            && Drainable(w') && w'.next in w'.pending && w.next <= w'.next
            && Drained(w', now, false) == Drained(w, now, force)
            && Output(w, Drained(w, now, force)) == Output(w', Drained(w, now, force))
  {
    hide Drained, SkipGap;
    SkipOne(w, now, force);
    var w', v := SkipGap(w), Drained(w, now, force);
    DrainStep(w', now, false);
    InOrderSplit(w.pending, w.next, w'.next, v.next);
    InOrderNone(w.pending, w.next, w'.next);
  }

  lemma {:induction false} DrainWait(w: Window, now: int)
    requires Drainable(w) && w.next !in w.pending && (exists k :: k in w.pending)
    requires now - w.waiting.GetOr(now) < GAP_TIMEOUT
    ensures Drained(w, now, false) == w.(waiting := Some(w.waiting.GetOr(now)))
    ensures Output(w, Drained(w, now, false)) == []
  {
    assert RunLength(w.next, w.pending.Keys) == 0;
    assert From(w.pending, w.next) == w.pending;
  }

  lemma {:induction false} DrainEmpty(w: Window, now: int, force: bool)
    requires w.pending == map[]
    ensures Drained(w, now, force) == w && Output(w, w) == []
  {
    assert From(w.pending, w.next) == map[];
  }
}
