/** The composition of the simulator's fault injector with the receive window: a sender
    numbers packets consecutively, one per 20 ms tick; the injector disturbs them; the
    window must restore the original order. Packets carry their unbounded numbers, so a
    run may be of any length (PacketWindows.dfy relates numbers to 16-bit sequences). */
module DisorderComposition {
  import opened Basics
  import opened JitterWindow
  import Faults = FaultInjection
  import Sixteen = PacketWindows

  const TICK := 20_000_000

  type Disturber = Faults.Injector<Numbered>

  /** Packet i of a stream, numbered from `first`. */
  function Nth(first: int, stream: seq<Packet>, i: nat): Numbered
    requires i < |stream|
  {
    Numbered(first + i, stream[i])
  }

  /** The injector after n ticks. */
  function After(spec: Faults.FaultSpec, first: int, stream: seq<Packet>, n: nat): Disturber
    requires n <= |stream|
  {
    if n == 0 then Faults.Injector(0, 0, [])
    else Faults.Pushed(spec, After(spec, first, stream, n - 1), Nth(first, stream, n - 1))
  }

  /** `ticks[i]` are the window's calls during tick i+1: the arrivals are exactly what the
      injector emits, in that order, and drains may happen in between at any time. */
  ghost predicate Follows(spec: Faults.FaultSpec, first: int, stream: seq<Packet>, start: int, ticks: seq<seq<Call>>)
    requires |ticks| <= |stream|
  {
    ticks != [] ==>
      var n := |ticks| - 1;
      && Follows(spec, first, stream, start, ticks[..n])
      && During(ticks[n], start + n * TICK, start + n * TICK + TICK)
      && Arrived(ticks[n]) == Faults.Emitted(spec, After(spec, first, stream, n), Nth(first, stream, n))
  }

  // ---------- the window along in-order stretches ----------

  /** In order up to `at`, nothing held; the window is placed by packet `first`. */
  ghost predicate Level(w: Window, first: int, at: int)
  {
    && w.pending == map[] && w.waiting == None && w.lost == 0 && w.rejected == 0
    && (if w.started then w.next == at && first < at else at == first)
  }

  /** Packet `at` is missing since time x while its successor is held. */
  ghost predicate Gapped(w: Window, first: int, at: int, x: int)
  {
    && w.started && first < at && w.next == at && w.pending.Keys == {at + 1} && w.waiting == Some(x)
    && w.lost == 0 && w.rejected == 0
  }

  lemma {:induction false} LevelTick(w: Window, first: int, at: int, now: int)
    requires Level(w, first, at)
    ensures Drained(w, now, false) == w
  {
    DrainEmpty(w, now, false);
  }

  lemma {:induction false} LevelNext(w: Window, first: int, at: int, p: Packet, now: int)
    requires Level(w, first, at)
    ensures Level(Pushed(w, at, p, now), first, at + 1)
  {
    var a := Insert(w, at, p);
    assert a.pending == map[at := p] && |a.pending| == 1;
    assert RunLength(at + 1, a.pending.Keys - {at}) == 0;
    assert RunLength(at, a.pending.Keys) == 1;
    assert From(a.pending, at + 1) == map[];
  }

  lemma {:induction false} LevelOver(w: Window, first: int, at: int, p: Packet, now: int)
    requires Level(w, first, at) && first < at
    ensures Gapped(Pushed(w, at + 1, p, now), first, at, now)
  {
    var a := Insert(w, at + 1, p);
    assert a.pending == map[at + 1 := p] && |a.pending| == 1;
    assert RunLength(at, a.pending.Keys) == 0;
    assert From(a.pending, at) == a.pending && at + 1 in a.pending;
  }

  lemma {:induction false} GappedTick(w: Window, first: int, at: int, x: int, now: int)
    requires Gapped(w, first, at, x) && now - x < GAP_TIMEOUT
    ensures Drained(w, now, false) == w
  {
    assert at + 1 in w.pending;
    DrainWait(w, now);
  }

  lemma {:induction false} GappedNext(w: Window, first: int, at: int, x: int, p: Packet, now: int)
    requires Gapped(w, first, at, x)
    ensures Level(Pushed(w, at, p, now), first, at + 2)
  {
    var a := Insert(w, at, p);
    assert a.pending.Keys == {at, at + 1} && |a.pending.Keys| == 2;
    assert RunLength(at + 2, a.pending.Keys - {at} - {at + 1}) == 0;
    assert RunLength(at + 1, a.pending.Keys - {at}) == 1;
    assert RunLength(at, a.pending.Keys) == 2;
    assert From(a.pending, at + 2) == map[];
  }

  // ---------- calls of one tick ----------

  /** The window after some calls. */
  ghost function RunFrom(w: Window, calls: seq<Call>): Window
  {
    if calls == [] then w else Step(RunFrom(w, calls[..|calls| - 1]), calls[|calls| - 1])
  }

  /** 16 bits identify the number of an arrival: it is near the window's position. */
  ghost predicate Near(w: Window, c: Call)
  {
    c.Arrive? && w.started ==> -0x8000 <= c.number - w.next <= 0x7FFF
  }

  ghost predicate AllNear(w: Window, calls: seq<Call>)
  {
    calls == [] || (AllNear(w, calls[..|calls| - 1]) && Near(RunFrom(w, calls[..|calls| - 1]), calls[|calls| - 1]))
  }

  lemma {:induction false} NearCut(w: Window, before: seq<Call>, c: Call, rest: seq<Call>)
    requires AllNear(w, before) && Near(RunFrom(w, before), c) && AllNear(Step(RunFrom(w, before), c), rest)
    ensures AllNear(w, before + [c] + rest)
    decreases |rest|
  {
    hide Step, Near, RunFrom;
    var calls := before + [c] + rest;
    if rest == [] {
      assert calls[..|calls| - 1] == before;
    } else {
      var front := rest[..|rest| - 1];
      NearCut(w, before, c, front);
      RunFromCut(w, before, c, front);
      assert calls[..|calls| - 1] == before + [c] + front;
    }
  }

  lemma {:induction false} NearJoin(prev: seq<Call>, calls: seq<Call>)
    requires AllNear(Fresh, prev) && AllNear(Run(prev), calls)
    ensures AllNear(Fresh, prev + calls)
    decreases |calls|
  {
    hide Step, Near, RunFrom, Run;
    if calls == [] {
      assert prev + calls == prev;
    } else {
      var front := calls[..|calls| - 1];
      NearJoin(prev, front);
      RunIsRunFrom(prev, front);
      RunIsRunFrom([], prev + front);
      assert [] + (prev + front) == prev + front;
      assert Run([]) == Fresh by { RunOneMore([], Tick(0)); }
      assert (prev + calls)[..|prev + calls| - 1] == prev + front;
    }
  }

  lemma {:induction false} RunIsRunFrom(prev: seq<Call>, calls: seq<Call>)
    ensures Run(prev + calls) == RunFrom(Run(prev), calls)
    decreases |calls|
  {
    if calls == [] {
      assert prev + calls == prev;
    } else {
      RunIsRunFrom(prev, calls[..|calls| - 1]);
      assert (prev + calls)[..|prev + calls| - 1] == prev + calls[..|calls| - 1];
    }
  }

  lemma {:induction false} RunFromCut(w: Window, before: seq<Call>, c: Call, rest: seq<Call>)
    ensures RunFrom(w, before + [c] + rest) == RunFrom(Step(RunFrom(w, before), c), rest)
    decreases |rest|
  {
    hide Step;
    var calls := before + [c] + rest;
    if rest == [] {
      assert calls[..|calls| - 1] == before;
    } else {
      RunFromCut(w, before, c, rest[..|rest| - 1]);
      assert calls[..|calls| - 1] == before + [c] + rest[..|rest| - 1];
    }
  }

  /** Cut a tick at its arrival number j. */
  lemma {:induction false} CutAtIndex(calls: seq<Call>, j: nat) returns (before: seq<Call>, c: Call, rest: seq<Call>)
    requires j < |Arrived(calls)|
    ensures calls == before + [c] + rest
    ensures c.Arrive? && Arrived(calls)[j] == Numbered(c.number, c.packet)
    ensures Arrived(before) == Arrived(calls)[..j] && Arrived(rest) == Arrived(calls)[j + 1..]
    decreases |calls|
  {
    assert calls != [];
    var front, last := calls[..|calls| - 1], calls[|calls| - 1];
    assert calls == front + [last];
    ArrivedSnoc(front, last);
    ArrivalOne(last);
    hide Arrived, Arrival;
    if j < |Arrived(front)| {
      var r;
      before, c, r := CutAtIndex(front, j);
      ArrivedSnoc(r, last);
      TakeDropSum(Arrived(front), Arrival(last), j);
      TakeDropSum(Arrived(front), Arrival(last), j + 1);
      Reassociate(before + [c], r, [last]);
      rest := r + [last];
    } else {
      before, c, rest := front, last, [];
      assert front + [last] + [] == calls;
      ArrivedEmpty();
      assert j == |Arrived(front)|;
      TakeDropSum(Arrived(front), Arrival(last), j);
    }
  }

  lemma {:induction false} TakeDropSum<T>(a: seq<T>, b: seq<T>, j: nat)
    requires j <= |a|
    ensures (a + b)[..j] == a[..j] && (a + b)[j..] == a[j..] + b
  {
  }

  lemma {:induction false} Reassociate<T>(a: seq<T>, b: seq<T>, c: seq<T>)
    ensures a + b + c == a + (b + c)
  {
  }

  lemma {:induction false} ArrivedSnoc(calls: seq<Call>, c: Call)
    ensures Arrived(calls + [c]) == Arrived(calls) + Arrival(c)
  {
    assert (calls + [c])[..|calls|] == calls;
  }

  lemma {:induction false} ArrivedEmpty()
    ensures Arrived([]) == []
  {
  }

  lemma {:induction false} ArrivalOne(c: Call)
    ensures |Arrival(c)| <= 1
    ensures Arrival(c) != [] ==> c.Arrive? && Arrival(c)[0] == Numbered(c.number, c.packet)
  {
  }

  lemma {:induction false} CutAt(calls: seq<Call>, a: seq<Numbered>, x: Numbered, b: seq<Numbered>)
    returns (before: seq<Call>, c: Call, rest: seq<Call>)
    requires Arrived(calls) == a + [x] + b
    ensures calls == before + [c] + rest
    ensures c.Arrive? && x == Numbered(c.number, c.packet)
    ensures Arrived(before) == a && Arrived(rest) == b
  {
    hide Arrived;
    before, c, rest := CutAtIndex(calls, |a|);
  }

  ghost predicate Consecutive(arrivals: seq<Numbered>, at: int)
  {
    forall j :: 0 <= j < |arrivals| ==> arrivals[j].number == at + j
  }

  ghost predicate During(calls: seq<Call>, lo: int, hi: int)
  {
    forall i :: 0 <= i < |calls| ==> lo <= calls[i].Time() < hi
  }

  ghost predicate Before(calls: seq<Call>, hi: int)
  {
    forall i :: 0 <= i < |calls| ==> calls[i].Time() < hi
  }

  /** The parts of a tick keep its time bounds. */
  lemma {:induction false} CutTimes(before: seq<Call>, c: Call, rest: seq<Call>, lo: int, hi: int)
    ensures Before(before + [c] + rest, hi) ==> Before(before, hi)
    ensures During(before + [c] + rest, lo, hi) ==> lo <= c.Time() < hi && Before(rest, hi)
  {
    var calls := before + [c] + rest;
    assert forall i :: 0 <= i < |before| ==> before[i] == calls[i];
    assert calls[|before|] == c;
    assert forall i :: 0 <= i < |rest| ==> rest[i] == calls[|before| + 1 + i];
  }

  lemma {:induction false} LevelStep(w: Window, first: int, at: int, c: Call)
    requires Level(w, first, at) && (c.Arrive? ==> c.number == at)
    ensures Level(Step(w, c), first, at + |Arrival(c)|) && Near(w, c)
  {
    assert Near(w, c);
    hide Level, Drained, Pushed;
    if c.Arrive? {
      LevelNext(w, first, at, c.packet, c.now);
    } else {
      LevelTick(w, first, at, c.at);
    }
  }

  lemma {:induction false} BeforeLater(calls: seq<Call>, a: int, b: int)
    requires Before(calls, a) && a <= b
    ensures Before(calls, b)
  {
  }

  lemma {:induction false} StaysLevel(w: Window, calls: seq<Call>, first: int, at: int)
    requires Level(w, first, at) && Consecutive(Arrived(calls), at)
    ensures Level(RunFrom(w, calls), first, at + |Arrived(calls)|) && AllNear(w, calls)
    decreases |calls|
  {
    hide Level, Step, Near;
    if calls != [] {
      var front, c := calls[..|calls| - 1], calls[|calls| - 1];
      var early := Arrived(front);
      assert Arrived(calls) == early + Arrival(c);
      assert forall j :: 0 <= j < |early| ==> early[j] == Arrived(calls)[j];
      StaysLevel(w, front, first, at);
      assert c.Arrive? ==> Arrived(calls)[|early|].number == c.number;
      LevelStep(RunFrom(w, front), first, at + |early|, c);
    }
  }

  lemma {:induction false} StaysGapped(w: Window, calls: seq<Call>, first: int, at: int, x: int)
    requires Gapped(w, first, at, x) && Arrived(calls) == []
    requires Before(calls, x + GAP_TIMEOUT)
    ensures Gapped(RunFrom(w, calls), first, at, x) && AllNear(w, calls)
    decreases |calls|
  {
    hide Gapped;
    if calls != [] {
      var front, c := calls[..|calls| - 1], calls[|calls| - 1];
      assert Arrived(calls) == Arrived(front) + Arrival(c);
      assert c == calls[|calls| - 1] && c.Tick?;
      StaysGapped(w, front, first, at, x);
      GappedTick(RunFrom(w, front), first, at, x, c.at);
    }
  }

  /** Run a tick in three parts: up to arrival x, that arrival, and the rest. */
  lemma {:induction false} RunCut(w: Window, calls: seq<Call>, a: seq<Numbered>, x: Numbered, b: seq<Numbered>, lo: int, hi: int)
    returns (before: seq<Call>, c: Call, rest: seq<Call>)
    requires Arrived(calls) == a + [x] + b
    ensures c.Arrive? && c.number == x.number && Arrived(before) == a && Arrived(rest) == b
    ensures RunFrom(w, calls) == RunFrom(Step(RunFrom(w, before), c), rest)
    ensures Before(calls, hi) ==> Before(before, hi)
    ensures During(calls, lo, hi) ==> lo <= c.Time() < hi && Before(rest, hi)
    ensures AllNear(w, before) && Near(RunFrom(w, before), c) && AllNear(Step(RunFrom(w, before), c), rest) ==> AllNear(w, calls)
  {
    hide *;
    before, c, rest := CutAt(calls, a, x, b);
    if AllNear(w, before) && Near(RunFrom(w, before), c) && AllNear(Step(RunFrom(w, before), c), rest) {
      NearCut(w, before, c, rest);
    }
    CutTimes(before, c, rest, lo, hi);
    RunFromCut(w, before, c, rest);
  }

  lemma {:induction false} OverStep(w: Window, first: int, at: int, c: Call)
    requires Level(w, first, at) && first < at && c.Arrive? && c.number == at + 1
    ensures Gapped(Step(w, c), first, at, c.Time()) && Near(w, c)
  {
    LevelOver(w, first, at, c.packet, c.now);
  }

  lemma {:induction false} CloseStep(w: Window, first: int, at: int, x: int, c: Call)
    requires Gapped(w, first, at, x) && c.Arrive? && c.number == at
    ensures Level(Step(w, c), first, at + 2) && Near(w, c)
  {
    GappedNext(w, first, at, x, c.packet, c.now);
  }

  lemma {:induction false} TickShort()
    ensures TICK + TICK == GAP_TIMEOUT && TICK > 0
  {
  }

  /** A tick whose last arrival overtakes the packet before it. */
  lemma {:induction false} OpensGap(w: Window, calls: seq<Call>, first: int, at: int, early: seq<Numbered>, over: Numbered, lo: int)
    returns (since: int)
    requires Level(w, first, at) && Arrived(calls) == early + [over]
    requires Consecutive(early, at) && over.number == at + |early| + 1 && first < at + |early|
    requires During(calls, lo, lo + TICK)
    ensures lo <= since < lo + TICK && Gapped(RunFrom(w, calls), first, at + |early|, since) && AllNear(w, calls)
  {
    hide *;
    assert early + [over] == early + [over] + [];
    var before, c, rest := RunCut(w, calls, early, over, [], lo, lo + TICK);
    since := c.Time();
    TickShort();
    BeforeLater(rest, lo + TICK, since + GAP_TIMEOUT);
    StaysLevel(w, before, first, at);
    OverStep(RunFrom(w, before), first, at + |early|, c);
    StaysGapped(Step(RunFrom(w, before), c), rest, first, at + |early|, since);
  }

  /** A tick that begins with the overtaken packet. */
  lemma {:induction false} ClosesGap(w: Window, calls: seq<Call>, first: int, at: int, lead: Numbered, later: seq<Numbered>, since: int)
    requires Gapped(w, first, at, since) && Arrived(calls) == [lead] + later
    requires lead.number == at && Consecutive(later, at + 2)
    requires Before(calls, since + GAP_TIMEOUT)
    ensures Level(RunFrom(w, calls), first, at + 2 + |later|) && AllNear(w, calls)
  {
    hide *;
    assert [lead] + later == [] + [lead] + later;
    var before, c, rest := RunCut(w, calls, [], lead, later, since, since + GAP_TIMEOUT);
    StaysGapped(w, before, first, at, since);
    CloseStep(RunFrom(w, before), first, at, since, c);
    StaysLevel(Step(RunFrom(w, before), c), rest, first, at + 2);
  }

  // ---------- whole streams ----------

  /** Every packet in `list` is a packet of the stream. */
  ghost predicate FromStream(list: seq<Numbered>, first: int, stream: seq<Packet>)
  {
    forall i :: 0 <= i < |list| ==>
      0 <= list[i].number - first < |stream| && list[i] == Nth(first, stream, list[i].number - first)
  }

  /** Both in step: the injector holds exactly the packets the window has not seen. */
  ghost predicate BothInStep(spec: Faults.FaultSpec, first: int, n: nat, w: Window, f: Disturber)
  {
    var held := Faults.Contents(f.pending);
    Faults.InStep(spec, f) && Consecutive(held, first + n - |held|) && Level(w, first, first + n - |held|)
  }

  /** The window holds, since time x in the last tick, one packet that overtook the only
      packet the injector holds, which is due next. */
  ghost predicate BothApart(spec: Faults.FaultSpec, first: int, start: int, n: nat, w: Window, f: Disturber, x: int)
  {
    && Faults.Overtaken(spec, f) && Consecutive(Faults.Contents(f.pending), first + n - 2)
    && start + (n - 1) * TICK <= x < start + n * TICK
    && Gapped(w, first, first + n - 2, x)
  }

  ghost predicate Apart(spec: Faults.FaultSpec, first: int, start: int, n: nat, w: Window, f: Disturber)
  {
    w.waiting.Some? && BothApart(spec, first, start, n, w, f, w.waiting.value)
  }

  ghost predicate Together(spec: Faults.FaultSpec, first: int, start: int, n: nat, w: Window, f: Disturber)
  {
    f.tick == n && (BothInStep(spec, first, n, w, f) || Apart(spec, first, start, n, w, f))
  }

  /** One tick from lockstep. */
  lemma {:induction false} TickFromStep(spec: Faults.FaultSpec, first: int, start: int, n: nat, f: Disturber,
                                        w: Window, calls: seq<Call>, fed: Numbered)
    requires spec.dropEvery <= 0 && f.tick == n && BothInStep(spec, first, n, w, f)
    requires fed.number == first + n && During(calls, start + n * TICK, start + n * TICK + TICK)
    requires Arrived(calls) == Faults.Emitted(spec, f, fed)
    ensures var g := Faults.Pushed(spec, f, fed);
            var v := RunFrom(w, calls);
            (BothInStep(spec, first, n + 1, v, g) || Apart(spec, first, start, n + 1, v, g)) && AllNear(w, calls)
  {
    hide *;
    InStepParts(spec, first, n, w, f);
    var held := Faults.Contents(f.pending);
    var m := Faults.TickInStep(spec, f, fed);
    var g := Faults.Pushed(spec, f, fed);
    var late := Faults.Late(spec, f);
    var at := first + n - |held|;
    ConsecutiveParts(held, at, m, fed);
    if late {
      assert Arrived(calls) == held[..m];
      StaysLevel(w, calls, first, at);
      AreInStep(spec, first, n + 1, RunFrom(w, calls), g, held[m..] + [fed]);
    } else if m == |held| {
      assert Arrived(calls) == held + [fed];
      StaysLevel(w, calls, first, at);
      AreInStep(spec, first, n + 1, RunFrom(w, calls), g, []);
    } else {
      OvertakenOne(spec, g);
      StreamBegan(w, first, at);
      var since := OpensGap(w, calls, first, at, held[..m], fed, start + n * TICK);
      AreApart(spec, first, start, n, RunFrom(w, calls), g, held[m..], since);
    }
  }

  lemma {:induction false} InStepParts(spec: Faults.FaultSpec, first: int, n: nat, w: Window, f: Disturber)
    requires BothInStep(spec, first, n, w, f)
    ensures var held := Faults.Contents(f.pending);
            Faults.InStep(spec, f) && Consecutive(held, first + n - |held|) && Level(w, first, first + n - |held|)
  {
  }

  lemma {:induction false} AreInStep(spec: Faults.FaultSpec, first: int, n: nat, w: Window, f: Disturber, held: seq<Numbered>)
    requires Faults.InStep(spec, f) && held == Faults.Contents(f.pending)
    requires Consecutive(held, first + n - |held|) && Level(w, first, first + n - |held|)
    ensures BothInStep(spec, first, n, w, f)
  {
  }

  lemma {:induction false} AreApart(spec: Faults.FaultSpec, first: int, start: int, n: nat, w: Window, f: Disturber,
                                    held: seq<Numbered>, since: int)
    requires Faults.Overtaken(spec, f) && held == Faults.Contents(f.pending) && Consecutive(held, first + n - 1)
    requires start + n * TICK <= since < start + n * TICK + TICK && Gapped(w, first, first + n - 1, since)
    ensures Apart(spec, first, start, n + 1, w, f)
  {
  }

  lemma {:induction false} ConsecutiveParts(held: seq<Numbered>, at: int, m: nat, fed: Numbered)
    requires Consecutive(held, at) && m <= |held| && fed.number == at + |held|
    ensures Consecutive(held[..m], at) && Consecutive(held[m..], at + m)
    ensures Consecutive(held[m..] + [fed], at + m) && Consecutive(held + [fed], at) && Consecutive([], at + |held| + 1)
  {
  }

  lemma {:induction false} OvertakenOne(spec: Faults.FaultSpec, g: Disturber)
    requires Faults.Overtaken(spec, g)
    ensures |g.pending| == 1
  {
  }

  lemma {:induction false} StreamBegan(w: Window, first: int, at: int)
    requires Level(w, first, at)
    ensures first <= at
  {
  }

  /** One tick from apart: it always brings the two back in step. */
  lemma {:induction false} TickFromApart(spec: Faults.FaultSpec, first: int, start: int, n: nat, f: Disturber,
                                         w: Window, calls: seq<Call>, fed: Numbered)
    requires spec.dropEvery <= 0 && f.tick == n && Apart(spec, first, start, n, w, f)
    requires fed.number == first + n && During(calls, start + n * TICK, start + n * TICK + TICK)
    requires Arrived(calls) == Faults.Emitted(spec, f, fed)
    ensures BothInStep(spec, first, n + 1, RunFrom(w, calls), Faults.Pushed(spec, f, fed)) && AllNear(w, calls)
  {
    Faults.TickOvertaken(spec, f, fed);
    OvertakenOne(spec, f);
    hide *;
    var since, lead := ApartParts(spec, first, start, n, w, f);
    BeforeTimeout(calls, start + n * TICK, since);
    var g, later := Faults.Pushed(spec, f, fed), if Faults.Late(spec, f) then [] else [fed];
    OneConsecutive(fed, first + n);
    ClosesGap(w, calls, first, first + n - 2, lead, later, since);
    BackInStep(spec, first, n + 1, RunFrom(w, calls), g);
  }

  lemma {:induction false} ApartParts(spec: Faults.FaultSpec, first: int, start: int, n: nat, w: Window, f: Disturber)
    returns (since: int, lead: Numbered)
    requires Apart(spec, first, start, n, w, f) && |f.pending| == 1
    ensures Gapped(w, first, first + n - 2, since) && since >= start + (n - 1) * TICK
    ensures Faults.Contents(f.pending) == [lead] && lead.number == first + n - 2
  {
    hide Gapped, Faults.Overtaken;
    since, lead := w.waiting.value, Faults.Contents(f.pending)[0];
  }

  lemma {:induction false} BeforeTimeout(calls: seq<Call>, at: int, since: int)
    requires During(calls, at, at + TICK) && since >= at - TICK
    ensures Before(calls, since + GAP_TIMEOUT)
  {
  }

  lemma {:induction false} OneConsecutive(x: Numbered, at: int)
    requires x.number == at
    ensures Consecutive([x], at) && Consecutive([], at)
  {
  }

  lemma {:induction false} BackInStep(spec: Faults.FaultSpec, first: int, n: nat, w: Window, g: Disturber)
    requires Faults.InStep(spec, g) && |Faults.Contents(g.pending)| <= 1
    requires forall x :: x in Faults.Contents(g.pending) ==> x.number == first + n - 1
    requires Level(w, first, first + n - |Faults.Contents(g.pending)|)
    ensures BothInStep(spec, first, n, w, g)
  {
    hide Level, Faults.InStep;
  }

  lemma {:induction false} StaysTogether(spec: Faults.FaultSpec, first: int, stream: seq<Packet>, start: int, ticks: seq<seq<Call>>)
    requires spec.dropEvery <= 0 && |ticks| <= |stream| && Follows(spec, first, stream, start, ticks)
    ensures Together(spec, first, start, |ticks|, Run(Flatten(ticks)), After(spec, first, stream, |ticks|))
    ensures AllNear(Fresh, Flatten(ticks))
    decreases |ticks|
  {
    hide Run, Faults.Pushed, Faults.Emitted, BothInStep, Apart, RunFrom;
    if ticks == [] {
      NothingYet(spec, first);
    } else {
      var n := |ticks| - 1;
      var front, calls := ticks[..n], ticks[n];
      StaysTogether(spec, first, stream, start, front);
      var f := After(spec, first, stream, n);
      var w := Run(Flatten(front));
      RunIsRunFrom(Flatten(front), calls);
      TickCounts(spec, f, Nth(first, stream, n));
      if BothInStep(spec, first, n, w, f) {
        TickFromStep(spec, first, start, n, f, w, calls, Nth(first, stream, n));
      } else {
        TickFromApart(spec, first, start, n, f, w, calls, Nth(first, stream, n));
      }
      NearJoin(Flatten(front), calls);
    }
  }

  lemma {:induction false} NothingYet(spec: Faults.FaultSpec, first: int)
    ensures BothInStep(spec, first, 0, Run([]), Faults.Injector(0, 0, []))
  {
  }

  lemma {:induction false} TickCounts(spec: Faults.FaultSpec, f: Disturber, fed: Numbered)
    ensures Faults.Pushed(spec, f, fed).tick == f.tick + 1
  {
  }

  lemma {:induction false} AllFromStream(spec: Faults.FaultSpec, first: int, stream: seq<Packet>, start: int, ticks: seq<seq<Call>>)
    requires spec.dropEvery <= 0 && |ticks| <= |stream| && Follows(spec, first, stream, start, ticks)
    ensures var f := After(spec, first, stream, |ticks|);
            var arrived := Arrived(Flatten(ticks));
            && |arrived| + |f.pending| == |ticks|
            && FromStream(arrived, first, stream) && FromStream(Faults.Contents(f.pending), first, stream)
    decreases |ticks|
  {
    hide Faults.Pushed, Faults.Emitted, Faults.Contents, Arrived, FromStream, During;
    if ticks == [] {
      NothingFromStream(first, stream);
    } else {
      var n := |ticks| - 1;
      AllFromStream(spec, first, stream, start, ticks[..n]);
      var f, fed := After(spec, first, stream, n), Nth(first, stream, n);
      Faults.NothingVanishes(spec, f, fed);
      ArrivedJoin(Flatten(ticks[..n]), ticks[n]);
      FromStreamJoin(Arrived(Flatten(ticks[..n])), Faults.Contents(f.pending), fed, n, first, stream,
                     Arrived(ticks[n]), Faults.Contents(Faults.Pushed(spec, f, fed).pending));
    }
  }

  lemma {:induction false} NothingFromStream(first: int, stream: seq<Packet>)
    ensures Arrived([]) == [] && FromStream([], first, stream)
    ensures Faults.Contents<Numbered>([]) == []
  {
  }

  lemma {:induction false} FromStreamJoin(arrived: seq<Numbered>, held: seq<Numbered>, fed: Numbered, n: nat, first: int,
                                          stream: seq<Packet>, more: seq<Numbered>, held': seq<Numbered>)
    requires FromStream(arrived, first, stream) && FromStream(held, first, stream)
    requires n < |stream| && fed == Nth(first, stream, n)
    requires forall x :: x in more ==> x in held || x == fed
    requires forall x :: x in held' ==> x in held || x == fed
    ensures FromStream(arrived + more, first, stream) && FromStream(held', first, stream)
  {
    forall x | x in more || x in held' ensures 0 <= x.number - first < |stream| && x == Nth(first, stream, x.number - first) {
      if x in held {
        var i :| 0 <= i < |held| && held[i] == x;
      }
    }
  }

  lemma {:induction false} ArrivedJoin(a: seq<Call>, b: seq<Call>)
    ensures Arrived(a + b) == Arrived(a) + Arrived(b)
    decreases |b|
  {
    if b == [] {
      assert a + b == a;
    } else {
      ArrivedJoin(a, b[..|b| - 1]);
      assert (a + b)[..|a + b| - 1] == a + b[..|b| - 1];
    }
  }

  lemma {:induction false} TogetherParts(spec: Faults.FaultSpec, first: int, start: int, n: nat, w: Window, f: Disturber)
    requires Together(spec, first, start, n, w, f)
    ensures Faults.InStep(spec, f) || Faults.Overtaken(spec, f)
    ensures w.lost == 0 && w.rejected == 0 && |w.pending| <= 1
    ensures (w.started ==> w.next - first == n - |f.pending| - |w.pending|)
    ensures !w.started ==> w.pending == map[]
  {
    hide Faults.InStep;
    if Apart(spec, first, start, n, w, f) {
      assert |w.pending.Keys| == 1;
    }
  }

  /** With nothing lost or rejected, the output starts at `first` and has no hole. */
  lemma {:induction false} AccountedParts(w: Window, out: seq<Numbered>, arrived: seq<Numbered>, rejected: seq<Numbered>, first: int)
    requires Accounted(w, out, arrived, rejected) && w.lost == 0 && w.rejected == 0
    requires w.started ==> w.next - first == |arrived| - |w.pending|
    ensures |out| == |arrived| - |w.pending|
    ensures Increasing(out) && Within(out, first, first + |out|)
    ensures forall x :: x in out ==> x in arrived
    ensures arrived != [] ==> arrived[0].number == first
  {
    hide Settled, Held;
    assert rejected == [];
    HeldSize(w.pending);
    assert |multiset(arrived)| == |arrived|;
    forall x | x in out ensures x in arrived {
      assert x in multiset(out);
      assert x in multiset(arrived);
    }
  }

  lemma {:induction false} FromStreamAt(list: seq<Numbered>, first: int, stream: seq<Packet>, x: Numbered)
    requires FromStream(list, first, stream) && x in list
    ensures 0 <= x.number - first < |stream| && x == Nth(first, stream, x.number - first)
  {
  }

  /** Main theorem: whatever the burst and reorder settings, without drops, and wherever
      drains fall between the arrivals of each tick, the window hands on the stream's
      packets in their original order, losing and rejecting none; what it has not handed
      on is in the injector, which never holds more than max(burstFrames, 2) packets, or
      is the one packet behind an open gap. */
  lemma {:induction false} OrderRestored(spec: Faults.FaultSpec, first: int, stream: seq<Packet>, start: int, ticks: seq<seq<Call>>)
    requires spec.dropEvery <= 0 && |ticks| <= |stream| && Follows(spec, first, stream, start, ticks)
    ensures var w := Run(Flatten(ticks));
            var out := RunOutput(Flatten(ticks));
            var f := After(spec, first, stream, |ticks|);
            && w.lost == 0 && w.rejected == 0
            && |out| + |w.pending| + |f.pending| == |ticks|
            && |f.pending| <= Max(spec.burstFrames, 2) && |w.pending| <= 1
            && forall i :: 0 <= i < |out| ==> i < |stream| && out[i] == Nth(first, stream, i)
  {
    hide *;
    var calls := Flatten(ticks);
    var w, out, arrived := Run(calls), RunOutput(calls), Arrived(calls);
    var f := After(spec, first, stream, |ticks|);
    StaysTogether(spec, first, stream, start, ticks);
    AllFromStream(spec, first, stream, start, ticks);
    TogetherParts(spec, first, start, |ticks|, w, f);
    Faults.HeldBound(spec, f);
    RunAccounted(calls);
    AccountedParts(w, out, arrived, Rejected(calls), first);
    forall i | 0 <= i < |out| ensures i < |stream| && out[i] == Nth(first, stream, i) {
      Contiguous(out, first, i);
      FromStreamAt(arrived, first, stream, out[i]);
    }
  }

  // ---------- the same run on 16-bit sequence numbers ----------

  /** A call as the 16-bit window takes it. */
  function Call16(w: Window, c: Call): Call
  {
    match c
    case Tick(at) => c
    case Arrive(_, p, now) => Arrive(Sixteen.Taken(w, p), p, now)
  }

  /** The run in which the window sees only each packet's 16-bit sequence number. */
  ghost function Run16(calls: seq<Call>): Window
  {
    if calls == [] then Fresh
    else
      var w := Run16(calls[..|calls| - 1]);
      Step(w, Call16(w, calls[|calls| - 1]))
  }

  /** What that window hands on. */
  ghost function Run16Output(calls: seq<Call>): seq<Packet>
  {
    if calls == [] then []
    else
      var w := Run16(calls[..|calls| - 1]);
      Run16Output(calls[..|calls| - 1]) + Sixteen.Packets(StepOutput(w, Call16(w, calls[|calls| - 1])))
  }

  /** While every arrival is near `next`, the 16-bit window and the unbounded one take the
      same steps and hand on the same packets. */
  lemma {:induction false} NearRunsAgree(calls: seq<Call>)
    requires AllNear(Fresh, calls)
    requires forall i :: 0 <= i < |calls| && calls[i].Arrive? ==> calls[i].packet.sequence == Sixteen.Low16(calls[i].number)
    requires Arrived(calls) != [] ==> 0 <= Arrived(calls)[0].number < Sixteen.WRAP
    ensures Run16(calls) == Run(calls) && Run16Output(calls) == Sixteen.Packets(RunOutput(calls))
  {
    hide Step, StepOutput, Sixteen.Low16, Sixteen.Unwrap;
    if calls != [] {
      var front, c := calls[..|calls| - 1], calls[|calls| - 1];
      NearRunsAgree(front);
      RunIsRunFrom([], front);
      assert [] + front == front && Run([]) == Fresh;
      RunAccounted(front);
      if c.Arrive? {
        Sixteen.UnwrapExactIff(Run(front).next, c.number);
        if Arrived(front) == [] {
          Sixteen.LowSelf(c.number);
        }
      }
      assert Call16(Run(front), c) == c;
      PacketsJoin(RunOutput(front), StepOutput(Run(front), c));
    }
  }

  lemma {:induction false} PacketsJoin(a: seq<Numbered>, b: seq<Numbered>)
    ensures Sixteen.Packets(a + b) == Sixteen.Packets(a) + Sixteen.Packets(b)
  {
  }

  /** The sequence numbers of a stream that starts at `first`. */
  ghost predicate NumberedFrom(stream: seq<Packet>, first: int)
  {
    0 <= first < Sixteen.WRAP && forall i :: 0 <= i < |stream| ==> stream[i].sequence == Sixteen.Low16(first + i)
  }

  /** Main theorem for the window the code has: over any number of wrap-arounds it hands on
      the packets themselves in their original order, losing and rejecting none. */
  lemma {:induction false} OrderRestoredOn16Bits(spec: Faults.FaultSpec, first: int, stream: seq<Packet>,
                                                 start: int, ticks: seq<seq<Call>>)
    requires spec.dropEvery <= 0 && |ticks| <= |stream| && Follows(spec, first, stream, start, ticks)
    requires NumberedFrom(stream, first)
    ensures var w := Run16(Flatten(ticks));
            var out := Run16Output(Flatten(ticks));
            var f := After(spec, first, stream, |ticks|);
            && w.lost == 0 && w.rejected == 0
            && out <= stream && |out| + |w.pending| + |f.pending| == |ticks|
            && |f.pending| <= Max(spec.burstFrames, 2) && |w.pending| <= 1
  {
    hide *;
    var calls := Flatten(ticks);
    OrderRestored(spec, first, stream, start, ticks);
    StreamNear(spec, first, stream, start, ticks);
    NearRunsAgree(calls);
    PacketsOfStream(RunOutput(calls), first, stream);
  }

  lemma {:induction false} PacketsOfStream(out: seq<Numbered>, first: int, stream: seq<Packet>)
    requires forall i :: 0 <= i < |out| ==> i < |stream| && out[i] == Nth(first, stream, i)
    ensures Sixteen.Packets(out) <= stream && |Sixteen.Packets(out)| == |out|
  {
    if out != [] {
      var last := |out| - 1;
      assert out[last].number == first + last;
    }
  }

  /** The arrivals of such a run are near `next`, carry their number's low bits, and start
      with the stream. */
  lemma {:induction false} StreamNear(spec: Faults.FaultSpec, first: int, stream: seq<Packet>, start: int, ticks: seq<seq<Call>>)
    requires spec.dropEvery <= 0 && |ticks| <= |stream| && Follows(spec, first, stream, start, ticks)
    requires NumberedFrom(stream, first)
    ensures var calls := Flatten(ticks);
            && AllNear(Fresh, calls)
            && (forall i :: 0 <= i < |calls| && calls[i].Arrive? ==> calls[i].packet.sequence == Sixteen.Low16(calls[i].number))
            && (Arrived(calls) != [] ==> 0 <= Arrived(calls)[0].number < Sixteen.WRAP)
  {
    hide *;
    var calls := Flatten(ticks);
    var w, arrived, f := Run(calls), Arrived(calls), After(spec, first, stream, |ticks|);
    StaysTogether(spec, first, stream, start, ticks);
    AllFromStream(spec, first, stream, start, ticks);
    TogetherParts(spec, first, start, |ticks|, w, f);
    RunAccounted(calls);
    AccountedParts(w, RunOutput(calls), arrived, Rejected(calls), first);
    forall i | 0 <= i < |calls| && calls[i].Arrive?
      ensures calls[i].packet.sequence == Sixteen.Low16(calls[i].number)
    {
      CallArrived(calls, i);
      FromStreamAt(arrived, first, stream, Numbered(calls[i].number, calls[i].packet));
      NthIs(first, stream, calls[i].number - first);
      NumberedAt(stream, first, calls[i].number - first);
    }
    NumberedStart(stream, first);
  }

  lemma {:induction false} NumberedAt(stream: seq<Packet>, first: int, i: nat)
    requires NumberedFrom(stream, first) && i < |stream|
    ensures stream[i].sequence == Sixteen.Low16(first + i)
  {
  }

  lemma {:induction false} NumberedStart(stream: seq<Packet>, first: int)
    requires NumberedFrom(stream, first)
    ensures 0 <= first < Sixteen.WRAP
  {
  }

  lemma {:induction false} NthIs(first: int, stream: seq<Packet>, i: nat)
    requires i < |stream|
    ensures Nth(first, stream, i).packet == stream[i]
  {
  }

  lemma {:induction false} CallArrived(calls: seq<Call>, i: nat)
    requires i < |calls| && calls[i].Arrive?
    ensures Numbered(calls[i].number, calls[i].packet) in Arrived(calls)
    decreases |calls|
  {
    if i < |calls| - 1 {
      CallArrived(calls[..|calls| - 1], i);
    } else {
      assert Arrived(calls)[|Arrived(calls)| - 1] == Arrival(calls[i])[0];
    }
  }

  // ---------- schedules exist ----------

  /** Arrivals handed over at once. */
  ghost function CallsAt(arrivals: seq<Numbered>, now: int): (calls: seq<Call>)
    ensures |calls| == |arrivals| && forall i :: 0 <= i < |calls| ==> calls[i].Time() == now
  {
    seq(|arrivals|, i requires 0 <= i < |arrivals| => Arrive(arrivals[i].number, arrivals[i].packet, now))
  }

  lemma {:induction false} CallsAtArrive(arrivals: seq<Numbered>, now: int)
    ensures Arrived(CallsAt(arrivals, now)) == arrivals
  {
    if arrivals != [] {
      var n := |arrivals| - 1;
      CallsAtArrive(arrivals[..n], now);
      assert CallsAt(arrivals, now)[..n] == CallsAt(arrivals[..n], now);
      assert arrivals == arrivals[..n] + [arrivals[n]];
    }
  }

  /** For every specification and every stream there is a schedule that `OrderRestored`
      speaks about, for instance the one without any delay inside the ticks. */
  lemma {:induction false} PromptSchedule(spec: Faults.FaultSpec, first: int, stream: seq<Packet>, start: int, n: nat)
    returns (ticks: seq<seq<Call>>)
    requires n <= |stream|
    ensures |ticks| == n && Follows(spec, first, stream, start, ticks)
  {
    hide Faults.Pushed, Faults.Emitted, Arrived;
    if n == 0 {
      ticks := [];
    } else {
      var before := PromptSchedule(spec, first, stream, start, n - 1);
      var out := Faults.Emitted(spec, After(spec, first, stream, n - 1), Nth(first, stream, n - 1));
      var now := start + (n - 1) * TICK;
      CallsAtArrive(out, now);
      ticks := before + [CallsAt(out, now)];
      assert ticks[..n - 1] == before;
    }
  }
}
