/** The bounded priority queue of internal/workqueue/queue.go: entries in one backing
    array, compacted in place on Push and scanned for the first maximum on Pop. */
module WorkQueue {
  import opened Basics
  import Turns = TurnQueue
  import Heap = WaiterHeap

  /** `ctx` names the submission's context. */
  datatype Entry<T> = Entry(ctx: nat, value: T, priority: int)

  datatype PushResult = Accepted | ContextDone | ErrClosed | ErrFull

  // ---------- the queue as a sequence ----------

  /** The entries whose context is not done, in order. */
  function Live<T>(entries: seq<Entry<T>>, dead: set<nat>): (live: seq<Entry<T>>)
    ensures |live| <= |entries|
  {
    if entries == [] then []
    else
      var last := entries[|entries| - 1];
      Live(entries[..|entries| - 1], dead) + (if last.ctx in dead then [] else [last])
  }

  ghost predicate Increasing(s: seq<nat>) {
    forall i, j :: 0 <= i < j < |s| ==> s[i] < s[j]
  }

  /** The positions that compaction keeps. */
  function KeptAt<T>(entries: seq<Entry<T>>, dead: set<nat>): seq<nat>
  {
    if entries == [] then []
    else
      var last := |entries| - 1;
      KeptAt(entries[..last], dead) + (if entries[last].ctx in dead then [] else [last])
  }

  /** Compaction keeps the entries at these positions, in their order ... */
  lemma {:induction false} LiveKeepsOrder<T>(entries: seq<Entry<T>>, dead: set<nat>)
    ensures var kept := KeptAt(entries, dead);
            && |kept| == |Live(entries, dead)| && Increasing(kept)
            && forall k :: 0 <= k < |kept| ==> kept[k] < |entries| && Live(entries, dead)[k] == entries[kept[k]]
  {
    if entries != [] {
      LiveKeepsOrder(entries[..|entries| - 1], dead);
    }
  }

  /** ... and these are exactly the positions whose context is not done. */
  lemma {:induction false} KeptIff<T>(entries: seq<Entry<T>>, dead: set<nat>, i: nat)
    requires i < |entries|
    ensures i in KeptAt(entries, dead) <==> entries[i].ctx !in dead
    decreases |entries|
  {
    var last := |entries| - 1;
    if i < last {
      KeptIff(entries[..last], dead, i);
    } else {
      KeptBelow(entries[..last], dead);
    }
  }

  lemma {:induction false} KeptBelow<T>(entries: seq<Entry<T>>, dead: set<nat>)
    ensures forall i :: i in KeptAt(entries, dead) ==> i < |entries|
  {
    if entries != [] {
      KeptBelow(entries[..|entries| - 1], dead);
    }
  }

  /** Position i holds the highest priority, and nothing before it holds as much. */
  predicate IsPick<T>(entries: seq<Entry<T>>, i: nat)
  {
    && i < |entries|
    && (forall j :: 0 <= j < i ==> entries[j].priority < entries[i].priority)
    && (forall j :: i <= j < |entries| ==> entries[j].priority <= entries[i].priority)
  }

  /** The scan of Pop: keep the first maximum seen. */
  function Scan<T>(entries: seq<Entry<T>>, n: nat): (best: nat)
    requires 1 <= n <= |entries|
    ensures best < n
    ensures forall j :: 0 <= j < best ==> entries[j].priority < entries[best].priority
    ensures forall j :: best <= j < n ==> entries[j].priority <= entries[best].priority
  {
    if n == 1 then 0
    else
      var best := Scan(entries, n - 1);
      if entries[n - 1].priority > entries[best].priority then n - 1 else best
  }

  function Pick<T>(entries: seq<Entry<T>>): (i: nat)
    requires entries != []
    ensures IsPick(entries, i)
  {
    Scan(entries, |entries|)
  }

  function Without<T>(s: seq<T>, i: nat): seq<T>
    requires i < |s|
  {
    s[..i] + s[i + 1..]
  }

  // ---------- popping to empty is a stable sort ----------

  /** What repeated pops of an open queue return. */
  function PopAll<T>(entries: seq<Entry<T>>): seq<Entry<T>>
    decreases |entries|
  {
    if entries == [] then []
    else [entries[Pick(entries)]] + PopAll(Without(entries, Pick(entries)))
  }

  /** The entries of one priority, in order. */
  function OfPriority<T>(s: seq<Entry<T>>, p: int): seq<Entry<T>>
  {
    if s == [] then []
    else (if s[0].priority == p then [s[0]] else []) + OfPriority(s[1..], p)
  }

  predicate Descending<T>(s: seq<Entry<T>>)
  {
    forall i, j :: 0 <= i < j < |s| ==> s[i].priority >= s[j].priority
  }

  /** t is s sorted by descending priority, ties in arrival order. */
  ghost predicate IsStableSort<T>(s: seq<Entry<T>>, t: seq<Entry<T>>)
  {
    Descending(t) && multiset(t) == multiset(s) && forall p :: OfPriority(t, p) == OfPriority(s, p)
  }

  lemma {:induction false} OfPriorityConcat<T>(a: seq<Entry<T>>, b: seq<Entry<T>>, p: int)
    ensures OfPriority(a + b, p) == OfPriority(a, p) + OfPriority(b, p)
  {
    if a == [] {
      assert a + b == b;
    } else {
      OfPriorityConcat(a[1..], b, p);
      assert (a + b)[1..] == a[1..] + b;
    }
  }

  lemma {:induction false} OfPriorityNone<T>(s: seq<Entry<T>>, p: int)
    requires forall i :: 0 <= i < |s| ==> s[i].priority != p
    ensures OfPriority(s, p) == []
  {
    if s != [] { OfPriorityNone(s[1..], p); }
  }

  /** Taking the pick first does not disturb the order within any priority. */
  lemma {:induction false} PickFirst<T>(s: seq<Entry<T>>, p: int)
    requires s != []
    ensures var i := Pick(s);
            OfPriority(s, p) == (if s[i].priority == p then [s[i]] else []) + OfPriority(Without(s, i), p)
  {
    var i := Pick(s);
    assert s == s[..i] + [s[i]] + s[i + 1..];
    OfPriorityConcat(s[..i] + [s[i]], s[i + 1..], p);
    OfPriorityConcat(s[..i], [s[i]], p);
    OfPriorityConcat(s[..i], s[i + 1..], p);
    assert [s[i]][1..] == [];
    if s[i].priority == p {
      OfPriorityNone(s[..i], p);
    }
  }

  lemma {:induction false} WithoutKeeps<T>(s: seq<T>, i: nat)
    requires i < |s|
    ensures multiset(s) == multiset{s[i]} + multiset(Without(s, i))
  {
    assert s == s[..i] + [s[i]] + s[i + 1..];
  }

  lemma {:induction false} PopAllKeeps<T>(s: seq<Entry<T>>)
    ensures multiset(PopAll(s)) == multiset(s)
    decreases |s|
  {
    if s != [] {
      var i := Pick(s);
      PopAllKeeps(Without(s, i));
      WithoutKeeps(s, i);
    }
  }

  lemma {:induction false} PopAllDescends<T>(s: seq<Entry<T>>)
    ensures Descending(PopAll(s))
    decreases |s|
  {
    if s != [] {
      var i := Pick(s);
      var rest := Without(s, i);
      var t := PopAll(rest);
      PopAllDescends(rest);
      PopAllKeeps(rest);
      forall j | 0 <= j < |t| ensures t[j].priority <= s[i].priority {
        SameMembers(t, rest, j);
      }
    }
  }

  lemma {:induction false} SameMembers<T>(t: seq<T>, u: seq<T>, j: nat)
    requires multiset(t) == multiset(u) && j < |t|
    ensures t[j] in u
  {
    assert t[j] in multiset(t);
    assert t[j] in multiset(u);
  }

  lemma {:induction false} PopAllStable<T>(s: seq<Entry<T>>, p: int)
    ensures OfPriority(PopAll(s), p) == OfPriority(s, p)
    decreases |s|
  {
    if s != [] {
      var i := Pick(s);
      var t := PopAll(Without(s, i));
      PopAllStable(Without(s, i), p);
      PickFirst(s, p);
      assert ([s[i]] + t)[1..] == t;
    }
  }

  /** Main theorem: popping an open queue to empty returns the stable descending sort of
      its entries. */
  lemma {:induction false} PopAllSorts<T>(s: seq<Entry<T>>)
    ensures IsStableSort(s, PopAll(s))
  {
    PopAllKeeps(s);
    PopAllDescends(s);
    forall p ensures OfPriority(PopAll(s), p) == OfPriority(s, p) {
      PopAllStable(s, p);
    }
  }

  /** There is only one stable sort, so `IsStableSort` pins the order down. */
  lemma {:induction false} StableSortUnique<T>(s: seq<Entry<T>>, t: seq<Entry<T>>, u: seq<Entry<T>>)
    requires IsStableSort(s, t) && IsStableSort(s, u)
    ensures t == u
  {
    SameOrder(t, u);
  }

  lemma {:induction false} SameOrder<T>(t: seq<Entry<T>>, u: seq<Entry<T>>)
    requires Descending(t) && Descending(u) && multiset(t) == multiset(u)
    requires forall p :: OfPriority(t, p) == OfPriority(u, p)
    ensures t == u
    decreases |t|
  {
    assert |multiset(t)| == |t| && |multiset(u)| == |u|;
    if t != [] {
      HeadPriority(t, u);
      HeadPriority(u, t);
      var p := t[0].priority;
      assert OfPriority(t, p) == OfPriority(u, p);
      SplitHead(t, p);
      SplitHead(u, p);
      assert t[0] == u[0];
      SameTails(t, u);
      forall q ensures OfPriority(t[1..], q) == OfPriority(u[1..], q) {
        assert OfPriority(t, q) == OfPriority(u, q);
        SplitHead(t, q);
        SplitHead(u, q);
      }
      SameOrder(t[1..], u[1..]);
      assert t == [t[0]] + t[1..] && u == [u[0]] + u[1..];
    }
  }

  lemma {:induction false} SameTails<T>(t: seq<T>, u: seq<T>)
    requires t != [] && u != [] && t[0] == u[0] && multiset(t) == multiset(u)
    ensures multiset(t[1..]) == multiset(u[1..])
  {
    WithoutKeeps(t, 0);
    WithoutKeeps(u, 0);
    assert Without(t, 0) == t[1..] && Without(u, 0) == u[1..];
    assert multiset(t) - multiset{t[0]} == multiset(t[1..]);
    assert multiset(u) - multiset{u[0]} == multiset(u[1..]);
  }

  lemma {:induction false} SplitHead<T>(s: seq<Entry<T>>, q: int)
    requires s != []
    ensures OfPriority(s, q)[..if s[0].priority == q then 1 else 0] == (if s[0].priority == q then [s[0]] else [])
    ensures OfPriority(s, q)[if s[0].priority == q then 1 else 0..] == OfPriority(s[1..], q)
  {
  }

  lemma {:induction false} HeadPriority<T>(t: seq<Entry<T>>, u: seq<Entry<T>>)
    requires Descending(u) && multiset(t) == multiset(u) && t != [] && u != []
    ensures t[0].priority <= u[0].priority
  {
    assert t[0] in multiset(t);
    assert t[0] in u;
  }

  // ---------- agreement with the turn queue ----------

  /** The tickets the same submissions would hold in a turn queue, where arrival numbers
      grow with the order of submission. */
  function TicketOf<T>(e: Entry<T>, arrival: nat): Heap.Ticket
  {
    Heap.Ticket(e.priority, arrival)
  }

  /** On the same arrivals the array scan and the heap choose the same next element. */
  lemma {:induction false} SameChoice<T>(entries: seq<Entry<T>>, arrivals: seq<nat>, i: nat)
    requires |arrivals| == |entries| && i < |entries|
    requires forall j, k :: 0 <= j < k < |arrivals| ==> arrivals[j] < arrivals[k]
    ensures var queue := set j | 0 <= j < |entries| :: TicketOf(entries[j], arrivals[j]);
            IsPick(entries, i) <==> Turns.IsBest(TicketOf(entries[i], arrivals[i]), queue)
  {
    var queue := set j | 0 <= j < |entries| :: TicketOf(entries[j], arrivals[j]);
    var t := TicketOf(entries[i], arrivals[i]);
    assert t in queue;
    if IsPick(entries, i) {
      forall u | u in queue ensures u == t || Heap.Before(t, u) {
        var j :| 0 <= j < |entries| && u == TicketOf(entries[j], arrivals[j]);
      }
    }
    if Turns.IsBest(t, queue) {
      forall j | 0 <= j < |entries| && j != i
        ensures entries[j].priority <= entries[i].priority && (j < i ==> entries[j].priority < entries[i].priority)
      {
        assert TicketOf(entries[j], arrivals[j]) in queue;
      }
    }
  }

  // ---------- blocked consumers ----------

  /** A Push under the lock: its result, and the entries it leaves. */
  function Pushed<T>(entries: seq<Entry<T>>, closed: bool, capacity: int, dead: set<nat>, e: Entry<T>)
    : (PushResult, seq<Entry<T>>)
  {
    var live := Live(entries, dead);
    if e.ctx in dead then (ContextDone, entries)
    else if closed then (ErrClosed, entries)
    else if |live| >= capacity then (ErrFull, live)
    else (Accepted, live + [e])
  }

  /** Callers of Pop around the condition variable: `parked` in Wait, `woken` on their way
      out of it. Push signals one, Close all. */
  datatype Pool<T> = Pool(entries: seq<Entry<T>>, parked: nat, woken: nat, closed: bool)

  datatype PoolEvent<T> =
    | Submit(entry: Entry<T>, dead: set<nat>)  // a Push, whatever becomes of it
    | Call                                     // a fresh caller of Pop takes the lock
    | Resume                                   // a woken caller takes the lock again
    | Shut

  predicate PoolEnabled<T>(s: Pool<T>, e: PoolEvent<T>)
  {
    e.Resume? ==> s.woken > 0
  }

  /** The body of Pop under the lock: it returns, waits, or takes the pick. */
  function Attend<T>(s: Pool<T>): Pool<T>
  {
    if s.closed then s
    else if s.entries == [] then s.(parked := s.parked + 1)
    else s.(entries := Without(s.entries, Pick(s.entries)))
  }

  function Signalled<T>(s: Pool<T>): Pool<T>
  {
    if s.parked == 0 then s else s.(parked := s.parked - 1, woken := s.woken + 1)
  }

  function PoolNext<T>(s: Pool<T>, capacity: int, e: PoolEvent<T>): Pool<T>
    requires PoolEnabled(s, e)
  {
    match e
    case Submit(entry, dead) =>
      var (r, entries) := Pushed(s.entries, s.closed, capacity, dead, entry);
      var t := s.(entries := entries);
      if r.Accepted? then Signalled(t) else t
    case Call => Attend(s)
    case Resume => Attend(s.(woken := s.woken - 1))
    case Shut => Pool([], 0, s.woken + s.parked, true)
  }

  ghost predicate IsPoolRun<T>(events: seq<PoolEvent<T>>, states: seq<Pool<T>>, capacity: int)
  {
    && |states| == |events| + 1 && states[0] == Pool([], 0, 0, false)
    && forall i :: 0 <= i < |events| ==>
         PoolEnabled(states[i], events[i]) && states[i + 1] == PoolNext(states[i], capacity, events[i])
  }

  /** One signal per Push suffices in every interleaving: while somebody is parked there is
      a woken caller for every entry, and after Close nobody is parked. The queue never
      holds more than its capacity, and nothing once closed. */
  lemma {:induction false} EveryEntryHasAConsumer<T>(events: seq<PoolEvent<T>>, states: seq<Pool<T>>, capacity: int, i: nat)
    requires IsPoolRun(events, states, capacity) && i < |states|
    ensures states[i].parked > 0 ==> !states[i].closed && states[i].woken >= |states[i].entries|
    ensures states[i].entries != [] ==> |states[i].entries| <= capacity && !states[i].closed
  {
    hide PoolNext, PoolEnabled;
    if i > 0 {
      EveryEntryHasAConsumer(events, states, capacity, i - 1);
      PoolStep(states[i - 1], capacity, events[i - 1]);
    }
  }

  ghost predicate Served<T>(s: Pool<T>, capacity: int)
  {
    && (s.parked > 0 ==> !s.closed && s.woken >= |s.entries|)
    && (s.entries != [] ==> |s.entries| <= capacity && !s.closed)
  }

  lemma {:induction false} PoolStep<T>(s: Pool<T>, capacity: int, e: PoolEvent<T>)
    requires Served(s, capacity) && PoolEnabled(s, e)
    ensures Served(PoolNext(s, capacity, e), capacity)
  {
    hide Live, Pick;
  }

  // ---------- the queue object ----------

  /** Bodies of the methods under the lock. `contents` is the abstract value; slots past
      the end are cleared, so nothing popped or expired stays referenced. */
  class Queue<T> {
    const capacity: int
    var slots: array<Option<Entry<T>>>
    var n: nat
    var closed: bool
    ghost var contents: seq<Entry<T>>

    ghost predicate Valid()
      reads this, slots
    {
      && |contents| == n <= slots.Length
      && (forall i :: 0 <= i < n ==> slots[i] == Some(contents[i]))
      && (forall i :: n <= i < slots.Length ==> slots[i] == None)
      && (n > 0 ==> n <= capacity && !closed)
    }

    constructor (capacity: int)
      ensures Valid() && contents == [] && !closed && this.capacity == capacity && fresh(slots)
    {
      this.capacity := capacity;
      slots := new Option<Entry<T>>[0];
      n, closed, contents := 0, false, [];
    }

    /** `dead` is the set of contexts that are done while the lock is held. */
    method Push(ctx: nat, dead: set<nat>, value: T, priority: int) returns (r: PushResult)
      requires Valid()
      modifies this, slots
      ensures Valid() && closed == old(closed) && (slots == old(slots) || fresh(slots))
      ensures (r, contents) == Pushed(old(contents), closed, capacity, dead, Entry(ctx, value, priority))
      ensures ctx in dead ==> r == ContextDone && contents == old(contents)
      ensures ctx !in dead && closed ==> r == ErrClosed && contents == old(contents)
      ensures ctx !in dead && !closed ==>
                var live := Live(old(contents), dead);
                if |live| >= capacity then r == ErrFull && contents == live
                else r == Accepted && contents == live + [Entry(ctx, value, priority)]
    {
      if ctx in dead {
        return ContextDone;
      }
      if closed {
        return ErrClosed;
      }
      Compact(dead);
      if n >= capacity {
        return ErrFull;
      }
      Append(Entry(ctx, value, priority));
      r := Accepted;
    }

    method Compact(dead: set<nat>)
      requires Valid()
      modifies this`n, this`contents, slots
      ensures Valid() && contents == Live(old(contents), dead)
    {
      var kept := Slide(dead);
      var i := n;
      while i > kept
        modifies slots
        invariant kept <= i <= n
        invariant forall j :: 0 <= j < kept ==> slots[j] == Some(Live(contents, dead)[j])
        invariant forall j :: i <= j < slots.Length ==> slots[j] == None
      {
        i := i - 1;
        slots[i] := None;
      }
      n, contents := kept, Live(contents, dead);
    }

    /** Moves the live entries to the front. */
    method Slide(dead: set<nat>) returns (kept: nat)
      requires Valid()
      modifies slots
      ensures kept == |Live(contents, dead)| <= n
      ensures forall j :: 0 <= j < kept ==> slots[j] == Some(Live(contents, dead)[j])
      ensures forall j :: n <= j < slots.Length ==> slots[j] == None
    {
      kept := 0;
      var i := 0;
      while i < n
        modifies slots
        invariant kept <= i <= n
        invariant kept == |Live(contents[..i], dead)|
        invariant forall j :: 0 <= j < kept ==> slots[j] == Some(Live(contents[..i], dead)[j])
        invariant forall j :: i <= j < n ==> slots[j] == Some(contents[j])
        invariant forall j :: n <= j < slots.Length ==> slots[j] == None
      {
        assert contents[..i + 1][..i] == contents[..i];
        if slots[i].value.ctx !in dead {
          slots[kept] := slots[i];
          kept := kept + 1;
        }
        i := i + 1;
      }
      assert contents[..n] == contents;
    }

    method Append(e: Entry<T>)
      requires Valid() && n < capacity && !closed
      modifies this`slots, this`n, this`contents, slots
      ensures Valid() && contents == old(contents) + [e] && (slots == old(slots) || fresh(slots))
    {
      if n == slots.Length {
        var grown := new Option<Entry<T>>[2 * n + 1](_ => None);
        var i := 0;
        while i < n
          invariant 0 <= i <= n
          invariant forall j :: 0 <= j < i ==> grown[j] == slots[j]
          invariant forall j :: i <= j < grown.Length ==> grown[j] == None
          modifies grown
        {
          grown[i] := slots[i];
          i := i + 1;
        }
        slots := grown;
      }
      slots[n] := Some(e);
      n, contents := n + 1, contents + [e];
    }

    /** Pop once its wait loop is over: the queue is closed or holds an entry. */
    method Pop() returns (r: Option<T>)
      requires Valid() && (closed || n > 0)
      modifies this`n, this`contents, slots
      ensures Valid()
      ensures closed ==> r == None && contents == old(contents)
      ensures !closed ==>
                var i := Pick(old(contents));
                r == Some(old(contents)[i].value) && contents == Without(old(contents), i)
    {
      if closed {
        return None;
      }
      var best, i := 0, 1;
      while i < n
        invariant 1 <= i <= n && best == Scan(contents, i)
      {
        if slots[i].value.priority > slots[best].value.priority {
          best := i;
        }
        i := i + 1;
      }
      r := Some(slots[best].value.value);
      RemoveAt(best);
    }

    /** Shifts everything behind slot `at` down by one and clears the last slot. */
    method RemoveAt(at: nat)
      requires Valid() && at < n
      modifies this`n, this`contents, slots
      ensures Valid() && contents == Without(old(contents), at)
    {
      var k := at;
      while k < n - 1
        modifies slots
        invariant at <= k <= n - 1
        invariant forall j :: 0 <= j < at || k <= j < n ==> slots[j] == Some(contents[j])
        invariant forall j :: at <= j < k ==> slots[j] == Some(contents[j + 1])
        invariant forall j :: n <= j < slots.Length ==> slots[j] == None
      {
        slots[k] := slots[k + 1];
        k := k + 1;
      }
      slots[n - 1] := None;
      n, contents := n - 1, Without(contents, at);
    }

    method Close()
      requires Valid()
      modifies this
      ensures Valid() && closed && contents == [] && fresh(slots)
    {
      slots := new Option<Entry<T>>[0];
      closed, n, contents := true, 0, [];
    }
  }
}
