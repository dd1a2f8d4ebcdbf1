/** The index-tracked binary heap of internal/brain/queue.go: `waiterPQ` under the
    sift-up, sift-down and remove algorithms of Go's container/heap. */
module WaiterHeap {

  /** What identifies one call of acquire: its priority and its arrival number. */
  datatype Ticket = Ticket(priority: int, arrival: nat)

  /** Highest priority first, first come first served within a priority. */
  predicate Before(a: Ticket, b: Ticket)
  {
    a.priority > b.priority || (a.priority == b.priority && a.arrival < b.arrival)
  }

  class Waiter {
    const priority: int
    const arrival: nat
    var index: int

    function Id(): Ticket { Ticket(priority, arrival) }

    constructor (priority: int, arrival: nat)
      ensures this.priority == priority && this.arrival == arrival && index == 0
    {
      this.priority, this.arrival, index := priority, arrival, 0;
    }
  }

  // ---------- heap order on the slice ----------

  function Parent(k: int): int
    requires k >= 1
  {
    (k - 1) / 2
  }

  /** Position k is not ahead of its parent. */
  predicate InOrder(s: seq<Waiter>, k: int)
    requires 1 <= k < |s|
  {
    !Before(s[k].Id(), s[Parent(k)].Id())
  }

  /** Heap order on the first n positions, except at position `hole`. */
  predicate OrderedExcept(s: seq<Waiter>, n: int, hole: int)
    requires n <= |s|
  {
    forall k :: 1 <= k < n && k != hole ==> InOrder(s, k)
  }

  predicate Ordered(s: seq<Waiter>)
  {
    OrderedExcept(s, |s|, 0)
  }

  /** The children of `hole` are not ahead of its parent. */
  predicate Bridged(s: seq<Waiter>, n: int, hole: int)
    requires n <= |s|
  {
    forall k :: 1 <= k < n && Parent(k) == hole && 1 <= hole < n ==>
      !Before(s[k].Id(), s[Parent(hole)].Id())
  }

  function Swapped(s: seq<Waiter>, i: nat, j: nat): seq<Waiter>
    requires i < |s| && j < |s|
  {
    s[i := s[j]][j := s[i]]
  }

  /** The heap's root is ahead of everyone else in it. */
  lemma {:induction false} RootIsFirst(s: seq<Waiter>, k: nat)
    requires Ordered(s) && k < |s|
    ensures !Before(s[k].Id(), s[0].Id())
    decreases k
  {
    if k > 0 {
      assert InOrder(s, k);
      RootIsFirst(s, Parent(k));
    }
  }

  class WaiterPQ {
    var items: seq<Waiter>

    /** No waiter twice, and every waiter knows its position. */
    ghost predicate Indexed()
      reads this, Members()
    {
      && (forall i, j :: 0 <= i < j < |items| ==> items[i] != items[j])
      && (forall i :: 0 <= i < |items| ==> items[i].index == i)
    }

    /** The waiters on the heap. */
    function Members(): set<Waiter>
      reads this
    {
      set w | w in items
    }

    constructor ()
      ensures items == []
    {
      items := [];
    }

    method Swap(i: nat, j: nat)
      requires i < |items| && j < |items| && Indexed()
      modifies this, Members()
      ensures Indexed() && items == Swapped(old(items), i, j) && Members() == old(Members())
    {
      SwapMembers(items, i, j);
      items := items[i := items[j]][j := items[i]];
      items[i].index := i;
      items[j].index := j;
    }

    /** Sift-up: repairs the one position that may be ahead of its parent. The heap proper
        is the first n positions. */
    method Up(start: nat, ghost n: nat)
      requires Indexed() && start < n <= |items|
      requires OrderedExcept(items, n, start) && Bridged(items, n, start)
      modifies this, Members()
      ensures Indexed() && multiset(items) == old(multiset(items)) && Members() == old(Members())
      ensures |items| == |old(items)| && items[n..] == old(items[n..]) && OrderedExcept(items, n, 0)
    {
      var j := start;
      while j > 0 && Before(items[j].Id(), items[Parent(j)].Id())
        invariant Indexed() && j < n <= |items| && |items| == |old(items)|
        invariant multiset(items) == old(multiset(items)) && Members() == old(Members())
        invariant items[n..] == old(items[n..])
        invariant OrderedExcept(items, n, j) && Bridged(items, n, j)
        decreases j
      {
        UpStep(items, n, j);
        Swap(Parent(j), j);
        j := Parent(j);
      }
    }

    /** Sift-down within the first n positions; reports whether it moved anything. */
    method Down(start: nat, n: nat) returns (moved: bool)
      requires Indexed() && start <= n <= |items|
      requires Hollow(items, n, start, start)
      modifies this, Members()
      ensures Indexed() && multiset(items) == old(multiset(items)) && Members() == old(Members())
      ensures |items| == |old(items)| && items[n..] == old(items[n..])
      ensures OrderedExcept(items, n, start) && Bridged(items, n, start)
      ensures moved ==> start < n && (start >= 1 ==> InOrder(items, start))
      ensures !moved ==> items == old(items)
    {
      hide Hollow, InOrder, OrderedExcept, Bridged, ChildrenSettled, Chosen;
      var i := start;
      while true
        invariant Indexed() && start <= i && (i < n || i == start) && n <= |items| == |old(items)|
        invariant Members() == old(Members())
        invariant multiset(items) == old(multiset(items)) && items[n..] == old(items[n..])
        invariant Hollow(items, n, start, i)
        invariant i == start ==> items == old(items)
        decreases n - i
      {
        var j := 2 * i + 1;
        if j >= n {
          LeafSettled(items, n, i);
          break;
        }
        if j + 1 < n && Before(items[j + 1].Id(), items[j].Id()) {
          j := j + 1;
        }
        ChildChosen(items, n, i, j);
        if !Before(items[j].Id(), items[i].Id()) {
          ChosenSettled(items, n, i, j);
          break;
        }
        DownStep(items, n, start, i, j);
        Swap(i, j);
        i := j;
      }
      DownDone(items, n, start, i);
      moved := i > start;
    }

    /** The slice's own Push and Pop, at its end. */
    method Append(w: Waiter)
      requires Indexed() && w !in items
      modifies this, w
      ensures items == old(items) + [w] && Indexed()
    {
      w.index := |items|;
      items := items + [w];
    }

    method Drop() returns (w: Waiter)
      requires Indexed() && items != []
      modifies this, items[|items| - 1]
      ensures items == old(items)[..|old(items)| - 1] && w == old(items)[|old(items)| - 1]
      ensures Indexed() && w.index == -1 && w !in items
    {
      w := items[|items| - 1];
      w.index := -1;
      items := items[..|items| - 1];
    }

    /** heap.Push: the waiter joins, and the slice is a heap again. */
    method Push(w: Waiter)
      requires Indexed() && Ordered(items) && w !in items
      modifies this, Members(), w
      ensures Indexed() && Ordered(items) && multiset(items) == old(multiset(items)) + multiset{w}
    {
      Append(w);
      AppendedOrdered(old(items), w);
      Up(|items| - 1, |items|);
    }

    /** heap.Pop: the root leaves. */
    method Pop() returns (w: Waiter)
      requires Indexed() && Ordered(items) && items != []
      modifies this, Members()
      ensures w == old(items)[0] && w.index == -1 && w !in items
      ensures Indexed() && Ordered(items) && multiset(items) == old(multiset(items)) - multiset{w}
    {
      hide InOrder, Hollow;
      var root, n := 0, |items| - 1;
      ExchangedHollow(items, root);
      Swap(root, n);
      var moved := Down(root, n);
      DroppedLast(old(items), items, root);
      w := Drop();
    }

    /** heap.Remove: exactly the waiter at position i leaves. */
    method Remove(i: nat) returns (w: Waiter)
      requires Indexed() && Ordered(items) && i < |items|
      modifies this, Members()
      ensures w == old(items)[i] && w.index == -1 && w !in items
      ensures Indexed() && Ordered(items) && multiset(items) == old(multiset(items)) - multiset{w}
    {
      var n := |items| - 1;
      if n != i {
        ExchangedHollow(items, i);
        Swap(i, n);
        hide InOrder, Hollow;
        var moved := Down(i, n);
        if !moved {
          Up(i, n);
        }
      }
      DroppedLast(old(items), items, i);
      w := Drop();
    }
  }

  lemma {:induction false} AppendedOrdered(s: seq<Waiter>, w: Waiter)
    requires Ordered(s)
    ensures var t := s + [w];
            OrderedExcept(t, |t|, |s|) && Bridged(t, |t|, |s|) && multiset(t) == multiset(s) + multiset{w}
  {
    forall k | 1 <= k < |s| ensures InOrder(s + [w], k) {
      assert InOrder(s, k);
    }
  }

  /** Exchanging position i of a heap with the last leaves a hole at i. */
  lemma {:induction false} ExchangedHollow(s: seq<Waiter>, i: nat)
    requires Ordered(s) && i < |s|
    ensures Hollow(Swapped(s, i, |s| - 1), |s| - 1, i, i)
  {
    var n := |s| - 1;
    var t := Swapped(s, i, n);
    forall k | 1 <= k < n && Parent(k) != i && k != i ensures InOrder(t, k) {
      assert InOrder(s, k);
    }
    forall k | 1 <= k < n && Parent(k) == i && 1 <= i < n ensures !Before(t[k].Id(), t[Parent(i)].Id()) {
      assert InOrder(s, k) && InOrder(s, i);
    }
  }

  /** What is left once the waiter exchanged to the end is dropped. */
  lemma {:induction false} DroppedLast(before: seq<Waiter>, after: seq<Waiter>, i: nat)
    requires i < |before| == |after| && multiset(after) == multiset(before)
    requires after[|after| - 1] == before[i] && OrderedExcept(after, |after| - 1, 0)
    ensures multiset(after[..|after| - 1]) == multiset(before) - multiset{before[i]}
    ensures Ordered(after[..|after| - 1])
  {
    var n := |after| - 1;
    assert after == after[..n] + [before[i]];
    forall k | 1 <= k < n ensures InOrder(after[..n], k) {
      assert InOrder(after, k);
    }
  }

  /** During a sift-down from `start`, everything is in order except the children of the
      hole i and, until something moves, `start` itself. */
  predicate Hollow(s: seq<Waiter>, n: int, start: int, i: int)
    requires n <= |s|
  {
    && (forall k :: 1 <= k < n && Parent(k) != i && (k != start || i != start) ==> InOrder(s, k))
    && Bridged(s, n, i)
    && Bridged(s, n, start)
  }

  predicate ChildrenSettled(s: seq<Waiter>, n: int, i: int)
    requires n <= |s|
  {
    forall k :: 1 <= k < n && Parent(k) == i ==> InOrder(s, k)
  }

  /** j is the child of i that no sibling is ahead of. */
  predicate Chosen(s: seq<Waiter>, n: int, i: int, j: int)
    requires n <= |s|
  {
    1 <= j < n && Parent(j) == i && forall k :: 1 <= k < n && Parent(k) == i ==> !Before(s[k].Id(), s[j].Id())
  }

  lemma {:induction false} ChildChosen(s: seq<Waiter>, n: int, i: nat, j: nat)
    requires n <= |s| && 2 * i + 1 < n
    requires j == (if 2 * i + 2 < n && Before(s[2 * i + 2].Id(), s[2 * i + 1].Id()) then 2 * i + 2 else 2 * i + 1)
    ensures Chosen(s, n, i, j)
  {
  }

  lemma {:induction false} LeafSettled(s: seq<Waiter>, n: int, i: nat)
    requires n <= |s| && 2 * i + 1 >= n
    ensures ChildrenSettled(s, n, i)
  {
  }

  lemma {:induction false} ChosenSettled(s: seq<Waiter>, n: int, i: nat, j: nat)
    requires n <= |s| && i < n && Chosen(s, n, i, j) && !Before(s[j].Id(), s[i].Id())
    ensures ChildrenSettled(s, n, i)
  {
  }

  lemma {:induction false} DownStep(s: seq<Waiter>, n: int, start: int, i: nat, j: nat)
    requires start <= i && i < n <= |s| && j < n && Hollow(s, n, start, i)
    requires Before(s[j].Id(), s[i].Id()) && Chosen(s, n, i, j)
    ensures var t := Swapped(s, i, j);
            Hollow(t, n, start, j) && multiset(t) == multiset(s) && t[n..] == s[n..]
  {
    var t := Swapped(s, i, j);
    forall k | 1 <= k < n && Parent(k) != j ensures InOrder(t, k) {
      if k != j && k != i && Parent(k) != i { assert InOrder(s, k); }
    }
  }

  lemma {:induction false} DownDone(s: seq<Waiter>, n: int, start: int, i: nat)
    requires start <= i && (i < n || i == start) && n <= |s| && Hollow(s, n, start, i)
    requires ChildrenSettled(s, n, i)
    ensures OrderedExcept(s, n, start) && Bridged(s, n, start)
    ensures i > start && start >= 1 ==> InOrder(s, start)
  {
  }

  lemma {:induction false} SwapMembers(s: seq<Waiter>, i: nat, j: nat)
    requires i < |s| && j < |s|
    ensures (set w | w in Swapped(s, i, j)) == (set w | w in s)
    ensures multiset(Swapped(s, i, j)) == multiset(s)
  {
    var t := Swapped(s, i, j);
    assert forall k :: 0 <= k < |s| ==> s[k] == t[if k == i then j else if k == j then i else k];
  }

  /** Exchanging j with its parent moves the hole up. */
  lemma {:induction false} UpStep(s: seq<Waiter>, n: int, j: nat)
    requires 1 <= j < n <= |s| && OrderedExcept(s, n, j) && Bridged(s, n, j) && !InOrder(s, j)
    ensures var t := Swapped(s, Parent(j), j);
            OrderedExcept(t, n, Parent(j)) && Bridged(t, n, Parent(j)) && multiset(t) == multiset(s) && t[n..] == s[n..]
  {
    var i := Parent(j);
    var t := Swapped(s, i, j);
    forall k | 1 <= k < n && k != i ensures InOrder(t, k) {
      if k != j { assert InOrder(s, k); }
    }
    forall k | 1 <= k < n && Parent(k) == i && 1 <= i ensures !Before(t[k].Id(), t[Parent(i)].Id()) {
      assert InOrder(s, i);
      if k != j { assert InOrder(s, k); }
    }
  }
}
