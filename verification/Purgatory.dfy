/**
 Produce requests that wait for the high watermark: a binary min-heap of waiters ordered by
 the offset they need, in which every waiter knows its own position.
 */
module Purgatory {
  import opened Batches

  datatype Failure = RequestTimedOut | NotLeader | StorageFailed

  class Waiter {
    const requiredHw: nat
    var index: nat
    var err: Option<Failure>
    var closed: bool

    constructor (requiredHw: nat)
      ensures this.requiredHw == requiredHw && err.None? && !closed
    {
      this.requiredHw := requiredHw;
      index, err, closed := 0, None, false;
    }

    /** Wakes the request. Closing a channel twice would crash. */
    method Close(e: Option<Failure>)
      requires !closed
      modifies this
      ensures closed && err == e && index == old(index)
    {
      err, closed := e, true;
    }
  }

  // ----- Heap order -----

  function Parent(k: nat): nat
    requires k > 0
  {
    (k - 1) / 2
  }

  /** `k` is no smaller than its parent. */
  ghost predicate InPlace(h: seq<Waiter>, k: nat)
    requires k < |h|
  {
    k > 0 ==> h[Parent(k)].requiredHw <= h[k].requiredHw
  }

  ghost predicate Heap(h: seq<Waiter>, n: nat)
    requires n <= |h|
  {
    forall k :: 0 <= k < n ==> InPlace(h, k)
  }

  /** `k` is no smaller than its grandparent, if its parent is `i`. */
  ghost predicate Grand(h: seq<Waiter>, k: nat, i: nat)
    requires k < |h|
  {
    k > 0 && Parent(k) == i && i > 0 ==> h[Parent(i)].requiredHw <= h[k].requiredHw
  }

  /** A heap up to the order between `j` and its parent. */
  ghost predicate HeapBelow(h: seq<Waiter>, n: nat, j: nat)
    requires n <= |h|
  {
    forall k :: 0 <= k < n ==> Grand(h, k, j) && (k != j ==> InPlace(h, k))
  }

  /** A heap up to the order between `i` and its parent and children. */
  ghost predicate HeapAround(h: seq<Waiter>, n: nat, i: nat)
    requires n <= |h|
  {
    forall k :: 0 <= k < n ==> Grand(h, k, i) && (k > 0 && k != i && Parent(k) != i ==> InPlace(h, k))
  }

  function Swapped(h: seq<Waiter>, i: nat, j: nat): (r: seq<Waiter>)
    requires i < |h| && j < |h|
    ensures |r| == |h| && r[i] == h[j] && r[j] == h[i]
    ensures forall k :: 0 <= k < |h| && k != i && k != j ==> r[k] == h[k]
    ensures multiset(r) == multiset(h)
  {
    h[i := h[j]][j := h[i]]
  }

  /** The smallest waiter of a heap is at its root. */
  lemma {:induction false} RootIsLeast(h: seq<Waiter>, n: nat, k: nat)
    requires n <= |h| && Heap(h, n) && k < n
    ensures h[0].requiredHw <= h[k].requiredHw
  {
    if k > 0 {
      assert InPlace(h, k);
      RootIsLeast(h, n, Parent(k));
    }
  }

  /** Moving `j` up over its parent. */
  lemma {:induction false} UpStep(h: seq<Waiter>, n: nat, j: nat)
    requires 0 < j < n <= |h| && HeapBelow(h, n, j) && h[j].requiredHw < h[Parent(j)].requiredHw
    ensures HeapBelow(Swapped(h, Parent(j), j), n, Parent(j))
  {
    var i, s := Parent(j), Swapped(h, Parent(j), j);
    forall k | 0 <= k < n ensures Grand(s, k, i) && (k != i ==> InPlace(s, k)) {
      assert Grand(h, k, j) && (k != j ==> InPlace(h, k)) && (i != j ==> InPlace(h, i));
    }
  }

  /** Moving `i` down over its smaller child `j`. */
  lemma {:induction false} DownStep(h: seq<Waiter>, n: nat, i: nat, j: nat)
    requires i < j < n <= |h| && Parent(j) == i && HeapAround(h, n, i) && h[j].requiredHw < h[i].requiredHw
    requires forall k :: 0 < k < n && Parent(k) == i ==> h[j].requiredHw <= h[k].requiredHw
    ensures HeapAround(Swapped(h, i, j), n, j)
    ensures InPlace(Swapped(h, i, j), j)
  {
    var s := Swapped(h, i, j);
    assert Grand(h, j, i);
    forall k | 0 <= k < n ensures Grand(s, k, j) && (k > 0 && k != j && Parent(k) != j ==> InPlace(s, k)) {
      assert Grand(h, k, i) && (k > 0 && k != i && Parent(k) != i ==> InPlace(h, k));
    }
  }

  // ----- The queue -----

  class WaiterQueue {
    var heap: seq<Waiter>
    /** Every waiter that was ever pushed, and the largest high watermark drained to. */
    ghost var all: set<Waiter>
    ghost var reached: nat

    /** Each queued waiter was pushed, is open and knows its position. */
    ghost predicate Placed()
      reads this, all
    {
      forall k :: 0 <= k < |heap| ==> heap[k] in all && heap[k].index == k && !heap[k].closed
    }

    /** A waiter is queued or woken, and is woken without an error only when its offset was reached. */
    ghost predicate Fate(w: Waiter)
      reads this, w
    {
      if w.closed then w !in heap && (w.err.None? ==> w.requiredHw <= reached) else w in heap && w.err.None?
    }

    ghost predicate Valid()
      reads this, all
    {
      && Placed() && Heap(heap, |heap|)
      && (forall w :: w in all ==> Fate(w))
    }

    constructor ()
      ensures Valid() && heap == [] && all == {} && reached == 0
    {
      heap, all, reached := [], {}, 0;
    }

    method Swap(i: nat, j: nat)
      requires i < |heap| && j < |heap| && Placed()
      modifies this`heap, all`index
      ensures Placed() && heap == Swapped(old(heap), i, j)
    {
      heap := Swapped(heap, i, j);
      heap[i].index := i;
      heap[j].index := j;
    }

    method Up(start: nat)
      requires start < |heap| && Placed() && HeapBelow(heap, |heap|, start)
      modifies this`heap, all`index
      ensures |heap| == old(|heap|) && Placed() && Heap(heap, |heap|) && multiset(heap) == old(multiset(heap))
    {
      var j: nat := start;
      while j > 0 && heap[j].requiredHw < heap[Parent(j)].requiredHw
        invariant j < |heap| == old(|heap|) && Placed() && HeapBelow(heap, |heap|, j)
        invariant multiset(heap) == old(multiset(heap))
        decreases j
      {
        UpStep(heap, |heap|, j);
        Swap(Parent(j), j);
        j := Parent(j);
      }
      assert forall k :: 0 <= k < |heap| && k != j ==> InPlace(heap, k);
    }

    /** Sinks `start` among the first `n` waiters; tells whether it moved. */
    method Down(start: nat, n: nat) returns (moved: bool)
      requires start <= n <= |heap| && Placed() && HeapAround(heap, n, start)
      modifies this`heap, all`index
      ensures |heap| == old(|heap|) && heap[n..] == old(heap)[n..]
      ensures Placed() && multiset(heap) == old(multiset(heap))
      ensures if moved then Heap(heap, n) else HeapBelow(heap, n, start)
    {
      var i: nat := start;
      moved := false;
      while 2 * i + 1 < n
        invariant i <= n <= |heap| == old(|heap|) && Placed() && HeapAround(heap, n, i)
        invariant if moved then i < n && InPlace(heap, i) else i == start
        invariant multiset(heap) == old(multiset(heap)) && heap[n..] == old(heap)[n..]
        decreases n - i
      {
        var j := 2 * i + 1;
        if j + 1 < n && heap[j + 1].requiredHw < heap[j].requiredHw { j := j + 1; }
        if heap[j].requiredHw >= heap[i].requiredHw {
          Settled(heap, n, i);
          return;
        }
        DownStep(heap, n, i, j);
        Swap(i, j);
        i, moved := j, true;
      }
      Settled(heap, n, i);
    }

    /** Moves the waiter at `i` to the end and puts the rest in order again, up to `i` and its parent. */
    method Displace(i: nat) returns (moved: bool)
      requires i < |heap| - 1 && Placed() && Heap(heap, |heap|)
      modifies this`heap, all`index
      ensures |heap| == old(|heap|) && heap[|heap| - 1] == old(heap)[i]
      ensures Placed() && multiset(heap) == old(multiset(heap))
      ensures if moved then Heap(heap, |heap| - 1) else HeapBelow(heap, |heap| - 1, i)
    {
      var n := |heap| - 1;
      HeapWithout(heap, i);
      Swap(i, n);
      ghost var last := heap[n..];
      moved := Down(i, n);
      assert heap[n] == last[0];
    }

    /** Takes out the waiter at `i`. */
    method Remove(i: nat) returns (w: Waiter)
      requires i < |heap| && Placed() && Heap(heap, |heap|)
      modifies this`heap, all`index
      ensures w == old(heap)[i] && w !in heap && |heap| == old(|heap|) - 1 && Placed() && Heap(heap, |heap|)
      ensures multiset(heap) == old(multiset(heap)) - multiset{w}
    {
      var n := |heap| - 1;
      var moved := true;
      if n != i { moved := Displace(i); }
      PrefixOrder(heap, n, i);
      w := DropLast();
      assert w !in multiset(heap);
      if !moved { Up(i); }
    }

    method DropLast() returns (w: Waiter)
      requires |heap| > 0 && Placed()
      modifies this`heap
      ensures heap == old(heap)[..|old(heap)| - 1] && w == old(heap)[|old(heap)| - 1] && w !in heap && Placed()
      ensures multiset(heap) == old(multiset(heap)) - multiset{w}
    {
      var n := |heap| - 1;
      w := heap[n];
      assert heap == heap[..n] + [w];
      heap := heap[..n];
    }

    method Push(w: Waiter)
      requires Valid() && w !in all && !w.closed && w.err.None?
      modifies this, all`index, w`index
      ensures Valid() && all == old(all) + {w} && reached == old(reached) && w in heap
      ensures forall v :: v in old(all) ==> v.closed == old(v.closed)
    {
      var n := |heap|;
      NewLeaf(heap, w);
      heap := heap + [w];
      w.index := n;
      all := all + {w};
      Up(n);
      OthersStay(old(heap), heap, w);
    }

    /** Removes a queued waiter and wakes it. */
    method Wake(i: nat, e: Option<Failure>) returns (w: Waiter)
      requires Valid() && i < |heap| && (e.None? ==> heap[i].requiredHw <= reached)
      modifies this`heap, all
      ensures Valid() && w == old(heap)[i] && w.closed && w.err == e && |heap| == old(|heap|) - 1
      ensures forall v :: v in all && v != w ==> v.closed == old(v.closed) && v.err == old(v.err)
    {
      w := Remove(i);
      assert multiset(old(heap)) == multiset(heap) + multiset{w} by { assert w in multiset(old(heap)); }
      OthersStay(heap, old(heap), w);
      w.Close(e);
    }

    /** Wakes every waiter whose offset is reached, and no other. */
    method Drain(hw: nat)
      requires Valid()
      modifies this`heap, this`reached, all
      ensures Valid() && reached == (if old(reached) < hw then hw else old(reached)) && |heap| <= old(|heap|)
      ensures forall w :: w in all ==>
                            && w.err == old(w.err)
                            && (w.closed <==> old(w.closed) || w.requiredHw <= hw)
    {
      reached := if reached < hw then hw else reached;
      while |heap| > 0
        invariant Valid() && reached == (if old(reached) < hw then hw else old(reached)) && |heap| <= old(|heap|)
        invariant forall w :: w in all ==>
                                && w.err == old(w.err) && (old(w.closed) ==> w.closed)
                                && (w.closed ==> old(w.closed) || w.requiredHw <= hw)
        decreases |heap|
      {
        if heap[0].requiredHw > hw { break; }
        var w := Wake(0, None);
      }
      forall w | w in all && !w.closed ensures w.requiredHw > hw {
        assert Fate(w);
        var k :| 0 <= k < |heap| && heap[k] == w;
        RootIsLeast(heap, |heap|, k);
      }
    }

    /** Wakes every queued waiter with an error. */
    method FailAll(e: Failure)
      requires Valid()
      modifies this`heap, all
      ensures Valid() && heap == []
      ensures forall w :: w in all ==> w.closed && w.err == if old(w.closed) then old(w.err) else Some(e)
    {
      while |heap| > 0
        invariant Valid()
        invariant forall w :: w in all ==>
                                w.err == (if w.closed && !old(w.closed) then Some(e) else old(w.err))
                                && (old(w.closed) ==> w.closed)
        decreases |heap|
      {
        var w := Wake(0, Some(e));
      }
      assert forall w :: w in all ==> Fate(w);
    }

    /** A request gives up: its waiter is woken with an error unless it was woken before. */
    method Expire(w: Waiter)
      requires Valid() && w in all
      modifies this`heap, all
      ensures Valid() && w.closed
      ensures w.err == if old(w.closed) then old(w.err) else Some(RequestTimedOut)
      ensures forall v :: v in all && v != w ==> v.closed == old(v.closed) && v.err == old(v.err)
    {
      assert Fate(w);
      if w.index < |heap| && heap[w.index] == w {
        var v := Wake(w.index, Some(RequestTimedOut));
      }
    }
  }

  lemma {:induction false} OthersStay(a: seq<Waiter>, b: seq<Waiter>, w: Waiter)
    requires multiset(b) == multiset(a) + multiset{w}
    ensures w in b && forall v :: v != w ==> (v in a <==> v in b)
  {
    assert w in multiset(b);
    forall v | v != w ensures v in a <==> v in b {
      assert multiset(a)[v] == multiset(b)[v];
    }
  }

  /** A new leaf is the only one out of place. */
  lemma {:induction false} NewLeaf(h: seq<Waiter>, w: Waiter)
    requires Heap(h, |h|)
    ensures HeapBelow(h + [w], |h| + 1, |h|)
  {
    forall k | 0 <= k < |h| + 1 && k != |h| ensures InPlace(h + [w], k) { assert InPlace(h, k); }
  }

  lemma {:induction false} PrefixOrder(h: seq<Waiter>, n: nat, i: nat)
    requires n <= |h|
    ensures Heap(h, n) ==> Heap(h[..n], n)
    ensures HeapBelow(h, n, i) ==> HeapBelow(h[..n], n, i)
  {
    forall k | 0 <= k < n ensures InPlace(h[..n], k) == InPlace(h, k) && (Grand(h, k, i) ==> Grand(h[..n], k, i)) {
    }
  }

  /** Where no child is smaller, only the order with the parent is open. */
  lemma {:induction false} Settled(h: seq<Waiter>, n: nat, i: nat)
    requires i <= n <= |h| && HeapAround(h, n, i)
    requires forall k :: 0 < k < n && Parent(k) == i ==> h[i].requiredHw <= h[k].requiredHw
    ensures HeapBelow(h, n, i)
    ensures i < n && InPlace(h, i) ==> Heap(h, n)
  {
    forall k | 0 <= k < n && k != i ensures InPlace(h, k) {
      assert Grand(h, k, i) && (k > 0 && Parent(k) != i ==> InPlace(h, k));
    }
  }

  /** Putting the last waiter in the place of another. */
  lemma {:induction false} HeapWithout(h: seq<Waiter>, i: nat)
    requires i < |h| - 1 && Heap(h, |h|)
    ensures HeapAround(Swapped(h, i, |h| - 1), |h| - 1, i)
  {
    var n := |h| - 1;
    var s := Swapped(h, i, n);
    forall k | 0 <= k < n ensures Grand(s, k, i) && (k > 0 && k != i && Parent(k) != i ==> InPlace(s, k)) {
      assert InPlace(h, k) && InPlace(h, i);
    }
  }
}
