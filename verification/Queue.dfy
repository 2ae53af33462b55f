/** The binary heap of internal/orchestrator/queue.go on values: what container/heap
    turns a slice of queue items into, and why that is a heap. */
module HeapOrder {
  import opened Requests

  /** An element of the heap; `index` is its position, or -1 once it has left. */
  class QueueItem {
    const request: Request
    var index: int

    constructor (request: Request)
      ensures this.request == request
    {
      this.request := request;
      this.index := 0;
    }
  }

  type Items = seq<QueueItem>

  function RequestsOf(s: Items): (r: seq<Request>)
    ensures |r| == |s| && forall k | 0 <= k < |s| :: r[k] == s[k].request
  {
    seq(|s|, k requires 0 <= k < |s| => s[k].request)
  }

  /** priorityHeap.Less */
  predicate LessAt(s: Items, i: nat, j: nat)
    requires i < |s| && j < |s|
  {
    Less(s[i].request, s[j].request)
  }

  function Parent(k: nat): nat
    requires k > 0
  {
    (k - 1) / 2
  }

  function Swapped(s: Items, i: nat, j: nat): (r: Items)
    requires i < |s| && j < |s|
    ensures |r| == |s|
    ensures r[i] == s[j] && r[j] == s[i]
    ensures forall k | 0 <= k < |s| && k != i && k != j :: r[k] == s[k]
  {
    s[i := s[j]][j := s[i]]
  }

  /** `s` and `t` hold the same requests, each as often. */
  ghost predicate Rearranged(s: Items, t: Items) {
    |s| == |t| && multiset(RequestsOf(s)) == multiset(RequestsOf(t))
  }

  lemma SwappedRearranges(s: Items, i: nat, j: nat)
    requires i < |s| && j < |s|
    ensures Rearranged(s, Swapped(s, i, j))
  {
    var r := RequestsOf(s);
    assert RequestsOf(Swapped(s, i, j)) == r[i := r[j]][j := r[i]];
  }

  /** container/heap's up: item `j` climbs while it should be served before its parent. */
  function SiftUp(s: Items, j: nat): (r: Items)
    requires j < |s|
    ensures |r| == |s|
    decreases j
  {
    if j > 0 && LessAt(s, j, Parent(j)) then SiftUp(Swapped(s, Parent(j), j), Parent(j)) else s
  }

  /** The child of `i` that container/heap's down compares with, or `n` for none. */
  function ChildToSwap(s: Items, i: nat, n: nat): (j: nat)
    requires n <= |s|
    ensures j == n || (i < j < n && Parent(j) == i)
  {
    var left := 2 * i + 1;
    if left >= n then n
    else if left + 1 < n && LessAt(s, left + 1, left) then left + 1
    else left
  }

  /** container/heap's down on the first `n` items. */
  function SiftDown(s: Items, i: nat, n: nat): (r: Items)
    requires i <= n <= |s|
    ensures |r| == |s|
    decreases n - i
  {
    var j := ChildToSwap(s, i, n);
    if j < n && LessAt(s, j, i) then SiftDown(Swapped(s, i, j), j, n) else s
  }

  lemma {:induction false} SiftUpRearranges(s: Items, j: nat)
    requires j < |s|
    ensures Rearranged(s, SiftUp(s, j))
    decreases j
  {
    if j > 0 && LessAt(s, j, Parent(j)) {
      SwappedRearranges(s, Parent(j), j);
      SiftUpRearranges(Swapped(s, Parent(j), j), Parent(j));
    }
  }

  lemma {:induction false} SiftDownRearranges(s: Items, i: nat, n: nat)
    requires i <= n <= |s|
    ensures Rearranged(s, SiftDown(s, i, n))
    ensures SiftDown(s, i, n)[n..] == s[n..]
    decreases n - i
  {
    var j := ChildToSwap(s, i, n);
    if j < n && LessAt(s, j, i) {
      SwappedRearranges(s, i, j);
      assert Swapped(s, i, j)[n..] == s[n..];
      SiftDownRearranges(Swapped(s, i, j), j, n);
    }
  }

  /** Position `k` is not served before its parent. */
  ghost predicate InOrder(s: Items, k: nat)
    requires 0 < k < |s|
  {
    !LessAt(s, k, Parent(k))
  }

  /** The first `n` items form a heap. */
  ghost predicate IsHeap(s: Items, n: nat)
    requires n <= |s|
  {
    forall k: nat | 0 < k < n :: InOrder(s, k)
  }

  /** The children of `i` are in order with the parent of `i`. */
  ghost predicate Bridged(s: Items, n: nat, i: nat)
    requires n <= |s|
  {
    forall k: nat | 0 < k < n && Parent(k) == i && i > 0 :: !LessAt(s, k, Parent(i))
  }

  /** A heap but for position `j`, which may have to move up. */
  ghost predicate UpReady(s: Items, n: nat, j: nat)
    requires n <= |s|
  {
    (forall k: nat | 0 < k < n && k != j :: InOrder(s, k)) && Bridged(s, n, j)
  }

  /** A heap but for position `i`, which may have to move down. */
  ghost predicate DownReady(s: Items, n: nat, i: nat)
    requires n <= |s|
  {
    (forall k: nat | 0 < k < n && Parent(k) != i :: InOrder(s, k)) && Bridged(s, n, i)
  }

  /** A heap but for position `i`, which may have to move either way. */
  ghost predicate HoleAt(s: Items, n: nat, i: nat)
    requires n <= |s|
  {
    (forall k: nat | 0 < k < n && k != i && Parent(k) != i :: InOrder(s, k)) && Bridged(s, n, i)
  }

  lemma LessIsWeakOrder(a: Request, b: Request, c: Request)
    ensures !Less(a, b) && !Less(b, c) ==> !Less(a, c)
    ensures Less(a, b) ==> !Less(b, a)
  {
  }

  lemma SwapUp(s: Items, n: nat, j: nat)
    requires 0 < j < n <= |s| && UpReady(s, n, j) && LessAt(s, j, Parent(j))
    ensures UpReady(Swapped(s, Parent(j), j), n, Parent(j))
  {
    var p := Parent(j);
    var r := Swapped(s, p, j);
    forall k: nat | 0 < k < n && k != p ensures InOrder(r, k) {
      if k != j {
        assert InOrder(s, k);
        LessIsWeakOrder(s[k].request, s[p].request, s[j].request);
      }
    }
    if p > 0 {
      assert InOrder(s, p);
      forall k: nat | 0 < k < n && Parent(k) == p ensures !LessAt(r, k, Parent(p)) {
        if k != j {
          assert InOrder(s, k);
          LessIsWeakOrder(s[k].request, s[p].request, s[Parent(p)].request);
        }
      }
    }
  }

  lemma {:induction false} SiftUpMakesHeap(s: Items, n: nat, j: nat)
    requires j < n <= |s| && UpReady(s, n, j)
    ensures IsHeap(SiftUp(s, j), n)
    decreases j
  {
    if j > 0 && LessAt(s, j, Parent(j)) {
      SwapUp(s, n, j);
      SiftUpMakesHeap(Swapped(s, Parent(j), j), n, Parent(j));
    }
  }

  /** Exchanging position `i` with its better child `j` moves the hole to `j`. */
  lemma SwapDown(s: Items, n: nat, i: nat)
    requires i < n <= |s| && ChildToSwap(s, i, n) < n && LessAt(s, ChildToSwap(s, i, n), i)
    requires HoleAt(s, n, i) || DownReady(s, n, i)
    ensures DownReady(Swapped(s, i, ChildToSwap(s, i, n)), n, ChildToSwap(s, i, n))
  {
  }

  lemma SettledBelow(s: Items, n: nat, i: nat)
    requires i <= n <= |s|
    requires ChildToSwap(s, i, n) == n || !LessAt(s, ChildToSwap(s, i, n), i)
    ensures forall k: nat | 0 < k < n && Parent(k) == i :: InOrder(s, k)
  {
  }

  lemma {:induction false} SiftDownMakesHeap(s: Items, n: nat, i: nat)
    requires i <= n <= |s| && DownReady(s, n, i)
    ensures IsHeap(SiftDown(s, i, n), n)
    decreases n - i
  {
    var j := ChildToSwap(s, i, n);
    if j < n && LessAt(s, j, i) {
      SwapDown(s, n, i);
      SiftDownMakesHeap(Swapped(s, i, j), n, j);
    } else {
      SettledBelow(s, n, i);
    }
  }

  /** What heap.Remove does at a hole: down, and up only if down did not move the item. */
  function Settle(s: Items, i: nat, n: nat): (r: Items)
    requires i < n <= |s|
    ensures |r| == |s|
  {
    var d := SiftDown(s, i, n);
    if d != s then d else SiftUp(s, i)
  }

  lemma SettleMakesHeap(s: Items, i: nat, n: nat)
    requires i < n <= |s| && HoleAt(s, n, i)
    ensures IsHeap(Settle(s, i, n), n)
  {
    var j := ChildToSwap(s, i, n);
    if j < n && LessAt(s, j, i) {
      SwapDown(s, n, i);
      SiftDownMakesHeap(Swapped(s, i, j), n, j);
      SiftDownMoves(s, i, n);
    } else {
      SettledBelow(s, n, i);
      SiftUpMakesHeap(s, n, i);
    }
  }

  /** Sifting down changes the items exactly when the first comparison asks for a swap. */
  lemma SiftDownMoves(s: Items, i: nat, n: nat)
    requires i <= n <= |s|
    ensures SiftDown(s, i, n) != s <==>
            (ChildToSwap(s, i, n) < n && LessAt(s, ChildToSwap(s, i, n), i))
  {
    var j := ChildToSwap(s, i, n);
    if j < n && LessAt(s, j, i) {
      SiftDownKeepsAbove(Swapped(s, i, j), j, n, i);
    }
  }

  lemma {:induction false} SiftDownKeepsAbove(s: Items, i: nat, n: nat, k: nat)
    requires k < i <= n <= |s|
    ensures SiftDown(s, i, n)[k] == s[k]
    decreases n - i
  {
    var j := ChildToSwap(s, i, n);
    if j < n && LessAt(s, j, i) {
      SiftDownKeepsAbove(Swapped(s, i, j), j, n, k);
    }
  }

  lemma {:induction false} SiftUpKeepsAfter(s: Items, j: nat, k: nat)
    requires j < k < |s|
    ensures SiftUp(s, j)[k] == s[k]
    decreases j
  {
    if j > 0 && LessAt(s, j, Parent(j)) {
      SiftUpKeepsAfter(Swapped(s, Parent(j), j), Parent(j), k);
    }
  }

  /** Nothing in a heap should be served before its root. */
  lemma {:induction false} RootIsBest(s: Items, k: nat)
    requires k < |s| && IsHeap(s, |s|)
    ensures !LessAt(s, k, 0)
    decreases k
  {
    if k > 0 {
      assert InOrder(s, k);
      RootIsBest(s, Parent(k));
      LessIsWeakOrder(s[k].request, s[Parent(k)].request, s[0].request);
    }
  }

  lemma RootServedFirst(s: Items)
    requires s != [] && IsHeap(s, |s|)
    ensures Best(s[0].request, multiset(RequestsOf(s)))
  {
    var r := RequestsOf(s);
    assert r[0] in r;
    forall x | x in multiset(r) ensures !Less(x, r[0]) {
      var k: nat :| k < |r| && r[k] == x;
      RootIsBest(s, k);
    }
  }

  /** With item `i` exchanged for the last one, the others form a heap but for `i`. */
  lemma SwapLastReady(s: Items, i: nat)
    requires i < |s| && IsHeap(s, |s|)
    ensures HoleAt(Swapped(s, i, |s| - 1), |s| - 1, i)
  {
    var n := |s| - 1;
    var r := Swapped(s, i, n);
    forall k: nat | 0 < k < n && k != i && Parent(k) != i ensures InOrder(r, k) {
      assert InOrder(s, k);
    }
    forall k: nat | 0 < k < n && Parent(k) == i && i > 0 ensures !LessAt(r, k, Parent(i)) {
      assert InOrder(s, k) && InOrder(s, i);
      LessIsWeakOrder(s[k].request, s[i].request, s[Parent(i)].request);
    }
  }

  lemma PrefixHeap(s: Items, n: nat)
    requires n <= |s| && IsHeap(s, n)
    ensures IsHeap(s[..n], n)
  {
    forall k: nat | 0 < k < n ensures InOrder(s[..n], k) {
      assert InOrder(s, k);
    }
  }

  /** The slice that is left when item `i` is taken out of a heap. */
  function Without(s: Items, i: nat): (r: Items)
    requires i < |s|
    ensures |r| == |s| - 1
  {
    var n := |s| - 1;
    var t := Swapped(s, i, n);
    (if i < n then Settle(t, i, n) else t)[..n]
  }

  lemma ItemIsPending(s: Items, i: nat)
    requires i < |s|
    ensures s[i].request in multiset(RequestsOf(s))
  {
    assert RequestsOf(s)[i] in RequestsOf(s);
  }

  lemma DropLast(s: Items)
    requires s != []
    ensures multiset(RequestsOf(s[..|s| - 1])) == multiset(RequestsOf(s)) - multiset{s[|s| - 1].request}
  {
    var n := |s| - 1;
    assert RequestsOf(s) == RequestsOf(s[..n]) + [s[n].request];
  }

  lemma SettleRearranges(s: Items, i: nat, n: nat)
    requires i < n <= |s|
    ensures Rearranged(s, Settle(s, i, n))
    ensures forall k | n <= k < |s| :: Settle(s, i, n)[k] == s[k]
  {
    SiftDownRearranges(s, i, n);
    SiftUpRearranges(s, i);
    forall k | n <= k < |s| ensures Settle(s, i, n)[k] == s[k] {
      SiftUpKeepsAfter(s, i, k);
      assert SiftDown(s, i, n)[k] == SiftDown(s, i, n)[n..][k - n] == s[n..][k - n];
    }
  }

  lemma PutLast(s: Items, i: nat, n: nat)
    requires i < n == |s| - 1
    ensures var t := Settle(Swapped(s, i, n), i, n); t[n] == s[i] && t[..n] == Without(s, i)
  {
    SettleRearranges(Swapped(s, i, n), i, n);
  }

  lemma LastStays(s: Items, i: nat)
    requires i == |s| - 1
    ensures s[..|s| - 1] == Without(s, i)
  {
    assert Swapped(s, i, i) == s;
  }

  lemma DropRearranged(s: Items, mid: Items, t: Items, i: nat)
    requires i < |s| && Rearranged(s, mid) && Rearranged(mid, t) && t[|s| - 1] == s[i]
    ensures multiset(RequestsOf(t[..|s| - 1])) == multiset(RequestsOf(s)) - multiset{s[i].request}
  {
    DropLast(t);
  }

  lemma InnerWithout(s: Items, i: nat)
    requires i < |s| - 1
    ensures multiset(RequestsOf(Without(s, i))) == multiset(RequestsOf(s)) - multiset{s[i].request}
  {
    var n := |s| - 1;
    var t := Swapped(s, i, n);
    SwappedRearranges(s, i, n);
    SettleRearranges(t, i, n);
    var u := Settle(t, i, n);
    assert Without(s, i) == u[..n] && u[n] == t[n] == s[i];
    DropRearranged(s, t, u, i);
  }

  lemma WithoutKeepsOthers(s: Items, i: nat)
    requires i < |s|
    ensures multiset(RequestsOf(Without(s, i))) == multiset(RequestsOf(s)) - multiset{s[i].request}
  {
    var n := |s| - 1;
    if i < n {
      InnerWithout(s, i);
    } else {
      var t := Swapped(s, i, n);
      SwappedRearranges(s, i, n);
      DropRearranged(s, t, t, i);
    }
  }

  lemma WithoutKeepsOrder(s: Items, i: nat)
    requires i < |s| && IsHeap(s, |s|)
    ensures IsHeap(Without(s, i), |s| - 1)
  {
    var n := |s| - 1;
    var t := Swapped(s, i, n);
    SwapLastReady(s, i);
    if i < n {
      SettleMakesHeap(t, i, n);
      PrefixHeap(Settle(t, i, n), n);
    } else {
      PrefixHeap(t, n);
    }
  }

  /** Taking any item out of a heap leaves a heap of exactly the other items. */
  lemma WithoutIsHeap(s: Items, i: nat)
    requires i < |s| && IsHeap(s, |s|)
    ensures IsHeap(Without(s, i), |s| - 1)
    ensures multiset(RequestsOf(Without(s, i))) == multiset(RequestsOf(s)) - multiset{s[i].request}
  {
    WithoutKeepsOrder(s, i);
    WithoutKeepsOthers(s, i);
  }

  lemma AppendedUpReady(s: Items, item: QueueItem)
    requires IsHeap(s, |s|)
    ensures UpReady(s + [item], |s| + 1, |s|)
  {
    var t := s + [item];
    forall k: nat | 0 < k < |s| ensures InOrder(t, k) {
      assert InOrder(s, k);
    }
  }

  lemma PushAdds(s: Items, item: QueueItem)
    ensures multiset(RequestsOf(SiftUp(s + [item], |s|))) == multiset(RequestsOf(s)) + multiset{item.request}
  {
    SiftUpRearranges(s + [item], |s|);
    assert RequestsOf(s + [item]) == RequestsOf(s) + [item.request];
  }

  /** heap.Push, a new last item that climbs, makes a heap of the old items and the new. */
  lemma PushIsHeap(s: Items, item: QueueItem)
    requires IsHeap(s, |s|)
    ensures IsHeap(SiftUp(s + [item], |s|), |s| + 1)
    ensures multiset(RequestsOf(SiftUp(s + [item], |s|))) == multiset(RequestsOf(s)) + multiset{item.request}
  {
    PushAdds(s, item);
    AppendedUpReady(s, item);
    SiftUpMakesHeap(s + [item], |s| + 1, |s|);
  }
}

/** internal/orchestrator/queue.go */
module Queue {
  import opened Requests
  import opened HeapOrder

  /** What a caller of Dequeue sees: it is parked on the condition variable, told that the
      queue is closed, or given a request. */
  datatype Dequeued = Parked | Stopped | Taken(request: Request)

  datatype Removed = NotQueued | Found(request: Request)

  class PriorityQueue {
    var items: seq<QueueItem>
    var closed: bool

    /** Every item knows its position; hence no item occurs twice. */
    ghost predicate Indexed()
      reads this, items
    {
      forall k | 0 <= k < |items| :: items[k].index == k
    }

    ghost predicate Valid()
      reads this, items
    {
      Indexed() && IsHeap(items, |items|)
    }

    ghost function Contents(): multiset<Request>
      reads this
    {
      multiset(RequestsOf(items))
    }

    constructor ()
      ensures Valid() && Contents() == multiset{} && !closed
    {
      items := [];
      closed := false;
    }

    method Swap(i: nat, j: nat)
      requires Indexed() && i < |items| && j < |items|
      modifies this`items, items
      ensures Indexed() && items == Swapped(old(items), i, j)
      ensures forall k | 0 <= k < |items| :: items[k] in old(items)
    {
      items := Swapped(items, i, j);
      items[i].index := i;
      items[j].index := j;
    }

    /** container/heap's up */
    method Up(start: nat)
      requires Indexed() && start < |items|
      modifies this`items, items
      ensures Indexed() && items == SiftUp(old(items), start)
      ensures forall k | 0 <= k < |items| :: items[k] in old(items)
    {
      var j: nat := start;
      while j > 0 && LessAt(items, j, Parent(j))
        invariant j < |items| && Indexed()
        invariant SiftUp(items, j) == SiftUp(old(items), start)
        invariant forall k | 0 <= k < |items| :: items[k] in old(items)
        decreases j
      {
        Swap(Parent(j), j);
        j := Parent(j);
      }
    }

    /** One round of container/heap's down. */
    method Sink(i: nat, n: nat) returns (j: nat, moved: bool)
      requires Indexed() && i <= n <= |items|
      modifies this`items, items
      ensures Indexed() && j == ChildToSwap(old(items), i, n)
      ensures moved <==> j < n && LessAt(old(items), j, i)
      ensures items == if moved then Swapped(old(items), i, j) else old(items)
    {
      j, moved := 2 * i + 1, false;
      if j >= n {
        j := n;
        return;
      }
      var j2 := j + 1;
      if j2 < n && LessAt(items, j2, j) {
        j := j2;
      }
      if !LessAt(items, j, i) {
        return;
      }
      Swap(i, j);
      moved := true;
    }

    /** container/heap's down on the first `n` items; tells whether item `start` moved. */
    method Down(start: nat, n: nat) returns (moved: bool)
      requires Indexed() && start <= n <= |items|
      modifies this`items, items
      ensures Indexed() && items == SiftDown(old(items), start, n)
      ensures moved == (items != old(items))
      ensures forall k | 0 <= k < |items| :: items[k] in old(items)
    {
      SiftDownMoves(items, start, n);
      var i: nat := start;
      var sinks := true;
      while sinks
        invariant start <= i <= n <= |items| && Indexed()
        invariant SiftDown(items, i, n) == SiftDown(old(items), start, n)
        invariant i == start ==> items == old(items)
        invariant i > start ==> SiftDown(old(items), start, n) != old(items)
        invariant !sinks ==> SiftDown(items, i, n) == items
        invariant forall k | 0 <= k < |items| :: items[k] in old(items)
        decreases n - i, sinks
      {
        var j;
        j, sinks := Sink(i, n);
        if sinks {
          i := j;
        }
      }
      moved := i > start;
    }

    /** heap.Push with priorityHeap.Push */
    method Push(item: QueueItem)
      requires Valid() && item !in items
      modifies this`items, items, item
      ensures Valid() && Contents() == old(Contents()) + multiset{item.request}
      ensures forall k | 0 <= k < |items| :: items[k] in old(items) || items[k] == item
    {
      PushIsHeap(items, item);
      item.index := |items|;
      items := items + [item];
      Up(|items| - 1);
    }

    /** priorityHeap.Pop: the last item leaves the slice. */
    method PopLast() returns (item: QueueItem)
      requires Indexed() && items != []
      modifies this`items, items
      ensures item == old(items)[|old(items)| - 1] && item.index == -1
      ensures Indexed() && items == old(items)[..|old(items)| - 1]
    {
      var n := |items| - 1;
      item := items[n];
      item.index := -1;
      items := items[..n];
    }

    /** The part of heap.Remove that restores the first `n` items after item `i` was replaced. */
    method SettleAt(i: nat, n: nat)
      requires Indexed() && i < n <= |items|
      modifies this`items, items
      ensures Indexed() && items == Settle(old(items), i, n)
      ensures forall k | 0 <= k < |items| :: items[k] in old(items)
    {
      var moved := Down(i, n);
      if !moved {
        Up(i);
      }
    }

    /** An item in front of the last one trades places with it, and the heap before it is restored. */
    method MoveInner(i: nat, n: nat)
      requires Indexed() && i < n == |items| - 1
      modifies this`items, items
      ensures Indexed() && |items| == |old(items)|
      ensures items[n] == old(items)[i] && items[..n] == Without(old(items), i)
      ensures forall k | 0 <= k < |items| :: items[k] in old(items)
    {
      PutLast(items, i, n);
      Swap(i, n);
      SettleAt(i, n);
    }

    /** The part of heap.Remove that puts item `i` last and restores the heap before it. */
    method MoveToEnd(i: nat)
      requires Indexed() && i < |items|
      modifies this`items, items
      ensures Indexed() && |items| == |old(items)| && items[|items| - 1] == old(items)[i]
      ensures items[..|items| - 1] == Without(old(items), i)
      ensures forall k | 0 <= k < |items| :: items[k] in old(items)
    {
      var n := |items| - 1;
      if n != i {
        MoveInner(i, n);
      } else {
        LastStays(items, i);
      }
    }

    /** heap.Remove; heap.Pop is the case `i == 0`, in which the item at the root never climbs. */
    method RemoveAt(i: nat) returns (item: QueueItem)
      requires Valid() && i < |items|
      modifies this`items, items
      ensures Valid() && item == old(items)[i] && item.index == -1
      ensures Contents() == old(Contents()) - multiset{item.request}
      ensures forall k | 0 <= k < |items| :: items[k] in old(items)
    {
      WithoutIsHeap(items, i);
      MoveToEnd(i);
      item := PopLast();
    }

    /** `now` stands for time.Now(), read when the request has no creation time. */
    method Enqueue(request: Request, now: int)
      requires Valid()
      modifies this`items, items
      ensures Valid() && closed == old(closed)
      ensures var stamped := if request.createdAt == 0 then request.(createdAt := now) else request;
              Contents() == old(Contents()) + multiset{stamped}
      ensures forall k | 0 <= k < |items| :: items[k] in old(items) || fresh(items[k])
    {
      var stamped := if request.createdAt == 0 then request.(createdAt := now) else request;
      var item := new QueueItem(stamped);
      Push(item);
    }

    /** heap.Pop */
    method PopRoot() returns (item: QueueItem)
      requires Valid() && items != []
      modifies this`items, items
      ensures Valid() && Best(item.request, old(Contents()))
      ensures Contents() == old(Contents()) - multiset{item.request}
      ensures forall k | 0 <= k < |items| :: items[k] in old(items)
    {
      RootServedFirst(items);
      item := RemoveAt(0);
    }

    /** The body of Dequeue between two waits on the condition variable. */
    method Dequeue() returns (r: Dequeued)
      requires Valid()
      modifies this`items, items
      ensures Valid() && closed == old(closed)
      ensures r.Parked? <==> old(Contents()) == multiset{} && !closed
      ensures r.Stopped? <==> old(Contents()) == multiset{} && closed
      ensures r.Taken? ==> Best(r.request, old(Contents()))
      ensures Contents() == old(Contents()) - (if r.Taken? then multiset{r.request} else multiset{})
      ensures forall k | 0 <= k < |items| :: items[k] in old(items)
    {
      assert |items| == |Contents()|;
      if items == [] && !closed {
        return Parked;
      }
      if closed && items == [] {
        return Stopped;
      }
      var item := PopRoot();
      r := Taken(item.request);
    }

    method TryDequeue() returns (r: Removed)
      requires Valid()
      modifies this`items, items
      ensures Valid() && closed == old(closed)
      ensures r.NotQueued? <==> old(Contents()) == multiset{}
      ensures r.Found? ==> Best(r.request, old(Contents()))
      ensures Contents() == old(Contents()) - (if r.Found? then multiset{r.request} else multiset{})
      ensures forall k | 0 <= k < |items| :: items[k] in old(items)
    {
      assert |items| == |Contents()|;
      if items == [] {
        return NotQueued;
      }
      var item := PopRoot();
      r := Found(item.request);
    }

    /** The search that Remove and RemoveAndReturn start with. */
    method Find(opId: OpId) returns (found: bool, i: nat)
      requires Valid()
      ensures found ==> i < |items| && items[i].request.id == opId
      ensures !found ==> forall x | x in Contents() :: x.id != opId
    {
      ghost var requests := RequestsOf(items);
      for k := 0 to |items|
        invariant forall j | 0 <= j < k :: requests[j].id != opId
      {
        if items[k].request.id == opId {
          return true, k;
        }
      }
      found, i := false, 0;
      forall x | x in Contents() ensures x.id != opId {
        assert x in requests;
      }
    }

    /** RemoveAndReturn; Remove is the same without the request. */
    method RemoveAndReturn(opId: OpId) returns (r: Removed)
      requires Valid()
      modifies this`items, items
      ensures Valid() && closed == old(closed)
      ensures r.NotQueued? <==> forall x | x in old(Contents()) :: x.id != opId
      ensures r.Found? ==> r.request in old(Contents()) && r.request.id == opId
      ensures Contents() == old(Contents()) - (if r.Found? then multiset{r.request} else multiset{})
      ensures forall k | 0 <= k < |items| :: items[k] in old(items)
    {
      var found, i := Find(opId);
      if !found {
        assert Contents() - multiset{} == Contents();
        return NotQueued;
      }
      ItemIsPending(items, i);
      var item := RemoveAt(i);
      r := Found(item.request);
    }

    method Close()
      modifies this`closed
      ensures closed
    {
      closed := true;
    }
  }
}
