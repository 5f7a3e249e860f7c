/** A binary heap over a sequence, smallest element first: what push_heap and pop_heap do. */
module Heap {

  ghost predicate TotalOrder<T(!new)>(le: (T, T) -> bool) {
    && (forall a, b :: le(a, b) || le(b, a))
    && (forall a, b, c :: le(a, b) && le(b, c) ==> le(a, c))
  }

  function Parent(i: nat): (p: nat)
    requires i > 0
    ensures p < i && (i == 2 * p + 1 || i == 2 * p + 2)
  {
    (i - 1) / 2
  }

  ghost predicate IsHeap<T>(le: (T, T) -> bool, h: seq<T>) {
    forall i :: 0 < i < |h| ==> le(h[Parent(i)], h[i])
  }

  lemma {:induction false} RootIsLeast<T(!new)>(le: (T, T) -> bool, h: seq<T>, i: nat)
    requires TotalOrder(le) && IsHeap(le, h) && i < |h|
    ensures le(h[0], h[i])
  {
    if i > 0 {
      RootIsLeast(le, h, Parent(i));
    }
  }

  function Swap<T>(h: seq<T>, i: nat, j: nat): (r: seq<T>)
    requires i < |h| && j < |h|
    ensures |r| == |h| && multiset(r) == multiset(h)
  {
    h[i := h[j]][j := h[i]]
  }

  /** A heap but for element i, which may be smaller than its parent. */
  ghost predicate HeapAbove<T>(le: (T, T) -> bool, h: seq<T>, i: nat) {
    && (forall j :: 0 < j < |h| && j != i ==> le(h[Parent(j)], h[j]))
    && (forall j :: 0 < j < |h| && Parent(j) == i && i > 0 ==> le(h[Parent(i)], h[j]))
  }

  method Push<T(!new)>(le: (T, T) -> bool, heap: seq<T>, x: T) returns (h: seq<T>)
    requires TotalOrder(le) && IsHeap(le, heap)
    ensures IsHeap(le, h)
    ensures multiset(h) == multiset(heap) + multiset{x}
  {
    h := heap + [x];
    var i: nat := |heap|;
    while i > 0 && !le(h[Parent(i)], h[i])
      invariant i < |h| && |h| == |heap| + 1
      invariant HeapAbove(le, h, i)
      invariant multiset(h) == multiset(heap) + multiset{x}
    {
      SwapUpKeepsHeap(le, h, i);
      h := Swap(h, i, Parent(i));
      i := Parent(i);
    }
  }

  lemma SwapUpKeepsHeap<T(!new)>(le: (T, T) -> bool, h: seq<T>, i: nat)
    requires TotalOrder(le) && 0 < i < |h| && HeapAbove(le, h, i) && !le(h[Parent(i)], h[i])
    ensures HeapAbove(le, Swap(h, i, Parent(i)), Parent(i))
  {
    var p := Parent(i);
    var r := Swap(h, i, p);
    assert p > 0 ==> le(h[Parent(p)], h[p]);
    forall j | 0 < j < |r| && j != p ensures le(r[Parent(j)], r[j]) {
      assert j != i ==> le(h[Parent(j)], h[j]);
    }
    forall j | 0 < j < |r| && Parent(j) == p && p > 0 ensures le(r[Parent(p)], r[j]) {
      assert j != i ==> le(h[Parent(j)], h[j]);
    }
  }

  /** A heap but for element i, which may be larger than its children. */
  ghost predicate HeapBelow<T>(le: (T, T) -> bool, h: seq<T>, i: nat) {
    && (forall j :: 0 < j < |h| && Parent(j) != i ==> le(h[Parent(j)], h[j]))
    && (forall j :: 0 < j < |h| && Parent(j) == i && i > 0 ==> le(h[Parent(i)], h[j]))
  }

  /** The smaller child of i, or i when neither is smaller than it. */
  function Smallest<T>(le: (T, T) -> bool, h: seq<T>, i: nat): (c: nat)
    requires i < |h|
    ensures c < |h| && (c == i || (c > 0 && Parent(c) == i))
  {
    var l, r := 2 * i + 1, 2 * i + 2;
    var m := if l < |h| && !le(h[i], h[l]) then l else i;
    if r < |h| && !le(h[m], h[r]) then r else m
  }

  lemma SmallestIsLeast<T(!new)>(le: (T, T) -> bool, h: seq<T>, i: nat)
    requires TotalOrder(le) && i < |h|
    ensures le(h[Smallest(le, h, i)], h[i])
    ensures forall j :: 0 < j < |h| && Parent(j) == i ==> le(h[Smallest(le, h, i)], h[j])
  {
  }

  lemma SwapDownKeepsHeap<T(!new)>(le: (T, T) -> bool, h: seq<T>, i: nat)
    requires TotalOrder(le) && i < |h| && HeapBelow(le, h, i) && Smallest(le, h, i) != i
    ensures HeapBelow(le, Swap(h, i, Smallest(le, h, i)), Smallest(le, h, i))
  {
    SmallestIsLeast(le, h, i);
  }

  /** Restores the heap below the root. */
  method SiftDown<T(!new)>(le: (T, T) -> bool, start: seq<T>) returns (h: seq<T>)
    requires TotalOrder(le) && start != [] && HeapBelow(le, start, 0)
    ensures IsHeap(le, h) && multiset(h) == multiset(start)
  {
    h := start;
    var i: nat := 0;
    while Smallest(le, h, i) != i
      invariant i < |h| == |start|
      invariant HeapBelow(le, h, i)
      invariant multiset(h) == multiset(start)
      decreases |h| - i
    {
      SwapDownKeepsHeap(le, h, i);
      var c := Smallest(le, h, i);
      h := Swap(h, i, c);
      i := c;
    }
    SmallestIsLeast(le, h, i);
  }

  method Pop<T(!new)>(le: (T, T) -> bool, heap: seq<T>) returns (top: T, h: seq<T>)
    requires TotalOrder(le) && IsHeap(le, heap) && heap != []
    ensures IsHeap(le, h)
    ensures multiset(heap) == multiset(h) + multiset{top}
    ensures top in heap && forall x :: x in heap ==> le(top, x)
  {
    top := heap[0];
    forall x | x in heap ensures le(top, x) {
      var i :| 0 <= i < |heap| && heap[i] == x;
      RootIsLeast(le, heap, i);
    }
    var last := |heap| - 1;
    if last == 0 {
      assert heap == [top];
      h := [];
    } else {
      LastToRoot(heap);
      h := SiftDown(le, heap[..last][0 := heap[last]]);
    }
  }

  lemma LastToRoot<T>(heap: seq<T>)
    requires |heap| > 1
    ensures multiset(heap) == multiset(heap[..|heap| - 1][0 := heap[|heap| - 1]]) + multiset{heap[0]}
  {
    var last := |heap| - 1;
    assert heap == [heap[0]] + heap[1..last] + [heap[last]];
    assert heap[..last][0 := heap[last]] == [heap[last]] + heap[1..last];
  }
}
