/** BinanceHistoricalSource: many streams merged into one ascending line, through a set of streams
    without a front event and a heap of the fronts of all others. */
module SourceMerge {
  import Heap
  import opened Ring

  datatype Event<+P> = Event(ts: int, payload: P)

  /** What next answers. */
  datatype Pull<+P> = Data(event: Event<P>) | NoData | Eof

  /** A front in the heap. At an equal stamp bars come last, then ties fall to the lower index. */
  datatype Entry = Entry(ts: int, bar: bool, index: nat)

  predicate Le(a: Entry, b: Entry) {
    a.ts < b.ts || (a.ts == b.ts && ((!a.bar && b.bar) || (a.bar == b.bar && a.index <= b.index)))
  }

  lemma LeIsTotalOrder()
    ensures Heap.TotalOrder(Le)
  {
  }

  // -------------------------------------------------------- the merge, as a function of the tapes

  datatype Tagged<+P> = Tagged(index: nat, event: Event<P>)

  function KeyOf<P>(bars: seq<bool>, t: Tagged<P>): Entry
    requires t.index < |bars|
  {
    Entry(t.event.ts, bars[t.index], t.index)
  }

  ghost predicate At<P>(tapes: seq<seq<Event<P>>>, bars: seq<bool>, pos: seq<nat>) {
    |tapes| == |bars| == |pos| && forall i :: 0 <= i < |pos| ==> pos[i] <= |tapes[i]|
  }

  function FrontOf<P>(tapes: seq<seq<Event<P>>>, bars: seq<bool>, pos: seq<nat>, i: nat): Entry
    requires At(tapes, bars, pos) && i < |pos| && pos[i] < |tapes[i]|
  {
    Entry(tapes[i][pos[i]].ts, bars[i], i)
  }

  /** The stream a linear scan of the first n fronts would pick. */
  function Earliest<P>(tapes: seq<seq<Event<P>>>, bars: seq<bool>, pos: seq<nat>, n: nat): (r: Option<nat>)
    requires At(tapes, bars, pos) && n <= |pos|
    ensures r.Some? ==> r.value < n && pos[r.value] < |tapes[r.value]|
  {
    if n == 0 then None
    else
      var best := Earliest(tapes, bars, pos, n - 1);
      if pos[n - 1] == |tapes[n - 1]| then best
      else if best.Some? && Le(FrontOf(tapes, bars, pos, best.value), FrontOf(tapes, bars, pos, n - 1)) then best
      else Some(n - 1)
  }

  lemma {:induction false} EarliestIsLeast<P>(tapes: seq<seq<Event<P>>>, bars: seq<bool>, pos: seq<nat>, n: nat)
    requires At(tapes, bars, pos) && n <= |pos|
    ensures var r := Earliest(tapes, bars, pos, n);
            && (r == None <==> forall i :: 0 <= i < n ==> pos[i] == |tapes[i]|)
            && (r.Some? ==> forall i :: 0 <= i < n && pos[i] < |tapes[i]| ==>
                  Le(FrontOf(tapes, bars, pos, r.value), FrontOf(tapes, bars, pos, i)))
  {
    if n > 0 {
      EarliestIsLeast(tapes, bars, pos, n - 1);
    }
  }

  function Left<P>(tapes: seq<seq<Event<P>>>, pos: seq<nat>, n: nat): nat
    requires |tapes| == |pos| && n <= |pos|
    requires forall i :: 0 <= i < |pos| ==> pos[i] <= |tapes[i]|
  {
    if n == 0 then 0 else Left(tapes, pos, n - 1) + (|tapes[n - 1]| - pos[n - 1])
  }

  lemma {:induction false} LeftAfter<P>(tapes: seq<seq<Event<P>>>, pos: seq<nat>, i: nat, n: nat)
    requires |tapes| == |pos| && n <= |pos| && i < |pos| && pos[i] < |tapes[i]|
    requires forall k :: 0 <= k < |pos| ==> pos[k] <= |tapes[k]|
    ensures Left(tapes, pos[i := pos[i] + 1], n) == Left(tapes, pos, n) - (if i < n then 1 else 0)
  {
    if n > 0 {
      LeftAfter(tapes, pos, i, n - 1);
    }
  }

  /** Repeatedly the earliest front: the line the source is to emit from positions pos on. */
  function Merge<P>(tapes: seq<seq<Event<P>>>, bars: seq<bool>, pos: seq<nat>): seq<Tagged<P>>
    requires At(tapes, bars, pos)
    decreases Left(tapes, pos, |pos|)
  {
    var best := Earliest(tapes, bars, pos, |pos|);
    if best == None then []
    else
      var i := best.value;
      LeftAfter(tapes, pos, i, |pos|);
      [Tagged(i, tapes[i][pos[i]])] + Merge(tapes, bars, pos[i := pos[i] + 1])
  }

  /** One unfolding of Merge, for proofs that need no more of it. */
  ghost predicate Unfolds<P>(tapes: seq<seq<Event<P>>>, bars: seq<bool>, pos: seq<nat>, line: seq<Tagged<P>>, i: nat,
                             rest: seq<nat>)
    requires At(tapes, bars, pos)
  {
    && i < |pos| && pos[i] < |tapes[i]| && rest == pos[i := pos[i] + 1] && At(tapes, bars, rest)
    && line != [] && line[0] == Tagged(i, tapes[i][pos[i]])
    && (forall k :: 0 <= k < |pos| && pos[k] < |tapes[k]| ==>
        Le(FrontOf(tapes, bars, pos, i), FrontOf(tapes, bars, pos, k)))
  }

  lemma Unfold<P>(tapes: seq<seq<Event<P>>>, bars: seq<bool>, pos: seq<nat>) returns (i: nat, rest: seq<nat>)
    requires At(tapes, bars, pos) && Merge(tapes, bars, pos) != []
    ensures Unfolds(tapes, bars, pos, Merge(tapes, bars, pos), i, rest)
    ensures Merge(tapes, bars, pos)[1..] == Merge(tapes, bars, rest)
    ensures Left(tapes, rest, |rest|) < Left(tapes, pos, |pos|)
  {
    EarliestIsLeast(tapes, bars, pos, |pos|);
    i := Earliest(tapes, bars, pos, |pos|).value;
    rest := pos[i := pos[i] + 1];
    LeftAfter(tapes, pos, i, |pos|);
  }

  lemma EmptyMerge<P>(tapes: seq<seq<Event<P>>>, bars: seq<bool>, pos: seq<nat>)
    requires At(tapes, bars, pos)
    ensures Merge(tapes, bars, pos) == [] <==> forall i :: 0 <= i < |pos| ==> pos[i] == |tapes[i]|
  {
    EarliestIsLeast(tapes, bars, pos, |pos|);
  }

  function Start(n: nat): seq<nat> {
    seq(n, _ => 0)
  }

  /** The events of one stream in a line. */
  function Project<P>(line: seq<Tagged<P>>, i: nat): seq<Event<P>> {
    if line == [] then []
    else (if line[0].index == i then [line[0].event] else []) + Project(line[1..], i)
  }

  /** No stream's events are lost, repeated or reordered. */
  lemma {:induction false} MergeKeepsEveryTape<P>(tapes: seq<seq<Event<P>>>, bars: seq<bool>, pos: seq<nat>, i: nat)
    requires At(tapes, bars, pos) && i < |pos|
    ensures Project(Merge(tapes, bars, pos), i) == tapes[i][pos[i]..]
    decreases Left(tapes, pos, |pos|)
  {
    EmptyMerge(tapes, bars, pos);
    if Merge(tapes, bars, pos) != [] {
      var best, rest := Unfold(tapes, bars, pos);
      MergeKeepsEveryTape(tapes, bars, rest, i);
      ProjectFirst(tapes, bars, pos, Merge(tapes, bars, pos), best, rest, i);
    }
  }

  lemma ProjectFirst<P>(tapes: seq<seq<Event<P>>>, bars: seq<bool>, pos: seq<nat>, line: seq<Tagged<P>>,
                        best: nat, rest: seq<nat>, i: nat)
    requires At(tapes, bars, pos) && Unfolds(tapes, bars, pos, line, best, rest) && i < |pos|
    requires Project(line[1..], i) == tapes[i][rest[i]..]
    ensures Project(line, i) == tapes[i][pos[i]..]
  {
    if best == i {
      assert tapes[i][pos[i]..] == [tapes[i][pos[i]]] + tapes[i][rest[i]..];
    }
  }

  ghost predicate StampSorted<P>(tape: seq<Event<P>>) {
    forall j, k :: 0 <= j < k < |tape| ==> tape[j].ts <= tape[k].ts
  }

  ghost predicate KeySorted<P>(bars: seq<bool>, line: seq<Tagged<P>>) {
    && (forall k :: 0 <= k < |line| ==> line[k].index < |bars|)
    && (forall j, k :: 0 <= j < k < |line| ==> Le(KeyOf(bars, line[j]), KeyOf(bars, line[k])))
  }

  /** A lower bound on every front bounds the whole line, when the tapes ascend. */
  lemma {:induction false} MergeAbove<P>(tapes: seq<seq<Event<P>>>, bars: seq<bool>, pos: seq<nat>, low: Entry)
    requires At(tapes, bars, pos)
    requires forall i :: 0 <= i < |tapes| ==> StampSorted(tapes[i])
    requires forall i :: 0 <= i < |pos| && pos[i] < |tapes[i]| ==> Le(low, FrontOf(tapes, bars, pos, i))
    ensures forall k :: 0 <= k < |Merge(tapes, bars, pos)| ==>
              && Merge(tapes, bars, pos)[k].index < |bars|
              && Le(low, KeyOf(bars, Merge(tapes, bars, pos)[k]))
    decreases Left(tapes, pos, |pos|)
  {
    if Merge(tapes, bars, pos) != [] {
      var best, rest := Unfold(tapes, bars, pos);
      MergeAbove(tapes, bars, rest, low);
    }
  }

  /** With every tape in stamp order the line is in (stamp, bars last, index) order. */
  lemma {:induction false} MergeIsSorted<P>(tapes: seq<seq<Event<P>>>, bars: seq<bool>, pos: seq<nat>)
    requires At(tapes, bars, pos)
    requires forall i :: 0 <= i < |tapes| ==> StampSorted(tapes[i])
    ensures KeySorted(bars, Merge(tapes, bars, pos))
    decreases Left(tapes, pos, |pos|)
  {
    if Merge(tapes, bars, pos) != [] {
      var best, rest := Unfold(tapes, bars, pos);
      MergeIsSorted(tapes, bars, rest);
      MergeAbove(tapes, bars, rest, FrontOf(tapes, bars, pos, best));
      SortedCons(bars, Merge(tapes, bars, pos));
    }
  }

  lemma SortedCons<P>(bars: seq<bool>, line: seq<Tagged<P>>)
    requires line != [] && line[0].index < |bars| && KeySorted(bars, line[1..])
    requires forall k :: 0 <= k < |line[1..]| ==> Le(KeyOf(bars, line[0]), KeyOf(bars, line[1..][k]))
    ensures KeySorted(bars, line)
  {
    forall k | 0 <= k < |line| ensures line[k].index < |bars| {
      if k > 0 { assert line[k] == line[1..][k - 1]; }
    }
    forall j, k | 0 <= j < k < |line| ensures Le(KeyOf(bars, line[j]), KeyOf(bars, line[k])) {
      assert line[k] == line[1..][k - 1];
      if j > 0 { assert line[j] == line[1..][j - 1]; }
    }
  }

  lemma {:induction false} ProjectFinds<P>(line: seq<Tagged<P>>, i: nat) returns (k: nat)
    requires Project(line, i) != []
    ensures k < |line| && line[k] == Tagged(i, Project(line, i)[0])
  {
    if line[0].index == i {
      k := 0;
    } else {
      k := ProjectFinds(line[1..], i);
      k := k + 1;
    }
  }

  /** The order fixes the line: any line that has every stream's events in the stream's order and is
      sorted by (stamp, bars last, index) is the merge. */
  lemma {:induction false} MergeIsTheOnlyLine<P>(tapes: seq<seq<Event<P>>>, bars: seq<bool>, pos: seq<nat>,
                                                 line: seq<Tagged<P>>)
    requires At(tapes, bars, pos) && KeySorted(bars, line)
    requires forall i :: 0 <= i < |pos| ==> Project(line, i) == tapes[i][pos[i]..]
    ensures line == Merge(tapes, bars, pos)
    decreases |line|
  {
    EmptyMerge(tapes, bars, pos);
    if line == [] {
      forall i | 0 <= i < |pos| ensures pos[i] == |tapes[i]| {
        assert Project(line, i) == tapes[i][pos[i]..];
      }
    } else {
      hide Project, KeySorted, Merge, Earliest, Le;
      FirstIsEarliest(tapes, bars, pos, line);
      var best, rest := Unfold(tapes, bars, pos);
      assert best == line[0].index;
      RestProjects(tapes, pos, line);
      RestSorted(bars, line);
      MergeIsTheOnlyLine(tapes, bars, rest, line[1..]);
      SameFirst(line, Merge(tapes, bars, pos));
    }
  }

  lemma RestSorted<P>(bars: seq<bool>, line: seq<Tagged<P>>)
    requires KeySorted(bars, line) && line != []
    ensures KeySorted(bars, line[1..])
  {
    hide Le;
  }

  lemma SameFirst<T>(a: seq<T>, b: seq<T>)
    requires a != [] && b != [] && a[0] == b[0] && a[1..] == b[1..]
    ensures a == b
  {
    assert a == [a[0]] + a[1..] && b == [b[0]] + b[1..];
  }

  lemma RestProjects<P>(tapes: seq<seq<Event<P>>>, pos: seq<nat>, line: seq<Tagged<P>>)
    requires |tapes| == |pos| && line != [] && line[0].index < |pos|
    requires forall i :: 0 <= i < |pos| ==> pos[i] <= |tapes[i]| && Project(line, i) == tapes[i][pos[i]..]
    ensures var i := line[0].index; pos[i] < |tapes[i]|
    ensures var rest := pos[line[0].index := pos[line[0].index] + 1];
            forall k :: 0 <= k < |pos| ==> Project(line[1..], k) == tapes[k][rest[k]..]
  {
    var i := line[0].index;
    assert Project(line, i) == tapes[i][pos[i]..];
    forall k | 0 <= k < |pos|
      ensures Project(line[1..], k) == tapes[k][(if k == i then pos[k] + 1 else pos[k])..]
    {
      RestProjectsOne(line, k, tapes[k], pos[k]);
    }
  }

  lemma RestProjectsOne<P>(line: seq<Tagged<P>>, k: nat, tape: seq<Event<P>>, from: nat)
    requires line != [] && from <= |tape| && Project(line, k) == tape[from..]
    ensures line[0].index == k ==> from < |tape|
    ensures Project(line[1..], k) == tape[if line[0].index == k then from + 1 else from..]
  {
    if line[0].index == k {
      assert Project(line[1..], k) == Project(line, k)[1..];
    }
  }

  lemma FirstIsEarliest<P>(tapes: seq<seq<Event<P>>>, bars: seq<bool>, pos: seq<nat>, line: seq<Tagged<P>>)
    requires At(tapes, bars, pos) && KeySorted(bars, line) && line != []
    requires forall i :: 0 <= i < |pos| ==> Project(line, i) == tapes[i][pos[i]..]
    ensures var i := line[0].index;
            && pos[i] < |tapes[i]| && line[0].event == tapes[i][pos[i]]
            && forall k :: 0 <= k < |pos| && pos[k] < |tapes[k]| ==>
                 Le(FrontOf(tapes, bars, pos, i), FrontOf(tapes, bars, pos, k))
  {
    var i := line[0].index;
    assert Project(line, i) == tapes[i][pos[i]..];
    forall k | 0 <= k < |pos| && pos[k] < |tapes[k]|
      ensures Le(KeyOf(bars, line[0]), FrontOf(tapes, bars, pos, k))
    {
      assert Project(line, k)[0] == tapes[k][pos[k]];
      var m := ProjectFinds(line, k);
      assert Le(KeyOf(bars, line[0]), KeyOf(bars, line[m]));
    }
  }

  /** So no bar comes out before a non-bar of its own stamp, and stamps never go back. */
  lemma BarsComeLast<P>(tapes: seq<seq<Event<P>>>, bars: seq<bool>, j: nat, k: nat)
    requires |tapes| == |bars| && forall i :: 0 <= i < |tapes| ==> StampSorted(tapes[i])
    requires At(tapes, bars, Start(|tapes|)) && j < k < |Merge(tapes, bars, Start(|tapes|))|
    ensures var line := Merge(tapes, bars, Start(|tapes|));
            && line[j].event.ts <= line[k].event.ts
            && line[j].index < |bars| && line[k].index < |bars|
            && (line[j].event.ts == line[k].event.ts && bars[line[j].index] ==> bars[line[k].index])
  {
    MergeIsSorted(tapes, bars, Start(|tapes|));
    var line := Merge(tapes, bars, Start(|tapes|));
    assert Le(KeyOf(bars, line[j]), KeyOf(bars, line[k]));
  }

  // ---------------------------------------------------------------------------------- the source

  /** The streams' files arrive on their own schedule. Stream i can hand over tape[i][..arrived[i]]
      now, and reports itself finished when ended[i]. */
  datatype Arrivals = Arrivals(arrived: seq<nat>, ended: seq<bool>)

  ghost predicate Possible<P>(a: Arrivals, tapes: seq<seq<Event<P>>>) {
    && |a.arrived| == |a.ended| == |tapes|
    && (forall i :: 0 <= i < |tapes| ==> a.arrived[i] <= |tapes[i]|)
    && (forall i :: 0 <= i < |tapes| && a.ended[i] ==> a.arrived[i] == |tapes[i]|)
  }

  /** Streams without a front event are pending, once each, unless they have nothing left. */
  ghost predicate PendingOk<P>(tapes: seq<seq<Event<P>>>, out: seq<nat>, slots: seq<Option<Event<P>>>,
                               pending: seq<nat>)
    requires |slots| == |out| == |tapes|
  {
    && (forall j, k :: 0 <= j < k < |pending| ==> pending[j] != pending[k])
    && (forall i :: i in pending ==> i < |tapes| && slots[i].None?)
    && (forall i :: 0 <= i < |tapes| && slots[i].None? ==> i in pending || out[i] == |tapes[i]|)
  }

  /** Compaction in place: of the streams was, the first k are visited and keep of them kept, so
      those still open are the kept prefix and the unvisited tail. */
  ghost predicate Compacting(was: seq<nat>, open: seq<nat>, pending: seq<nat>, keep: nat, k: nat) {
    && keep <= k <= |was| == |pending| && |open| == keep + |was| - k
    && (forall j :: k <= j < |was| ==> pending[j] == was[j])
    && (forall j :: 0 <= j < |open| ==> open[j] == if j < keep then pending[j] else was[j - keep + k])
  }

  lemma Compact(was: seq<nat>, open: seq<nat>, pending: seq<nat>, keep: nat, k: nat)
    requires Compacting(was, open, pending, keep, k) && k < |was|
    ensures keep < |open| && pending[k] == was[k] == open[keep]
    ensures Compacting(was, open, pending[keep := pending[k]], keep + 1, k + 1)
    ensures Compacting(was, open[..keep] + open[keep + 1..], pending, keep, k + 1)
  {
    assert open[keep] == was[k];
    var kept, less := pending[keep := pending[k]], open[..keep] + open[keep + 1..];
    forall j | 0 <= j < |open| ensures open[j] == if j < keep + 1 then kept[j] else was[j - keep + k] {}
    forall j | 0 <= j < |less| ensures less[j] == if j < keep then pending[j] else was[j - keep + k + 1] {
      assert less[j] == if j < keep then open[j] else open[j + 1];
    }
  }

  lemma Compacted(was: seq<nat>, open: seq<nat>, pending: seq<nat>, keep: nat)
    requires Compacting(was, open, pending, keep, |was|)
    ensures open == pending[..keep] && was[..|was|] == was
  {
  }

  lemma StarvedSoFar(a: Arrivals, out: seq<nat>, streams: seq<nat>, k: nat)
    requires k < |streams|
    ensures AnyStarved(a, out, streams[..k + 1]) <==> AnyStarved(a, out, streams[..k]) || Starved(a, out, streams[k])
  {
    var upTo := streams[..k + 1];
    if AnyStarved(a, out, streams[..k]) {
      var j :| 0 <= j < k && Starved(a, out, streams[..k][j]);
      assert Starved(a, out, upTo[j]);
    }
    if Starved(a, out, streams[k]) {
      assert Starved(a, out, upTo[k]);
    }
  }

  lemma PendingAfterPop<P>(tapes: seq<seq<Event<P>>>, out: seq<nat>, slots: seq<Option<Event<P>>>, pending: seq<nat>,
                           i: nat, out': seq<nat>, slots': seq<Option<Event<P>>>)
    requires |slots| == |out| == |tapes| && PendingOk(tapes, out, slots, pending) && i < |tapes| && slots[i].Some?
    requires out' == out[i := out[i] + 1] && slots' == slots[i := None]
    ensures PendingOk(tapes, out', slots', pending + [i])
  {
    assert i !in pending;
  }

  lemma DropPending<P>(tapes: seq<seq<Event<P>>>, out: seq<nat>, slots: seq<Option<Event<P>>>,
                       slots': seq<Option<Event<P>>>, pending: seq<nat>, k: nat)
    requires |slots| == |out| == |tapes| && PendingOk(tapes, out, slots, pending)
    requires k < |pending| && pending[k] < |tapes|
    requires (slots' == slots && out[pending[k]] == |tapes[pending[k]]|)
             || (exists e :: slots' == slots[pending[k] := Some(e)])
    ensures PendingOk(tapes, out, slots', pending[..k] + pending[k + 1..])
  {
    Without(pending, k);
  }

  /** The streams and their fronts: a loaded slot holds the stream's next event to go out and its key
      is in the heap once, and the heap holds nothing else. */
  ghost predicate Fronts<P>(tapes: seq<seq<Event<P>>>, bars: seq<bool>, out: seq<nat>, read: seq<nat>,
                            slots: seq<Option<Event<P>>>, heap: seq<Entry>) {
    && |read| == |slots| == |out| == |tapes| == |bars|
    && At(tapes, bars, out)
    && (forall i :: 0 <= i < |tapes| ==> SlotOk(tapes, bars, out, read, slots, heap, i))
    && Heap.IsHeap(Le, heap)
    && (forall e :: e in multiset(heap) ==>
          e.index < |tapes| && slots[e.index].Some? && e == Entry(slots[e.index].value.ts, bars[e.index], e.index))
  }

  ghost predicate SlotOk<P>(tapes: seq<seq<Event<P>>>, bars: seq<bool>, out: seq<nat>, read: seq<nat>,
                            slots: seq<Option<Event<P>>>, heap: seq<Entry>, i: nat)
    requires |read| == |slots| == |out| == |tapes| == |bars| && i < |tapes|
  {
    if slots[i].Some? then
      && read[i] == out[i] + 1 <= |tapes[i]| && slots[i].value == tapes[i][out[i]]
      && multiset(heap)[Entry(slots[i].value.ts, bars[i], i)] == 1
    else
      read[i] == out[i]
  }

  lemma FrontsAfterPush<P>(tapes: seq<seq<Event<P>>>, bars: seq<bool>, out: seq<nat>, read: seq<nat>,
                           slots: seq<Option<Event<P>>>, heap: seq<Entry>, i: nat,
                           read': seq<nat>, slots': seq<Option<Event<P>>>, heap': seq<Entry>)
    requires Fronts(tapes, bars, out, read, slots, heap)
    requires i < |tapes| && slots[i].None? && out[i] < |tapes[i]|
    requires read' == read[i := read[i] + 1] && slots' == slots[i := Some(tapes[i][out[i]])]
    requires Heap.IsHeap(Le, heap')
    requires multiset(heap') == multiset(heap) + multiset{Entry(tapes[i][out[i]].ts, bars[i], i)}
    ensures Fronts(tapes, bars, out, read', slots', heap')
  {
    forall k | 0 <= k < |tapes| ensures SlotOk(tapes, bars, out, read', slots', heap', k) {
      assert SlotOk(tapes, bars, out, read, slots, heap, k);
    }
  }

  lemma FrontsAfterPop<P>(tapes: seq<seq<Event<P>>>, bars: seq<bool>, out: seq<nat>, read: seq<nat>,
                          slots: seq<Option<Event<P>>>, heap: seq<Entry>, top: Entry,
                          out': seq<nat>, slots': seq<Option<Event<P>>>, heap': seq<Entry>)
    requires Fronts(tapes, bars, out, read, slots, heap) && top.index < |tapes|
    requires slots[top.index].Some? && slots' == slots[top.index := None]
    requires out' == out[top.index := out[top.index] + 1]
    requires Heap.IsHeap(Le, heap') && multiset(heap) == multiset(heap') + multiset{top}
    ensures Fronts(tapes, bars, out', read, slots', heap')
  {
    var i := top.index;
    assert top in multiset(heap);
    assert SlotOk(tapes, bars, out, read, slots, heap, i);
    forall k | 0 <= k < |tapes| ensures SlotOk(tapes, bars, out', read, slots', heap', k) {
      assert SlotOk(tapes, bars, out, read, slots, heap, k);
    }
    forall e | e in multiset(heap')
      ensures e.index < |tapes| && slots'[e.index].Some?
              && e == Entry(slots'[e.index].value.ts, bars[e.index], e.index)
    {
      assert e in multiset(heap);
      assert e.index == i ==> e == top;
    }
  }

  /** With every stream either in the heap or at its end, the least key is the front of the line. */
  lemma LeastIsFirst<P>(tapes: seq<seq<Event<P>>>, bars: seq<bool>, out: seq<nat>, read: seq<nat>,
                        slots: seq<Option<Event<P>>>, heap: seq<Entry>, top: Entry)
    requires Fronts(tapes, bars, out, read, slots, heap)
    requires PendingOk(tapes, out, slots, [])
    requires top in multiset(heap) && forall e :: e in heap ==> Le(top, e)
    ensures var line := Merge(tapes, bars, out);
            && top.index < |tapes| && slots[top.index].Some?
            && line != [] && line[0] == Tagged(top.index, slots[top.index].value)
            && At(tapes, bars, out[top.index := out[top.index] + 1])
            && line[1..] == Merge(tapes, bars, out[top.index := out[top.index] + 1])
  {
    assert SlotOk(tapes, bars, out, read, slots, heap, top.index);
    EmptyMerge(tapes, bars, out);
    var i, rest := Unfold(tapes, bars, out);
    assert SlotOk(tapes, bars, out, read, slots, heap, i) && slots[i].Some?;
    assert Entry(slots[i].value.ts, bars[i], i) in multiset(heap);
    assert Entry(slots[i].value.ts, bars[i], i) in heap;
    assert i == top.index;
  }

  /** A pending stream whose next event has not arrived and that is not finished. */
  ghost predicate Starved(a: Arrivals, out: seq<nat>, i: nat) {
    i < |out| == |a.arrived| == |a.ended| && a.arrived[i] <= out[i] && !a.ended[i]
  }

  /** The whole state after the least key leaves the heap. */
  lemma PopKeepsState<P>(tapes: seq<seq<Event<P>>>, bars: seq<bool>, out: seq<nat>, read: seq<nat>,
                         slots: seq<Option<Event<P>>>, heap: seq<Entry>, pending: seq<nat>, top: Entry,
                         heap': seq<Entry>)
      returns (out': seq<nat>, slots': seq<Option<Event<P>>>)
    requires Fronts(tapes, bars, out, read, slots, heap) && PendingOk(tapes, out, slots, pending) && pending == []
    requires top in heap && forall e :: e in heap ==> Le(top, e)
    requires Heap.IsHeap(Le, heap') && multiset(heap) == multiset(heap') + multiset{top}
    ensures top.index < |tapes| && slots[top.index].Some?
    ensures out' == out[top.index := out[top.index] + 1] && slots' == slots[top.index := None]
    ensures Fronts(tapes, bars, out', read, slots', heap') && PendingOk(tapes, out', slots', pending + [top.index])
    ensures Merge(tapes, bars, out) == [Tagged(top.index, slots[top.index].value)] + Merge(tapes, bars, out')
  {
    assert top in multiset(heap);
    LeastIsFirst(tapes, bars, out, read, slots, heap, top);
    out', slots' := out[top.index := out[top.index] + 1], slots[top.index := None];
    FrontsAfterPop(tapes, bars, out, read, slots, heap, top, out', slots', heap');
    PendingAfterPop(tapes, out, slots, pending, top.index, out', slots');
    assert Merge(tapes, bars, out) == [Merge(tapes, bars, out)[0]] + Merge(tapes, bars, out)[1..];
  }

  ghost predicate AnyStarved(a: Arrivals, out: seq<nat>, streams: seq<nat>) {
    exists k :: 0 <= k < |streams| && Starved(a, out, streams[k])
  }

  /** What one answer of next does to the line still to go out. */
  ghost predicate Answers<P>(line: seq<Tagged<P>>, r: Pull<P>, line': seq<Tagged<P>>) {
    match r
    case Data(event) => line != [] && event == line[0].event && line' == line[1..]
    case NoData => line' == line
    case Eof => line == line' == []
  }

  function Events<P>(line: seq<Tagged<P>>): seq<Event<P>> {
    seq(|line|, k requires 0 <= k < |line| => line[k].event)
  }

  function Emitted<P>(answers: seq<Pull<P>>): seq<Event<P>> {
    if answers == [] then []
    else (if answers[0].Data? then [answers[0].event] else []) + Emitted(answers[1..])
  }

  /** Whatever the files' schedule made next answer along the way, the events it has given spell a
      prefix of the line, and all of it once it has answered Eof. */
  lemma {:induction false} ArrivalsDoNotMatter<P>(lines: seq<seq<Tagged<P>>>, answers: seq<Pull<P>>)
    requires |lines| == |answers| + 1
    requires forall k :: 0 <= k < |answers| ==> Answers(lines[k], answers[k], lines[k + 1])
    ensures Emitted(answers) + Events(lines[|answers|]) == Events(lines[0])
    ensures Eof in answers ==> Emitted(answers) == Events(lines[0])
  {
    if answers != [] {
      var later, next := answers[1..], lines[1..];
      forall k | 0 <= k < |later| ensures Answers(next[k], later[k], next[k + 1]) {
        assert Answers(lines[k + 1], answers[k + 1], lines[k + 2]);
      }
      ArrivalsDoNotMatter(next, later);
      OneAnswer(lines[0], answers[0], lines[1]);
      EmittedFirst(answers);
      assert next[|later|] == lines[|answers|] && next[0] == lines[1];
      hide Emitted, Events, Answers;
      OneMoreBefore(Emitted([answers[0]]), Emitted(later), Events(lines[|answers|]), Events(lines[1]));
      assert Eof in answers ==> answers[0] == Eof || Eof in later;
    } else {
      assert Emitted(answers) == [];
    }
  }

  lemma EmittedFirst<P>(answers: seq<Pull<P>>)
    requires answers != []
    ensures Emitted(answers) == Emitted([answers[0]]) + Emitted(answers[1..])
  {
    assert Emitted([answers[0]]) == if answers[0].Data? then [answers[0].event] else [];
  }

  lemma OneMoreBefore<T>(first: seq<T>, given: seq<T>, left: seq<T>, rest: seq<T>)
    requires given + left == rest
    ensures (first + given) + left == first + rest
    ensures first + rest == [] ==> first + given == []
  {
    assert (first + given) + left == first + (given + left);
  }

  lemma OneAnswer<P>(line: seq<Tagged<P>>, r: Pull<P>, line': seq<Tagged<P>>)
    requires Answers(line, r, line')
    ensures Emitted([r]) + Events(line') == Events(line)
    ensures r == Eof ==> Events(line') == Events(line) == []
  {
    if r.Data? {
      assert Events(line) == [line[0].event] + Events(line');
      assert Emitted([r]) == [r.event];
    } else {
      assert Emitted([r]) == [];
    }
  }

  lemma {:induction false} EmittedSnoc<P>(answers: seq<Pull<P>>, r: Pull<P>)
    ensures Emitted(answers + [r]) == Emitted(answers) + if r.Data? then [r.event] else []
  {
    if answers == [] {
      assert answers + [r] == [r];
    } else {
      EmittedSnoc(answers[1..], r);
      assert (answers + [r])[1..] == answers[1..] + [r];
    }
  }

  /** What next has answered so far takes the line to what is left of it. */
  ghost predicate Heard<P>(line: seq<Tagged<P>>, lines: seq<seq<Tagged<P>>>, answers: seq<Pull<P>>,
                           rest: seq<Tagged<P>>) {
    && |lines| == |answers| + 1 && lines[0] == line && lines[|answers|] == rest
    && forall k :: 0 <= k < |answers| ==> Answers(lines[k], answers[k], lines[k + 1])
  }

  lemma HearOne<P>(line: seq<Tagged<P>>, lines: seq<seq<Tagged<P>>>, answers: seq<Pull<P>>, rest: seq<Tagged<P>>,
                   r: Pull<P>, rest': seq<Tagged<P>>)
    requires Heard(line, lines, answers, rest) && Answers(rest, r, rest')
    ensures Heard(line, lines + [rest'], answers + [r], rest')
    ensures Emitted(answers + [r]) == Emitted(answers) + if r.Data? then [r.event] else []
  {
    hide Answers;
    EmittedSnoc(answers, r);
    forall k | 0 <= k < |answers + [r]|
      ensures Answers((lines + [rest'])[k], (answers + [r])[k], (lines + [rest'])[k + 1])
    {
      if k < |answers| {
        assert Answers(lines[k], answers[k], lines[k + 1]);
      }
    }
  }

  /** refill, and the push of a loaded front into the heap. */
  method Refill<P(!new)>(tapes: seq<seq<Event<P>>>, bars: seq<bool>, ghost out: seq<nat>, i: nat, a: Arrivals,
                         read0: seq<nat>, slots0: seq<Option<Event<P>>>, heap0: seq<Entry>)
      returns (loaded: bool, read: seq<nat>, slots: seq<Option<Event<P>>>, heap: seq<Entry>)
    requires Fronts(tapes, bars, out, read0, slots0, heap0) && Possible(a, tapes) && i < |tapes| && slots0[i].None?
    ensures Fronts(tapes, bars, out, read, slots, heap)
    ensures loaded == (out[i] < a.arrived[i])
    ensures slots == if loaded then slots0[i := Some(tapes[i][out[i]])] else slots0
  {
    assert SlotOk(tapes, bars, out, read0, slots0, heap0, i);
    read, slots, heap := read0, slots0, heap0;
    loaded := read[i] < a.arrived[i];
    if loaded {
      var event := tapes[i][read[i]];
      slots := slots[i := Some(event)];
      read := read[i := read[i] + 1];
      heap := Heap.Push(Le, heap, Entry(event.ts, bars[i], i)) by { LeIsTotalOrder(); }
      FrontsAfterPush(tapes, bars, out, read0, slots0, heap0, i, read, slots, heap);
    }
  }

  /** The loop of next over the pending streams: each is loaded into the heap, dropped when
      finished, or kept, compacting pending in place. */
  method RefillPending<P(!new)>(tapes: seq<seq<Event<P>>>, bars: seq<bool>, ghost out: seq<nat>, a: Arrivals,
                                read0: seq<nat>, slots0: seq<Option<Event<P>>>, heap0: seq<Entry>, pending0: seq<nat>)
      returns (waiting: bool, read: seq<nat>, slots: seq<Option<Event<P>>>, heap: seq<Entry>, pending: seq<nat>)
    requires Fronts(tapes, bars, out, read0, slots0, heap0) && PendingOk(tapes, out, slots0, pending0)
    requires Possible(a, tapes)
    ensures Fronts(tapes, bars, out, read, slots, heap) && PendingOk(tapes, out, slots, pending)
    ensures waiting <==> AnyStarved(a, out, pending0)
    ensures !waiting ==> pending == []
  {
    hide SlotOk;
    read, slots, heap, pending := read0, slots0, heap0, pending0;
    ghost var open := pending;
    var keep: nat := 0;
    waiting := false;
    var k: nat := 0;
    while k < |pending|
      invariant Fronts(tapes, bars, out, read, slots, heap)
      invariant PendingOk(tapes, out, slots, open)
      invariant Compacting(pending0, open, pending, keep, k)
      invariant waiting == (keep > 0)
      invariant waiting == AnyStarved(a, out, pending0[..k])
    {
      var index := pending[k];
      Compact(pending0, open, pending, keep, k);
      StarvedSoFar(a, out, pending0, k);
      assert index in open;
      ghost var before := slots;
      var loaded;
      loaded, read, slots, heap := Refill(tapes, bars, out, index, a, read, slots, heap);
      if loaded || a.ended[index] {
        DropPending(tapes, out, before, slots, open, keep);
        open := open[..keep] + open[keep + 1..];
      } else {
        pending := pending[keep := index];
        keep := keep + 1;
        waiting := true;
      }
      k := k + 1;
    }
    Compacted(pending0, open, pending, keep);
    pending := pending[..keep];
  }

  /** The root of the heap goes out and its stream has no front any more. */
  method PopFront<P(!new)>(tapes: seq<seq<Event<P>>>, bars: seq<bool>, ghost out: seq<nat>, ghost read: seq<nat>,
                           slots: seq<Option<Event<P>>>, heap: seq<Entry>, pending: seq<nat>)
      returns (r: Pull<P>, ghost out': seq<nat>, slots': seq<Option<Event<P>>>, heap': seq<Entry>, pending': seq<nat>)
    requires Fronts(tapes, bars, out, read, slots, heap) && PendingOk(tapes, out, slots, pending)
    requires pending == [] && heap != []
    ensures Fronts(tapes, bars, out', read, slots', heap') && PendingOk(tapes, out', slots', pending')
    ensures r.Data? && Answers(Merge(tapes, bars, out), r, Merge(tapes, bars, out'))
  {
    var top;
    top, heap' := Heap.Pop(Le, heap) by { LeIsTotalOrder(); }
    ghost var slots'';
    out', slots'' := PopKeepsState(tapes, bars, out, read, slots, heap, pending, top, heap');
    pending' := pending + [top.index];
    r := Data(slots[top.index].value);
    slots' := slots[top.index := None];
  }

  class Source<P(!new)> {
    const tapes: seq<seq<Event<P>>>       // what each stream yields in all
    const bars: seq<bool>                 // is_bar, by stream
    var read: seq<nat>                    // events each stream has handed over
    var slots: seq<Option<Event<P>>>      // the lookahead of each stream
    var pending: seq<nat>                 // streams with no front event
    var heap: seq<Entry>
    ghost var out: seq<nat>               // events of each stream that have gone out

    ghost predicate Valid()
      reads this
    {
      Fronts(tapes, bars, out, read, slots, heap) && PendingOk(tapes, out, slots, pending)
    }

    /** The line still to go out. */
    ghost function Rest(): seq<Tagged<P>>
      reads this
      requires Valid()
    {
      Merge(tapes, bars, out)
    }

    constructor (tapes: seq<seq<Event<P>>>, bars: seq<bool>)
      requires |tapes| == |bars|
      ensures Valid() && this.tapes == tapes && this.bars == bars
      ensures Rest() == Merge(tapes, bars, Start(|tapes|))
    {
      this.tapes := tapes;
      this.bars := bars;
      read := Start(|tapes|);
      slots := seq(|tapes|, _ => None);
      pending := seq(|tapes|, i => i);
      heap := [];
      out := Start(|tapes|);
      new;
      forall i | 0 <= i < |tapes| ensures i in pending { assert pending[i] == i; }
    }

    /** Whatever has arrived, next emits the front of the line, or nothing: NoData exactly while
        some stream that could hold an earlier event has nothing to compare, Eof exactly when the
        line is out. */
    method Next(a: Arrivals) returns (r: Pull<P>)
      requires Valid() && Possible(a, tapes)
      modifies this
      ensures Valid()
      ensures r == NoData <==> AnyStarved(a, old(out), old(pending))
      ensures Answers(old(Rest()), r, Rest())
    {
      var waiting;
      waiting, read, slots, heap, pending := RefillPending(tapes, bars, out, a, read, slots, heap, pending);
      if waiting { return NoData; }
      EmptyMerge(tapes, bars, out);
      if heap == [] {
        forall i | 0 <= i < |tapes| ensures out[i] == |tapes[i]| {
          assert SlotOk(tapes, bars, out, read, slots, heap, i);
        }
        return Eof;
      }
      r, out, slots, heap, pending := PopFront(tapes, bars, out, read, slots, heap, pending);
    }
  }

  /** All files there and all streams at their end. */
  function Everything<P>(tapes: seq<seq<Event<P>>>): Arrivals {
    Arrivals(seq(|tapes|, i requires 0 <= i < |tapes| => |tapes[i]|), seq(|tapes|, _ => true))
  }

  /** A source read until it ends, on any schedule of arrivals and then with everything there, gives the
      whole line, each event once and in its order. */
  method ReadAll<P(!new)>(source: Source<P>, schedule: seq<Arrivals>) returns (events: seq<Event<P>>)
    requires source.Valid() && forall k :: 0 <= k < |schedule| ==> Possible(schedule[k], source.tapes)
    modifies source
    ensures source.Valid() && source.Rest() == [] && events == Events(old(source.Rest()))
  {
    hide Answers, Heard, Emitted;
    ghost var line, lines, answers := source.Rest(), [source.Rest()], [];
    assert Heard(line, lines, answers, line) && Emitted<P>([]) == [] by { NothingHeard(line); }
    events := [];
    for k := 0 to |schedule|
      invariant source.Valid() && Heard(line, lines, answers, source.Rest()) && events == Emitted(answers)
    {
      ghost var rest := source.Rest();
      var r := source.Next(schedule[k]);
      HearOne(line, lines, answers, rest, r, source.Rest());
      lines, answers := lines + [source.Rest()], answers + [r];
      if r.Data? { events := events + [r.event]; }
    }
    var ended := false;
    while !ended
      invariant source.Valid() && Heard(line, lines, answers, source.Rest()) && events == Emitted(answers)
      invariant ended ==> source.Rest() == []
      decreases |source.Rest()|, !ended
    {
      ghost var rest := source.Rest();
      var r := source.Next(Everything(source.tapes));
      NextOfAll(rest, r, source.Rest());
      HearOne(line, lines, answers, rest, r, source.Rest());
      lines, answers := lines + [source.Rest()], answers + [r];
      if r.Data? { events := events + [r.event]; }
      ended := r == Eof;
    }
    Told(line, lines, answers);
  }

  lemma NothingHeard<P>(line: seq<Tagged<P>>)
    ensures Heard(line, [line], [], line) && Emitted<P>([]) == []
  {
  }

  lemma NextOfAll<P>(rest: seq<Tagged<P>>, r: Pull<P>, rest': seq<Tagged<P>>)
    requires Answers(rest, r, rest')
    ensures r.Data? ==> |rest'| < |rest|
    ensures r.Eof? ==> rest == rest' == []
  {
  }

  /** Heard to its end, the line has been given whole. */
  lemma Told<P>(line: seq<Tagged<P>>, lines: seq<seq<Tagged<P>>>, answers: seq<Pull<P>>)
    requires Heard(line, lines, answers, [])
    ensures Emitted(answers) == Events(line)
  {
    hide Answers;
    ArrivalsDoNotMatter(lines, answers);
    assert Emitted(answers) + [] == Emitted(answers);
  }

  lemma Without<T>(s: seq<T>, k: nat)
    requires k < |s| && forall i, j :: 0 <= i < j < |s| ==> s[i] != s[j]
    ensures var r := s[..k] + s[k + 1..];
            && (forall i, j :: 0 <= i < j < |r| ==> r[i] != r[j])
            && (forall x :: x in r <==> x in s && x != s[k])
  {
    var r := s[..k] + s[k + 1..];
    forall x | x in s && x != s[k] ensures x in r {
      var i :| 0 <= i < |s| && s[i] == x;
      assert x == if i < k then r[i] else r[i - 1];
    }
    forall i | 0 <= i < |r| ensures r[i] == if i < k then s[i] else s[i + 1] {}
  }
}
