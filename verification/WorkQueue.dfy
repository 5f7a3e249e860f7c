/** The single-producer, multi-consumer work queue, one step per atomic access and separate
    steps for the construct, the move and the destroy of a cell, interleaved in any order. */
module WorkQueue {
  import opened Ring

  datatype Cell<+T> = Cell(stamp: nat, storage: Storage<T>)

  /** Where the producer stands in push. */
  datatype Producer<+T> =
    | PIdle
    | PCheck(arg: T, pos: nat)      // enqueue_pos_ read, about to read the stamp
    | PConstruct(arg: T, pos: nat)  // slot found free
    | PPublish(arg: T, pos: nat)    // constructed, about to stamp pos + 1
    | PAdvance(pos: nat)            // stamped, about to store enqueue_pos_

  /** Where a consumer stands in try_pop. */
  datatype Consumer<+T> =
    | CIdle
    | CInspect(pos: nat)            // about to read the stamp
    | CClaim(pos: nat)              // stamp was pos + 1, about to compare-exchange
    | CReload                       // lost the race, about to read dequeue_pos_
    | CMove(pos: nat)               // position claimed
    | CDestroy(pos: nat, out: T)
    | CRelease(pos: nat, out: T)    // about to stamp pos + Capacity

  datatype Taken<+T> = Taken(pos: nat, value: T)

  /** The queue, its threads, and the history of what was published, claimed and returned. */
  datatype Queue<+T> = Queue(
    cells: seq<Cell<T>>,
    enq: nat,
    deq: nat,
    producer: Producer<T>,
    consumers: seq<Consumer<T>>,
    pushed: seq<T>,                 // published values, by position
    claims: seq<nat>,               // claiming consumer, by position
    received: seq<seq<Taken<T>>>)   // what each consumer's calls returned

  /** One scheduler choice. spurious lets the weak compare-exchange fail on a matching value. */
  datatype Action<+T> = Produce(arg: T) | Consume(consumer: nat, spurious: bool)

  function Init<T>(cap: nat, consumers: nat): Queue<T> {
    Queue(seq(cap, i requires 0 <= i < cap => Cell(i, Raw)), 0, 0, PIdle,
          seq(consumers, _ => CIdle), [], [], seq(consumers, _ => []))
  }

  function SetCell<T>(q: Queue<T>, slot: nat, cell: Cell<T>): Queue<T>
    requires slot < |q.cells|
  {
    q.(cells := q.cells[slot := cell])
  }

  function ProducerStep<T>(q: Queue<T>, arg: T): Queue<T>
    requires |q.cells| > 0
  {
    var cap := |q.cells|;
    match q.producer
    case PIdle => q.(producer := PCheck(arg, q.enq))
    case PCheck(v, pos) =>
      q.(producer := if q.cells[Slot(pos, cap)].stamp == pos then PConstruct(v, pos) else PIdle)
    case PConstruct(v, pos) =>
      SetCell(q, Slot(pos, cap), q.cells[Slot(pos, cap)].(storage := Live(v))).(producer := PPublish(v, pos))
    case PPublish(v, pos) =>
      SetCell(q, Slot(pos, cap), q.cells[Slot(pos, cap)].(stamp := pos + 1))
      .(producer := PAdvance(pos), pushed := q.pushed + [v])
    case PAdvance(pos) => q.(enq := pos + 1, producer := PIdle)
  }

  function ConsumerStep<T>(q: Queue<T>, c: nat, spurious: bool): Queue<T>
    requires |q.cells| > 0 && c < |q.consumers| == |q.received|
  {
    var cap := |q.cells|;
    match q.consumers[c]
    case CIdle => Goto(q, c, CInspect(q.deq))
    case CInspect(pos) =>
      var stamp := q.cells[Slot(pos, cap)].stamp;
      Goto(q, c, if stamp == pos + 1 then CClaim(pos) else if stamp < pos + 1 then CIdle else CReload)
    case CClaim(pos) =>
      if q.deq == pos && !spurious
      then Goto(q.(deq := pos + 1, claims := q.claims + [c]), c, CMove(pos))
      else Goto(q, c, CInspect(q.deq))
    case CReload => Goto(q, c, CInspect(q.deq))
    case CMove(pos) =>
      var cell := q.cells[Slot(pos, cap)];
      if cell.storage.Live?
      then Goto(SetCell(q, Slot(pos, cap), cell.(storage := MovedFrom)), c, CDestroy(pos, cell.storage.value))
      else q  // no object to move, ruled out by Inv
    case CDestroy(pos, out) =>
      Goto(SetCell(q, Slot(pos, cap), q.cells[Slot(pos, cap)].(storage := Raw)), c, CRelease(pos, out))
    case CRelease(pos, out) =>
      Goto(SetCell(q, Slot(pos, cap), q.cells[Slot(pos, cap)].(stamp := pos + cap))
           .(received := q.received[c := q.received[c] + [Taken(pos, out)]]), c, CIdle)
  }

  function Goto<T>(q: Queue<T>, c: nat, pc: Consumer<T>): Queue<T>
    requires c < |q.consumers|
  {
    q.(consumers := q.consumers[c := pc])
  }

  function Step<T>(q: Queue<T>, a: Action<T>): Queue<T>
    requires |q.cells| > 0 && |q.consumers| == |q.received|
  {
    match a
    case Produce(arg) => ProducerStep(q, arg)
    case Consume(c, spurious) => if c < |q.consumers| then ConsumerStep(q, c, spurious) else q
  }

  /** The state after a schedule, any sequence of scheduler choices. */
  function Run<T>(cap: nat, consumers: nat, schedule: seq<Action<T>>): (q: Queue<T>)
    requires cap > 0
    ensures |q.cells| == cap && |q.consumers| == |q.received| == consumers
  {
    if schedule == [] then Init(cap, consumers)
    else Step(Run(cap, consumers, schedule[..|schedule| - 1]), schedule[|schedule| - 1])
  }

  // ---------------------------------------------------------------- invariant

  /** Between its claim and its release a consumer owns the slot of its position. */
  ghost predicate Busy<T>(pc: Consumer<T>) {
    pc.CMove? || pc.CDestroy? || pc.CRelease?
  }

  ghost predicate Holds<T>(pc: Consumer<T>, pos: nat) {
    Busy(pc) && pc.pos == pos
  }

  /** The storage a consumer finds at the position it claimed. */
  ghost function HeldStorage<T>(pc: Consumer<T>, v: T): Storage<T> {
    if pc.CDestroy? then MovedFrom else if pc.CRelease? then Raw else Live(v)
  }

  ghost predicate Shape<T>(q: Queue<T>) {
    && |q.cells| > 1
    && |q.consumers| == |q.received|
    && |q.claims| == q.deq <= |q.pushed|
    && (forall p :: 0 <= p < q.deq ==> q.claims[p] < |q.consumers|)
  }

  /** A slot awaits the next position it can publish, or holds a position less than a lap old
      that is unclaimed or still in its claimer's hands. */
  ghost predicate SlotOk<T>(q: Queue<T>, i: nat)
    requires Shape(q) && i < |q.cells|
  {
    var cap, head, cell := |q.cells|, |q.pushed|, q.cells[i];
    if cell.stamp >= head && Slot(cell.stamp, cap) == i then
      && cell.stamp < head + cap
      && cell.storage == (if q.producer.PPublish? && q.producer.pos == cell.stamp then Live(q.producer.arg) else Raw)
    else
      && 0 < cell.stamp <= head < cell.stamp + cap
      && var pos := cell.stamp - 1;
         && Slot(pos, cap) == i
         && (if pos >= q.deq then cell.storage == Live(q.pushed[pos])
             else && Holds(q.consumers[q.claims[pos]], pos)
                  && cell.storage == HeldStorage(q.consumers[q.claims[pos]], q.pushed[pos]))
  }

  ghost predicate ProducerOk<T>(q: Queue<T>)
    requires Shape(q)
  {
    var cap, head := |q.cells|, |q.pushed|;
    match q.producer
    case PIdle => q.enq == head
    case PCheck(_, pos) => q.enq == head == pos
    case PConstruct(_, pos) => q.enq == head == pos && q.cells[Slot(pos, cap)].stamp == pos
    case PPublish(_, pos) => q.enq == head == pos && q.cells[Slot(pos, cap)].stamp == pos
    case PAdvance(pos) => q.enq == pos && pos + 1 == head
  }

  ghost predicate ConsumerOk<T>(q: Queue<T>, c: nat)
    requires Shape(q) && c < |q.consumers|
  {
    var pc := q.consumers[c];
    && (pc.CInspect? ==> pc.pos <= q.deq)
    && (pc.CClaim? ==> pc.pos <= q.deq && pc.pos < |q.pushed|)
    && (Busy(pc) ==>
          && pc.pos < q.deq && q.claims[pc.pos] == c
          && q.cells[Slot(pc.pos, |q.cells|)].stamp == pc.pos + 1
          && (!pc.CMove? ==> pc.out == q.pushed[pc.pos]))
  }

  /** What a consumer got: claimed by it, worth what was pushed there, positions ascending and
      below the one in its hands. */
  ghost predicate ReceivedOk<T>(q: Queue<T>, c: nat)
    requires Shape(q) && c < |q.consumers|
  {
    && (forall k :: 0 <= k < |q.received[c]| ==>
          && var t := q.received[c][k];
          t.pos < q.deq && q.claims[t.pos] == c && t.value == q.pushed[t.pos] && !Holds(q.consumers[c], t.pos))
    && (forall j, k :: 0 <= j < k < |q.received[c]| ==> q.received[c][j].pos < q.received[c][k].pos)
    && (Busy(q.consumers[c]) ==> forall k :: 0 <= k < |q.received[c]| ==> q.received[c][k].pos < q.consumers[c].pos)
  }

  ghost predicate Delivered<T>(q: Queue<T>, p: nat)
    requires Shape(q) && p < q.deq
  {
    Taken(p, q.pushed[p]) in q.received[q.claims[p]]
  }

  ghost predicate Inv<T>(q: Queue<T>) {
    && Shape(q)
    && ProducerOk(q)
    && (forall i :: 0 <= i < |q.cells| ==> SlotOk(q, i))
    && (forall p :: q.deq <= p < |q.pushed| ==> q.cells[Slot(p, |q.cells|)].stamp == p + 1)
    && (forall c :: 0 <= c < |q.consumers| ==> ConsumerOk(q, c))
    && (forall c :: 0 <= c < |q.consumers| ==> ReceivedOk(q, c))
    && (forall p :: 0 <= p < q.deq ==> Holds(q.consumers[q.claims[p]], p) || Delivered(q, p))
  }

  lemma InitInv<T>(cap: nat, consumers: nat)
    requires cap > 1
    ensures Inv<T>(Init(cap, consumers))
  {
  }

  lemma PublishKeepsSlot<T>(q: Queue<T>, arg: T, i: nat)
    requires Shape(q) && ProducerOk(q) && q.producer.PPublish? && i < |q.cells| && SlotOk(q, i)
    ensures SlotOk(ProducerStep(q, arg), i)
  {
    var cap, head := |q.cells|, |q.pushed|;
    SlotApart(head, head + 1, cap);
  }

  lemma ProducerKeepsSlot<T>(q: Queue<T>, arg: T, i: nat)
    requires Shape(q) && ProducerOk(q) && i < |q.cells| && SlotOk(q, i)
    ensures SlotOk(ProducerStep(q, arg), i)
  {
    if q.producer.PPublish? {
      PublishKeepsSlot(q, arg, i);
    }
  }

  lemma ProducerKeepsConsumer<T>(q: Queue<T>, arg: T, c: nat)
    requires Shape(q) && ProducerOk(q) && c < |q.consumers| && ConsumerOk(q, c) && HoldsSlot(q, c)
    ensures ConsumerOk(ProducerStep(q, arg), c)
  {
  }

  lemma ProducerKeepsReceived<T>(q: Queue<T>, arg: T, c: nat)
    requires Shape(q) && ProducerOk(q) && c < |q.consumers| && ReceivedOk(q, c)
    ensures ReceivedOk(ProducerStep(q, arg), c)
  {
  }

  lemma ProducerKeepsPublished<T>(q: Queue<T>, arg: T, p: nat)
    requires Inv(q) && q.deq <= p < |ProducerStep(q, arg).pushed|
    ensures ProducerStep(q, arg).cells[Slot(p, |q.cells|)].stamp == p + 1
  {
    if q.producer.PPublish? && p < |q.pushed| {
      SlotApart(p, p + 1, |q.cells|);
      assert q.cells[Slot(p, |q.cells|)].stamp == p + 1;
    }
  }

  lemma ProducerKeepsInv<T>(q: Queue<T>, arg: T)
    requires Inv(q)
    ensures Inv(ProducerStep(q, arg))
  {
    var r := ProducerStep(q, arg);
    forall i | 0 <= i < |q.cells| ensures SlotOk(r, i) { ProducerKeepsSlot(q, arg, i); }
    forall c | 0 <= c < |q.consumers| ensures ConsumerOk(r, c) && ReceivedOk(r, c) {
      HeldSlots(q, c);
      ProducerKeepsConsumer(q, arg, c);
      ProducerKeepsReceived(q, arg, c);
    }
    forall p | r.deq <= p < |r.pushed| ensures r.cells[Slot(p, |r.cells|)].stamp == p + 1 {
      ProducerKeepsPublished(q, arg, p);
    }
    forall p | 0 <= p < r.deq ensures Holds(r.consumers[r.claims[p]], p) || Delivered(r, p) {
      assert Holds(q.consumers[q.claims[p]], p) || Delivered(q, p);
    }
  }

  /** The slot of a claimed position is its claimer's alone. */
  lemma HeldSlot<T>(q: Queue<T>, c: nat)
    requires Inv(q) && c < |q.consumers|
    requires Busy(q.consumers[c])
    ensures var pos := q.consumers[c].pos;
            var cell := q.cells[Slot(pos, |q.cells|)];
            && pos < q.deq && q.claims[pos] == c && cell.stamp == pos + 1
            && cell.storage == HeldStorage(q.consumers[c], q.pushed[pos])
            && Slot(pos, |q.cells|) != Slot(pos + 1, |q.cells|)
            && |q.pushed| < pos + 1 + |q.cells|
  {
    var pos := q.consumers[c].pos;
    assert ConsumerOk(q, c) && SlotOk(q, Slot(pos, |q.cells|));
    SlotApart(pos, pos + 1, |q.cells|);
  }

  lemma HeldSlots<T>(q: Queue<T>, c: nat)
    requires Inv(q) && c < |q.consumers|
    ensures ConsumerOk(q, c) && HoldsSlot(q, c)
  {
    if Busy(q.consumers[c]) {
      HeldSlot(q, c);
    }
  }

  /** Two consumers never hold positions of one slot. */
  lemma HeldApart<T>(q: Queue<T>, c: nat, d: nat)
    requires Inv(q) && c < |q.consumers| && d < |q.consumers| && c != d
    requires Busy(q.consumers[c])
    requires Busy(q.consumers[d])
    ensures Slot(q.consumers[c].pos, |q.cells|) != Slot(q.consumers[d].pos, |q.cells|)
  {
    HeldSlot(q, c);
    HeldSlot(q, d);
  }

  /** What HeldSlot says, for lemmas that need no more of Inv. */
  ghost predicate HoldsSlot<T>(q: Queue<T>, c: nat)
    requires Shape(q) && c < |q.consumers|
  {
    var pc := q.consumers[c];
    Busy(pc) ==>
      && pc.pos < q.deq && q.claims[pc.pos] == c
      && q.cells[Slot(pc.pos, |q.cells|)].stamp == pc.pos + 1
      && q.cells[Slot(pc.pos, |q.cells|)].storage == HeldStorage(pc, q.pushed[pc.pos])
      && Slot(pc.pos, |q.cells|) != Slot(pc.pos + 1, |q.cells|)
      && |q.pushed| < pc.pos + 1 + |q.cells|
  }

  lemma TouchKeepsItsSlot<T>(q: Queue<T>, c: nat, spurious: bool)
    requires Shape(q) && ProducerOk(q)
    requires c < |q.consumers| && Busy(q.consumers[c]) && HoldsSlot(q, c)
    ensures SlotOk(ConsumerStep(q, c, spurious), Slot(q.consumers[c].pos, |q.cells|))
  {
  }

  lemma TouchKeepsOtherSlot<T>(q: Queue<T>, c: nat, spurious: bool, i: nat)
    requires Shape(q) && i < |q.cells| && SlotOk(q, i)
    requires c < |q.consumers| && Busy(q.consumers[c]) && HoldsSlot(q, c)
    requires i != Slot(q.consumers[c].pos, |q.cells|)
    ensures SlotOk(ConsumerStep(q, c, spurious), i)
  {
    var r := ConsumerStep(q, c, spurious);
    assert r.cells[i] == q.cells[i];
    var p := q.cells[i].stamp - 1;
    if 0 <= p < q.deq && Holds(q.consumers[q.claims[p]], p) && Slot(p, |q.cells|) == i {
      assert r.consumers[q.claims[p]] == q.consumers[q.claims[p]];
    }
  }

  lemma ClaimKeepsSlot<T>(q: Queue<T>, c: nat, spurious: bool, i: nat)
    requires Shape(q) && i < |q.cells| && SlotOk(q, i)
    requires c < |q.consumers| && ConsumerOk(q, c) && !Busy(q.consumers[c])
    ensures Shape(ConsumerStep(q, c, spurious)) && SlotOk(ConsumerStep(q, c, spurious), i)
  {
  }

  lemma ConsumerKeepsSlot<T>(q: Queue<T>, c: nat, spurious: bool, i: nat)
    requires Shape(q) && ProducerOk(q) && i < |q.cells| && SlotOk(q, i)
    requires c < |q.consumers| && ConsumerOk(q, c) && HoldsSlot(q, c)
    ensures Shape(ConsumerStep(q, c, spurious)) && SlotOk(ConsumerStep(q, c, spurious), i)
  {
    if Busy(q.consumers[c]) {
      if i == Slot(q.consumers[c].pos, |q.cells|) {
        TouchKeepsItsSlot(q, c, spurious);
      } else {
        TouchKeepsOtherSlot(q, c, spurious, i);
      }
    } else {
      ClaimKeepsSlot(q, c, spurious, i);
    }
  }

  lemma ConsumerKeepsProducer<T>(q: Queue<T>, c: nat, spurious: bool)
    requires Shape(q) && ProducerOk(q) && c < |q.consumers| && ConsumerOk(q, c) && HoldsSlot(q, c)
    ensures Shape(ConsumerStep(q, c, spurious)) && ProducerOk(ConsumerStep(q, c, spurious))
  {
  }

  lemma ConsumerKeepsItself<T>(q: Queue<T>, c: nat, spurious: bool)
    requires Shape(q) && c < |q.consumers| && ConsumerOk(q, c) && HoldsSlot(q, c)
    requires q.consumers[c].CInspect? ==> SlotOk(q, Slot(q.consumers[c].pos, |q.cells|))
    requires q.consumers[c].CClaim? && q.consumers[c].pos == q.deq ==>
               q.cells[Slot(q.deq, |q.cells|)].stamp == q.deq + 1
    ensures Shape(ConsumerStep(q, c, spurious)) && ConsumerOk(ConsumerStep(q, c, spurious), c)
  {
    if q.consumers[c].CInspect? {
      SlotApart(q.consumers[c].pos, q.consumers[c].pos + 1, |q.cells|);
    }
  }

  lemma ClaimKeepsOther<T>(q: Queue<T>, c: nat, spurious: bool, d: nat)
    requires Shape(q) && c < |q.consumers| && ConsumerOk(q, c) && !Busy(q.consumers[c])
    requires d < |q.consumers| && ConsumerOk(q, d) && c != d
    ensures Shape(ConsumerStep(q, c, spurious)) && ConsumerOk(ConsumerStep(q, c, spurious), d)
  {
  }

  lemma ConsumerKeepsOther<T>(q: Queue<T>, c: nat, spurious: bool, d: nat)
    requires Shape(q) && c < |q.consumers| && ConsumerOk(q, c) && HoldsSlot(q, c)
    requires d < |q.consumers| && ConsumerOk(q, d) && HoldsSlot(q, d) && c != d
    ensures Shape(ConsumerStep(q, c, spurious)) && ConsumerOk(ConsumerStep(q, c, spurious), d)
  {
    if !Busy(q.consumers[c]) {
      ClaimKeepsOther(q, c, spurious, d);
    } else if Busy(q.consumers[d]) {
      assert q.consumers[c].pos != q.consumers[d].pos;
    }
  }

  lemma OthersKeepReceived<T>(q: Queue<T>, c: nat, spurious: bool, d: nat)
    requires Shape(q) && c < |q.consumers| && ConsumerOk(q, c)
    requires d < |q.consumers| && ReceivedOk(q, d) && c != d
    ensures Shape(ConsumerStep(q, c, spurious)) && ReceivedOk(ConsumerStep(q, c, spurious), d)
  {
    var r := ConsumerStep(q, c, spurious);
    assert r.received[d] == q.received[d] && r.consumers[d] == q.consumers[d];
  }

  lemma ItselfKeepsReceived<T>(q: Queue<T>, c: nat, spurious: bool)
    requires Shape(q) && c < |q.consumers| && ConsumerOk(q, c) && ReceivedOk(q, c) && !q.consumers[c].CRelease?
    ensures Shape(ConsumerStep(q, c, spurious)) && ReceivedOk(ConsumerStep(q, c, spurious), c)
  {
    var r := ConsumerStep(q, c, spurious);
    assert r.received[c] == q.received[c];
    forall k | 0 <= k < |r.received[c]|
      ensures var t := r.received[c][k];
              && t.pos < r.deq && r.claims[t.pos] == c && t.value == r.pushed[t.pos]
              && (Busy(r.consumers[c]) ==> t.pos < r.consumers[c].pos)
    {
      assert q.received[c][k].pos < q.deq;
    }
  }

  lemma ReleaseKeepsReceived<T>(q: Queue<T>, c: nat, spurious: bool)
    requires Shape(q) && c < |q.consumers| && ConsumerOk(q, c) && ReceivedOk(q, c) && q.consumers[c].CRelease?
    ensures ReceivedOk(ConsumerStep(q, c, spurious), c)
  {
    var r, got := ConsumerStep(q, c, spurious), q.received[c];
    assert r.received[c] == got + [Taken(q.consumers[c].pos, q.consumers[c].out)];
  }

  lemma ConsumerKeepsConsumer<T>(q: Queue<T>, c: nat, spurious: bool, d: nat)
    requires Inv(q) && c < |q.consumers| && d < |q.consumers|
    ensures Shape(ConsumerStep(q, c, spurious))
    ensures ConsumerOk(ConsumerStep(q, c, spurious), d) && ReceivedOk(ConsumerStep(q, c, spurious), d)
  {
    HeldSlots(q, c);
    HeldSlots(q, d);
    if d != c {
      ConsumerKeepsOther(q, c, spurious, d);
      OthersKeepReceived(q, c, spurious, d);
    } else {
      ConsumerKeepsItself(q, c, spurious);
      if q.consumers[c].CRelease? {
        ReleaseKeepsReceived(q, c, spurious);
      } else {
        ItselfKeepsReceived(q, c, spurious);
      }
    }
  }

  lemma ConsumerKeepsSlots<T>(q: Queue<T>, c: nat, spurious: bool)
    requires Inv(q) && c < |q.consumers|
    ensures var r := ConsumerStep(q, c, spurious);
            Shape(r) && forall i :: 0 <= i < |r.cells| ==> SlotOk(r, i)
  {
    HeldSlots(q, c);
    ConsumerKeepsProducer(q, c, spurious);
    forall i | 0 <= i < |q.cells| ensures SlotOk(ConsumerStep(q, c, spurious), i) {
      ConsumerKeepsSlot(q, c, spurious, i);
    }
  }

  lemma ConsumerKeepsDelivery<T>(q: Queue<T>, c: nat, spurious: bool, p: nat)
    requires Inv(q) && c < |q.consumers| && p < ConsumerStep(q, c, spurious).deq
    ensures var r := ConsumerStep(q, c, spurious);
            Shape(r) && (Holds(r.consumers[r.claims[p]], p) || Delivered(r, p))
  {
    assert ConsumerOk(q, c);
    var r := ConsumerStep(q, c, spurious);
    if p < q.deq {
      assert Holds(q.consumers[q.claims[p]], p) || Delivered(q, p);
      var pc := q.consumers[c];
      if pc.CRelease? && q.claims[p] == c {
        var got := q.received[c];
        assert r.received[c] == got + [Taken(pc.pos, pc.out)];
        if pc.pos == p {
          assert r.received[c][|got|] == Taken(p, q.pushed[p]);
        }
      }
    }
  }

  lemma ConsumerKeepsPublished<T>(q: Queue<T>, c: nat, spurious: bool, p: nat)
    requires Inv(q) && c < |q.consumers| && ConsumerStep(q, c, spurious).deq <= p < |q.pushed|
    ensures ConsumerStep(q, c, spurious).cells[Slot(p, |q.cells|)].stamp == p + 1
  {
    assert ConsumerOk(q, c) && q.cells[Slot(p, |q.cells|)].stamp == p + 1;
  }

  lemma ConsumerKeepsInv<T>(q: Queue<T>, c: nat, spurious: bool)
    requires Inv(q) && c < |q.consumers|
    ensures Inv(ConsumerStep(q, c, spurious))
  {
    var r := ConsumerStep(q, c, spurious);
    HeldSlots(q, c);
    ConsumerKeepsProducer(q, c, spurious);
    ConsumerKeepsSlots(q, c, spurious);
    forall d | 0 <= d < |q.consumers| ensures ConsumerOk(r, d) && ReceivedOk(r, d) {
      ConsumerKeepsConsumer(q, c, spurious, d);
    }
    forall p | r.deq <= p < |r.pushed| ensures r.cells[Slot(p, |r.cells|)].stamp == p + 1 {
      ConsumerKeepsPublished(q, c, spurious, p);
    }
    forall p | 0 <= p < r.deq ensures Holds(r.consumers[r.claims[p]], p) || Delivered(r, p) {
      ConsumerKeepsDelivery(q, c, spurious, p);
    }
  }

  // ----------------------------------------------------------------- theorems

  lemma StepKeepsInv<T>(q: Queue<T>, a: Action<T>)
    requires Inv(q)
    ensures Inv(Step(q, a))
  {
    match a
    case Produce(arg) => ProducerKeepsInv(q, arg);
    case Consume(c, spurious) => if c < |q.consumers| { ConsumerKeepsInv(q, c, spurious); }
  }

  lemma {:induction false} RunInv<T>(cap: nat, consumers: nat, schedule: seq<Action<T>>)
    requires cap > 1
    ensures Inv(Run(cap, consumers, schedule))
  {
    if schedule == [] {
      InitInv<T>(cap, consumers);
    } else {
      RunInv(cap, consumers, schedule[..|schedule| - 1]);
      StepKeepsInv(Run(cap, consumers, schedule[..|schedule| - 1]), schedule[|schedule| - 1]);
    }
  }

  /** The abstract queue: published and not yet claimed, oldest first. */
  ghost function Contents<T>(q: Queue<T>): seq<T>
    requires q.deq <= |q.pushed|
  {
    q.pushed[q.deq..]
  }

  /** What the last push begun was called with: the argument of the last step that found the producer idle. */
  ghost function Call<T>(cap: nat, consumers: nat, schedule: seq<Action<T>>): Option<T>
    requires cap > 0
  {
    if schedule == [] then None
    else
      var before, last := schedule[..|schedule| - 1], schedule[|schedule| - 1];
      if last.Produce? && Run(cap, consumers, before).producer.PIdle? then Some(last.arg)
      else Call(cap, consumers, before)
  }

  ghost function ArgOf<T>(p: Producer<T>): Option<T> {
    if p.PCheck? || p.PConstruct? || p.PPublish? then Some(p.arg) else None
  }

  lemma StepKeepsArg<T>(q: Queue<T>, a: Action<T>)
    requires |q.cells| > 0 && |q.consumers| == |q.received| && ArgOf(Step(q, a).producer).Some?
    ensures ArgOf(Step(q, a).producer) == if a.Produce? && q.producer.PIdle? then Some(a.arg) else ArgOf(q.producer)
  {
  }

  lemma {:induction false} HoldsItsArgument<T>(cap: nat, consumers: nat, schedule: seq<Action<T>>)
    requires cap > 0 && ArgOf(Run(cap, consumers, schedule).producer).Some?
    ensures ArgOf(Run(cap, consumers, schedule).producer) == Call(cap, consumers, schedule)
  {
    if schedule != [] {
      var before, last := schedule[..|schedule| - 1], schedule[|schedule| - 1];
      hide Step, ArgOf;
      StepKeepsArg(Run(cap, consumers, before), last);
      if !(last.Produce? && Run(cap, consumers, before).producer.PIdle?) {
        HoldsItsArgument(cap, consumers, before);
      }
    }
  }

  /** A push about to publish began at some step that found the producer idle, none since has, and what it
      publishes is the argument of that step, whatever the steps in between brought. */
  lemma {:induction false} PublishesItsArgument<T>(cap: nat, consumers: nat, schedule: seq<Action<T>>, arg: T)
      returns (began: nat)
    requires cap > 0 && Run(cap, consumers, schedule).producer.PPublish?
    ensures began < |schedule| && schedule[began].Produce? && Run(cap, consumers, schedule[..began]).producer.PIdle?
    ensures forall j :: began < j <= |schedule| ==> !Run(cap, consumers, schedule[..j]).producer.PIdle?
    ensures Step(Run(cap, consumers, schedule), Produce(arg)).pushed
            == Run(cap, consumers, schedule).pushed + [schedule[began].arg]
  {
    hide Run, Call;
    began := CallBegan(cap, consumers, schedule);
    HoldsItsArgument(cap, consumers, schedule);
  }

  lemma {:induction false} CallBegan<T>(cap: nat, consumers: nat, schedule: seq<Action<T>>) returns (began: nat)
    requires cap > 0 && !Run(cap, consumers, schedule).producer.PIdle?
    ensures began < |schedule| && schedule[began].Produce? && Run(cap, consumers, schedule[..began]).producer.PIdle?
    ensures forall j :: began < j <= |schedule| ==> !Run(cap, consumers, schedule[..j]).producer.PIdle?
    ensures Call(cap, consumers, schedule) == Some(schedule[began].arg)
  {
    var last := |schedule| - 1;
    var before := schedule[..last];
    assert schedule[..|schedule|] == schedule;
    hide Step;
    if Run(cap, consumers, before).producer.PIdle? {
      LeavesIdle(Run(cap, consumers, before), schedule[last]);
      began := last;
    } else {
      began := CallBegan(cap, consumers, before);
      assert before[..began] == schedule[..began];
      forall j | began < j <= |schedule| ensures !Run(cap, consumers, schedule[..j]).producer.PIdle? {
        if j < |schedule| { assert schedule[..j] == before[..j]; }
      }
    }
  }

  lemma LeavesIdle<T>(q: Queue<T>, a: Action<T>)
    requires |q.cells| > 0 && |q.consumers| == |q.received|
    requires q.producer.PIdle? && !Step(q, a).producer.PIdle?
    ensures a.Produce?
  {
  }

  /** One atomic first-in-first-out operation: the producer appends what its push was called with, consumer c
      removes the front and is the only one to be credited with it, or nothing happens. Histories only grow. */
  ghost predicate FifoStep<T>(q: Queue<T>, a: Action<T>, r: Queue<T>, call: Option<T>)
    requires q.deq <= |q.pushed| && r.deq <= |r.pushed|
  {
    && q.pushed <= r.pushed && q.claims <= r.claims
    && (|| Contents(r) == Contents(q)
        || (a.Produce? && q.producer.PPublish? && call.Some? && Contents(r) == Contents(q) + [call.value])
        || (a.Consume? && Contents(q) != [] && Contents(r) == Contents(q)[1..]
            && r.claims == q.claims + [a.consumer]
            && a.consumer < |r.consumers| && r.consumers[a.consumer] == CMove(q.deq)))
  }

  /** Every schedule of atomic accesses is a schedule of first-in-first-out operations on a
      queue that never holds more than Capacity. */
  lemma RefinesFifo<T>(cap: nat, consumers: nat, schedule: seq<Action<T>>, a: Action<T>)
    requires cap > 1
    ensures var q, r := Run(cap, consumers, schedule), Run(cap, consumers, schedule + [a]);
            && r == Step(q, a)
            && q.deq <= |q.pushed| && r.deq <= |r.pushed|
            && |Contents(q)| <= cap
            && FifoStep(q, a, r, Call(cap, consumers, schedule))
  {
    var q, r := Run(cap, consumers, schedule), Run(cap, consumers, schedule + [a]);
    assert (schedule + [a])[..|schedule|] == schedule;
    RunInv(cap, consumers, schedule);
    RunInv(cap, consumers, schedule + [a]);
    ContentsFit(q);
    hide Call;
    if q.producer.PPublish? { HoldsItsArgument(cap, consumers, schedule); }
    if a.Produce? {
      ProducerIsFifo(q, a.arg, Call(cap, consumers, schedule));
    } else if a.consumer < |q.consumers| {
      assert ConsumerOk(q, a.consumer);
      hide Inv, SlotOk;
      ConsumerIsFifo(q, a.consumer, a.spurious, Call(cap, consumers, schedule));
    }
  }

  lemma ProducerIsFifo<T>(q: Queue<T>, arg: T, call: Option<T>)
    requires Shape(q) && ProducerOk(q) && (q.producer.PPublish? ==> call == Some(q.producer.arg))
    ensures var r := ProducerStep(q, arg); r.deq <= |r.pushed| && FifoStep(q, Produce(arg), r, call)
  {
  }

  lemma ConsumerIsFifo<T>(q: Queue<T>, c: nat, spurious: bool, call: Option<T>)
    requires Shape(q) && c < |q.consumers| && ConsumerOk(q, c)
    requires Shape(ConsumerStep(q, c, spurious))
    ensures FifoStep(q, Consume(c, spurious), ConsumerStep(q, c, spurious), call)
  {
  }

  lemma ContentsFit<T>(q: Queue<T>)
    requires Inv(q)
    ensures |Contents(q)| <= |q.cells|
  {
    if q.deq < |q.pushed| {
      var slot := Slot(q.deq, |q.cells|);
      assert q.cells[slot].stamp == q.deq + 1 && SlotOk(q, slot);
      SlotApart(q.deq, q.deq + 1, |q.cells|);
    }
  }

  /** Claimed positions are exactly those below dequeue_pos_, each claimed by one consumer that
      either still holds it or has returned the value pushed there. Nothing else is ever
      returned, and each consumer's positions ascend, so nothing is returned twice. */
  lemma TakenOnceInOrder<T>(cap: nat, consumers: nat, schedule: seq<Action<T>>)
    requires cap > 1
    ensures var q := Run(cap, consumers, schedule);
            && |q.claims| == q.deq <= |q.pushed|
            && (forall p :: 0 <= p < q.deq ==>
                  && q.claims[p] < consumers
                  && (Holds(q.consumers[q.claims[p]], p) != (Taken(p, q.pushed[p]) in q.received[q.claims[p]])))
            && (forall c, k :: 0 <= c < consumers && 0 <= k < |q.received[c]| ==>
                  && q.received[c][k].pos < q.deq && q.claims[q.received[c][k].pos] == c
                  && q.received[c][k].value == q.pushed[q.received[c][k].pos])
            && (forall c, j, k :: 0 <= c < consumers && 0 <= j < k < |q.received[c]| ==>
                  q.received[c][j].pos < q.received[c][k].pos)
  {
    RunInv(cap, consumers, schedule);
    var q := Run(cap, consumers, schedule);
    forall p | 0 <= p < q.deq
      ensures Holds(q.consumers[q.claims[p]], p) != (Taken(p, q.pushed[p]) in q.received[q.claims[p]])
    {
      assert ReceivedOk(q, q.claims[p]);
      assert Holds(q.consumers[q.claims[p]], p) || Delivered(q, p);
    }
    forall c | 0 <= c < consumers
      ensures forall k :: 0 <= k < |q.received[c]| ==>
                && q.received[c][k].pos < q.deq && q.claims[q.received[c][k].pos] == c
                && q.received[c][k].value == q.pushed[q.received[c][k].pos]
      ensures forall j, k :: 0 <= j < k < |q.received[c]| ==> q.received[c][j].pos < q.received[c][k].pos
    {
      assert ReceivedOk(q, c);
    }
  }

  /** The slot whose storage the producer may be touching. */
  ghost function ProducerTouches<T>(q: Queue<T>): Option<nat>
    requires |q.cells| > 0
  {
    if q.producer.PConstruct? || q.producer.PPublish? then Some(Slot(q.producer.pos, |q.cells|)) else None
  }

  /** The slot whose storage consumer c may be touching. */
  ghost function ConsumerTouches<T>(q: Queue<T>, c: nat): Option<nat>
    requires |q.cells| > 0 && c < |q.consumers|
  {
    if Busy(q.consumers[c]) then Some(Slot(q.consumers[c].pos, |q.cells|)) else None
  }

  /** No two threads are ever inside one cell, the producer constructs only into raw storage, and
      a consumer moves from and destroys only the object it claimed. */
  lemma ExclusiveAccess<T>(cap: nat, consumers: nat, schedule: seq<Action<T>>)
    requires cap > 1
    ensures var q := Run(cap, consumers, schedule);
            && (forall c :: 0 <= c < consumers && ConsumerTouches(q, c).Some? ==>
                  ConsumerTouches(q, c) != ProducerTouches(q))
            && (forall c, d :: 0 <= c < d < consumers && ConsumerTouches(q, c).Some? ==>
                  ConsumerTouches(q, c) != ConsumerTouches(q, d))
            && (q.producer.PConstruct? ==> q.cells[ProducerTouches(q).value].storage == Raw)
            && (forall c :: 0 <= c < consumers && q.consumers[c].CMove? ==>
                  && q.consumers[c].pos < |q.pushed|
                  && q.cells[ConsumerTouches(q, c).value].storage == Live(q.pushed[q.consumers[c].pos]))
            && (forall c :: 0 <= c < consumers && q.consumers[c].CDestroy? ==>
                  q.cells[ConsumerTouches(q, c).value].storage == MovedFrom)
  {
    RunInv(cap, consumers, schedule);
    var q := Run(cap, consumers, schedule);
    forall c | 0 <= c < consumers && Busy(q.consumers[c])
      ensures ConsumerTouches(q, c) != ProducerTouches(q)
      ensures q.consumers[c].pos < |q.pushed|
      ensures q.cells[ConsumerTouches(q, c).value].storage
              == HeldStorage(q.consumers[c], q.pushed[q.consumers[c].pos])
    {
      HeldSlot(q, c);
    }
    forall c, d | 0 <= c < d < consumers && Busy(q.consumers[c]) && Busy(q.consumers[d])
      ensures ConsumerTouches(q, c) != ConsumerTouches(q, d)
    {
      HeldApart(q, c, d);
    }
    if q.producer.PConstruct? {
      assert SlotOk(q, Slot(q.producer.pos, cap));
    }
  }

  /** try_pop answers empty exactly when, at the instant it reads the stamp, the position it asks
      about is the next to be published and everything published is already claimed. */
  lemma EmptyIsExact<T>(cap: nat, consumers: nat, schedule: seq<Action<T>>, c: nat, spurious: bool)
    requires cap > 1 && c < consumers && Run(cap, consumers, schedule).consumers[c].CInspect?
    ensures var q := Run(cap, consumers, schedule);
            Step(q, Consume(c, spurious)).consumers[c] == CIdle
            <==> q.consumers[c].pos == q.deq == |q.pushed|
  {
    RunInv(cap, consumers, schedule);
    var q := Run(cap, consumers, schedule);
    assert ConsumerOk(q, c) && SlotOk(q, Slot(q.consumers[c].pos, cap));
    StampBelow(q, q.consumers[c].pos);
  }

  /** The slot of a position not past dequeue_pos_ is stamped below it exactly when nothing is
      left to claim. */
  lemma StampBelow<T>(q: Queue<T>, pos: nat)
    requires Shape(q) && pos <= q.deq && SlotOk(q, Slot(pos, |q.cells|))
    ensures q.cells[Slot(pos, |q.cells|)].stamp < pos + 1 <==> pos == q.deq == |q.pushed|
  {
    var cap, slot := |q.cells|, Slot(pos, |q.cells|);
    var stamp := q.cells[slot].stamp;
    if stamp > pos && Slot(stamp, cap) == slot && stamp < pos + cap {
      SlotApart(pos, stamp, cap);
    } else if 0 < stamp <= pos < stamp - 1 + cap {
      SlotApart(stamp - 1, pos, cap);
    }
  }

  /** Published but not drained yet: unclaimed, or claimed and still in its consumer's hands. */
  ghost predicate Undrained<T>(q: Queue<T>, pos: nat)
    requires Shape(q) && pos < |q.pushed|
  {
    pos >= q.deq || Holds(q.consumers[q.claims[pos]], pos)
  }

  lemma Extend<T>(cap: nat, consumers: nat, schedule: seq<Action<T>>, q: Queue<T>, a: Action<T>)
      returns (schedule': seq<Action<T>>, q': Queue<T>)
    requires cap > 0 && q == Run(cap, consumers, schedule)
    ensures schedule' == schedule + [a] && q' == Run(cap, consumers, schedule') == Step(q, a)
  {
    schedule', q' := schedule + [a], Step(q, a);
    assert schedule'[..|schedule|] == schedule;
  }

  /** After any schedule, a push that no consumer interrupts: it is refused when the position one lap back is
      undrained, and otherwise puts its argument behind all that was pushed. */
  lemma PushAlone<T>(cap: nat, consumers: nat, schedule: seq<Action<T>>, v: T, w: seq<T>) returns (r: Queue<T>)
    requires cap > 1 && |w| == 4 && Run(cap, consumers, schedule).producer.PIdle?
    ensures Shape(Run(cap, consumers, schedule))
    ensures var q := Run(cap, consumers, schedule);
            if |q.pushed| >= cap && Undrained(q, |q.pushed| - cap)
            then r == q && r == Run(cap, consumers, schedule + [Produce(v), Produce(w[0])])
            else && r == Run(cap, consumers, schedule + [Produce(v), Produce(w[0]), Produce(w[1]), Produce(w[2]),
                                                         Produce(w[3])])
                 && r.producer.PIdle? && r.pushed == q.pushed + [v] && r.enq == |r.pushed|
                 && r.deq == q.deq && r.consumers == q.consumers
  {
    var s2, q2 := PushStarts(cap, consumers, schedule, v, w[0]);
    hide Run, Step, Undrained;
    r := q2;
    if !q2.producer.PIdle? {
      Completes(q2, v, w[1], w[2], w[3]);
      var s3, q3 := Extend(cap, consumers, s2, q2, Produce(w[1]));
      var s4, q4 := Extend(cap, consumers, s3, q3, Produce(w[2]));
      var s5, q5 := Extend(cap, consumers, s4, q4, Produce(w[3]));
      assert s5 == schedule + [Produce(v), Produce(w[0]), Produce(w[1]), Produce(w[2]), Produce(w[3])];
      r := q5;
    }
  }

  lemma PushStarts<T>(cap: nat, consumers: nat, schedule: seq<Action<T>>, v: T, w: T)
      returns (s2: seq<Action<T>>, q2: Queue<T>)
    requires cap > 1 && Run(cap, consumers, schedule).producer.PIdle?
    ensures Shape(Run(cap, consumers, schedule))
    ensures s2 == schedule + [Produce(v), Produce(w)] && q2 == Run(cap, consumers, s2)
    ensures var q := Run(cap, consumers, schedule);
            q2 == if |q.pushed| >= cap && Undrained(q, |q.pushed| - cap) then q
                  else q.(producer := PConstruct(v, |q.pushed|))
  {
    RunInv(cap, consumers, schedule);
    var q := Run(cap, consumers, schedule);
    assert q.enq == |q.pushed|;
    var s1, q1 := Extend(cap, consumers, schedule, q, Produce(v));
    RefusalIsExact(cap, consumers, s1, w);
    Checks(q, v, w);
    hide Inv, Step, Run;
    s2, q2 := Extend(cap, consumers, s1, q1, Produce(w));
    assert s2 == schedule + [Produce(v), Produce(w)];
  }

  lemma Checks<T>(q: Queue<T>, v: T, w: T)
    requires |q.cells| > 0 && |q.consumers| == |q.received| && q.producer.PIdle? && q.enq == |q.pushed|
    ensures var q1 := Step(q, Produce(v));
            && q1 == q.(producer := PCheck(v, |q.pushed|))
            && (Step(q1, Produce(w)) == q || Step(q1, Produce(w)) == q.(producer := PConstruct(v, |q.pushed|)))
  {
  }

  lemma Completes<T>(q: Queue<T>, v: T, w1: T, w2: T, w3: T)
    requires |q.cells| > 0 && |q.consumers| == |q.received| && q.producer == PConstruct(v, |q.pushed|)
    ensures var r := Step(Step(Step(q, Produce(w1)), Produce(w2)), Produce(w3));
            && r.producer.PIdle? && r.pushed == q.pushed + [v] && r.enq == |r.pushed|
            && r.deq == q.deq && r.consumers == q.consumers
  {
  }

  /** After any schedule, a try_pop that nothing interrupts: of a queue with something left to claim it returns the
      oldest of that, and of one with nothing left it answers empty. */
  lemma PopAlone<T>(cap: nat, consumers: nat, schedule: seq<Action<T>>, c: nat) returns (r: Queue<T>)
    requires cap > 1 && c < consumers && Run(cap, consumers, schedule).consumers[c].CIdle?
    ensures var q, pop := Run(cap, consumers, schedule), Consume(c, false);
            if q.deq >= |q.pushed| then r == q && r == Run(cap, consumers, schedule + [pop, pop])
            else && r == Run(cap, consumers, schedule + [pop, pop, pop, pop, pop, pop])
                 && r.consumers[c].CIdle? && r.pushed == q.pushed && r.deq == q.deq + 1
                 && r.received[c] == q.received[c] + [Taken(q.deq, q.pushed[q.deq])]
  {
    RunInv(cap, consumers, schedule);
    var q, pop := Run(cap, consumers, schedule), Consume(c, false);
    FrontIsLive(q);
    var s1, q1 := Extend(cap, consumers, schedule, q, pop);
    EmptyIsExact(cap, consumers, s1, c, false);
    hide Inv;
    var s2, q2 := Extend(cap, consumers, s1, q1, pop);
    assert s2 == schedule + [pop, pop];
    if q.deq >= |q.pushed| {
      assert q2.consumers == q.consumers;
      r := q2;
    } else {
      assert q2 == Goto(q, c, CClaim(q.deq));
      ClaimsFront(q2, c, q.pushed[q.deq]);
      hide Step, Run, Slot;
      var s3, q3 := Extend(cap, consumers, s2, q2, pop);
      var s4, q4 := Extend(cap, consumers, s3, q3, pop);
      var s5, q5 := Extend(cap, consumers, s4, q4, pop);
      var s6, q6 := Extend(cap, consumers, s5, q5, pop);
      assert s6 == schedule + [pop, pop, pop, pop, pop, pop];
      r := q6;
    }
  }

  lemma ClaimsFront<T>(q: Queue<T>, c: nat, v: T)
    requires |q.cells| > 0 && c < |q.consumers| == |q.received| && q.consumers[c] == CClaim(q.deq)
    requires q.cells[Slot(q.deq, |q.cells|)].storage == Live(v)
    ensures var pop := Consume(c, false);
            var r := Step(Step(Step(Step(q, pop), pop), pop), pop);
            && |r.consumers| == |q.consumers| && |r.received| == |q.received|
            && r.consumers[c].CIdle? && r.pushed == q.pushed && r.deq == q.deq + 1
            && r.received[c] == q.received[c] + [Taken(q.deq, v)]
  {
    hide Slot;
  }

  lemma FrontIsLive<T>(q: Queue<T>)
    requires Inv(q)
    ensures q.deq <= |q.pushed|
    ensures q.deq < |q.pushed| ==> q.cells[Slot(q.deq, |q.cells|)] == Cell(q.deq + 1, Live(q.pushed[q.deq]))
  {
    if q.deq < |q.pushed| {
      var slot := Slot(q.deq, |q.cells|);
      assert q.cells[slot].stamp == q.deq + 1 && SlotOk(q, slot);
      SlotApart(q.deq, q.deq + 1, |q.cells|);
    }
  }

  /** push refuses exactly when the position one lap back is undrained. A refusal changes nothing shared. */
  lemma RefusalIsExact<T>(cap: nat, consumers: nat, schedule: seq<Action<T>>, arg: T)
    requires cap > 1 && Run(cap, consumers, schedule).producer.PCheck?
    ensures var q := Run(cap, consumers, schedule);
            var r := Step(q, Produce(arg));
            var head := |q.pushed|;
            && Shape(q)
            && (r.producer == PIdle
                <==> head >= cap && Undrained(q, head - cap))
            && r == q.(producer := r.producer)
  {
    RunInv(cap, consumers, schedule);
    var q := Run(cap, consumers, schedule);
    assert Shape(q) && ProducerOk(q);
    hide Inv, Run, Undrained, Slot, Shape;
    if q.cells[Slot(|q.pushed|, cap)].stamp == |q.pushed| {
      if |q.pushed| >= cap { FreeSlotIsDrained(q); }
    } else {
      BusySlotIsUndrained(q);
    }
  }

  lemma FreeSlotIsDrained<T>(q: Queue<T>)
    requires Inv(q) && q.cells[Slot(|q.pushed|, |q.cells|)].stamp == |q.pushed| >= |q.cells|
    ensures !Undrained(q, |q.pushed| - |q.cells|)
  {
    var back := |q.pushed| - |q.cells|;
    if back < q.deq && Holds(q.consumers[q.claims[back]], back) {
      HeldSlot(q, q.claims[back]);
    }
  }

  lemma BusySlotIsUndrained<T>(q: Queue<T>)
    requires Inv(q) && q.cells[Slot(|q.pushed|, |q.cells|)].stamp != |q.pushed|
    ensures |q.pushed| >= |q.cells| && Undrained(q, |q.pushed| - |q.cells|)
  {
    var cap, head := |q.cells|, |q.pushed|;
    assert SlotOk(q, Slot(head, cap));
    var stamp := q.cells[Slot(head, cap)].stamp;
    if head < stamp < head + cap {
      SlotApart(head, stamp, cap);
    } else if 0 < stamp < head && head < stamp - 1 + cap {
      SlotApart(stamp - 1, head, cap);
    }
  }

  ghost predicate Quiet<T>(q: Queue<T>) {
    q.producer.PIdle? && forall c :: 0 <= c < |q.consumers| ==> q.consumers[c].CIdle?
  }

  ghost predicate Occupied(slot: nat, lo: nat, hi: nat, cap: nat)
    requires cap > 0
  {
    exists p: nat :: lo <= p < hi && Slot(p, cap) == slot
  }

  /** Some slots, one for each position from lo to hi and no slot twice, hold the objects of these positions,
      and no other slot holds any. */
  ghost predicate LiveSlots<T>(q: Queue<T>, slots: seq<nat>)
    requires q.deq <= q.enq <= |q.pushed| && |q.cells| > 0
  {
    && |slots| == q.enq - q.deq
    && (forall k :: 0 <= k < |slots| ==>
          slots[k] < |q.cells| && q.cells[slots[k]].storage == Live(q.pushed[q.deq + k]))
    && (forall j, k :: 0 <= j < k < |slots| ==> slots[j] != slots[k])
    && (forall i :: 0 <= i < |q.cells| && i !in slots ==> q.cells[i].storage == Raw)
  }

  lemma PositionsAreLive<T>(q: Queue<T>, slots: seq<nat>)
    requires Inv(q) && Quiet(q) && q.deq <= q.enq && |slots| == q.enq - q.deq
    requires forall k :: 0 <= k < |slots| ==> slots[k] == Slot(q.deq + k, |q.cells|)
    ensures q.enq <= |q.pushed| && LiveSlots(q, slots)
  {
    QuietSlots(q);
    forall j, k | 0 <= j < k < |slots| ensures slots[j] != slots[k] {
      SlotApart(q.deq + j, q.deq + k, |q.cells|);
    }
    forall i | 0 <= i < |q.cells| && q.cells[i].storage != Raw ensures i in slots {
      var p :| q.deq <= p < q.enq && Slot(p, |q.cells|) == i;
      assert slots[p - q.deq] == i;
    }
  }

  /** From pos on the objects are still there, and every other cell is raw. */
  ghost predicate LeftOver<T>(cells: seq<Cell<T>>, pos: nat, enq: nat) {
    && |cells| > 1 && pos <= enq <= pos + |cells|
    && (forall p :: pos <= p < enq ==> cells[Slot(p, |cells|)].storage.Live?)
    && (forall i :: 0 <= i < |cells| ==> cells[i].storage == Raw || Occupied(i, pos, enq, |cells|))
  }

  lemma OneDestroyed<T>(cells: seq<Cell<T>>, pos: nat, enq: nat)
    requires LeftOver(cells, pos, enq) && pos < enq
    ensures var slot := Slot(pos, |cells|);
            && cells[slot].storage.Live?
            && LeftOver(cells[slot := cells[slot].(storage := Raw)], pos + 1, enq)
  {
    hide Slot;
    var slot := Slot(pos, |cells|);
    forall p | pos < p < enq ensures Slot(p, |cells|) != slot { SlotApart(pos, p, |cells|); }
    forall i | 0 <= i < |cells| && i != slot && Occupied(i, pos, enq, |cells|)
      ensures Occupied(i, pos + 1, enq, |cells|)
    {
      var p :| pos <= p < enq && Slot(p, |cells|) == i;
      assert p != pos;
    }
  }

  /** The destructor, once every thread is done: what it destroys, oldest first, are exactly the live objects,
      each once, and nothing is left. */
  method Destroy<T>(q: Queue<T>) returns (cells: seq<Cell<T>>, destroyed: seq<nat>)
    requires Inv(q) && Quiet(q)
    ensures |cells| == |q.cells|
    ensures forall i :: 0 <= i < |cells| ==> cells[i].storage == Raw
    ensures q.deq <= q.enq <= |q.pushed| && LiveSlots(q, destroyed)
  {
    hide LiveSlots, LeftOver, Slot, Occupied;
    cells, destroyed := q.cells, [];
    var cap := |q.cells|;
    var pos := q.deq;
    QuietIsLeftOver(q);
    hide Inv;
    while pos != q.enq
      invariant q.deq <= pos <= q.enq && |cells| == cap && |destroyed| == pos - q.deq
      invariant forall k :: 0 <= k < |destroyed| ==> destroyed[k] == Slot(q.deq + k, cap)
      invariant LeftOver(cells, pos, q.enq)
      decreases q.enq - pos
    {
      OneDestroyed(cells, pos, q.enq);
      var slot := Slot(pos, cap);
      assert cells[slot].storage.Live?;
      cells := cells[slot := cells[slot].(storage := Raw)];
      destroyed := destroyed + [slot];
      pos := pos + 1;
    }
    PositionsAreLive(q, destroyed);
    NothingLeft(cells, pos);
  }

  lemma NothingLeft<T>(cells: seq<Cell<T>>, pos: nat)
    requires LeftOver(cells, pos, pos)
    ensures forall i :: 0 <= i < |cells| ==> cells[i].storage == Raw
  {
  }

  lemma QuietIsLeftOver<T>(q: Queue<T>)
    requires Inv(q) && Quiet(q)
    ensures q.deq <= q.enq == |q.pushed| && |q.cells| > 0 && LeftOver(q.cells, q.deq, q.enq)
  {
    hide Slot, Occupied;
    QuietSlots(q);
  }

  /** Idle threads leave live objects at exactly the positions between the two cursors. */
  lemma QuietSlots<T>(q: Queue<T>)
    requires Inv(q) && Quiet(q)
    ensures q.enq == |q.pushed| && q.enq <= q.deq + |q.cells|
    ensures forall p :: q.deq <= p < q.enq ==> q.cells[Slot(p, |q.cells|)].storage == Live(q.pushed[p])
    ensures forall i :: 0 <= i < |q.cells| ==>
              q.cells[i].storage == Raw || Occupied(i, q.deq, q.enq, |q.cells|)
  {
    var cap := |q.cells|;
    ContentsFit(q);
    forall p | q.deq <= p < q.enq
      ensures q.cells[Slot(p, cap)].storage == Live(q.pushed[p])
    {
      assert SlotOk(q, Slot(p, cap)) && q.cells[Slot(p, cap)].stamp == p + 1;
      SlotApart(p, p + 1, cap);
    }
    forall i | 0 <= i < cap
      ensures q.cells[i].storage == Raw || Occupied(i, q.deq, q.enq, cap)
    {
      assert SlotOk(q, i);
      if q.cells[i].storage != Raw {
        var pos := q.cells[i].stamp - 1;
        assert pos < q.enq;
      }
    }
  }
}
