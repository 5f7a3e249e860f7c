/** The multi-producer, single-consumer queue: producers race a compare-exchange for a position
    and publish through a ready flag per slot. One step per atomic access. */
module MpscQueue {
  import opened Ring

  /** Where a producer stands in push. */
  datatype Producer<+T> =
    | PIdle
    | PInspect(arg: T, pos: nat)    // about to read dequeue_pos_
    | PClaim(arg: T, pos: nat)      // room seen, about to compare-exchange
    | PConstruct(arg: T, pos: nat)  // position claimed
    | PPublish(arg: T, pos: nat)    // constructed, about to raise the flag

  /** Where the consumer stands in try_pop. */
  datatype Consumer<+T> =
    | CIdle
    | CInspect(pos: nat)            // about to read the flag
    | CMove(pos: nat)
    | CDestroy(pos: nat, out: T)
    | CClear(pos: nat, out: T)      // about to lower the flag
    | CAdvance(pos: nat, out: T)    // about to store dequeue_pos_

  datatype Claim<+T> = Claim(producer: nat, value: T)

  datatype Queue<+T> = Queue(
    storage: seq<Storage<T>>,
    ready: seq<bool>,
    enq: nat,
    deq: nat,
    producers: seq<Producer<T>>,
    consumer: Consumer<T>,
    claims: seq<Claim<T>>,          // who claimed each position, and for what
    sent: seq<seq<T>>,              // what each producer's successful pushes sent
    popped: seq<T>)                 // what try_pop returned

  /** One scheduler choice. spurious lets the weak compare-exchange fail on a matching value. */
  datatype Action<+T> = Produce(producer: nat, arg: T, spurious: bool) | Consume

  function Init<T>(cap: nat, producers: nat): Queue<T> {
    Queue(seq(cap, _ => Raw), seq(cap, _ => false), 0, 0, seq(producers, _ => PIdle), CIdle, [],
          seq(producers, _ => []), [])
  }

  function Goto<T>(q: Queue<T>, x: nat, pc: Producer<T>): Queue<T>
    requires x < |q.producers|
  {
    q.(producers := q.producers[x := pc])
  }

  /** The unsigned test pos - dequeue_pos_ >= Capacity, which a stale pos below dequeue_pos_
      passes by wrapping around. */
  predicate LooksFull(pos: nat, deq: nat, cap: nat) {
    pos < deq || pos - deq >= cap
  }

  function ProducerStep<T>(q: Queue<T>, x: nat, arg: T, spurious: bool): Queue<T>
    requires 0 < |q.storage| == |q.ready| && x < |q.producers| == |q.sent|
  {
    var cap := |q.storage|;
    match q.producers[x]
    case PIdle => Goto(q, x, PInspect(arg, q.enq))
    case PInspect(v, pos) => Goto(q, x, if LooksFull(pos, q.deq, cap) then PIdle else PClaim(v, pos))
    case PClaim(v, pos) =>
      if q.enq == pos && !spurious
      then Goto(q.(enq := pos + 1, claims := q.claims + [Claim(x, v)]), x, PConstruct(v, pos))
      else Goto(q, x, PInspect(v, q.enq))
    case PConstruct(v, pos) =>
      Goto(q.(storage := q.storage[Slot(pos, cap) := Live(v)]), x, PPublish(v, pos))
    case PPublish(v, pos) =>
      Goto(q.(ready := q.ready[Slot(pos, cap) := true], sent := q.sent[x := q.sent[x] + [v]]), x, PIdle)
  }

  function ConsumerStep<T>(q: Queue<T>): Queue<T>
    requires 0 < |q.storage| == |q.ready|
  {
    var cap := |q.storage|;
    match q.consumer
    case CIdle => q.(consumer := CInspect(q.deq))
    case CInspect(pos) => q.(consumer := if q.ready[Slot(pos, cap)] then CMove(pos) else CIdle)
    case CMove(pos) =>
      var found := q.storage[Slot(pos, cap)];
      if found.Live?
      then q.(storage := q.storage[Slot(pos, cap) := MovedFrom], consumer := CDestroy(pos, found.value))
      else q  // no object to move, ruled out by Inv
    case CDestroy(pos, out) => q.(storage := q.storage[Slot(pos, cap) := Raw], consumer := CClear(pos, out))
    case CClear(pos, out) => q.(ready := q.ready[Slot(pos, cap) := false], consumer := CAdvance(pos, out))
    case CAdvance(pos, out) => q.(deq := pos + 1, popped := q.popped + [out], consumer := CIdle)
  }

  function Step<T>(q: Queue<T>, a: Action<T>): Queue<T>
    requires 0 < |q.storage| == |q.ready| && |q.producers| == |q.sent|
  {
    match a
    case Produce(x, arg, spurious) => if x < |q.producers| then ProducerStep(q, x, arg, spurious) else q
    case Consume => ConsumerStep(q)
  }

  /** The state after any sequence of scheduler choices. */
  function Run<T>(cap: nat, producers: nat, schedule: seq<Action<T>>): (q: Queue<T>)
    requires cap > 0
    ensures |q.storage| == |q.ready| == cap && |q.producers| == |q.sent| == producers
  {
    if schedule == [] then Init(cap, producers)
    else Step(Run(cap, producers, schedule[..|schedule| - 1]), schedule[|schedule| - 1])
  }

  // ---------------------------------------------------------------- invariant

  /** Values producer x claimed positions for, in position order. */
  ghost function Own<T>(claims: seq<Claim<T>>, x: nat): seq<T> {
    if claims == [] then []
    else
      var last := claims[|claims| - 1];
      Own(claims[..|claims| - 1], x) + (if last.producer == x then [last.value] else [])
  }

  ghost predicate InFlight<T>(pc: Producer<T>) {
    pc.PConstruct? || pc.PPublish?
  }

  /** The element a producer has claimed a position for and not published yet. */
  ghost function Unsent<T>(pc: Producer<T>): seq<T> {
    if InFlight(pc) then [pc.arg] else []
  }

  /** The consumer has found the flag of position deq up and not stored the next position yet. */
  ghost predicate Taking<T>(c: Consumer<T>) {
    c.CMove? || c.CDestroy? || c.CClear? || c.CAdvance?
  }

  ghost predicate Shape<T>(q: Queue<T>) {
    && 1 < |q.storage| == |q.ready|
    && |q.producers| == |q.sent|
    && q.deq <= q.enq == |q.claims| <= q.deq + |q.storage|
    && (forall p :: 0 <= p < q.enq ==> q.claims[p].producer < |q.producers|)
  }

  ghost predicate ProducerOk<T>(q: Queue<T>, x: nat)
    requires Shape(q) && x < |q.producers|
  {
    var pc := q.producers[x];
    && (pc.PInspect? ==> pc.pos <= q.enq)
    && (pc.PClaim? ==> pc.pos <= q.enq && pc.pos < q.deq + |q.storage|)
    && (InFlight(pc) ==>
          && q.deq <= pc.pos < q.enq && q.claims[pc.pos] == Claim(x, pc.arg)
          && (Taking(q.consumer) ==> pc.pos != q.deq))
    && Own(q.claims, x) == q.sent[x] + Unsent(pc)
  }

  ghost predicate ConsumerOk<T>(q: Queue<T>)
    requires Shape(q)
  {
    var c := q.consumer;
    && (!c.CIdle? ==> c.pos == q.deq)
    && (Taking(c) ==> q.deq < q.enq && (!c.CMove? ==> c.out == q.claims[q.deq].value))
    && |q.popped| == q.deq
    && (forall k :: 0 <= k < q.deq ==> q.popped[k] == q.claims[k].value)
  }

  /** Position p is claimed by a producer that has not raised its flag. */
  ghost predicate Unpublished<T>(q: Queue<T>, p: nat)
    requires Shape(q) && p < q.enq
  {
    var pc := q.producers[q.claims[p].producer];
    InFlight(pc) && pc.pos == p
  }

  /** Flag and storage at a position of the lap starting at dequeue_pos_. */
  ghost predicate SlotOk<T>(q: Queue<T>, p: nat)
    requires Shape(q) && q.deq <= p < q.deq + |q.storage|
  {
    var slot := Slot(p, |q.storage|);
    if p >= q.enq then
      !q.ready[slot] && q.storage[slot] == Raw
    else if Unpublished(q, p) then
      !q.ready[slot]
      && q.storage[slot] == (if q.producers[q.claims[p].producer].PConstruct? then Raw else Live(q.claims[p].value))
    else if p == q.deq && (q.consumer.CDestroy? || q.consumer.CClear? || q.consumer.CAdvance?) then
      && q.ready[slot] == !q.consumer.CAdvance?
      && q.storage[slot] == (if q.consumer.CDestroy? then MovedFrom else Raw)
    else
      q.ready[slot] && q.storage[slot] == Live(q.claims[p].value)
  }

  ghost predicate Inv<T>(q: Queue<T>) {
    && Shape(q)
    && ConsumerOk(q)
    && (forall x :: 0 <= x < |q.producers| ==> ProducerOk(q, x))
    && (forall p :: q.deq <= p < q.deq + |q.storage| ==> SlotOk(q, p))
  }

  lemma InitInv<T>(cap: nat, producers: nat)
    requires cap > 1
    ensures Inv<T>(Init(cap, producers))
  {
  }

  lemma OwnAfterClaim<T>(claims: seq<Claim<T>>, c: Claim<T>, y: nat)
    ensures Own(claims + [c], y) == Own(claims, y) + (if c.producer == y then [c.value] else [])
  {
    assert (claims + [c])[..|claims|] == claims;
  }

  lemma ProducerKeepsShape<T>(q: Queue<T>, x: nat, arg: T, spurious: bool)
    requires Shape(q) && ConsumerOk(q) && x < |q.producers| && ProducerOk(q, x)
    ensures var r := ProducerStep(q, x, arg, spurious); Shape(r) && ConsumerOk(r)
  {
  }

  lemma ProducerKeepsItself<T>(q: Queue<T>, x: nat, arg: T, spurious: bool)
    requires Shape(q) && ConsumerOk(q) && x < |q.producers| && ProducerOk(q, x)
    requires Shape(ProducerStep(q, x, arg, spurious))
    ensures ProducerOk(ProducerStep(q, x, arg, spurious), x)
  {
    if q.producers[x].PClaim? {
      OwnAfterClaim(q.claims, Claim(x, q.producers[x].arg), x);
    }
  }

  lemma ProducerKeepsOther<T>(q: Queue<T>, x: nat, arg: T, spurious: bool, y: nat)
    requires Shape(q) && ConsumerOk(q) && x < |q.producers| && ProducerOk(q, x)
    requires y < |q.producers| && ProducerOk(q, y) && x != y
    ensures var r := ProducerStep(q, x, arg, spurious); Shape(r) && ProducerOk(r, y)
  {
    var r := ProducerStep(q, x, arg, spurious);
    assert r.producers[y] == q.producers[y] && r.sent[y] == q.sent[y];
    if q.producers[x].PClaim? {
      OwnAfterClaim(q.claims, Claim(x, q.producers[x].arg), y);
    }
  }

  lemma ProducerKeepsSlot<T>(q: Queue<T>, x: nat, arg: T, spurious: bool, p: nat)
    requires Shape(q) && x < |q.producers| && ProducerOk(q, x)
    requires q.deq <= p < q.deq + |q.storage| && SlotOk(q, p)
    requires p < q.enq ==> ProducerOk(q, q.claims[p].producer)
    ensures var r := ProducerStep(q, x, arg, spurious); Shape(r) && SlotOk(r, p)
  {
    var pc := q.producers[x];
    if InFlight(pc) {
      if p < pc.pos { SlotApart(p, pc.pos, |q.storage|); }
      if pc.pos < p { SlotApart(pc.pos, p, |q.storage|); }
    }
  }

  lemma ProducerKeepsInv<T>(q: Queue<T>, x: nat, arg: T, spurious: bool)
    requires Inv(q) && x < |q.producers|
    ensures Inv(ProducerStep(q, x, arg, spurious))
  {
    var r := ProducerStep(q, x, arg, spurious);
    ProducerKeepsShape(q, x, arg, spurious);
    ProducerKeepsItself(q, x, arg, spurious);
    forall y | 0 <= y < |q.producers| ensures ProducerOk(r, y) {
      if y != x { ProducerKeepsOther(q, x, arg, spurious, y); }
    }
    forall p | r.deq <= p < r.deq + |r.storage| ensures SlotOk(r, p) {
      ProducerKeepsSlot(q, x, arg, spurious, p);
    }
  }

  lemma ConsumerKeepsItself<T>(q: Queue<T>)
    requires Shape(q) && ConsumerOk(q) && SlotOk(q, q.deq)
    ensures Shape(ConsumerStep(q)) && ConsumerOk(ConsumerStep(q))
  {
  }

  lemma ConsumerKeepsProducer<T>(q: Queue<T>, y: nat)
    requires Shape(q) && ConsumerOk(q) && SlotOk(q, q.deq) && y < |q.producers| && ProducerOk(q, y)
    ensures Shape(ConsumerStep(q)) && ProducerOk(ConsumerStep(q), y)
  {
  }

  lemma ConsumerKeepsSlot<T>(q: Queue<T>, p: nat)
    requires Shape(q) && ConsumerOk(q) && SlotOk(q, q.deq)
    requires q.deq < q.enq ==> ProducerOk(q, q.claims[q.deq].producer)
    requires var r := ConsumerStep(q); r.deq <= p < r.deq + |q.storage|
    requires p < q.deq + |q.storage| ==> SlotOk(q, p)
    ensures Shape(ConsumerStep(q)) && SlotOk(ConsumerStep(q), p)
  {
    if q.deq < p < q.deq + |q.storage| {
      SlotApart(q.deq, p, |q.storage|);
    }
  }

  lemma ConsumerKeepsInv<T>(q: Queue<T>)
    requires Inv(q)
    ensures Inv(ConsumerStep(q))
  {
    var r := ConsumerStep(q);
    assert SlotOk(q, q.deq);
    ConsumerKeepsItself(q);
    forall y | 0 <= y < |q.producers| ensures ProducerOk(r, y) { ConsumerKeepsProducer(q, y); }
    forall p | r.deq <= p < r.deq + |r.storage| ensures SlotOk(r, p) { ConsumerKeepsSlot(q, p); }
  }

  lemma {:induction false} RunInv<T>(cap: nat, producers: nat, schedule: seq<Action<T>>)
    requires cap > 1
    ensures Inv(Run(cap, producers, schedule))
  {
    if schedule == [] {
      InitInv<T>(cap, producers);
    } else {
      RunInv(cap, producers, schedule[..|schedule| - 1]);
      var q := Run(cap, producers, schedule[..|schedule| - 1]);
      match schedule[|schedule| - 1]
      case Produce(x, arg, spurious) => if x < |q.producers| { ProducerKeepsInv(q, x, arg, spurious); }
      case Consume => ConsumerKeepsInv(q);
    }
  }

  // ----------------------------------------------------------------- theorems

  /** try_pop returns the claimed values in claim order, each once, and what a producer claimed
      is what its successful pushes sent, in its own order, then the one it has in hand. */
  lemma PopsInClaimOrder<T>(cap: nat, producers: nat, schedule: seq<Action<T>>)
    requires cap > 1
    ensures var q := Run(cap, producers, schedule);
            && |q.popped| == q.deq <= q.enq == |q.claims| <= q.deq + cap
            && (forall k :: 0 <= k < |q.popped| ==> q.popped[k] == q.claims[k].value)
            && (forall x :: 0 <= x < producers ==> Own(q.claims, x) == q.sent[x] + Unsent(q.producers[x]))
  {
    RunInv(cap, producers, schedule);
    var q := Run(cap, producers, schedule);
    forall x | 0 <= x < producers ensures Own(q.claims, x) == q.sent[x] + Unsent(q.producers[x]) {
      assert ProducerOk(q, x);
    }
  }

  /** A claimed slot is vacant when constructed into and no other thread's: two producers never
      hold one slot, and none holds the slot the consumer is emptying. */
  lemma ExclusiveAccess<T>(cap: nat, producers: nat, schedule: seq<Action<T>>, x: nat)
    requires cap > 1 && x < producers && InFlight(Run(cap, producers, schedule).producers[x])
    ensures var q := Run(cap, producers, schedule);
            var slot := Slot(q.producers[x].pos, cap);
            && (q.producers[x].PConstruct? ==> q.storage[slot] == Raw && !q.ready[slot])
            && (forall y :: 0 <= y < producers && y != x && InFlight(q.producers[y]) ==>
                  Slot(q.producers[y].pos, cap) != slot)
            && (Taking(q.consumer) ==> Slot(q.consumer.pos, cap) != slot)
  {
    RunInv(cap, producers, schedule);
    var q := Run(cap, producers, schedule);
    var pos := q.producers[x].pos;
    assert ProducerOk(q, x) && SlotOk(q, pos);
    forall y | 0 <= y < producers && y != x && InFlight(q.producers[y])
      ensures Slot(q.producers[y].pos, cap) != Slot(pos, cap)
    {
      assert ProducerOk(q, y);
      InFlightApart(q, x, y);
    }
    if Taking(q.consumer) {
      SlotApart(q.deq, pos, cap);
    }
  }

  lemma InFlightApart<T>(q: Queue<T>, x: nat, y: nat)
    requires Shape(q) && x < |q.producers| && y < |q.producers| && x != y
    requires ProducerOk(q, x) && ProducerOk(q, y) && InFlight(q.producers[x]) && InFlight(q.producers[y])
    ensures Slot(q.producers[x].pos, |q.storage|) != Slot(q.producers[y].pos, |q.storage|)
  {
    var a, b := q.producers[x].pos, q.producers[y].pos;
    if a < b { SlotApart(a, b, |q.storage|); } else { SlotApart(b, a, |q.storage|); }
  }

  /** The consumer moves from and destroys only the object of the position it is popping. */
  lemma ConsumerFindsItsElement<T>(cap: nat, producers: nat, schedule: seq<Action<T>>)
    requires cap > 1 && Taking(Run(cap, producers, schedule).consumer)
    ensures var q := Run(cap, producers, schedule);
            && q.consumer.pos == q.deq < |q.claims|
            && (q.consumer.CMove? ==> q.storage[Slot(q.deq, cap)] == Live(q.claims[q.deq].value))
            && (q.consumer.CDestroy? ==> q.storage[Slot(q.deq, cap)] == MovedFrom)
            && (!q.consumer.CMove? ==> q.consumer.out == q.claims[q.deq].value)
  {
    RunInv(cap, producers, schedule);
    var q := Run(cap, producers, schedule);
    assert SlotOk(q, q.deq) && ProducerOk(q, q.claims[q.deq].producer);
  }

  /** try_pop answers empty exactly when nothing is claimed past dequeue_pos_ or the producer that
      claimed that position has not published it. */
  lemma EmptyIsExact<T>(cap: nat, producers: nat, schedule: seq<Action<T>>)
    requires cap > 1 && Run(cap, producers, schedule).consumer.CInspect?
    ensures var q := Run(cap, producers, schedule);
            && Shape(q)
            && (Step(q, Consume).consumer == CIdle <==> q.deq == q.enq || Unpublished(q, q.deq))
  {
    RunInv(cap, producers, schedule);
    assert SlotOk(Run(cap, producers, schedule), Run(cap, producers, schedule).deq);
  }

  /** push refuses exactly when its position has gone stale, below dequeue_pos_, or the ring is
      full. A refusal changes nothing shared. */
  lemma RefusalIsExact<T>(cap: nat, producers: nat, schedule: seq<Action<T>>, x: nat, arg: T, spurious: bool)
    requires cap > 1 && x < producers && Run(cap, producers, schedule).producers[x].PInspect?
    ensures var q := Run(cap, producers, schedule);
            var r := Step(q, Produce(x, arg, spurious));
            && r == Goto(q, x, r.producers[x])
            && (r.producers[x] == PIdle <==> q.producers[x].pos < q.deq || q.producers[x].pos == q.enq == q.deq + cap)
  {
    RunInv(cap, producers, schedule);
    assert ProducerOk(Run(cap, producers, schedule), x);
  }

  lemma Extend<T>(cap: nat, producers: nat, schedule: seq<Action<T>>, q: Queue<T>, a: Action<T>)
      returns (schedule': seq<Action<T>>, q': Queue<T>)
    requires cap > 0 && q == Run(cap, producers, schedule)
    ensures schedule' == schedule + [a] && q' == Run(cap, producers, schedule') == Step(q, a)
  {
    schedule', q' := schedule + [a], Step(q, a);
    assert schedule'[..|schedule|] == schedule;
  }

  /** What producer x's last push begun was called with: the argument of its last step that found it idle. */
  ghost function Call<T>(cap: nat, producers: nat, schedule: seq<Action<T>>, x: nat): Option<T>
    requires cap > 0 && x < producers
  {
    if schedule == [] then None
    else
      var before, last := schedule[..|schedule| - 1], schedule[|schedule| - 1];
      if last.Produce? && last.producer == x && Run(cap, producers, before).producers[x].PIdle? then Some(last.arg)
      else Call(cap, producers, before, x)
  }

  lemma StepKeepsArg<T>(q: Queue<T>, a: Action<T>, x: nat)
    requires 0 < |q.storage| == |q.ready| && x < |q.producers| == |q.sent| && !Step(q, a).producers[x].PIdle?
    ensures if a.Produce? && a.producer == x && q.producers[x].PIdle? then Step(q, a).producers[x].arg == a.arg
            else !q.producers[x].PIdle? && Step(q, a).producers[x].arg == q.producers[x].arg
  {
  }

  lemma {:induction false} HoldsItsArgument<T>(cap: nat, producers: nat, schedule: seq<Action<T>>, x: nat)
    requires cap > 0 && x < producers && !Run(cap, producers, schedule).producers[x].PIdle?
    ensures Call(cap, producers, schedule, x) == Some(Run(cap, producers, schedule).producers[x].arg)
  {
    if schedule != [] {
      var before, last := schedule[..|schedule| - 1], schedule[|schedule| - 1];
      hide Step;
      StepKeepsArg(Run(cap, producers, before), last, x);
      if !(last.Produce? && last.producer == x && Run(cap, producers, before).producers[x].PIdle?) {
        HoldsItsArgument(cap, producers, before, x);
      }
    }
  }

  lemma {:induction false} CallBegan<T>(cap: nat, producers: nat, schedule: seq<Action<T>>, x: nat) returns (began: nat)
    requires cap > 0 && x < producers && !Run(cap, producers, schedule).producers[x].PIdle?
    ensures began < |schedule| && schedule[began].Produce? && schedule[began].producer == x
    ensures Run(cap, producers, schedule[..began]).producers[x].PIdle?
    ensures forall j :: began < j <= |schedule| ==> !Run(cap, producers, schedule[..j]).producers[x].PIdle?
    ensures Call(cap, producers, schedule, x) == Some(schedule[began].arg)
  {
    hide Step;
    var last := |schedule| - 1;
    var before := schedule[..last];
    assert schedule[..|schedule|] == schedule;
    StepKeepsArg(Run(cap, producers, before), schedule[last], x);
    if Run(cap, producers, before).producers[x].PIdle? {
      began := last;
    } else {
      began := CallBegan(cap, producers, before, x);
      assert before[..began] == schedule[..began];
      forall j | began < j <= |schedule| ensures !Run(cap, producers, schedule[..j]).producers[x].PIdle? {
        if j < |schedule| { assert schedule[..j] == before[..j]; }
      }
    }
  }

  /** A push about to claim began at some step that found its producer idle, none since has, and the claim it makes
      is for the argument of that step, whatever the steps in between brought. */
  lemma ClaimsItsArgument<T>(cap: nat, producers: nat, schedule: seq<Action<T>>, x: nat, arg: T) returns (began: nat)
    requires cap > 0 && x < producers && Run(cap, producers, schedule).producers[x].PClaim?
    ensures began < |schedule| && schedule[began].Produce? && schedule[began].producer == x
    ensures Run(cap, producers, schedule[..began]).producers[x].PIdle?
    ensures forall j :: began < j <= |schedule| ==> !Run(cap, producers, schedule[..j]).producers[x].PIdle?
    ensures var q := Run(cap, producers, schedule);
            q.producers[x].pos == q.enq ==>
              Step(q, Produce(x, arg, false)).claims == q.claims + [Claim(x, schedule[began].arg)]
  {
    hide Run, Call;
    began := CallBegan(cap, producers, schedule, x);
    HoldsItsArgument(cap, producers, schedule, x);
  }

  lemma Starts<T>(q: Queue<T>, x: nat, v: T, w: T)
    requires 0 < |q.storage| == |q.ready| && x < |q.producers| == |q.sent| && q.producers[x].PIdle? && q.deq <= q.enq
    ensures var q1 := Step(q, Produce(x, v, false));
            var r := Step(q1, Produce(x, w, false));
            r == if q.enq - q.deq >= |q.storage| then q else Goto(q, x, PClaim(v, q.enq))
  {
    var q1 := Step(q, Produce(x, v, false));
    assert Goto(q1, x, PIdle).producers == q.producers && Goto(q1, x, PClaim(v, q.enq)) == Goto(q, x, PClaim(v, q.enq));
  }

  lemma Completes<T>(q: Queue<T>, x: nat, v: T, w1: T, w2: T, w3: T)
    requires 0 < |q.storage| == |q.ready| && x < |q.producers| == |q.sent| && q.producers[x] == PClaim(v, q.enq)
    ensures var r := Step(Step(Step(q, Produce(x, w1, false)), Produce(x, w2, false)), Produce(x, w3, false));
            && r.producers[x].PIdle? && r.enq == q.enq + 1 && r.deq == q.deq
            && r.claims == q.claims + [Claim(x, v)] && r.sent[x] == q.sent[x] + [v]
            && r.ready[Slot(q.enq, |q.storage|)]
  {
  }

  /** After any schedule, a push that nothing interrupts: it is refused when the ring is full, and otherwise claims
      the next position for its argument and publishes it. */
  lemma PushAlone<T>(cap: nat, producers: nat, schedule: seq<Action<T>>, x: nat, v: T, w: seq<T>) returns (r: Queue<T>)
    requires cap > 1 && x < producers && |w| == 4 && Run(cap, producers, schedule).producers[x].PIdle?
    ensures var q, more := Run(cap, producers, schedule),
                           [Produce(x, v, false), Produce(x, w[0], false), Produce(x, w[1], false),
                            Produce(x, w[2], false), Produce(x, w[3], false)];
            if q.enq == q.deq + cap then r == q && r == Run(cap, producers, schedule + more[..2])
            else && r == Run(cap, producers, schedule + more)
                 && r.producers[x].PIdle? && r.enq == q.enq + 1 && r.deq == q.deq
                 && r.claims == q.claims + [Claim(x, v)] && r.sent[x] == q.sent[x] + [v]
                 && r.ready[Slot(q.enq, cap)]
  {
    RunInv(cap, producers, schedule);
    var q := Run(cap, producers, schedule);
    assert Shape(q);
    hide Inv, Run, Step, Slot;
    var more := [Produce(x, v, false), Produce(x, w[0], false), Produce(x, w[1], false), Produce(x, w[2], false),
                 Produce(x, w[3], false)];
    Starts(q, x, v, w[0]);
    var s1, q1 := Extend(cap, producers, schedule, q, more[0]);
    var s2, q2 := Extend(cap, producers, s1, q1, more[1]);
    assert s2 == schedule + more[..2];
    r := q2;
    if q.enq < q.deq + cap {
      Completes(q2, x, v, w[1], w[2], w[3]);
      var s3, q3 := Extend(cap, producers, s2, q2, more[2]);
      var s4, q4 := Extend(cap, producers, s3, q3, more[3]);
      var s5, q5 := Extend(cap, producers, s4, q4, more[4]);
      assert s5 == schedule + more;
      r := q5;
    }
  }

  lemma FrontAlone<T>(q: Queue<T>)
    requires Inv(q) && q.consumer.CIdle?
    ensures if q.deq == q.enq || Unpublished(q, q.deq) then !q.ready[Slot(q.deq, |q.storage|)]
            else q.ready[Slot(q.deq, |q.storage|)] && q.storage[Slot(q.deq, |q.storage|)] == Live(q.claims[q.deq].value)
  {
    assert SlotOk(q, q.deq);
  }

  lemma Taken<T>(q: Queue<T>, v: T)
    requires 0 < |q.storage| == |q.ready| && |q.producers| == |q.sent| && q.consumer == CMove(q.deq)
    requires q.storage[Slot(q.deq, |q.storage|)] == Live(v)
    ensures var r := Step(Step(Step(Step(q, Consume), Consume), Consume), Consume);
            && r.consumer.CIdle? && r.popped == q.popped + [v] && r.deq == q.deq + 1
            && r.enq == q.enq && r.claims == q.claims && r.producers == q.producers
  {
  }

  /** After any schedule, a try_pop that nothing interrupts: it returns what the oldest position not popped was
      claimed for, or answers empty when there is none or its flag is down. */
  lemma PopAlone<T>(cap: nat, producers: nat, schedule: seq<Action<T>>) returns (r: Queue<T>)
    requires cap > 1 && Run(cap, producers, schedule).consumer.CIdle?
    ensures Shape(Run(cap, producers, schedule))
    ensures var q := Run(cap, producers, schedule);
            if q.deq == q.enq || Unpublished(q, q.deq)
            then r == q && r == Run(cap, producers, schedule + [Consume, Consume])
            else && r == Run(cap, producers, schedule + [Consume, Consume, Consume, Consume, Consume, Consume])
                 && r.consumer.CIdle? && r.popped == q.popped + [q.claims[q.deq].value] && r.deq == q.deq + 1
                 && r.enq == q.enq && r.claims == q.claims && r.producers == q.producers
  {
    RunInv(cap, producers, schedule);
    var q := Run(cap, producers, schedule);
    FrontAlone(q);
    assert Shape(q);
    hide Inv, Run, Slot, Unpublished;
    var s1, q1 := Extend(cap, producers, schedule, q, Consume);
    var s2, q2 := Extend(cap, producers, s1, q1, Consume);
    assert s2 == schedule + [Consume, Consume];
    r := q2;
    if q.deq < q.enq && !Unpublished(q, q.deq) {
      assert q2 == q.(consumer := CMove(q.deq));
      Taken(q2, q.claims[q.deq].value);
      hide Step;
      var s3, q3 := Extend(cap, producers, s2, q2, Consume);
      var s4, q4 := Extend(cap, producers, s3, q3, Consume);
      var s5, q5 := Extend(cap, producers, s4, q4, Consume);
      var s6, q6 := Extend(cap, producers, s5, q5, Consume);
      assert s6 == schedule + [Consume, Consume, Consume, Consume, Consume, Consume];
      r := q6;
    }
  }

  /** The stale case happens: another producer's element goes in and out between the two reads
      of this push, and the push is refused although the ring is empty. */
  lemma RefusedWhileEmpty<T>(v: T, w: T) returns (schedule: seq<Action<T>>)
    ensures var q := Run(2, 2, schedule);
            && q.enq == q.deq
            && q.producers[0].PInspect?
            && Step(q, Produce(0, v, false)).producers[0] == PIdle
  {
    var q;
    schedule, q := OneInFlight(v, w);
    schedule, q := Extend(2, 2, schedule, q, Produce(1, w, false));
    schedule, q := Extend(2, 2, schedule, q, Produce(1, w, false));
    assert q.ready[0] && q.storage[0] == Live(w) && q.deq == 0 && q.consumer == CIdle;
    schedule, q := Drain(schedule, q);
  }

  /** Producer 0 has read its position, then producer 1 has claimed that position. */
  lemma OneInFlight<T>(v: T, w: T) returns (schedule: seq<Action<T>>, q: Queue<T>)
    ensures q == Run(2, 2, schedule)
    ensures q == Init<T>(2, 2).(enq := 1, claims := [Claim(1, w)],
                                producers := [PInspect(v, 0), PConstruct(w, 0)])
  {
    schedule := [];
    q := Run(2, 2, schedule);
    schedule, q := Extend(2, 2, schedule, q, Produce(0, v, false));
    schedule, q := Extend(2, 2, schedule, q, Produce(1, w, false));
    schedule, q := Extend(2, 2, schedule, q, Produce(1, w, false));
    schedule, q := Extend(2, 2, schedule, q, Produce(1, w, false));
    assert q.producers == [PInspect(v, 0), PConstruct(w, 0)];
  }

  /** The consumer pops position 0. */
  lemma Drain<T>(before: seq<Action<T>>, was: Queue<T>) returns (schedule: seq<Action<T>>, q: Queue<T>)
    requires was == Run(2, 2, before) && was.consumer == CIdle && was.deq == 0
    requires was.ready[0] && was.storage[0].Live?
    ensures q == Run(2, 2, schedule) && q.deq == 1
    ensures q.producers == was.producers && q.enq == was.enq
  {
    schedule, q := DrainTo(before, was);
    schedule, q := Extend(2, 2, schedule, q, Consume);
    schedule, q := Extend(2, 2, schedule, q, Consume);
    schedule, q := Extend(2, 2, schedule, q, Consume);
  }

  /** Up to the destruction of what was moved out. */
  lemma DrainTo<T>(before: seq<Action<T>>, was: Queue<T>) returns (schedule: seq<Action<T>>, q: Queue<T>)
    requires was == Run(2, 2, before) && was.consumer == CIdle && was.deq == 0
    requires was.ready[0] && was.storage[0].Live?
    ensures q == Run(2, 2, schedule) && q.deq == 0 && q.consumer.CDestroy? && q.consumer.pos == 0
    ensures q.producers == was.producers && q.enq == was.enq
  {
    schedule, q := Extend(2, 2, before, was, Consume);
    schedule, q := Extend(2, 2, schedule, q, Consume);
    schedule, q := Extend(2, 2, schedule, q, Consume);
  }

  ghost predicate Quiet<T>(q: Queue<T>) {
    q.consumer.CIdle? && forall x :: 0 <= x < |q.producers| ==> q.producers[x].PIdle?
  }

  /** Once every thread is idle a flag is up exactly where an object lives. */
  lemma FlagsMarkLiveSlots<T>(q: Queue<T>)
    requires Inv(q) && Quiet(q)
    ensures forall i :: 0 <= i < |q.storage| ==>
              && (q.ready[i] <==> q.storage[i].Live?)
              && (q.storage[i].Live? || q.storage[i].Raw?)
  {
    forall i | 0 <= i < |q.storage|
      ensures (q.ready[i] <==> q.storage[i].Live?) && (q.storage[i].Live? || q.storage[i].Raw?)
    {
      var p := SlotCovered(q.deq, i, |q.storage|);
      assert SlotOk(q, p);
    }
  }

  /** The destructor, once every thread is done: what it destroys are exactly the live objects, each once, and
      nothing is left. */
  method Destroy<T>(q: Queue<T>) returns (storage: seq<Storage<T>>, destroyed: seq<nat>)
    requires Inv(q) && Quiet(q)
    ensures |storage| == |q.storage|
    ensures forall i :: 0 <= i < |storage| ==> storage[i] == Raw
    ensures forall i: nat :: i in destroyed <==> i < |q.storage| && q.storage[i].Live?
    ensures forall j, k :: 0 <= j < k < |destroyed| ==> destroyed[j] < destroyed[k]
  {
    storage, destroyed := q.storage, [];
    FlagsMarkLiveSlots(q);
    for i := 0 to |storage|
      invariant |storage| == |q.storage|
      invariant forall j :: 0 <= j < i ==> storage[j] == Raw
      invariant forall j :: i <= j < |storage| ==> storage[j] == q.storage[j]
      invariant forall j: nat :: j in destroyed <==> j < i && q.storage[j].Live?
      invariant forall j, k :: 0 <= j < k < |destroyed| ==> destroyed[j] < destroyed[k]
    {
      if q.ready[i] {
        assert storage[i].Live?;
        storage := storage[i := Raw];
        assert forall k :: 0 <= k < |destroyed| ==> destroyed[k] in destroyed;
        destroyed := destroyed + [i];
      }
    }
  }
}
