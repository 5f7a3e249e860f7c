/** The broadcast ring: one producer, a fixed set of consumers that each see every element.
    One step per atomic access, including each single cursor read of the producer's scan. */
module SpmcQueue {
  import opened Ring

  /** Where the producer stands in push. */
  datatype Producer<+T> =
    | PIdle
    // published_ read, about to read cursors_[next]. least is the smallest cursor read so far.
    // room records whether every consumer had already passed position pos - Capacity when the
    // call began.
    | PScan(arg: T, pos: nat, next: nat, least: nat, room: bool)
    | PDestroy(arg: T, pos: nat)
    | PConstruct(arg: T, pos: nat)
    | PPublish(arg: T, pos: nat)

  /** Where a consumer stands in try_pop. */
  datatype Consumer<+T> =
    | CIdle
    | CInspect(cur: nat)          // own cursor read, about to read published_
    | CCopy(cur: nat)
    | CAdvance(cur: nat, out: T)  // copied, about to store the cursor

  datatype Queue<+T> = Queue(
    storage: seq<Storage<T>>,
    published: nat,
    cursors: seq<nat>,
    producer: Producer<T>,
    consumers: seq<Consumer<T>>,
    pushed: seq<T>,               // published values, by position
    received: seq<seq<T>>)        // what each consumer's calls returned

  datatype Action<+T> = Produce(arg: T) | Consume(consumer: nat)

  function Init<T>(cap: nat, consumers: nat): Queue<T> {
    Queue(seq(cap, _ => Raw), 0, seq(consumers, _ => 0), PIdle, seq(consumers, _ => CIdle), [],
          seq(consumers, _ => []))
  }

  ghost predicate AllPast(cursors: seq<nat>, bound: int) {
    forall c :: 0 <= c < |cursors| ==> cursors[c] > bound
  }

  ghost function ProducerStep<T>(q: Queue<T>, arg: T): Queue<T>
    requires 0 < |q.storage| && 0 < |q.cursors|
  {
    var cap := |q.storage|;
    match q.producer
    case PIdle =>
      var pos := q.published;
      q.(producer := if pos < cap then PConstruct(arg, pos) else PScan(arg, pos, 0, 0, AllPast(q.cursors, pos - cap)))
    case PScan(v, pos, next, least, room) =>
      if next >= |q.cursors| then q  // past the last cursor, ruled out by Inv
      else
        var cursor := q.cursors[next];
        var least' := if next == 0 || cursor < least then cursor else least;
        q.(producer := if next + 1 < |q.cursors| then PScan(v, pos, next + 1, least', room)
                       else if least' > pos - cap then PDestroy(v, pos)
                       else PIdle)
    case PDestroy(v, pos) =>
      q.(storage := q.storage[Slot(pos, cap) := Raw], producer := PConstruct(v, pos))
    case PConstruct(v, pos) =>
      q.(storage := q.storage[Slot(pos, cap) := Live(v)], producer := PPublish(v, pos))
    case PPublish(v, pos) =>
      q.(published := pos + 1, pushed := q.pushed + [v], producer := PIdle)
  }

  function Goto<T>(q: Queue<T>, c: nat, pc: Consumer<T>): Queue<T>
    requires c < |q.consumers|
  {
    q.(consumers := q.consumers[c := pc])
  }

  function ConsumerStep<T>(q: Queue<T>, c: nat): Queue<T>
    requires 0 < |q.storage| && c < |q.consumers| == |q.cursors| == |q.received|
  {
    match q.consumers[c]
    case CIdle => Goto(q, c, CInspect(q.cursors[c]))
    case CInspect(cur) => Goto(q, c, if cur == q.published then CIdle else CCopy(cur))
    case CCopy(cur) =>
      var found := q.storage[Slot(cur, |q.storage|)];
      if found.Live? then Goto(q, c, CAdvance(cur, found.value)) else q  // nothing to copy, ruled out by Inv
    case CAdvance(cur, out) =>
      Goto(q.(cursors := q.cursors[c := cur + 1], received := q.received[c := q.received[c] + [out]]), c, CIdle)
  }

  ghost function Step<T>(q: Queue<T>, a: Action<T>): Queue<T>
    requires 0 < |q.storage| && 0 < |q.consumers| == |q.cursors| == |q.received|
  {
    match a
    case Produce(arg) => ProducerStep(q, arg)
    case Consume(c) => if c < |q.consumers| then ConsumerStep(q, c) else q
  }

  /** The state after any sequence of scheduler choices. */
  ghost function Run<T>(cap: nat, consumers: nat, schedule: seq<Action<T>>): (q: Queue<T>)
    requires cap > 0 && consumers > 0
    ensures |q.storage| == cap && |q.consumers| == |q.cursors| == |q.received| == consumers
  {
    if schedule == [] then Init(cap, consumers)
    else Step(Run(cap, consumers, schedule[..|schedule| - 1]), schedule[|schedule| - 1])
  }

  // ---------------------------------------------------------------- invariant

  ghost predicate Shape<T>(q: Queue<T>) {
    && |q.storage| > 1
    && 0 < |q.consumers| == |q.cursors| == |q.received|
    && q.published == |q.pushed|
    && (forall c :: 0 <= c < |q.cursors| ==> q.cursors[c] <= q.published <= q.cursors[c] + |q.storage|)
  }

  /** Inside the slot of the next position: the only stretch in which storage is not what the
      history says. */
  ghost predicate Rewriting<T>(p: Producer<T>) {
    p.PDestroy? || p.PConstruct? || p.PPublish?
  }

  ghost predicate ProducerOk<T>(q: Queue<T>)
    requires Shape(q)
  {
    var p, back := q.producer, q.published - |q.storage|;
    && (!p.PIdle? ==> p.pos == q.published)
    && (p.PScan? ==>
          && back >= 0 && p.next < |q.cursors|
          && (p.next > 0 ==> forall c :: 0 <= c < p.next ==> q.cursors[c] >= p.least)
          && (p.room ==> AllPast(q.cursors, back) && (p.next > 0 ==> p.least > back)))
    && (Rewriting(p) ==> AllPast(q.cursors, back))
    && (p.PDestroy? ==> back >= 0)
  }

  ghost predicate ConsumerOk<T>(q: Queue<T>, c: nat)
    requires Shape(q) && c < |q.consumers|
  {
    var pc := q.consumers[c];
    && (!pc.CIdle? ==> pc.cur == q.cursors[c])
    && (pc.CCopy? || pc.CAdvance? ==> pc.cur < q.published)
    && (pc.CAdvance? ==> pc.out == q.pushed[pc.cur])
    && q.received[c] == q.pushed[..q.cursors[c]]
  }

  /** Storage at a position of the lap ending just before the next one to publish. */
  ghost predicate StorageOk<T>(q: Queue<T>, p: int)
    requires Shape(q) && q.published - |q.storage| <= p < q.published
  {
    var next := p == q.published - |q.storage|;
    if p < 0 then
      q.storage[Slot(p + |q.storage|, |q.storage|)] == (if next &&
          q.producer.PPublish? then Live(q.producer.arg) else Raw)
    else
      q.storage[Slot(p, |q.storage|)]
      == (if next && q.producer.PConstruct? then Raw
          else if next && q.producer.PPublish? then Live(q.producer.arg)
          else Live(q.pushed[p]))
  }

  ghost predicate Inv<T>(q: Queue<T>) {
    && Shape(q)
    && ProducerOk(q)
    && (forall c :: 0 <= c < |q.consumers| ==> ConsumerOk(q, c))
    && (forall p :: q.published - |q.storage| <= p < q.published ==> StorageOk(q, p))
  }

  lemma InitInv<T>(cap: nat, consumers: nat)
    requires cap > 1 && consumers > 0
    ensures Inv<T>(Init(cap, consumers))
  {
  }

  lemma ProducerKeepsItself<T>(q: Queue<T>, arg: T)
    requires Shape(q) && ProducerOk(q)
    ensures Shape(ProducerStep(q, arg)) && ProducerOk(ProducerStep(q, arg))
  {
  }

  lemma ProducerKeepsConsumer<T>(q: Queue<T>, arg: T, c: nat)
    requires Shape(q) && ProducerOk(q) && c < |q.consumers| && ConsumerOk(q, c)
    ensures Shape(ProducerStep(q, arg)) && ConsumerOk(ProducerStep(q, arg), c)
  {
  }

  lemma ProducerKeepsStorage<T>(q: Queue<T>, arg: T, p: int)
    requires Shape(q) && ProducerOk(q)
    requires var r := ProducerStep(q, arg); Shape(r) && r.published - |q.storage| <= p < r.published
    requires var back := q.published - |q.storage|; StorageOk(q, back) && (p < q.published ==> StorageOk(q, p))
    ensures StorageOk(ProducerStep(q, arg), p)
  {
    var back := q.published - |q.storage|;
    if back < p < q.published {
      SlotApart(p + |q.storage|, q.published + |q.storage|, |q.storage|);
    }
  }

  lemma ProducerKeepsInv<T>(q: Queue<T>, arg: T)
    requires Inv(q)
    ensures Inv(ProducerStep(q, arg))
  {
    var r := ProducerStep(q, arg);
    ProducerKeepsItself(q, arg);
    forall c | 0 <= c < |q.consumers| ensures ConsumerOk(r, c) { ProducerKeepsConsumer(q, arg, c); }
    forall p | r.published - |q.storage| <= p < r.published ensures StorageOk(r, p) {
      ProducerKeepsStorage(q, arg, p);
    }
  }

  lemma ConsumerKeepsItself<T>(q: Queue<T>, c: nat)
    requires Shape(q) && c < |q.consumers| && ConsumerOk(q, c)
    requires q.consumers[c].CCopy? ==>
               q.storage[Slot(q.consumers[c].cur, |q.storage|)] == Live(q.pushed[q.consumers[c].cur])
    ensures Shape(ConsumerStep(q, c)) && ConsumerOk(ConsumerStep(q, c), c)
  {
  }

  lemma ConsumerKeepsOthers<T>(q: Queue<T>, c: nat, d: nat)
    requires Shape(q) && c < |q.consumers| && ConsumerOk(q, c)
    requires d < |q.consumers| && c != d && ConsumerOk(q, d)
    ensures Shape(ConsumerStep(q, c)) && ConsumerOk(ConsumerStep(q, c), d)
  {
  }

  lemma ConsumerKeepsProducer<T>(q: Queue<T>, c: nat)
    requires Shape(q) && ProducerOk(q) && c < |q.consumers| && ConsumerOk(q, c)
    ensures Shape(ConsumerStep(q, c)) && ProducerOk(ConsumerStep(q, c))
  {
  }

  /** What a consumer about to copy finds: the value pushed there, in a slot the producer is not
      rewriting. */
  lemma CopySlot<T>(q: Queue<T>, c: nat)
    requires Inv(q) && c < |q.consumers| && q.consumers[c].CCopy?
    ensures var cur := q.consumers[c].cur;
            && cur < q.published
            && q.storage[Slot(cur, |q.storage|)] == Live(q.pushed[cur])
            && (Rewriting(q.producer) ==> Slot(cur, |q.storage|) != Slot(q.producer.pos, |q.storage|))
  {
    var cur := q.consumers[c].cur;
    assert ConsumerOk(q, c) && StorageOk(q, cur);
    if Rewriting(q.producer) {
      SlotApart(cur, q.published, |q.storage|);
    }
  }

  lemma ConsumerKeepsInv<T>(q: Queue<T>, c: nat)
    requires Inv(q) && c < |q.consumers|
    ensures Inv(ConsumerStep(q, c))
  {
    var r := ConsumerStep(q, c);
    assert ConsumerOk(q, c);
    if q.consumers[c].CCopy? { CopySlot(q, c); }
    ConsumerKeepsItself(q, c);
    ConsumerKeepsProducer(q, c);
    forall d | 0 <= d < |q.consumers| ensures ConsumerOk(r, d) {
      if d != c { ConsumerKeepsOthers(q, c, d); }
    }
    forall p | r.published - |q.storage| <= p < r.published ensures StorageOk(r, p) {
      assert StorageOk(q, p);
    }
  }

  lemma {:induction false} RunInv<T>(cap: nat, consumers: nat, schedule: seq<Action<T>>)
    requires cap > 1 && consumers > 0
    ensures Inv(Run(cap, consumers, schedule))
  {
    if schedule == [] {
      InitInv<T>(cap, consumers);
    } else {
      RunInv(cap, consumers, schedule[..|schedule| - 1]);
      var q := Run(cap, consumers, schedule[..|schedule| - 1]);
      match schedule[|schedule| - 1]
      case Produce(arg) => ProducerKeepsInv(q, arg);
      case Consume(c) => if c < |q.consumers| { ConsumerKeepsInv(q, c); }
    }
  }

  // ----------------------------------------------------------------- theorems

  /** Every consumer has received exactly the first cursor-many elements pushed, in order, and
      the producer is never more than a lap ahead of the slowest. */
  lemma EveryConsumerGetsAPrefix<T>(cap: nat, consumers: nat, schedule: seq<Action<T>>, c: nat)
    requires cap > 1 && c < consumers
    ensures var q := Run(cap, consumers, schedule);
            && q.published == |q.pushed|
            && q.cursors[c] <= q.published <= q.cursors[c] + cap
            && q.received[c] == q.pushed[..q.cursors[c]]
  {
    RunInv(cap, consumers, schedule);
    assert ConsumerOk(Run(cap, consumers, schedule), c);
  }

  /** The producer never rewrites a slot while a consumer is copying it or still has to, and a
      consumer always copies the value pushed at its position. */
  lemma NoOverwriteBeforeRead<T>(cap: nat, consumers: nat, schedule: seq<Action<T>>, c: nat)
    requires cap > 1 && c < consumers
    ensures var q := Run(cap, consumers, schedule);
            && (q.consumers[c].CCopy? ==>
                  && q.consumers[c].cur < |q.pushed|
                  && q.storage[Slot(q.consumers[c].cur, cap)] == Live(q.pushed[q.consumers[c].cur])
                  && (Rewriting(q.producer) ==> Slot(q.consumers[c].cur, cap) != Slot(q.producer.pos, cap)))
            && (Rewriting(q.producer) && q.producer.pos >= cap ==> q.cursors[c] > q.producer.pos - cap)
            && (q.producer.PConstruct? ==> q.storage[Slot(q.producer.pos, cap)] == Raw)
  {
    RunInv(cap, consumers, schedule);
    var q := Run(cap, consumers, schedule);
    if q.consumers[c].CCopy? {
      CopySlot(q, c);
    }
    if q.producer.PConstruct? {
      assert StorageOk(q, q.published - cap);
    }
  }

  /** A step into a scan is one of the scan, or its beginning. */
  lemma ScanStep<T>(q: Queue<T>, a: Action<T>)
    requires 0 < |q.storage| && 0 < |q.consumers| == |q.cursors| == |q.received|
    requires Step(q, a).producer.PScan?
    ensures var p := Step(q, a).producer;
            || (q.producer.PScan? && p.pos == q.producer.pos && p.room == q.producer.room)
            || (q.producer.PIdle? && a.Produce? && p.pos == q.published &&
                p.room == AllPast(q.cursors, q.published - |q.storage|))
  {
    hide AllPast, Slot;
  }

  /** The step k at which the push now scanning began, and what it met there. */
  lemma {:induction false} ScanBegan<T>(cap: nat, consumers: nat, schedule: seq<Action<T>>) returns (k: nat)
    requires cap > 1 && consumers > 0 && Run(cap, consumers, schedule).producer.PScan?
    ensures k < |schedule| && schedule[k].Produce? && Run(cap, consumers, schedule[..k]).producer.PIdle?
    ensures forall j :: k < j <= |schedule| ==> Run(cap, consumers, schedule[..j]).producer.PScan?
    ensures var was, p := Run(cap, consumers, schedule[..k]), Run(cap, consumers, schedule).producer;
            p.pos == was.published && p.room == AllPast(was.cursors, was.published - cap)
  {
    hide Step;
    var last := |schedule| - 1;
    var before := schedule[..last];
    assert schedule[..|schedule|] == schedule;
    ScanStep(Run(cap, consumers, before), schedule[last]);
    if Run(cap, consumers, before).producer.PIdle? {
      k := last;
    } else {
      k := ScanBegan(cap, consumers, before);
      assert before[..k] == schedule[..k];
      forall j | k < j <= |schedule| ensures Run(cap, consumers, schedule[..j]).producer.PScan? {
        if j < |schedule| { assert schedule[..j] == before[..j]; }
      }
    }
  }

  /** Step j of the schedule is the producer's read of cursor c in its scan. */
  ghost predicate ReadsCursor<T>(cap: nat, consumers: nat, schedule: seq<Action<T>>, j: nat, c: nat)
    requires cap > 0 && consumers > 0
  {
    && j < |schedule| && schedule[j].Produce?
    && var p := Run(cap, consumers, schedule[..j]).producer; p.PScan? && p.next == c
  }

  /** A scan that began at a step has read these cursors, one after the other, at these steps. */
  ghost predicate ReadAt<T>(cap: nat, consumers: nat, schedule: seq<Action<T>>, began: nat, at: seq<nat>)
    requires cap > 0 && consumers > 0
  {
    |at| <= consumers && forall c :: 0 <= c < |at| ==> began < at[c] && ReadsCursor(cap, consumers, schedule, at[c], c)
  }

  ghost function CursorAt<T>(cap: nat, consumers: nat, schedule: seq<Action<T>>, j: nat, c: nat): nat
    requires cap > 0 && consumers > 0 && c < consumers
  {
    if j <= |schedule| then Run(cap, consumers, schedule[..j]).cursors[c] else 0
  }

  /** What it met there. */
  ghost function Met<T>(cap: nat, consumers: nat, schedule: seq<Action<T>>, began: nat, at: seq<nat>): (met: seq<nat>)
    requires cap > 0 && consumers > 0 && ReadAt(cap, consumers, schedule, began, at)
    ensures |met| == |at|
  {
    seq(|at|, c requires 0 <= c < |at| => CursorAt(cap, consumers, schedule, at[c], c))
  }

  ghost predicate IsLeast(met: seq<nat>, least: nat) {
    met != [] ==> least in met && forall c :: 0 <= c < |met| ==> met[c] >= least
  }

  lemma LeastOfMore(met: seq<nat>, least: nat, cursor: nat)
    requires IsLeast(met, least)
    ensures IsLeast(met + [cursor], if met == [] || cursor < least then cursor else least)
  {
    assert (met + [cursor])[|met|] == cursor;
    if met != [] {
      var c :| 0 <= c < |met| && met[c] == least;
      assert (met + [cursor])[c] == least;
    }
  }

  /** One step of the producer in its scan. */
  lemma ReadOne<T>(q: Queue<T>, arg: T)
    requires 0 < |q.storage| && 0 < |q.consumers| == |q.cursors| == |q.received|
    requires q.producer.PScan? && q.producer.next < |q.cursors|
    ensures var p, r, cursor := q.producer, Step(q, Produce(arg)), q.cursors[q.producer.next];
            var least := if p.next == 0 || cursor < p.least then cursor else p.least;
            && (r.producer.PScan? ==> r.producer.next == p.next + 1 && r.producer.least == least)
            && (r.producer.PIdle? <==> p.next + 1 == |q.cursors| && least <= p.pos - |q.storage|)
  {
  }

  lemma ScanGoesOn<T>(q: Queue<T>, a: Action<T>)
    requires 0 < |q.storage| && 0 < |q.consumers| == |q.cursors| == |q.received|
    ensures a.Consume? ==> Step(q, a).producer == q.producer
    ensures a.Produce? && q.producer.PIdle? && Step(q, a).producer.PScan? ==> Step(q, a).producer.next == 0
  {
    hide AllPast;
  }

  lemma ReadEarlier<T>(cap: nat, consumers: nat, schedule: seq<Action<T>>, began: nat, at: seq<nat>)
    requires cap > 0 && consumers > 0 && schedule != []
    requires ReadAt(cap, consumers, schedule[..|schedule| - 1], began, at)
    ensures ReadAt(cap, consumers, schedule, began, at)
    ensures Met(cap, consumers, schedule, began, at) == Met(cap, consumers, schedule[..|schedule| - 1], began, at)
  {
    var before := schedule[..|schedule| - 1];
    forall c | 0 <= c < |at|
      ensures began < at[c] && ReadsCursor(cap, consumers, schedule, at[c], c)
      ensures CursorAt(cap, consumers, schedule, at[c], c) == CursorAt(cap, consumers, before, at[c], c)
    {
      assert ReadsCursor(cap, consumers, before, at[c], c);
      assert before[..at[c]] == schedule[..at[c]];
    }
  }

  /** The last step of the schedule reads one more cursor. */
  lemma ReadLast<T>(cap: nat, consumers: nat, schedule: seq<Action<T>>, began: nat, at: seq<nat>)
    requires cap > 0 && consumers > 0 && schedule != [] && began < |schedule| - 1
    requires ReadAt(cap, consumers, schedule, began, at) && |at| < consumers
    requires ReadsCursor(cap, consumers, schedule, |schedule| - 1, |at|)
    ensures ReadAt(cap, consumers, schedule, began, at + [|schedule| - 1])
    ensures Met(cap, consumers, schedule, began, at + [|schedule| - 1])
            == Met(cap, consumers, schedule, began, at)
               + [Run(cap, consumers, schedule[..|schedule| - 1]).cursors[|at|]]
  {
    hide ReadsCursor;
    var last := |schedule| - 1;
    assert CursorAt(cap, consumers, schedule, last, |at|) == Run(cap, consumers, schedule[..last]).cursors[|at|];
  }

  /** The reads of the scan running after the schedule; least is the smallest of what they met. */
  lemma {:induction false} ScanReads<T>(cap: nat, consumers: nat, schedule: seq<Action<T>>, began: nat)
      returns (at: seq<nat>)
    requires cap > 1 && consumers > 0 && began < |schedule|
    requires schedule[began].Produce? && Run(cap, consumers, schedule[..began]).producer.PIdle?
    requires forall j :: began < j <= |schedule| ==> Run(cap, consumers, schedule[..j]).producer.PScan?
    ensures ReadAt(cap, consumers, schedule, began, at)
    ensures Run(cap, consumers, schedule).producer.PScan? && |at| == Run(cap, consumers, schedule).producer.next
    ensures IsLeast(Met(cap, consumers, schedule, began, at), Run(cap, consumers, schedule).producer.least)
  {
    hide Step, IsLeast, ReadAt, Met;
    var last := |schedule| - 1;
    var before, a := schedule[..last], schedule[last];
    var q := Run(cap, consumers, before);
    assert schedule[..|schedule|] == schedule && schedule[..last] == before;
    assert Run(cap, consumers, schedule[..|schedule|]).producer.PScan?;
    ScanGoesOn(q, a);
    if began == last {
      at := [];
      NothingRead(cap, consumers, schedule, began, Run(cap, consumers, schedule).producer.least);
    } else {
      assert forall j :: 0 <= j <= last ==> before[..j] == schedule[..j];
      at := ScanReads(cap, consumers, before, began);
      ReadEarlier(cap, consumers, schedule, began, at);
      if a.Produce? {
        RunInv(cap, consumers, before);
        assert ReadsCursor(cap, consumers, schedule, last, |at|);
        ReadLast(cap, consumers, schedule, began, at);
        LeastOfMore(Met(cap, consumers, schedule, began, at), q.producer.least, q.cursors[|at|]);
        ReadOne(q, a.arg);
        at := at + [last];
      }
    }
  }

  lemma NothingRead<T>(cap: nat, consumers: nat, schedule: seq<Action<T>>, began: nat, least: nat)
    requires cap > 0 && consumers > 0
    ensures ReadAt(cap, consumers, schedule, began, []) && IsLeast(Met(cap, consumers, schedule, began, []), least)
  {
  }

  /** The producer's next step in its scan refuses the push exactly when it reads the last cursor and some
      cursor, at the step the scan read it, was at most pos - Capacity; then some cursor was when the push
      began. A refusal changes nothing shared. */
  lemma RefusalIsExact<T>(cap: nat, consumers: nat, schedule: seq<Action<T>>, arg: T)
      returns (began: nat, at: seq<nat>, met: seq<nat>)
    requires cap > 1 && consumers > 0 && Run(cap, consumers, schedule).producer.PScan?
    ensures began < |schedule| && schedule[began].Produce? && Run(cap, consumers, schedule[..began]).producer.PIdle?
    ensures forall j :: began < j <= |schedule| ==> Run(cap, consumers, schedule[..j]).producer.PScan?
    ensures ReadAt(cap, consumers, schedule + [Produce(arg)], began, at)
    ensures met == Met(cap, consumers, schedule + [Produce(arg)], began, at)
    ensures |at| == Run(cap, consumers, schedule).producer.next + 1
    ensures var q := Run(cap, consumers, schedule);
            var r := Step(q, Produce(arg));
            && (r.producer.PIdle? <==>
                |at| == consumers && exists c :: 0 <= c < consumers && met[c] <= q.published - cap)
            && (r.producer.PIdle? ==> !AllPast(Run(cap, consumers, schedule[..began]).cursors, q.published - cap))
            && r == q.(producer := r.producer)
  {
    hide Step, ReadAt, Met, AllPast;
    began := ScanBegan(cap, consumers, schedule);
    at := ScanReads(cap, consumers, schedule, began);
    var q, longer := Run(cap, consumers, schedule), schedule + [Produce(arg)];
    RunInv(cap, consumers, schedule);
    assert longer[..|schedule|] == schedule;
    ReadEarlier(cap, consumers, longer, began, at);
    assert ReadsCursor(cap, consumers, longer, |schedule|, |at|);
    ReadLast(cap, consumers, longer, began, at);
    LeastOfMore(Met(cap, consumers, longer, began, at), q.producer.least, q.cursors[|at|]);
    ReadOne(q, arg);
    ScanAlone(q, arg);
    at := at + [|schedule|];
    met := Met(cap, consumers, longer, began, at);
    LeastDecides(met, if |at| == 1 || q.cursors[|at| - 1] < q.producer.least then q.cursors[|at| - 1]
                      else q.producer.least, q.published - cap);
  }

  lemma ScanAlone<T>(q: Queue<T>, arg: T)
    requires Shape(q) && ProducerOk(q) && q.producer.PScan?
    ensures var r := Step(q, Produce(arg));
            r == q.(producer := r.producer) && (q.producer.room ==> !r.producer.PIdle?)
  {
  }

  lemma LeastDecides(met: seq<nat>, least: nat, bound: int)
    requires met != [] && IsLeast(met, least)
    ensures least <= bound <==> exists c :: 0 <= c < |met| && met[c] <= bound
  {
  }

  /** try_pop answers empty exactly when the consumer has everything published at that instant. */
  lemma EmptyIsExact<T>(cap: nat, consumers: nat, schedule: seq<Action<T>>, c: nat)
    requires cap > 1 && c < consumers && Run(cap, consumers, schedule).consumers[c].CInspect?
    ensures var q := Run(cap, consumers, schedule);
            Step(q, Consume(c)).consumers[c] == CIdle <==> q.received[c] == q.pushed
  {
    RunInv(cap, consumers, schedule);
    var q := Run(cap, consumers, schedule);
    assert ConsumerOk(q, c);
    assert |q.received[c]| == q.cursors[c];
  }

  lemma Extend<T>(cap: nat, consumers: nat, schedule: seq<Action<T>>, q: Queue<T>, a: Action<T>)
      returns (schedule': seq<Action<T>>, q': Queue<T>)
    requires cap > 0 && consumers > 0 && q == Run(cap, consumers, schedule)
    ensures schedule' == schedule + [a] && q' == Run(cap, consumers, schedule') == Step(q, a)
  {
    schedule', q' := schedule + [a], Step(q, a);
    assert schedule'[..|schedule|] == schedule;
  }

  lemma StepKeepsArg<T>(q: Queue<T>, a: Action<T>)
    requires 0 < |q.storage| && 0 < |q.consumers| == |q.cursors| == |q.received| && !Step(q, a).producer.PIdle?
    ensures if a.Produce? && q.producer.PIdle? then Step(q, a).producer.arg == a.arg
            else !q.producer.PIdle? && Step(q, a).producer.arg == q.producer.arg
  {
    hide AllPast, Slot;
  }

  /** A push under way began at some step that found the producer idle, none since has, and it holds the argument
      of that step, whatever the steps in between brought. */
  lemma {:induction false} HoldsItsArgument<T>(cap: nat, consumers: nat, schedule: seq<Action<T>>) returns (began: nat)
    requires cap > 0 && consumers > 0 && !Run(cap, consumers, schedule).producer.PIdle?
    ensures began < |schedule| && schedule[began].Produce? && Run(cap, consumers, schedule[..began]).producer.PIdle?
    ensures forall j :: began < j <= |schedule| ==> !Run(cap, consumers, schedule[..j]).producer.PIdle?
    ensures Run(cap, consumers, schedule).producer.arg == schedule[began].arg
  {
    hide Step;
    var last := |schedule| - 1;
    var before := schedule[..last];
    assert schedule[..|schedule|] == schedule;
    StepKeepsArg(Run(cap, consumers, before), schedule[last]);
    if Run(cap, consumers, before).producer.PIdle? {
      began := last;
    } else {
      began := HoldsItsArgument(cap, consumers, before);
      assert before[..began] == schedule[..began];
      forall j | began < j <= |schedule| ensures !Run(cap, consumers, schedule[..j]).producer.PIdle? {
        if j < |schedule| { assert schedule[..j] == before[..j]; }
      }
    }
  }

  /** Only a step of the producer at its last stage publishes, and what it publishes is what push was called with:
      the argument of the step that found the producer idle, none having since. */
  lemma PublishesItsArgument<T>(cap: nat, consumers: nat, schedule: seq<Action<T>>, a: Action<T>) returns (began: nat)
    requires cap > 1 && consumers > 0
    ensures var q, r := Run(cap, consumers, schedule), Step(Run(cap, consumers, schedule), a);
            if a.Produce? && q.producer.PPublish? then
              && began < |schedule| && schedule[began].Produce?
              && Run(cap, consumers, schedule[..began]).producer.PIdle?
              && (forall j :: began < j <= |schedule| ==> !Run(cap, consumers, schedule[..j]).producer.PIdle?)
              && r.producer.PIdle? && r.pushed == q.pushed + [schedule[began].arg]
            else r.pushed == q.pushed
  {
    hide Run, AllPast, Slot;
    if Run(cap, consumers, schedule).producer.PPublish? {
      began := HoldsItsArgument(cap, consumers, schedule);
    } else {
      began := 0;
    }
  }

  /** Steps of the producer in a row, whatever arguments they bring. */
  ghost function Pushes<T>(args: seq<T>): (steps: seq<Action<T>>)
    ensures |steps| == |args|
  {
    seq(|args|, i requires 0 <= i < |args| => Produce(args[i]))
  }

  lemma OnePush<T>(cap: nat, consumers: nat, schedule: seq<Action<T>>, args: seq<T>)
    requires cap > 0 && consumers > 0 && args != []
    ensures var init := args[..|args| - 1];
            Run(cap, consumers, schedule + Pushes(args))
            == Step(Run(cap, consumers, schedule + Pushes(init)), Produce(args[|init|]))
  {
    var init := args[..|args| - 1];
    hide Step;
    assert (schedule + Pushes(args))[..|schedule| + |init|] == schedule + Pushes(init);
  }

  function Least(cursors: seq<nat>, n: nat, least: nat): nat
    requires n < |cursors|
  {
    if n == 0 || cursors[n] < least then cursors[n] else least
  }

  lemma LeastOfFirst(cursors: seq<nat>, n: nat, least: nat)
    requires n < |cursors| && IsLeast(cursors[..n], least)
    ensures IsLeast(cursors[..n + 1], Least(cursors, n, least))
  {
    LeastOfMore(cursors[..n], least, cursors[n]);
    assert cursors[..n] + [cursors[n]] == cursors[..n + 1];
  }

  lemma ReadNext<T>(q: Queue<T>, s: Queue<T>, n: nat, least: nat, arg: T)
    requires 0 < |q.storage| && 0 < |q.consumers| == |q.cursors| == |q.received|
    requires q.producer.PScan? && n + 1 < |q.cursors|
    requires s == q.(producer := q.producer.(next := n, least := least))
    ensures Step(s, Produce(arg)) == q.(producer := q.producer.(next := n + 1, least := Least(q.cursors, n, least)))
  {
  }

  /** A scan that nothing interrupts reads the cursors as they are. */
  lemma {:induction false} ScansAlone<T>(cap: nat, consumers: nat, schedule: seq<Action<T>>, args: seq<T>)
      returns (least: nat)
    requires cap > 0 && consumers > 0 && |args| < consumers
    requires Run(cap, consumers, schedule).producer.PScan? && Run(cap, consumers, schedule).producer.next == 0
    ensures var q := Run(cap, consumers, schedule);
            && Run(cap, consumers, schedule + Pushes(args))
               == q.(producer := q.producer.(next := |args|, least := least))
            && IsLeast(q.cursors[..|args|], least)
  {
    var q := Run(cap, consumers, schedule);
    hide Run, IsLeast, Step, Least;
    if args == [] {
      least := q.producer.least;
      assert schedule + Pushes(args) == schedule;
      NoLeast(q.cursors[..0], least);
    } else {
      var n := |args| - 1;
      var l := ScansAlone(cap, consumers, schedule, args[..n]);
      OnePush(cap, consumers, schedule, args);
      hide Pushes;
      ReadNext(q, Run(cap, consumers, schedule + Pushes(args[..n])), n, l, args[n]);
      LeastOfFirst(q.cursors, n, l);
      least := Least(q.cursors, n, l);
    }
  }

  lemma NoLeast(met: seq<nat>, least: nat)
    requires met == []
    ensures IsLeast(met, least)
  {
  }

  /** Some consumer has not passed the element of this position yet. */
  ghost predicate Behind(cursors: seq<nat>, pos: int) {
    exists c :: 0 <= c < |cursors| && cursors[c] <= pos
  }

  lemma ReadsLast<T>(q: Queue<T>, s: Queue<T>, least: nat, arg: T)
    requires 0 < |q.storage| && 0 < |q.consumers| == |q.cursors| == |q.received|
    requires q.producer.PScan? && IsLeast(q.cursors[..|q.cursors| - 1], least)
    requires s == q.(producer := q.producer.(next := |q.cursors| - 1, least := least))
    ensures Step(s, Produce(arg)) == AfterScan(q)
  {
    hide IsLeast, Behind;
    var n := |q.cursors| - 1;
    LeastOfFirst(q.cursors, n, least);
    assert q.cursors[..n + 1] == q.cursors;
    LeastDecides(q.cursors, Least(q.cursors, n, least), q.producer.pos - |q.storage|);
    BehindMeans(q.cursors, q.producer.pos - |q.storage|);
  }

  ghost function AfterScan<T>(q: Queue<T>): Queue<T>
    requires q.producer.PScan?
  {
    q.(producer := if Behind(q.cursors, q.producer.pos - |q.storage|) then PIdle
                   else PDestroy(q.producer.arg, q.producer.pos))
  }

  lemma ScansAll<T>(cap: nat, consumers: nat, schedule: seq<Action<T>>, args: seq<T>)
    requires cap > 1 && consumers > 0 && |args| == consumers
    requires Run(cap, consumers, schedule).producer.PScan? && Run(cap, consumers, schedule).producer.next == 0
    ensures Run(cap, consumers, schedule + Pushes(args)) == AfterScan(Run(cap, consumers, schedule))
  {
    var q := Run(cap, consumers, schedule);
    var init := args[..consumers - 1];
    hide Run, IsLeast, AfterScan, Step, Pushes;
    var least := ScansAlone(cap, consumers, schedule, init);
    OnePush(cap, consumers, schedule, args);
    ReadsLast(q, Run(cap, consumers, schedule + Pushes(init)), least, args[consumers - 1]);
  }

  lemma BehindMeans(cursors: seq<nat>, pos: int)
    ensures Behind(cursors, pos) <==> exists c :: 0 <= c < |cursors| && cursors[c] <= pos
  {
  }

  /** The last three steps of a push, and the last two. */
  lemma Publishes<T>(q: Queue<T>, w1: T, w2: T, w3: T)
    requires 0 < |q.storage| && 0 < |q.consumers| == |q.cursors| == |q.received|
    requires q.producer.PDestroy? || q.producer.PConstruct?
    requires q.producer.pos == q.published
    ensures var q2 := Step(Step(q, Produce(w1)), Produce(w2));
            var r := if q.producer.PConstruct? then q2 else Step(q2, Produce(w3));
            && r.producer.PIdle? && r.pushed == q.pushed + [q.producer.arg] && r.published == q.published + 1
            && r.cursors == q.cursors && r.consumers == q.consumers && r.received == q.received
  {
    hide Slot, AllPast;
  }

  /** The first step of a push. */
  lemma Begins<T>(q: Queue<T>, v: T)
    requires 0 < |q.storage| && 0 < |q.consumers| == |q.cursors| == |q.received| && q.producer.PIdle?
    ensures var r := Step(q, Produce(v));
            && r == q.(producer := r.producer) && r.producer.pos == q.published && r.producer.arg == v
            && (if q.published < |q.storage| then r.producer.PConstruct? else r.producer.PScan? && r.producer.next == 0)
  {
    hide Slot, AllPast;
  }

  lemma Rest<T>(schedule: seq<Action<T>>, args: seq<T>, k: nat, n: nat)
    requires k <= n <= |args|
    ensures schedule + Pushes(args[..k]) + Pushes(args[k..n]) == schedule + Pushes(args[..n])
  {
  }

  lemma MorePushes<T>(cap: nat, consumers: nat, schedule: seq<Action<T>>, args: seq<T>, k: nat)
    requires cap > 0 && consumers > 0 && k < |args|
    ensures Run(cap, consumers, schedule + Pushes(args[..k + 1]))
            == Step(Run(cap, consumers, schedule + Pushes(args[..k])), Produce(args[k]))
  {
    OnePush(cap, consumers, schedule, args[..k + 1]);
    assert args[..k + 1][..k] == args[..k];
  }

  lemma FirstPush<T>(schedule: seq<Action<T>>, args: seq<T>)
    requires args != []
    ensures schedule + [Produce(args[0])] == schedule + Pushes(args[..1])
    ensures schedule + Pushes(args[..1]) + Pushes(args[1..1]) == schedule + Pushes(args[..1])
  {
  }

  /** What is left of a push that may use its slot, k steps into it. */
  lemma ThreeMore<T>(cap: nat, consumers: nat, schedule: seq<Action<T>>, args: seq<T>, k: nat) returns (r: Queue<T>)
    requires cap > 0 && consumers > 0 && k + 3 <= |args|
    requires var q := Run(cap, consumers, schedule + Pushes(args[..k]));
             (q.producer.PDestroy? || q.producer.PConstruct?) && q.producer.pos == q.published
    ensures var q := Run(cap, consumers, schedule + Pushes(args[..k]));
            && r == Run(cap, consumers, schedule + Pushes(args[..if q.producer.PConstruct? then k + 2 else k + 3]))
            && r.producer.PIdle? && r.pushed == q.pushed + [q.producer.arg] && r.published == q.published + 1
            && r.cursors == q.cursors && r.consumers == q.consumers && r.received == q.received
  {
    var q := Run(cap, consumers, schedule + Pushes(args[..k]));
    hide Run, Step, Pushes;
    MorePushes(cap, consumers, schedule, args, k);
    MorePushes(cap, consumers, schedule, args, k + 1);
    MorePushes(cap, consumers, schedule, args, k + 2);
    Publishes(q, args[k], args[k + 1], args[k + 2]);
    r := Run(cap, consumers, schedule + Pushes(args[..if q.producer.PConstruct? then k + 2 else k + 3]));
  }

  /** After any schedule, a push that nothing interrupts: it is refused when some consumer has not passed the
      element one lap back, and otherwise publishes what it was called with. */
  lemma PushAlone<T>(cap: nat, consumers: nat, schedule: seq<Action<T>>, args: seq<T>) returns (r: Queue<T>)
    requires cap > 1 && consumers > 0 && Run(cap, consumers, schedule).producer.PIdle? && |args| == consumers + 4
    ensures var q := Run(cap, consumers, schedule);
            var refused := Behind(q.cursors, q.published - cap);
            var steps := if q.published < cap then 3 else if refused then consumers + 1 else consumers + 4;
            && r == Run(cap, consumers, schedule + Pushes(args[..steps]))
            && r.producer.PIdle?
            && (refused ==> r == q)
            && (!refused ==> r.pushed == q.pushed + [args[0]] && r.published == q.published + 1)
            && r.cursors == q.cursors && r.consumers == q.consumers && r.received == q.received
  {
    var q := Run(cap, consumers, schedule);
    assert Shape(q) by { RunInv(cap, consumers, schedule); }
    BehindMeans(q.cursors, q.published - cap);
    Begins(q, args[0]);
    hide Run, Step, Behind, Pushes, Shape;
    var s1, q1 := Extend(cap, consumers, schedule, q, Produce(args[0]));
    var n := if q.published < cap then 1 else consumers + 1;
    Rest(schedule, args, 1, n);
    FirstPush(schedule, args);
    if q.published < cap {
      r := ThreeMore(cap, consumers, schedule, args, 1);
    } else {
      ScansAll(cap, consumers, s1, args[1..n]);
      r := Run(cap, consumers, schedule + Pushes(args[..n]));
      if !Behind(q.cursors, q.published - cap) {
        r := ThreeMore(cap, consumers, schedule, args, n);
      }
    }
  }

  /** The first two steps of a try_pop, and the last two. */
  lemma Looks<T>(q: Queue<T>, c: nat)
    requires 0 < |q.storage| && 0 < |q.consumers| == |q.cursors| == |q.received| && c < |q.consumers|
    requires q.consumers[c].CIdle?
    ensures Step(Step(q, Consume(c)), Consume(c))
            == if q.cursors[c] == q.published then q else Goto(q, c, CCopy(q.cursors[c]))
  {
    var q1 := Step(q, Consume(c));
    assert Goto(q1, c, CIdle).consumers == q.consumers;
  }

  lemma Copies<T>(q: Queue<T>, c: nat, v: T)
    requires 0 < |q.storage| && 0 < |q.consumers| == |q.cursors| == |q.received| && c < |q.consumers|
    requires q.consumers[c].CCopy? && q.storage[Slot(q.consumers[c].cur, |q.storage|)] == Live(v)
    ensures var r := Step(Step(q, Consume(c)), Consume(c));
            && r.consumers[c].CIdle? && r.received == q.received[c := q.received[c] + [v]]
            && r.cursors == q.cursors[c := q.consumers[c].cur + 1]
            && r.pushed == q.pushed && r.producer == q.producer && r.storage == q.storage
  {
  }

  /** After any schedule, a try_pop that nothing interrupts: it returns the next element pushed that the consumer
      has not had, or answers empty when it has had them all. */
  lemma PopAlone<T>(cap: nat, consumers: nat, schedule: seq<Action<T>>, c: nat) returns (r: Queue<T>)
    requires cap > 1 && c < consumers && Run(cap, consumers, schedule).consumers[c].CIdle?
    ensures var q, pop := Run(cap, consumers, schedule), Consume(c);
            if q.received[c] == q.pushed then r == q && r == Run(cap, consumers, schedule + [pop, pop])
            else && r == Run(cap, consumers, schedule + [pop, pop, pop, pop])
                 && r.consumers[c].CIdle? && |q.received[c]| < |q.pushed|
                 && r.received == q.received[c := q.received[c] + [q.pushed[|q.received[c]|]]]
                 && r.pushed == q.pushed && r.producer == q.producer && r.storage == q.storage
  {
    var q, pop := Run(cap, consumers, schedule), Consume(c);
    RunInv(cap, consumers, schedule);
    assert ConsumerOk(q, c);
    assert |q.received[c]| == q.cursors[c];
    hide Run;
    Looks(q, c);
    var s1, q1 := Extend(cap, consumers, schedule, q, pop);
    var s2, q2 := Extend(cap, consumers, s1, q1, pop);
    r := q2;
    assert s2 == schedule + [pop, pop];
    if q.received[c] != q.pushed {
      RunInv(cap, consumers, s2);
      CopySlot(q2, c);
      hide Inv, Step;
      Copies(q2, c, q.pushed[q.cursors[c]]);
      var s3, q3 := Extend(cap, consumers, s2, q2, pop);
      var s4, q4 := Extend(cap, consumers, s3, q3, pop);
      assert s4 == schedule + [pop, pop, pop, pop];
      r := q4;
    }
  }

  ghost predicate Quiet<T>(q: Queue<T>) {
    q.producer.PIdle? && forall c :: 0 <= c < |q.consumers| ==> q.consumers[c].CIdle?
  }

  lemma QuietStorage<T>(q: Queue<T>)
    requires Inv(q) && Quiet(q)
    ensures var cap, head := |q.storage|, |q.pushed|;
            var tail := if head >= cap then head - cap else 0;
            && (forall p :: tail <= p < head ==> q.storage[Slot(p, cap)] == Live(q.pushed[p]))
            && (forall p :: head <= p < tail + cap ==> q.storage[Slot(p, cap)] == Raw)
  {
    var cap, head := |q.storage|, |q.pushed|;
    var tail := if head >= cap then head - cap else 0;
    forall p | tail <= p < head ensures q.storage[Slot(p, cap)] == Live(q.pushed[p]) {
      assert StorageOk(q, p);
    }
    forall p | head <= p < tail + cap ensures q.storage[Slot(p, cap)] == Raw {
      assert StorageOk(q, p - cap);
    }
  }

  /** The last min(published, Capacity) pushes. */
  ghost function LastLap<T>(q: Queue<T>): seq<T> {
    q.pushed[if |q.pushed| >= |q.storage| then |q.pushed| - |q.storage| else 0..]
  }

  /** Some slots, no slot twice, hold these values, and no other slot holds any. */
  ghost predicate LiveSlots<T>(storage: seq<Storage<T>>, values: seq<T>, slots: seq<nat>) {
    && HoldEach(storage, values, slots)
    && (forall j, k :: 0 <= j < k < |slots| ==> slots[j] != slots[k])
    && (forall i :: 0 <= i < |storage| && i !in slots ==> storage[i] == Raw)
  }

  ghost predicate HoldEach<T>(storage: seq<Storage<T>>, values: seq<T>, slots: seq<nat>) {
    && |slots| == |values|
    && forall k :: 0 <= k < |slots| ==> slots[k] < |storage| && storage[slots[k]] == Live(values[k])
  }

  /** From tail on the live pushes of one lap are still there, and every other slot is raw. */
  ghost predicate LeftOver<T>(storage: seq<Storage<T>>, pushed: seq<T>, tail: nat) {
    && |storage| > 1 && tail <= |pushed| <= tail + |storage|
    && forall p :: tail <= p < tail + |storage| ==>
         storage[Slot(p, |storage|)] == if p < |pushed| then Live(pushed[p]) else Raw
  }

  lemma SlotsOfOneLap(tail: nat, slots: seq<nat>, cap: nat)
    requires cap > 1 && |slots| <= cap && forall k :: 0 <= k < |slots| ==> slots[k] == Slot(tail + k, cap)
    ensures forall j, k :: 0 <= j < k < |slots| ==> slots[j] != slots[k]
  {
    hide Slot;
    forall j, k | 0 <= j < k < |slots| ensures slots[j] != slots[k] { SlotApart(tail + j, tail + k, cap); }
  }

  lemma OthersAreRaw<T>(storage: seq<Storage<T>>, pushed: seq<T>, tail: nat, slots: seq<nat>, i: nat)
    requires LeftOver(storage, pushed, tail) && |slots| == |pushed| - tail && i < |storage| && i !in slots
    requires forall k :: 0 <= k < |slots| ==> slots[k] == Slot(tail + k, |storage|)
    ensures storage[i] == Raw
  {
    hide Slot;
    var p := SlotCovered(tail, i, |storage|);
    if storage[i] != Raw {
      InLap(tail, slots, |storage|, p);
    }
  }

  lemma InLap(tail: nat, slots: seq<nat>, cap: nat, p: nat)
    requires cap > 1 && tail <= p < tail + |slots| && forall k :: 0 <= k < |slots| ==> slots[k] == Slot(tail + k, cap)
    ensures Slot(p, cap) in slots
  {
    assert slots[p - tail] == Slot(tail + (p - tail), cap);
  }

  lemma SlotHolds<T>(storage: seq<Storage<T>>, pushed: seq<T>, tail: nat, k: nat)
    requires LeftOver(storage, pushed, tail) && tail + k < |pushed|
    ensures storage[Slot(tail + k, |storage|)] == Live(pushed[tail + k])
  {
    hide Slot;
  }

  lemma LapHolds<T>(storage: seq<Storage<T>>, pushed: seq<T>, tail: nat, slots: seq<nat>)
    requires LeftOver(storage, pushed, tail) && |slots| == |pushed| - tail
    requires forall k :: 0 <= k < |slots| ==> slots[k] == Slot(tail + k, |storage|)
    ensures HoldEach(storage, pushed[tail..], slots)
  {
    var cap := |storage|;
    assert cap > 1 && tail <= |pushed|;
    hide Slot, LeftOver;
    forall k | 0 <= k < |slots| ensures slots[k] < cap && storage[slots[k]] == Live(pushed[tail..][k]) {
      SlotHolds(storage, pushed, tail, k);
    }
  }

  lemma LapIsLive<T>(storage: seq<Storage<T>>, pushed: seq<T>, tail: nat, slots: seq<nat>)
    requires LeftOver(storage, pushed, tail) && |slots| == |pushed| - tail
    requires forall k :: 0 <= k < |slots| ==> slots[k] == Slot(tail + k, |storage|)
    ensures LiveSlots(storage, pushed[tail..], slots)
  {
    var cap := |storage|;
    assert cap > 1 && tail <= |pushed|;
    hide Slot, LeftOver, HoldEach;
    SlotsOfOneLap(tail, slots, cap);
    LapHolds(storage, pushed, tail, slots);
    forall i | 0 <= i < cap && i !in slots ensures storage[i] == Raw {
      OthersAreRaw(storage, pushed, tail, slots, i);
    }
  }

  lemma OneDestroyed<T>(storage: seq<Storage<T>>, pushed: seq<T>, tail: nat)
    requires LeftOver(storage, pushed, tail) && tail < |pushed|
    ensures storage[Slot(tail, |storage|)].Live?
    ensures LeftOver(storage[Slot(tail, |storage|) := Raw], pushed, tail + 1)
  {
    var cap := |storage|;
    forall p | tail < p < tail + cap ensures Slot(p, cap) != Slot(tail, cap) { SlotApart(tail, p, cap); }
    assert Slot(tail + cap, cap) == Slot(tail, cap);
  }

  lemma NothingLeft<T>(storage: seq<Storage<T>>, pushed: seq<T>)
    requires LeftOver(storage, pushed, |pushed|)
    ensures forall i :: 0 <= i < |storage| ==> storage[i] == Raw
  {
    forall i | 0 <= i < |storage| ensures storage[i] == Raw {
      var p := SlotCovered(|pushed|, i, |storage|);
    }
  }

  lemma QuietIsLeftOver<T>(q: Queue<T>, tail: nat)
    requires Inv(q) && Quiet(q) && tail == if q.published >= |q.storage| then q.published - |q.storage| else 0
    ensures q.published == |q.pushed| && LeftOver(q.storage, q.pushed, tail)
  {
    hide Slot;
    QuietStorage(q);
  }

  /** The destructor, once every thread is done: what it destroys, oldest first, are exactly the live objects,
      the last min(published, Capacity) pushes, each once, and nothing is left. */
  method Destroy<T>(q: Queue<T>) returns (storage: seq<Storage<T>>, destroyed: seq<nat>)
    requires Inv(q) && Quiet(q)
    ensures |storage| == |q.storage|
    ensures forall i :: 0 <= i < |storage| ==> storage[i] == Raw
    ensures LiveSlots(q.storage, LastLap(q), destroyed)
  {
    hide LiveSlots, LeftOver, Slot;
    storage, destroyed := q.storage, [];
    var cap, head := |q.storage|, q.published;
    var tail := if head >= cap then head - cap else 0;
    ghost var oldest := tail;
    QuietIsLeftOver(q, tail);
    hide Inv;
    while tail != head
      invariant oldest <= tail <= head && |storage| == cap && |destroyed| == tail - oldest
      invariant forall k :: 0 <= k < |destroyed| ==> destroyed[k] == Slot(oldest + k, cap)
      invariant LeftOver(storage, q.pushed, tail)
      decreases head - tail
    {
      OneDestroyed(storage, q.pushed, tail);
      var slot := Slot(tail, cap);
      assert storage[slot].Live?;
      storage := storage[slot := Raw];
      destroyed := destroyed + [slot];
      tail := tail + 1;
    }
    LapIsLive(q.storage, q.pushed, oldest, destroyed);
    NothingLeft(storage, q.pushed);
  }
}
