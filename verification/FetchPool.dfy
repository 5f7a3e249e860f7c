/** The fetch pool, the streams' sliding windows and their slot rings, as one system.

    Threads: the source thread, which pumps fetches and takes files for every stream; any number
    of workers; one closer in quiesce. One step per access to shared state. The task queue is the
    first-in-first-out queue that WorkQueue.RefinesFifo shows the ring to be. */
module FetchPool {
  import opened Ring

  datatype Status = Ok | NotFound | ServerError | TransportError | ZipError | Cancelled

  datatype File = File(body: string, status: Status)

  /** The position of one stream's plan. */
  datatype Ticket = Ticket(stream: nat, at: nat)

  datatype Task = Task(destination: Option<Ticket>)

  datatype Cell = Cell(stamp: nat, storage: Storage<File>)

  /** One stream: its plan length, its window and its slot ring, and the files it has read. */
  datatype Stream = Stream(planned: nat, depth: nat, fetch: nat, read: nat, cells: seq<Cell>, files: seq<File>)

  /** Where the source thread stands: in submit (S) or in take (T). */
  datatype Source =
    | Idle
    | SEnter(task: Task)               // about to raise submits_active_
    | STest(task: Task)                // about to test stopping_
    | SPush(task: Task)
    | SCount(task: Task)               // pushed, about to raise submitted_
    | SQueue(task: Task)               // about to raise queued_
    | SLeave(task: Task, ok: bool)     // about to lower submits_active_
    | TInspect(stream: nat)            // about to read the stamp of read_cursor_
    | TMove(stream: nat)
    | TDestroy(stream: nat, file: File)
    | TRelease(stream: nat, file: File)

  datatype Worker =
    | WTest                            // first test of stopping_
    | WPop
    | WRetest                          // queue was empty, second test of stopping_
    | WLower(task: Task)               // popped, about to lower queued_
    | WFetch(task: Task)
    | WNote(task: Task, file: File)    // about to count the completion
    | WInspect(task: Task, file: File) // delivering
    | WConstruct(task: Task, file: File)
    | WPublish(task: Task, file: File)
    | WExit

  datatype Closer =
    | KOpen
    | KJoin                            // stopping_ set
    | KWait                            // workers joined, about to read submits_active_
    | KPop
    | KLower(task: Task)
    | KCount(task: Task)
    | KInspect(task: Task)
    | KConstruct(task: Task)
    | KPublish(task: Task)
    | KDone

  /** The threads that take tasks off the queue. */
  datatype Agent = AWorker(index: nat) | ACloser

  /** Where an accepted fetch is. */
  datatype Place = Queued | InHand(agent: Agent) | Landed(file: File)

  datatype Counts = Counts(
    queued: int,
    submitted: nat,
    refused: nat,
    completedOk: nat,
    completedFailed: nat,
    cancelled: nat,
    cancellationsDropped: nat)

  datatype Pool = Pool(
    cap: nat,                          // slots of every ring
    taskCap: nat,
    stopping: bool,
    submitsActive: nat,
    tasks: seq<Task>,
    counts: Counts,
    source: Source,
    workers: seq<Worker>,
    closer: Closer,
    streams: seq<Stream>,
    place: map<Ticket, Place>)         // history of every accepted fetch with a destination

  /** One scheduler choice, with the outcomes the model leaves open: which call the source thread
      makes next, whether the ring of tasks has room, how a fetch ends. */
  datatype Action =
    | Pump(stream: nat)
    | SubmitLoose                      // a submit without destination
    | Take(stream: nat)
    | GoSource(room: bool)
    | GoWorker(worker: nat, fetched: File)
    | GoCloser

  function Opened(setup: Setup): Pool {
    var plans := setup.plans;
    Pool(setup.cap, setup.taskCap, false, 0, [], Counts(0, 0, 0, 0, 0, 0, 0), Idle,
         seq(setup.workers, _ => WTest), KOpen,
         seq(|plans|, d requires 0 <= d < |plans| => NewStream(setup.cap, plans[d].0, plans[d].1)), map[])
  }

  /** depth_ is clamped to at least one fetch and at most the ring. */
  function NewStream(cap: nat, planned: nat, prefetch: nat): Stream {
    Stream(planned, if cap < 1 then cap else if prefetch < 1 then 1 else if prefetch > cap then cap else prefetch,
           0, 0, seq(cap, i requires 0 <= i < cap => Cell(i, Raw)), [])
  }

  predicate Sized(s: Pool) {
    s.cap > 1 && forall d :: 0 <= d < |s.streams| ==> |s.streams[d].cells| == s.cap
  }

  predicate Valid(s: Pool, task: Task) {
    task.destination.Some? ==> task.destination.value.stream < |s.streams|
  }

  function CellOf(s: Pool, t: Ticket): Cell
    requires Sized(s) && t.stream < |s.streams|
  {
    s.streams[t.stream].cells[Slot(t.at, s.cap)]
  }

  function SetCell(s: Pool, t: Ticket, cell: Cell): (r: Pool)
    requires Sized(s) && t.stream < |s.streams|
    ensures Sized(r) && r.cap == s.cap && |r.streams| == |s.streams|
  {
    var stream := s.streams[t.stream];
    s.(streams := s.streams[t.stream := stream.(cells := stream.cells[Slot(t.at, s.cap) := cell])])
  }

  function IsFailure(status: Status): bool {
    status != Ok
  }

  // ------------------------------------------------------------- source thread

  /** The next fetch stream d would ask for, when its window has room. */
  function NextTicket(s: Pool, d: nat): Option<Ticket> {
    if d < |s.streams| && s.streams[d].fetch < s.streams[d].planned
       && s.streams[d].fetch - s.streams[d].read < s.streams[d].depth
    then Some(Ticket(d, s.streams[d].fetch)) else None
  }

  predicate Submitting(pc: Source) {
    pc.SEnter? || pc.STest? || pc.SPush? || pc.SCount? || pc.SQueue? || pc.SLeave?
  }

  function SubmitStep(s: Pool, room: bool): (r: Pool)
    requires Sized(s) && Submitting(s.source)
    ensures Sized(r) && r.cap == s.cap && |r.streams| == |s.streams|
  {
    match s.source
    case SEnter(task) => s.(submitsActive := s.submitsActive + 1, source := STest(task))
    case STest(task) => s.(source := if s.stopping then SLeave(task, false) else SPush(task))
    case SPush(task) =>
      if room && |s.tasks| < s.taskCap then
        s.(tasks := s.tasks + [task], source := SCount(task),
           place := if task.destination.Some? then s.place[task.destination.value := Queued] else s.place)
      else
        s.(counts := s.counts.(refused := s.counts.refused + 1), source := SLeave(task, false))
    case SCount(task) => s.(counts := s.counts.(submitted := s.counts.submitted + 1), source := SQueue(task))
    case SQueue(task) => s.(counts := s.counts.(queued := s.counts.queued + 1), source := SLeave(task, true))
    case SLeave(task, ok) =>
      var r := s.(submitsActive := if s.submitsActive > 0 then s.submitsActive - 1 else 0, source := Idle);
      if ok && task.destination.Some? && task.destination.value.stream < |s.streams| then
        var d := task.destination.value.stream;
        r.(streams := s.streams[d := s.streams[d].(fetch := s.streams[d].fetch + 1)])
      else r
  }

  function TakeStep(s: Pool): (r: Pool)
    requires Sized(s) && !Submitting(s.source)
    ensures Sized(r) && r.cap == s.cap && |r.streams| == |s.streams|
  {
    match s.source
    case Idle => s
    case TInspect(d) =>
      if d < |s.streams| && CellOf(s, Ticket(d, s.streams[d].read)).stamp == s.streams[d].read + 1
      then s.(source := TMove(d)) else s.(source := Idle)
    case TMove(d) =>
      if d < |s.streams| && CellOf(s, Ticket(d, s.streams[d].read)).storage.Live? then
        var t := Ticket(d, s.streams[d].read);
        SetCell(s, t, CellOf(s, t).(storage := MovedFrom)).(source := TDestroy(d, CellOf(s, t).storage.value))
      else s  // no object to move, ruled out by Inv
    case TDestroy(d, file) =>
      if d < |s.streams| then
        var t := Ticket(d, s.streams[d].read);
        SetCell(s, t, CellOf(s, t).(storage := Raw)).(source := TRelease(d, file))
      else s
    case TRelease(d, file) =>
      if d < |s.streams| then
        var t := Ticket(d, s.streams[d].read);
        var r := SetCell(s, t, CellOf(s, t).(stamp := t.at + s.cap));
        r.(source := Idle,
           streams := r.streams[d := r.streams[d].(read := t.at + 1, files := s.streams[d].files + [file])])
      else s
  }

  function SourceStep(s: Pool, room: bool): (r: Pool)
    requires Sized(s)
    ensures Sized(r) && r.cap == s.cap && |r.streams| == |s.streams|
  {
    if Submitting(s.source) then SubmitStep(s, room) else TakeStep(s)
  }

  // ------------------------------------------------------------------- workers

  function GotoW(s: Pool, w: nat, pc: Worker): Pool
    requires w < |s.workers|
  {
    s.(workers := s.workers[w := pc])
  }

  function Move(place: map<Ticket, Place>, task: Task, to: Place): map<Ticket, Place> {
    if task.destination.Some? then place[task.destination.value := to] else place
  }

  predicate Delivering(pc: Worker) {
    pc.WInspect? || pc.WConstruct? || pc.WPublish?
  }

  function TaskStep(s: Pool, w: nat, fetched: File): (r: Pool)
    requires Sized(s) && w < |s.workers| && !Delivering(s.workers[w])
    ensures Sized(r) && r.cap == s.cap && |r.streams| == |s.streams|
  {
    match s.workers[w]
    case WTest => GotoW(s, w, if s.stopping then WExit else WPop)
    case WPop =>
      if s.tasks == [] then GotoW(s, w, WRetest)
      else GotoW(s, w, WLower(s.tasks[0])).(tasks := s.tasks[1..],
                                            place := Move(s.place, s.tasks[0], InHand(AWorker(w))))
    case WRetest => GotoW(s, w, if s.stopping then WExit else WTest)
    case WLower(task) => GotoW(s, w, WFetch(task)).(counts := s.counts.(queued := s.counts.queued - 1))
    case WFetch(task) => GotoW(s, w, WNote(task, fetched))
    case WNote(task, file) =>
      var next := if task.destination.Some? then WInspect(task, file) else WTest;
      if IsFailure(file.status)
      then GotoW(s, w, next).(counts := s.counts.(completedFailed := s.counts.completedFailed + 1))
      else GotoW(s, w, next).(counts := s.counts.(completedOk := s.counts.completedOk + 1))
    case WExit => s
  }

  function DeliverStep(s: Pool, w: nat): (r: Pool)
    requires Sized(s) && w < |s.workers| && Delivering(s.workers[w])
    ensures Sized(r) && r.cap == s.cap && |r.streams| == |s.streams|
  {
    match s.workers[w]
    case WInspect(task, file) =>
      if task.destination.Some? && Valid(s, task) &&
          CellOf(s, task.destination.value).stamp == task.destination.value.at
      then GotoW(s, w, WConstruct(task, file))
      else GotoW(s, w, WTest).(counts := s.counts.(cancellationsDropped := s.counts.cancellationsDropped + 1))
    case WConstruct(task, file) =>
      if task.destination.Some? && Valid(s, task) then
        var t := task.destination.value;
        GotoW(SetCell(s, t, CellOf(s, t).(storage := Live(file))), w, WPublish(task, file))
      else s
    case WPublish(task, file) =>
      if task.destination.Some? && Valid(s, task) then
        var t := task.destination.value;
        GotoW(SetCell(s, t, CellOf(s, t).(stamp := t.at + 1)), w, WTest).(place := s.place[t := Landed(file)])
      else s
  }

  function WorkerStep(s: Pool, w: nat, fetched: File): (r: Pool)
    requires Sized(s) && w < |s.workers|
    ensures Sized(r) && r.cap == s.cap && |r.streams| == |s.streams|
  {
    if Delivering(s.workers[w]) then DeliverStep(s, w) else TaskStep(s, w, fetched)
  }

  // ------------------------------------------------------------------- quiesce

  const CANCELLATION := File("", Cancelled)

  function CloserStep(s: Pool): (r: Pool)
    requires Sized(s)
    ensures Sized(r) && r.cap == s.cap && |r.streams| == |s.streams|
  {
    match s.closer
    case KOpen => s.(stopping := true, closer := KJoin)
    case KJoin => if forall w :: 0 <= w < |s.workers| ==> s.workers[w] == WExit then s.(closer := KWait) else s
    case KWait => if s.submitsActive > 0 then s else s.(closer := KPop)
    case KPop =>
      if s.tasks == [] then s.(closer := KDone)
      else s.(closer := KLower(s.tasks[0]), tasks := s.tasks[1..], place := Move(s.place, s.tasks[0], InHand(ACloser)))
    case KLower(task) => s.(counts := s.counts.(queued := s.counts.queued - 1), closer := KCount(task))
    case KCount(task) =>
      s.(counts := s.counts.(cancelled := s.counts.cancelled + 1, completedFailed := s.counts.completedFailed + 1),
         closer := if task.destination.Some? then KInspect(task) else KPop)
    case KInspect(task) =>
      if task.destination.Some? && Valid(s, task) &&
          CellOf(s, task.destination.value).stamp == task.destination.value.at
      then s.(closer := KConstruct(task))
      else s.(closer := KPop, counts := s.counts.(cancellationsDropped := s.counts.cancellationsDropped + 1))
    case KConstruct(task) =>
      if task.destination.Some? && Valid(s, task) then
        var t := task.destination.value;
        SetCell(s, t, CellOf(s, t).(storage := Live(CANCELLATION))).(closer := KPublish(task))
      else s
    case KPublish(task) =>
      if task.destination.Some? && Valid(s, task) then
        var t := task.destination.value;
        SetCell(s, t, CellOf(s, t).(stamp := t.at + 1)).(closer := KPop, place := s.place[t := Landed(CANCELLATION)])
      else s
    case KDone => s
  }

  function Step(s: Pool, a: Action): (r: Pool)
    requires Sized(s)
    ensures Sized(r) && r.cap == s.cap && |r.streams| == |s.streams|
  {
    match a
    case Pump(d) =>
      if s.source.Idle? && NextTicket(s, d).Some? then s.(source := SEnter(Task(NextTicket(s, d)))) else s
    case SubmitLoose => if s.source.Idle? then s.(source := SEnter(Task(None))) else s
    case Take(d) => if s.source.Idle? && d < |s.streams| then s.(source := TInspect(d)) else s
    case GoSource(room) => SourceStep(s, room)
    case GoWorker(w, fetched) => if w < |s.workers| then WorkerStep(s, w, fetched) else s
    case GoCloser => CloserStep(s)
  }

  /** A pool and its streams as built: every plan is a file count and a prefetch depth. */
  datatype Setup = Setup(cap: nat, taskCap: nat, workers: nat, plans: seq<(nat, nat)>)

  /** The state after any sequence of scheduler choices. */
  function After(setup: Setup, schedule: seq<Action>): (s: Pool)
    requires setup.cap > 1
    ensures Sized(s) && s.cap == setup.cap && |s.streams| == |setup.plans|
  {
    if schedule == [] then Opened(setup)
    else Step(After(setup, schedule[..|schedule| - 1]), schedule[|schedule| - 1])
  }

  // ---------------------------------------------------------------- invariant

  predicate IsAgent(s: Pool, a: Agent) {
    a.AWorker? ==> a.index < |s.workers|
  }

  /** The fetch in an agent's hands, if it has a destination. */
  function Hand(s: Pool, a: Agent): Option<Ticket>
    requires IsAgent(s, a)
  {
    match a
    case AWorker(w) =>
      var pc := s.workers[w];
      if pc.WLower? || pc.WFetch? || pc.WNote? || pc.WInspect? || pc.WConstruct? || pc.WPublish?
      then pc.task.destination else None
    case ACloser =>
      var pc := s.closer;
      if pc.KLower? || pc.KCount? || pc.KInspect? || pc.KConstruct? || pc.KPublish?
      then pc.task.destination else None
  }

  /** The file an agent has constructed in its slot and not published yet. */
  function Constructed(s: Pool, a: Agent): Option<File>
    requires IsAgent(s, a)
  {
    match a
    case AWorker(w) => if s.workers[w].WPublish? then Some(s.workers[w].file) else None
    case ACloser => if s.closer.KPublish? then Some(CANCELLATION) else None
  }

  /** The submit in progress has pushed its task. */
  predicate Pushed(pc: Source) {
    pc.SCount? || pc.SQueue? || (pc.SLeave? && pc.ok)
  }

  predicate Taking(pc: Source) {
    pc.TMove? || pc.TDestroy? || pc.TRelease?
  }

  /** Fetches of stream d the pool has accepted. */
  function Accepted(s: Pool, d: nat): nat
    requires d < |s.streams|
  {
    s.streams[d].fetch
    + if Pushed(s.source) && s.source.task.destination.Some? &&
        s.source.task.destination.value.stream == d then 1 else 0
  }

  /** Every window keeps within its depth, and a depth within the ring. */
  ghost predicate StreamOk(s: Pool, d: nat)
    requires d < |s.streams|
  {
    var stream := s.streams[d];
    && |stream.cells| == s.cap && 1 <= stream.depth <= s.cap
    && stream.read <= stream.fetch <= stream.planned
    && stream.fetch - stream.read <= stream.depth
    && |stream.files| == stream.read
  }

  ghost predicate SourceOk(s: Pool) {
    var pc := s.source;
    && s.submitsActive == (if Submitting(pc) && !pc.SEnter? then 1 else 0)
    && (Submitting(pc) && pc.task.destination.Some? ==>
          var t := pc.task.destination.value;
          && t.stream < |s.streams| && s.streams[t.stream].fetch == t.at < s.streams[t.stream].planned
          && t.at - s.streams[t.stream].read < s.streams[t.stream].depth)
    && (pc.TInspect? || Taking(pc) ==> pc.stream < |s.streams|)
    && (Taking(pc) ==>
          var t := Ticket(pc.stream, s.streams[pc.stream].read);
          t in s.place && s.place[t].Landed? && (!pc.TMove? ==> s.place[t].file == pc.file))
  }

  /** The closer past its wait has seen every submit that could still push finish. */
  ghost predicate CloserOk(s: Pool) {
    var pc := s.closer;
    && (!pc.KOpen? ==> s.stopping)
    && (!pc.KOpen? && !pc.KJoin? ==> forall w :: 0 <= w < |s.workers| ==> s.workers[w] == WExit)
    && (!pc.KOpen? && !pc.KJoin? && !pc.KWait? ==> !Pushed(s.source) && !s.source.SPush?)
    && (pc.KDone? ==> s.tasks == [])
    && (pc.KInspect? || pc.KConstruct? || pc.KPublish? ==> pc.task.destination.Some?)
  }

  ghost predicate WorkerOk(s: Pool, w: nat)
    requires w < |s.workers|
  {
    var pc := s.workers[w];
    pc.WInspect? || pc.WConstruct? || pc.WPublish? ==> pc.task.destination.Some?
  }

  ghost predicate HandOk(s: Pool, a: Agent)
    requires IsAgent(s, a)
  {
    Hand(s, a).Some? ==> Hand(s, a).value in s.place && s.place[Hand(s, a).value] == InHand(a)
  }

  ghost predicate QueueOk(s: Pool) {
    && (forall k :: 0 <= k < |s.tasks| && s.tasks[k].destination.Some? ==>
          s.tasks[k].destination.value in s.place && s.place[s.tasks[k].destination.value] == Queued)
    && (forall j, k :: 0 <= j < k < |s.tasks| && s.tasks[j].destination.Some? ==>
          s.tasks[j].destination != s.tasks[k].destination)
  }

  /** An accepted fetch is where its place says, and nowhere once read. */
  ghost predicate PlaceOk(s: Pool, t: Ticket)
    requires t in s.place
  {
    && t.stream < |s.streams| && t.at < Accepted(s, t.stream)
    && (s.place[t].Queued? ==> Task(Some(t)) in s.tasks)
    && (s.place[t].InHand? ==> IsAgent(s, s.place[t].agent) && Hand(s, s.place[t].agent) == Some(t))
    && (t.at < s.streams[t.stream].read ==>
          s.place[t].Landed? && t.at < |s.streams[t.stream].files|
          && s.streams[t.stream].files[t.at] == s.place[t].file)
  }

  /** What the slot of an accepted and unread fetch holds. */
  ghost function Expected(s: Pool, t: Ticket): Cell
    requires t in s.place && PlaceOk(s, t)
  {
    match s.place[t]
    case Queued => Cell(t.at, Raw)
    case InHand(a) => Cell(t.at, if Constructed(s, a).Some? then Live(Constructed(s, a).value) else Raw)
    case Landed(file) =>
      var reading := Taking(s.source) && t == Ticket(s.source.stream, s.streams[t.stream].read);
      Cell(t.at + 1, if reading && s.source.TDestroy? then MovedFrom
                     else if reading && s.source.TRelease? then Raw else Live(file))
  }

  ghost predicate SlotOk(s: Pool, t: Ticket)
    requires Sized(s) && t.stream < |s.streams|
  {
    if t.at >= Accepted(s, t.stream) then CellOf(s, t) == Cell(t.at, Raw)
    else t in s.place && PlaceOk(s, t) && CellOf(s, t) == Expected(s, t)
  }

  ghost predicate InWindow(s: Pool, t: Ticket) {
    t.stream < |s.streams| && s.streams[t.stream].read <= t.at < s.streams[t.stream].read + s.cap
  }

  /** A task popped and not counted as completed, and one popped before queued_ is lowered. */
  function UncountedOf(pc: Worker): nat {
    if pc.WLower? || pc.WFetch? || pc.WNote? then 1 else 0
  }

  function UnloweredOf(pc: Worker): nat {
    if pc.WLower? then 1 else 0
  }

  function Uncounted(workers: seq<Worker>): nat {
    if workers == [] then 0 else UncountedOf(workers[0]) + Uncounted(workers[1..])
  }

  function Unlowered(workers: seq<Worker>): nat {
    if workers == [] then 0 else UnloweredOf(workers[0]) + Unlowered(workers[1..])
  }

  ghost predicate CountsOk(s: Pool) {
    && s.counts.submitted + (if s.source.SCount? then 1 else 0)
       == |s.tasks| + Uncounted(s.workers) + (if s.closer.KLower? || s.closer.KCount? then 1 else 0)
          + s.counts.completedOk + s.counts.completedFailed
    && s.counts.queued + (if s.source.SCount? || s.source.SQueue? then 1 else 0)
       == |s.tasks| + Unlowered(s.workers) + (if s.closer.KLower? then 1 else 0)
    && s.counts.cancellationsDropped == 0
  }

  /** Every accepted fetch with a destination has a place. */
  ghost predicate DomainOk(s: Pool) {
    forall t: Ticket {:trigger t in s.place} :: t.stream < |s.streams| && t.at < Accepted(s, t.stream) ==> t in s.place
  }

  ghost predicate Inv(s: Pool) {
    && Sized(s)
    && (forall d :: 0 <= d < |s.streams| ==> StreamOk(s, d))
    && SourceOk(s)
    && CloserOk(s)
    && (forall w :: 0 <= w < |s.workers| ==> WorkerOk(s, w))
    && (forall a :: IsAgent(s, a) ==> HandOk(s, a))
    && QueueOk(s)
    && (forall t :: t in s.place ==> PlaceOk(s, t))
    && (forall t :: InWindow(s, t) ==> SlotOk(s, t))
    && DomainOk(s)
    && CountsOk(s)
  }

  lemma OpenedInv(setup: Setup)
    requires setup.cap > 1
    ensures Inv(Opened(setup))
  {
    var s := Opened(setup);
    NoneBusy(s.workers);
    forall t | InWindow(s, t) ensures SlotOk(s, t) {
      assert Slot(t.at, s.cap) == t.at;
    }
  }

  lemma {:induction false} NoneBusy(workers: seq<Worker>)
    requires forall w :: 0 <= w < |workers| ==> workers[w] == WTest || workers[w] == WExit
    ensures Uncounted(workers) == Unlowered(workers) == 0
  {
    if workers != [] {
      NoneBusy(workers[1..]);
    }
  }

  lemma {:induction false} CountAfter(workers: seq<Worker>, w: nat, pc: Worker)
    requires w < |workers|
    ensures Uncounted(workers[w := pc]) == Uncounted(workers) - UncountedOf(workers[w]) + UncountedOf(pc)
    ensures Unlowered(workers[w := pc]) == Unlowered(workers) - UnloweredOf(workers[w]) + UnloweredOf(pc)
  {
    if w == 0 {
      assert workers[w := pc][1..] == workers[1..];
    } else {
      assert workers[w := pc][1..] == workers[1..][w - 1 := pc];
      CountAfter(workers[1..], w - 1, pc);
    }
  }

  // source thread

  /** The task being pushed is for a position never accepted before. */
  ghost predicate Fresh(s: Pool) {
    s.source.SPush? && s.source.task.destination.Some? ==> s.source.task.destination.value !in s.place
  }

  /** The slot under the read cursor, when the source thread is at it. */
  ghost predicate ReadSlotOk(s: Pool)
    requires Sized(s)
  {
    s.source.TInspect? || Taking(s.source) ==>
      && s.source.stream < |s.streams| && StreamOk(s, s.source.stream)
      && SlotOk(s, Ticket(s.source.stream, s.streams[s.source.stream].read))
  }

  lemma SourceKeepsStream(s: Pool, room: bool, d: nat)
    requires Sized(s) && d < |s.streams| && StreamOk(s, d) && SourceOk(s) && ReadSlotOk(s)
    requires forall t :: t in s.place ==> PlaceOk(s, t)
    ensures |SourceStep(s, room).streams| == |s.streams| && StreamOk(SourceStep(s, room), d)
  {
    if s.source.TRelease? && s.source.stream == d {
      assert PlaceOk(s, Ticket(d, s.streams[d].read));
    }
  }

  lemma SubmitKeepsItself(s: Pool, room: bool)
    requires Sized(s) && SourceOk(s) && Submitting(s.source)
    ensures SourceOk(SubmitStep(s, room))
  {
  }

  lemma TakeKeepsItself(s: Pool)
    requires Sized(s) && SourceOk(s) && ReadSlotOk(s) && !Submitting(s.source)
    ensures SourceOk(TakeStep(s))
  {
  }

  lemma SourceKeepsItself(s: Pool, room: bool)
    requires Sized(s) && SourceOk(s) && ReadSlotOk(s)
    ensures SourceOk(SourceStep(s, room))
  {
    if Submitting(s.source) { SubmitKeepsItself(s, room); } else { TakeKeepsItself(s); }
  }

  lemma TakeLeavesPlaces(s: Pool)
    requires Sized(s) && !Submitting(s.source)
    ensures var r := TakeStep(s);
            && r.place == s.place && r.tasks == s.tasks && r.workers == s.workers && r.closer == s.closer
            && r.counts == s.counts && r.stopping == s.stopping && !Submitting(r.source)
  {
  }

  lemma SourceKeepsCloser(s: Pool, room: bool)
    requires Sized(s) && SourceOk(s) && CloserOk(s) && Fresh(s)
    ensures CloserOk(SourceStep(s, room))
  {
    hide TakeStep;
    if !Submitting(s.source) { TakeLeavesPlaces(s); }
  }

  lemma SourceKeepsHand(s: Pool, room: bool, a: Agent)
    requires Sized(s) && Fresh(s) && IsAgent(s, a) && HandOk(s, a)
    ensures IsAgent(SourceStep(s, room), a) && HandOk(SourceStep(s, room), a)
  {
    hide TakeStep;
    if !Submitting(s.source) { TakeLeavesPlaces(s); }
  }

  lemma PushKeepsQueue(s: Pool, room: bool)
    requires Sized(s) && QueueOk(s) && Fresh(s) && s.source.SPush?
    ensures QueueOk(SubmitStep(s, room))
  {
  }

  lemma SourceKeepsQueue(s: Pool, room: bool)
    requires Sized(s) && QueueOk(s) && Fresh(s)
    ensures QueueOk(SourceStep(s, room))
  {
    if s.source.SPush? {
      PushKeepsQueue(s, room);
    } else {
      var r := SourceStep(s, room);
      assert r.tasks == s.tasks && r.place == s.place;
    }
  }

  lemma SubmitKeepsPlace(s: Pool, room: bool, t: Ticket)
    requires Sized(s) && SourceOk(s) && Submitting(s.source) && Fresh(s) && t in s.place && PlaceOk(s, t)
    ensures PlaceOk(SubmitStep(s, room), t)
  {
  }

  lemma SourceKeepsPlace(s: Pool, room: bool, t: Ticket)
    requires Sized(s) && SourceOk(s) && ReadSlotOk(s) && t in s.place && PlaceOk(s, t)
    requires Fresh(s)
    ensures PlaceOk(SourceStep(s, room), t)
  {
    if Submitting(s.source) {
      SubmitKeepsPlace(s, room, t);
    } else if s.source.TRelease? {
      ReleaseKeepsPlace(s, room, t);
    }
  }

  lemma ReleaseKeepsPlace(s: Pool, room: bool, t: Ticket)
    requires Sized(s) && SourceOk(s) && ReadSlotOk(s) && t in s.place && PlaceOk(s, t) && s.source.TRelease?
    ensures PlaceOk(SourceStep(s, room), t)
  {
    var d := s.source.stream;
    if t.stream == d {
      assert SourceStep(s, room).streams[d].files == s.streams[d].files + [s.source.file];
    }
  }

  lemma PushKeepsPlace(s: Pool, room: bool)
    requires Sized(s) && SourceOk(s) && s.source.SPush? && s.source.task.destination.Some?
    requires s.source.task.destination.value in SourceStep(s, room).place && Fresh(s)
    requires StreamOk(s, s.source.task.destination.value.stream)
    ensures PlaceOk(SourceStep(s, room), s.source.task.destination.value)
  {
    var r := SourceStep(s, room);
    assert r.tasks[|s.tasks|] == s.source.task;
  }

  lemma SubmitKeepsSlot(s: Pool, room: bool, t: Ticket)
    requires Sized(s) && SourceOk(s) && Submitting(s.source) && !s.source.SPush? && !s.source.SLeave?
    requires InWindow(s, t) && SlotOk(s, t)
    ensures SlotOk(SubmitStep(s, room), t)
  {
  }

  lemma LookKeepsSlot(s: Pool, t: Ticket)
    requires Sized(s) && (s.source.Idle? || s.source.TInspect?) && InWindow(s, t) && SlotOk(s, t)
    ensures SlotOk(TakeStep(s), t)
  {
  }

  lemma PushKeepsSlot(s: Pool, room: bool, t: Ticket)
    requires Sized(s) && SourceOk(s) && s.source.SPush? && Fresh(s)
    requires InWindow(s, t) && SlotOk(s, t) && StreamOk(s, t.stream) && (t in s.place ==> PlaceOk(s, t))
    ensures SlotOk(SourceStep(s, room), t)
  {
    if t in s.place {
      SourceKeepsPlace(s, room, t);
    } else if t in SourceStep(s, room).place {
      PushKeepsPlace(s, room);
    }
  }

  lemma LeaveKeepsSlot(s: Pool, room: bool, t: Ticket)
    requires Sized(s) && SourceOk(s) && s.source.SLeave?
    requires InWindow(s, t) && SlotOk(s, t)
    ensures SlotOk(SourceStep(s, room), t)
  {
  }

  /** Of the window only the slot under the read cursor is touched. */
  lemma TakeKeepsOther(s: Pool, t: Ticket)
    requires Sized(s) && SourceOk(s) && (s.source.TMove? || s.source.TDestroy?) && InWindow(s, t) && SlotOk(s, t)
    requires t != Ticket(s.source.stream, s.streams[s.source.stream].read)
    requires t in s.place ==> PlaceOk(TakeStep(s), t)
    ensures SlotOk(TakeStep(s), t)
  {
    if t.stream == s.source.stream {
      SlotApart(s.streams[s.source.stream].read, t.at, s.cap);
    }
  }

  lemma TakeKeepsSlot(s: Pool, room: bool, t: Ticket)
    requires Sized(s) && SourceOk(s) && ReadSlotOk(s) && (s.source.TMove? || s.source.TDestroy?)
    requires InWindow(s, t) && SlotOk(s, t) && (t in s.place ==> PlaceOk(s, t))
    ensures SlotOk(SourceStep(s, room), t)
  {
    if t in s.place {
      SourceKeepsPlace(s, room, t);
    }
    if t != Ticket(s.source.stream, s.streams[s.source.stream].read) {
      hide TakeStep, SlotOk, PlaceOk, ReadSlotOk;
      TakeLeavesPlaces(s);
      TakeKeepsOther(s, t);
    }
  }

  lemma ReleaseKeepsSlot(s: Pool, room: bool, t: Ticket)
    requires Sized(s) && SourceOk(s) && ReadSlotOk(s) && s.source.TRelease?
    requires InWindow(SourceStep(s, room), t)
    requires InWindow(s, t) ==> SlotOk(s, t)
    ensures SlotOk(SourceStep(s, room), t)
  {
    var read := s.streams[s.source.stream].read;
    if t.stream == s.source.stream && t.at < read + s.cap {
      SlotApart(read, t.at, s.cap);
    }
    if t in s.place && PlaceOk(s, t) {
      SourceKeepsPlace(s, room, t);
    }
  }

  lemma SubmitKeepsDomain(s: Pool, room: bool, t: Ticket)
    requires Sized(s) && SourceOk(s) && Submitting(s.source) && t.stream < |s.streams|
    requires t.at < Accepted(s, t.stream) ==> t in s.place
    requires |SubmitStep(s, room).streams| == |s.streams| && t.at < Accepted(SubmitStep(s, room), t.stream)
    ensures t in SubmitStep(s, room).place
  {
  }

  lemma SourceKeepsDomain(s: Pool, room: bool, t: Ticket)
    requires Sized(s) && SourceOk(s) && t.stream < |s.streams|
    requires t.at < Accepted(s, t.stream) ==> t in s.place
    requires |SourceStep(s, room).streams| == |s.streams| && t.at < Accepted(SourceStep(s, room), t.stream)
    ensures t in SourceStep(s, room).place
  {
    if Submitting(s.source) { SubmitKeepsDomain(s, room, t); }
  }

  lemma SubmitKeepsCounts(s: Pool, room: bool)
    requires Sized(s) && CountsOk(s) && Submitting(s.source)
    ensures CountsOk(SubmitStep(s, room))
  {
  }

  lemma TakeKeepsCounts(s: Pool)
    requires Sized(s) && CountsOk(s) && !Submitting(s.source)
    ensures CountsOk(TakeStep(s))
  {
    hide TakeStep;
    TakeLeavesPlaces(s);
  }

  /** What Inv says where the source thread is. */
  lemma InvAtSource(s: Pool)
    requires Inv(s)
    ensures Fresh(s) && ReadSlotOk(s)
  {
    if s.source.TInspect? || Taking(s.source) {
      assert StreamOk(s, s.source.stream);
      assert InWindow(s, Ticket(s.source.stream, s.streams[s.source.stream].read));
    }
  }

  lemma SourceLeavesAgents(s: Pool, room: bool)
    requires Sized(s)
    ensures SourceStep(s, room).workers == s.workers && SourceStep(s, room).closer == s.closer
  {
  }

  lemma SourceKeepsInv(s: Pool, room: bool)
    requires Inv(s)
    ensures Inv(SourceStep(s, room))
  {
    hide SourceStep, SubmitStep, TakeStep, SourceOk, CloserOk, HandOk, QueueOk, CountsOk, WorkerOk;
    hide StreamOk, PlaceOk, SlotOk, InWindow, Fresh, ReadSlotOk;
    var r := SourceStep(s, room);
    InvAtSource(s);
    SourceLeavesAgents(s, room);
    SourceKeepsItself(s, room);
    SourceKeepsCloser(s, room);
    forall a | IsAgent(s, a) ensures HandOk(r, a) { SourceKeepsHand(s, room, a); }
    forall w | 0 <= w < |r.workers| ensures WorkerOk(r, w) { SameWorkerOk(s, r, w); }
    SourceKeepsQueue(s, room);
    SourceKeepsTickets(s, room);
    SourceKeepsAllCounts(s, room);
  }

  lemma SameWorkerOk(s: Pool, r: Pool, w: nat)
    requires w < |s.workers| && WorkerOk(s, w) && r.workers == s.workers
    ensures WorkerOk(r, w)
  {
  }

  lemma SourceKeepsAllCounts(s: Pool, room: bool)
    requires Sized(s) && CountsOk(s)
    ensures CountsOk(SourceStep(s, room))
  {
    hide SubmitStep, TakeStep, CountsOk;
    if Submitting(s.source) { SubmitKeepsCounts(s, room); } else { TakeKeepsCounts(s); }
  }

  lemma SourceKeepsTickets(s: Pool, room: bool)
    requires Inv(s)
    ensures var r := SourceStep(s, room);
            && |r.streams| == |s.streams|
            && (forall d :: 0 <= d < |r.streams| ==> StreamOk(r, d))
            && (forall t :: t in r.place ==> PlaceOk(r, t))
            && (forall t :: InWindow(r, t) ==> SlotOk(r, t))
            && DomainOk(r)
  {
    hide SourceStep, SubmitStep, TakeStep, SourceOk, CloserOk, HandOk, QueueOk, CountsOk, WorkerOk;
    hide StreamOk, PlaceOk, SlotOk, Fresh, ReadSlotOk;
    var r := SourceStep(s, room);
    InvAtSource(s);
    forall d | 0 <= d < |s.streams| ensures StreamOk(r, d) { SourceKeepsStream(s, room, d); }
    forall t | t in r.place ensures PlaceOk(r, t) { SourceKeepsAnyPlace(s, room, t); }
    forall t | InWindow(r, t) ensures SlotOk(r, t) { SourceKeepsAnySlot(s, room, t); }
    forall t: Ticket | t.stream < |r.streams| && t.at < Accepted(r, t.stream) ensures t in r.place {
      SourceKeepsDomain(s, room, t);
    }
  }

  lemma SourceKeepsAnyPlace(s: Pool, room: bool, t: Ticket)
    requires Inv(s) && t in SourceStep(s, room).place
    ensures PlaceOk(SourceStep(s, room), t)
  {
    hide CloserOk, HandOk, QueueOk, CountsOk, WorkerOk, SlotOk, TakeStep, PlaceOk;
    InvAtSource(s);
    if t in s.place {
      SourceKeepsPlace(s, room, t);
    } else {
      if !Submitting(s.source) { TakeLeavesPlaces(s); }
      PushKeepsPlace(s, room);
    }
  }

  lemma SourceKeepsAnySlot(s: Pool, room: bool, t: Ticket)
    requires Inv(s) && InWindow(SourceStep(s, room), t)
    ensures SlotOk(SourceStep(s, room), t)
  {
    hide CloserOk, HandOk, QueueOk, CountsOk, WorkerOk, SlotOk, DomainOk, PlaceOk, StreamOk, ReadSlotOk, Fresh;
    hide SubmitStep, TakeStep;
    InvAtSource(s);
    if s.source.TRelease? {
      ReleaseKeepsSlot(s, room, t);
    } else {
      SourceKeepsWindow(s, room, t);
      if s.source.SPush? { PushKeepsSlot(s, room, t); }
      else if s.source.SLeave? { LeaveKeepsSlot(s, room, t); }
      else if Taking(s.source) { TakeKeepsSlot(s, room, t); }
      else if Submitting(s.source) { SubmitKeepsSlot(s, room, t); }
      else { LookKeepsSlot(s, t); }
    }
  }

  /** Only the release moves a window. */
  lemma SourceKeepsWindow(s: Pool, room: bool, t: Ticket)
    requires Sized(s) && !s.source.TRelease? && InWindow(SourceStep(s, room), t)
    ensures InWindow(s, t)
  {
  }

  // workers and closer

  /** An agent's step touches nothing of the source thread's, of the windows' or of the other
      agents'. */
  ghost predicate Others(s: Pool, r: Pool, a: Agent) {
    && r.cap == s.cap && r.source == s.source && r.submitsActive == s.submitsActive
    && |r.streams| == |s.streams| && |r.workers| == |s.workers|
    && IsAgent(s, a)
    && (forall d :: 0 <= d < |s.streams| ==> r.streams[d].(cells := []) == s.streams[d].(cells := []))
    && (forall b :: IsAgent(s, b) && b != a ==> Hand(r, b) == Hand(s, b) && Constructed(r, b) == Constructed(s, b))
  }

  ghost predicate Quiet(s: Pool, r: Pool, a: Agent) {
    && Others(s, r, a)
    && r.streams == s.streams && r.tasks == s.tasks && r.place == s.place
    && Hand(r, a) == Hand(s, a) && Constructed(r, a) == Constructed(s, a)
  }

  ghost predicate PopsFront(s: Pool, r: Pool, a: Agent) {
    && Others(s, r, a)
    && r.streams == s.streams && s.tasks != [] && r.tasks == s.tasks[1..]
    && r.place == Move(s.place, s.tasks[0], InHand(a))
    && Hand(s, a) == None && Hand(r, a) == s.tasks[0].destination
    && Constructed(r, a) == Constructed(s, a) == None
  }

  ghost predicate Constructs(s: Pool, r: Pool, a: Agent) {
    && Others(s, r, a) && Sized(s)
    && r.tasks == s.tasks && r.place == s.place
    && Hand(r, a) == Hand(s, a) && Hand(s, a).Some?
    && Constructed(s, a) == None && Constructed(r, a).Some?
    && var t := Hand(s, a).value;
       && t.stream < |s.streams|
       && r.streams == SetCell(s, t, CellOf(s, t).(storage := Live(Constructed(r, a).value))).streams
  }

  ghost predicate Publishes(s: Pool, r: Pool, a: Agent) {
    && Others(s, r, a) && Sized(s)
    && r.tasks == s.tasks
    && Hand(s, a).Some? && Hand(r, a) == None
    && Constructed(s, a).Some? && Constructed(r, a) == None
    && var t := Hand(s, a).value;
       && t.stream < |s.streams|
       && r.place == s.place[t := Landed(Constructed(s, a).value)]
       && r.streams == SetCell(s, t, CellOf(s, t).(stamp := t.at + 1)).streams
  }

  ghost predicate AgentMoves(s: Pool, r: Pool, a: Agent) {
    Quiet(s, r, a) || PopsFront(s, r, a) || Constructs(s, r, a) || Publishes(s, r, a)
  }

  /** The slot of a fetch in hand: its own, stamped for it, not yet under the read cursor. */
  ghost predicate HandSlotOk(s: Pool, a: Agent)
    requires Sized(s) && IsAgent(s, a)
  {
    Hand(s, a).Some? ==>
      var t := Hand(s, a).value;
      t in s.place && s.place[t] == InHand(a) && PlaceOk(s, t) && InWindow(s, t) && SlotOk(s, t)
  }

  lemma InHandSlot(s: Pool, a: Agent)
    requires Inv(s) && IsAgent(s, a)
    ensures HandSlotOk(s, a)
  {
    assert HandOk(s, a);
    if Hand(s, a).Some? {
      var t := Hand(s, a).value;
      assert PlaceOk(s, t) && StreamOk(s, t.stream);
    }
  }

  lemma AgentKeepsStream(s: Pool, r: Pool, a: Agent, d: nat)
    requires Sized(s) && AgentMoves(s, r, a) && d < |s.streams| && StreamOk(s, d)
    ensures StreamOk(r, d)
  {
    assert r.streams[d].(cells := []) == s.streams[d].(cells := []);
  }

  lemma AgentKeepsSource(s: Pool, r: Pool, a: Agent)
    requires Sized(s) && AgentMoves(s, r, a) && SourceOk(s) && QueueOk(s) && HandOk(s, a)
    ensures SourceOk(r)
  {
    forall d | 0 <= d < |s.streams| ensures r.streams[d].(cells := []) == s.streams[d].(cells := []) {}
  }

  lemma AgentKeepsHand(s: Pool, r: Pool, a: Agent, b: Agent)
    requires Sized(s) && AgentMoves(s, r, a) && QueueOk(s) && HandOk(s, a)
    requires IsAgent(s, b) && HandOk(s, b)
    ensures IsAgent(r, b) && HandOk(r, b)
  {
  }

  lemma AgentKeepsQueue(s: Pool, r: Pool, a: Agent)
    requires Sized(s) && AgentMoves(s, r, a) && QueueOk(s) && HandOk(s, a)
    ensures QueueOk(r)
  {
  }

  lemma QuietKeepsPlace(s: Pool, r: Pool, a: Agent, t: Ticket)
    requires Quiet(s, r, a) || Constructs(s, r, a)
    requires t in s.place && PlaceOk(s, t)
    ensures t in r.place && PlaceOk(r, t)
  {
    assert r.streams[t.stream].(cells := []) == s.streams[t.stream].(cells := []);
  }

  lemma PopKeepsPlace(s: Pool, r: Pool, a: Agent, t: Ticket)
    requires PopsFront(s, r, a) && QueueOk(s)
    requires t in s.place && PlaceOk(s, t)
    ensures t in r.place && PlaceOk(r, t)
  {
    assert r.streams[t.stream].(cells := []) == s.streams[t.stream].(cells := []);
    assert s.tasks == [s.tasks[0]] + s.tasks[1..];
  }

  lemma PublishKeepsPlace(s: Pool, r: Pool, a: Agent, t: Ticket)
    requires Publishes(s, r, a) && HandSlotOk(s, a)
    requires t in s.place && PlaceOk(s, t)
    ensures t in r.place && PlaceOk(r, t)
  {
    assert r.streams[t.stream].(cells := []) == s.streams[t.stream].(cells := []);
  }

  lemma AgentKeepsPlace(s: Pool, r: Pool, a: Agent, t: Ticket)
    requires Sized(s) && AgentMoves(s, r, a) && QueueOk(s) && HandSlotOk(s, a)
    requires t in s.place && PlaceOk(s, t)
    ensures t in r.place && PlaceOk(r, t)
  {
    hide Quiet, PopsFront, Constructs, Publishes, PlaceOk, HandSlotOk, QueueOk;
    if Publishes(s, r, a) { PublishKeepsPlace(s, r, a, t); }
    else if PopsFront(s, r, a) { PopKeepsPlace(s, r, a, t); }
    else { QuietKeepsPlace(s, r, a, t); }
  }

  /** A step that leaves the cell of t and the place of t as they are. */
  lemma UntouchedKeepsSlot(s: Pool, r: Pool, a: Agent, t: Ticket)
    requires Sized(s) && Sized(r) && Others(s, r, a)
    requires InWindow(s, t) && SlotOk(s, t) && CellOf(r, t) == CellOf(s, t)
    requires t in s.place ==> t in r.place && r.place[t] == s.place[t] && PlaceOk(r, t)
    requires t in s.place && s.place[t] == InHand(a) ==> Constructed(r, a) == Constructed(s, a)
    ensures SlotOk(r, t)
  {
    assert r.streams[t.stream].(cells := []) == s.streams[t.stream].(cells := []);
  }

  lemma HandKeepsSlot(s: Pool, r: Pool, a: Agent)
    requires Sized(s) && (Constructs(s, r, a) || Publishes(s, r, a)) && SourceOk(s) && HandSlotOk(s, a)
    requires Hand(s, a).value in r.place && PlaceOk(r, Hand(s, a).value)
    ensures Sized(r) && SlotOk(r, Hand(s, a).value)
  {
    var t := Hand(s, a).value;
    assert r.streams[t.stream].(cells := []) == s.streams[t.stream].(cells := []);
  }

  lemma PopKeepsSlot(s: Pool, r: Pool, a: Agent, t: Ticket)
    requires Sized(s) && PopsFront(s, r, a) && s.tasks[0].destination == Some(t)
    requires t in s.place && s.place[t] == Queued
    requires InWindow(s, t) && SlotOk(s, t) && t in r.place && PlaceOk(r, t)
    ensures SlotOk(r, t)
  {
    assert r.streams[t.stream].(cells := []) == s.streams[t.stream].(cells := []);
  }

  /** Delivering leaves every slot but its own as it is. */
  lemma DeliveryKeepsCell(s: Pool, r: Pool, a: Agent, t: Ticket)
    requires Sized(s) && (Constructs(s, r, a) || Publishes(s, r, a)) && HandSlotOk(s, a)
    requires InWindow(s, t) && t != Hand(s, a).value
    ensures Sized(r) && CellOf(r, t) == CellOf(s, t)
  {
    var mine := Hand(s, a).value;
    if t.stream == mine.stream {
      if t.at < mine.at { SlotApart(t.at, mine.at, s.cap); } else { SlotApart(mine.at, t.at, s.cap); }
    }
  }

  lemma DeliveryKeepsSlot(s: Pool, r: Pool, a: Agent, t: Ticket)
    requires Sized(s) && (Constructs(s, r, a) || Publishes(s, r, a)) && QueueOk(s) && SourceOk(s) && HandSlotOk(s, a)
    requires InWindow(s, t) && SlotOk(s, t)
    requires t in s.place ==> PlaceOk(s, t) && t in r.place && PlaceOk(r, t)
    ensures Sized(r) && SlotOk(r, t)
  {
    hide SlotOk, QueueOk, SourceOk;
    if t == Hand(s, a).value {
      HandKeepsSlot(s, r, a);
    } else {
      DeliveryKeepsCell(s, r, a, t);
      UntouchedKeepsSlot(s, r, a, t);
    }
  }

  lemma QueueKeepsSlot(s: Pool, r: Pool, a: Agent, t: Ticket)
    requires Sized(s) && (Quiet(s, r, a) || PopsFront(s, r, a)) && QueueOk(s)
    requires InWindow(s, t) && SlotOk(s, t) && (t in s.place ==> t in r.place && PlaceOk(r, t))
    ensures Sized(r) && SlotOk(r, t)
  {
    hide SlotOk, PlaceOk;
    if PopsFront(s, r, a) && s.tasks[0].destination == Some(t) {
      PopKeepsSlot(s, r, a, t);
    } else {
      UntouchedKeepsSlot(s, r, a, t);
    }
  }

  lemma AgentKeepsSlot(s: Pool, r: Pool, a: Agent, t: Ticket)
    requires Sized(s) && AgentMoves(s, r, a) && QueueOk(s) && SourceOk(s) && HandSlotOk(s, a)
    requires InWindow(s, t) && SlotOk(s, t) && (t in s.place ==> PlaceOk(s, t))
    ensures Sized(r) && SlotOk(r, t)
  {
    hide Quiet, PopsFront, Constructs, Publishes, SlotOk, PlaceOk, QueueOk, SourceOk, HandSlotOk, InWindow;
    if t in s.place {
      AgentKeepsPlace(s, r, a, t);
    }
    if Constructs(s, r, a) || Publishes(s, r, a) {
      DeliveryKeepsSlot(s, r, a, t);
    } else {
      QueueKeepsSlot(s, r, a, t);
    }
  }

  lemma AgentKeepsDomain(s: Pool, r: Pool, a: Agent)
    requires AgentMoves(s, r, a) && DomainOk(s)
    ensures DomainOk(r)
  {
  }

  /** What every agent step keeps: all of Inv but the agents' own books and the counters. */
  lemma AgentKeepsAll(s: Pool, r: Pool, a: Agent)
    requires Inv(s) && AgentMoves(s, r, a)
    ensures Sized(r) && SourceOk(r) && QueueOk(r) && DomainOk(r)
    ensures forall d :: 0 <= d < |r.streams| ==> StreamOk(r, d)
    ensures forall b :: IsAgent(r, b) ==> HandOk(r, b)
    ensures forall t :: t in r.place ==> PlaceOk(r, t)
    ensures forall t :: InWindow(r, t) ==> SlotOk(r, t)
  {
    InHandSlot(s, a);
    AgentKeepsSource(s, r, a);
    AgentKeepsQueue(s, r, a);
    AgentKeepsDomain(s, r, a);
    AgentKeepsStreams(s, r, a);
    AgentKeepsTickets(s, r, a);
  }

  lemma AgentKeepsStreams(s: Pool, r: Pool, a: Agent)
    requires Inv(s) && AgentMoves(s, r, a)
    ensures Sized(r)
    ensures forall d :: 0 <= d < |r.streams| ==> StreamOk(r, d)
    ensures forall b :: IsAgent(r, b) ==> HandOk(r, b)
  {
    assert |r.streams| == |s.streams| && |r.workers| == |s.workers| && r.cap == s.cap && IsAgent(s, a);
    hide AgentMoves, HandOk, QueueOk, StreamOk, PlaceOk, SlotOk, SourceOk, CloserOk, CountsOk, WorkerOk;
    forall d | 0 <= d < |r.streams| ensures StreamOk(r, d) { AgentKeepsStream(s, r, a, d); }
    forall b | IsAgent(r, b) ensures HandOk(r, b) { AgentKeepsHand(s, r, a, b); }
  }

  lemma AgentKeepsTickets(s: Pool, r: Pool, a: Agent)
    requires Inv(s) && AgentMoves(s, r, a)
    ensures forall t :: t in r.place ==> PlaceOk(r, t)
    ensures Sized(r) && forall t :: InWindow(r, t) ==> SlotOk(r, t)
  {
    hide AgentMoves, HandSlotOk, HandOk, QueueOk, StreamOk, PlaceOk, SlotOk, SourceOk, CloserOk, CountsOk, WorkerOk;
    forall t | t in r.place ensures PlaceOk(r, t) { AgentKeepsAnyPlace(s, r, a, t); }
    forall t | InWindow(r, t) ensures Sized(r) && SlotOk(r, t) { AgentKeepsAnySlot(s, r, a, t); }
    AgentKeepsStreams(s, r, a);
  }

  lemma AgentKeepsAnyPlace(s: Pool, r: Pool, a: Agent, t: Ticket)
    requires Inv(s) && AgentMoves(s, r, a) && t in r.place
    ensures PlaceOk(r, t)
  {
    assert IsAgent(s, a);
    hide AgentMoves, HandSlotOk, QueueOk, StreamOk, PlaceOk, SlotOk, SourceOk, CloserOk, CountsOk, WorkerOk, HandOk;
    InHandSlot(s, a);
    AgentAddsNoPlace(s, r, a, t);
    AgentKeepsPlace(s, r, a, t);
  }

  lemma AgentAddsNoPlace(s: Pool, r: Pool, a: Agent, t: Ticket)
    requires AgentMoves(s, r, a) && QueueOk(s) && HandOk(s, a) && t in r.place
    ensures t in s.place
  {
  }

  lemma AgentKeepsAnySlot(s: Pool, r: Pool, a: Agent, t: Ticket)
    requires Inv(s) && AgentMoves(s, r, a) && InWindow(r, t)
    ensures Sized(r) && SlotOk(r, t)
  {
    InHandSlot(s, a);
    assert r.streams[t.stream].(cells := []) == s.streams[t.stream].(cells := []);
    AgentKeepsSlot(s, r, a, t);
  }

  /** What worker w's step moves between the books it moves out of others. */
  ghost predicate Balanced(s: Pool, r: Pool, w: nat)
    requires w < |s.workers|
  {
    && |r.workers| == |s.workers| && r.workers == s.workers[w := r.workers[w]]
    && r.source == s.source && r.closer == s.closer
    && r.counts.submitted == s.counts.submitted
    && r.counts.cancellationsDropped == s.counts.cancellationsDropped
    && |r.tasks| + UncountedOf(r.workers[w]) + r.counts.completedOk + r.counts.completedFailed
       == |s.tasks| + UncountedOf(s.workers[w]) + s.counts.completedOk + s.counts.completedFailed
    && r.counts.queued - |r.tasks| - UnloweredOf(r.workers[w])
       == s.counts.queued - |s.tasks| - UnloweredOf(s.workers[w])
  }

  lemma InspectMoves(s: Pool, w: nat)
    requires Sized(s) && w < |s.workers| && WorkerOk(s, w) && HandSlotOk(s, AWorker(w)) && s.workers[w].WInspect?
    ensures Quiet(s, DeliverStep(s, w), AWorker(w)) && DeliverStep(s, w).workers[w].WConstruct?
  {
  }

  lemma DeliveryMoves(s: Pool, w: nat)
    requires Sized(s) && w < |s.workers| && WorkerOk(s, w) && HandSlotOk(s, AWorker(w)) && Delivering(s.workers[w])
    ensures AgentMoves(s, DeliverStep(s, w), AWorker(w)) && Balanced(s, DeliverStep(s, w), w)
  {
    hide Quiet, PopsFront;
    if s.workers[w].WInspect? {
      InspectMoves(s, w);
    } else if s.workers[w].WConstruct? {
      assert Constructs(s, DeliverStep(s, w), AWorker(w));
    } else {
      assert Publishes(s, DeliverStep(s, w), AWorker(w));
    }
  }

  lemma PopMoves(s: Pool, w: nat, fetched: File)
    requires Sized(s) && w < |s.workers| && s.workers[w].WPop?
    ensures AgentMoves(s, TaskStep(s, w, fetched), AWorker(w)) && Balanced(s, TaskStep(s, w, fetched), w)
  {
    var r := TaskStep(s, w, fetched);
    if s.tasks != [] {
      assert PopsFront(s, r, AWorker(w));
    } else {
      assert Quiet(s, r, AWorker(w));
    }
  }

  /** A worker on its way, with what it holds in its hands. */
  lemma WorkerQuiet(s: Pool, w: nat, pc: Worker, counts: Counts)
    requires w < |s.workers|
    requires var r := GotoW(s, w, pc).(counts := counts);
             Hand(r, AWorker(w)) == Hand(s, AWorker(w)) && Constructed(r, AWorker(w)) == Constructed(s, AWorker(w))
    ensures Quiet(s, GotoW(s, w, pc).(counts := counts), AWorker(w))
  {
  }

  lemma TaskMovesOne(s: Pool, w: nat, fetched: File)
    requires Sized(s) && w < |s.workers| && !Delivering(s.workers[w]) && !s.workers[w].WPop?
    ensures var r := TaskStep(s, w, fetched);
            && |r.workers| == |s.workers| && r == GotoW(s, w, r.workers[w]).(counts := r.counts)
  {
  }

  lemma TaskMoves(s: Pool, w: nat, fetched: File)
    requires Sized(s) && w < |s.workers| && !Delivering(s.workers[w]) && !s.workers[w].WPop?
    ensures Quiet(s, TaskStep(s, w, fetched), AWorker(w))
  {
    hide Quiet;
    var r := TaskStep(s, w, fetched);
    TaskMovesOne(s, w, fetched);
    WorkerQuiet(s, w, r.workers[w], r.counts);
  }

  lemma TaskBalances(s: Pool, w: nat, fetched: File)
    requires Sized(s) && w < |s.workers| && !Delivering(s.workers[w]) && !s.workers[w].WPop?
    ensures Balanced(s, TaskStep(s, w, fetched), w)
  {
  }

  lemma WorkerMoves(s: Pool, w: nat, fetched: File)
    requires Sized(s) && w < |s.workers| && WorkerOk(s, w) && HandSlotOk(s, AWorker(w))
    ensures AgentMoves(s, WorkerStep(s, w, fetched), AWorker(w)) && Balanced(s, WorkerStep(s, w, fetched), w)
  {
    if Delivering(s.workers[w]) {
      DeliveryMoves(s, w);
    } else if s.workers[w].WPop? {
      PopMoves(s, w, fetched);
    } else {
      TaskMoves(s, w, fetched);
      TaskBalances(s, w, fetched);
    }
  }

  /** A worker's step changes nothing of another's, and an ended one none at all. */
  ghost predicate LeavesOthers(s: Pool, r: Pool, w: nat)
    requires w < |s.workers|
  {
    && |r.workers| == |s.workers| && WorkerOk(r, w) && r.workers == s.workers[w := r.workers[w]]
    && (s.workers[w] == WExit ==> r == s) && r.closer == s.closer && r.source == s.source
    && r.stopping == s.stopping && (s.tasks == [] ==> r.tasks == [])
  }

  lemma TaskLeavesOthers(s: Pool, w: nat, fetched: File)
    requires Sized(s) && w < |s.workers| && !Delivering(s.workers[w])
    ensures LeavesOthers(s, TaskStep(s, w, fetched), w)
  {
  }

  lemma DeliveryLeavesOthers(s: Pool, w: nat)
    requires Sized(s) && w < |s.workers| && Delivering(s.workers[w]) && WorkerOk(s, w)
    ensures LeavesOthers(s, DeliverStep(s, w), w)
  {
  }

  lemma WorkerKeepsRest(s: Pool, w: nat, fetched: File)
    requires Sized(s) && w < |s.workers| && WorkerOk(s, w) && CloserOk(s)
    ensures CloserOk(WorkerStep(s, w, fetched))
    ensures forall v :: 0 <= v < |s.workers| && WorkerOk(s, v) ==> WorkerOk(WorkerStep(s, w, fetched), v)
  {
    hide TaskStep, DeliverStep;
    if Delivering(s.workers[w]) { DeliveryLeavesOthers(s, w); } else { TaskLeavesOthers(s, w, fetched); }
  }

  lemma BalancedKeepsCounts(s: Pool, r: Pool, w: nat)
    requires w < |s.workers| && CountsOk(s) && Balanced(s, r, w)
    ensures CountsOk(r)
  {
    CountAfter(s.workers, w, r.workers[w]);
  }

  lemma WorkerKeepsInv(s: Pool, w: nat, fetched: File)
    requires Inv(s) && w < |s.workers|
    ensures Inv(WorkerStep(s, w, fetched))
  {
    InHandSlot(s, AWorker(w));
    WorkerMoves(s, w, fetched);
    AgentKeepsAll(s, WorkerStep(s, w, fetched), AWorker(w));
    WorkerKeepsRest(s, w, fetched);
    BalancedKeepsCounts(s, WorkerStep(s, w, fetched), w);
  }

  lemma CloserQuiet(s: Pool)
    requires Sized(s) && CloserOk(s) && HandSlotOk(s, ACloser)
    requires !s.closer.KPop? && !s.closer.KConstruct? && !s.closer.KPublish?
    ensures Quiet(s, CloserStep(s), ACloser)
  {
  }

  lemma CloserDelivers(s: Pool)
    requires Sized(s) && CloserOk(s) && HandSlotOk(s, ACloser) && (s.closer.KConstruct? || s.closer.KPublish?)
    ensures if s.closer.KConstruct? then Constructs(s, CloserStep(s), ACloser) else Publishes(s, CloserStep(s), ACloser)
  {
  }

  lemma CloserPops(s: Pool)
    requires Sized(s) && s.closer.KPop?
    ensures if s.tasks == [] then Quiet(s, CloserStep(s), ACloser) else PopsFront(s, CloserStep(s), ACloser)
  {
  }

  lemma CloserMoves(s: Pool)
    requires Sized(s) && CloserOk(s) && HandSlotOk(s, ACloser)
    ensures AgentMoves(s, CloserStep(s), ACloser)
  {
    hide CloserStep, Quiet, PopsFront, Constructs, Publishes, CloserOk, HandSlotOk;
    match s.closer
    case KConstruct(_) => CloserDelivers(s);
    case KPublish(_) => CloserDelivers(s);
    case KPop => CloserPops(s);
    case _ => CloserQuiet(s);
  }

  lemma CloserKeepsRest(s: Pool)
    requires Sized(s) && CloserOk(s) && SourceOk(s)
    ensures CloserOk(CloserStep(s))
    ensures forall v :: 0 <= v < |s.workers| && WorkerOk(s, v) ==> WorkerOk(CloserStep(s), v)
  {
  }

  lemma CloserKeepsCounts(s: Pool)
    requires Sized(s) && CountsOk(s) && CloserOk(s) && HandSlotOk(s, ACloser)
    ensures CountsOk(CloserStep(s))
  {
  }

  lemma CloserKeepsInv(s: Pool)
    requires Inv(s)
    ensures Inv(CloserStep(s))
  {
    InHandSlot(s, ACloser);
    CloserMoves(s);
    AgentKeepsAll(s, CloserStep(s), ACloser);
    CloserKeepsRest(s);
    CloserKeepsCounts(s);
  }

  /** The source thread picking its next call: in no call it can have affected anything yet. */
  ghost predicate Picks(s: Pool, pc: Source) {
    && s.source.Idle? && (pc.SEnter? || pc.TInspect?)
    && SourceOk(s.(source := pc))
  }

  lemma PickKeepsTicket(s: Pool, pc: Source, t: Ticket)
    requires Sized(s) && Picks(s, pc)
    ensures t in s.place && PlaceOk(s, t) ==> PlaceOk(s.(source := pc), t)
    ensures InWindow(s, t) && SlotOk(s, t) ==> SlotOk(s.(source := pc), t)
  {
  }

  lemma PickKeepsInv(s: Pool, pc: Source)
    requires Inv(s) && Picks(s, pc)
    ensures Inv(s.(source := pc))
  {
    var r := s.(source := pc);
    forall d | 0 <= d < |r.streams| ensures StreamOk(r, d) { assert StreamOk(s, d); }
    forall w | 0 <= w < |r.workers| ensures WorkerOk(r, w) { assert WorkerOk(s, w); }
    forall b | IsAgent(r, b) ensures HandOk(r, b) { assert HandOk(s, b); }
    forall t | t in r.place ensures PlaceOk(r, t) { PickKeepsTicket(s, pc, t); }
    forall t | InWindow(r, t) ensures SlotOk(r, t) { PickKeepsTicket(s, pc, t); }
    forall t: Ticket | t.stream < |r.streams| && t.at < Accepted(r, t.stream) ensures t in r.place {
      assert Accepted(r, t.stream) == Accepted(s, t.stream);
    }
  }

  lemma StepKeepsInv(s: Pool, a: Action)
    requires Inv(s)
    ensures Inv(Step(s, a))
  {
    match a
    case GoSource(room) => SourceKeepsInv(s, room);
    case GoWorker(w, fetched) => if w < |s.workers| { WorkerKeepsInv(s, w, fetched); }
    case GoCloser => CloserKeepsInv(s);
    case Pump(d) => if s.source.Idle? && NextTicket(s, d).Some? { PickKeepsInv(s, SEnter(Task(NextTicket(s, d)))); }
    case SubmitLoose => if s.source.Idle? { PickKeepsInv(s, SEnter(Task(None))); }
    case Take(d) => if s.source.Idle? && d < |s.streams| { PickKeepsInv(s, TInspect(d)); }
  }

  lemma {:induction false} AfterInv(setup: Setup, schedule: seq<Action>)
    requires setup.cap > 1
    ensures Inv(After(setup, schedule))
  {
    if schedule == [] {
      OpenedInv(setup);
    } else {
      AfterInv(setup, schedule[..|schedule| - 1]);
      StepKeepsInv(After(setup, schedule[..|schedule| - 1]), schedule[|schedule| - 1]);
    }
  }

  // ----------------------------------------------------------------- theorems

  ghost predicate HeldBySomeone(s: Pool, t: Ticket) {
    exists a :: IsAgent(s, a) && Hand(s, a) == Some(t)
  }

  predicate InSlot(s: Pool, t: Ticket)
    requires Sized(s) && t.stream < |s.streams|
  {
    CellOf(s, t).stamp == t.at + 1
  }

  /** A fetch is in exactly one of the queue, an agent's hands and its slot, and there once. */
  ghost predicate InOnePlace(s: Pool, t: Ticket)
    requires Sized(s) && t.stream < |s.streams|
  {
    && (if Task(Some(t)) in s.tasks then !HeldBySomeone(s, t) && !InSlot(s, t)
        else HeldBySomeone(s, t) != InSlot(s, t))
    && (forall j, k :: 0 <= j < k < |s.tasks| && s.tasks[j] == Task(Some(t)) ==> s.tasks[k] != s.tasks[j])
    && (forall a, b :: IsAgent(s, a) && IsAgent(s, b) && Hand(s, a) == Hand(s, b) == Some(t) ==> a == b)
  }

  ghost predicate SamePlan(s: Pool, r: Pool, d: nat)
    requires d < |s.streams|
  {
    && |r.streams| == |s.streams|
    && r.streams[d].planned == s.streams[d].planned && r.streams[d].depth == s.streams[d].depth
  }

  lemma SourceKeepsPlan(s: Pool, room: bool, d: nat)
    requires Sized(s) && d < |s.streams|
    ensures SamePlan(s, SourceStep(s, room), d)
  {
    hide CellOf, Slot;
  }

  lemma WorkerKeepsPlan(s: Pool, w: nat, fetched: File, d: nat)
    requires Sized(s) && w < |s.workers| && d < |s.streams|
    ensures SamePlan(s, WorkerStep(s, w, fetched), d)
  {
    hide CellOf, Slot, Move;
  }

  lemma CloserKeepsPlan(s: Pool, d: nat)
    requires Sized(s) && d < |s.streams|
    ensures SamePlan(s, CloserStep(s), d)
  {
    hide CellOf, Slot, Move;
  }

  lemma StepKeepsPlan(s: Pool, a: Action, d: nat)
    requires Sized(s) && d < |s.streams|
    ensures SamePlan(s, Step(s, a), d)
  {
    hide SourceStep, WorkerStep, CloserStep;
    match a
    case GoSource(room) => SourceKeepsPlan(s, room, d);
    case GoWorker(w, fetched) => if w < |s.workers| { WorkerKeepsPlan(s, w, fetched, d); }
    case GoCloser => CloserKeepsPlan(s, d);
    case _ =>
  }

  /** A stream keeps the plan it was built with, and the depth asked for where one fetch and the ring allow it. */
  lemma {:induction false} PlansAreKept(setup: Setup, schedule: seq<Action>, d: nat)
    requires setup.cap > 1 && d < |setup.plans|
    ensures var stream, prefetch := After(setup, schedule).streams[d], setup.plans[d].1;
            && stream.planned == setup.plans[d].0 && 1 <= stream.depth <= setup.cap
            && (1 <= prefetch <= setup.cap ==> stream.depth == prefetch)
            && (prefetch > setup.cap ==> stream.depth == setup.cap)
  {
    if schedule != [] {
      hide Step;
      PlansAreKept(setup, schedule[..|schedule| - 1], d);
      StepKeepsPlan(After(setup, schedule[..|schedule| - 1]), schedule[|schedule| - 1], d);
    }
  }

  /** Outstanding fetches never exceed the depth, and every position from the read cursor up to
      the fetches accepted is in exactly one place. */
  lemma WindowIsPartitioned(setup: Setup, schedule: seq<Action>, t: Ticket)
    requires setup.cap > 1 && t.stream < |setup.plans|
    requires var s := After(setup, schedule); s.streams[t.stream].read <= t.at < Accepted(s, t.stream)
    ensures var s := After(setup, schedule);
            && t.at - s.streams[t.stream].read < s.streams[t.stream].depth <= s.cap
            && InOnePlace(s, t)
  {
    AfterInv(setup, schedule);
    var s := After(setup, schedule);
    assert StreamOk(s, t.stream) && t in s.place;
    OnePlace(s, t);
  }

  lemma OnePlace(s: Pool, t: Ticket)
    requires Inv(s) && InWindow(s, t) && t in s.place
    ensures InOnePlace(s, t)
  {
    assert PlaceOk(s, t) && SlotOk(s, t);
    forall a | IsAgent(s, a) && Hand(s, a) == Some(t) ensures s.place[t] == InHand(a) {
      assert HandOk(s, a);
    }
  }

  /** The destination of an agent that is delivering, from reading the stamp to publishing. */
  function Delivery(s: Pool, a: Agent): Option<Ticket>
    requires IsAgent(s, a)
  {
    match a
    case AWorker(w) => if Delivering(s.workers[w]) then s.workers[w].task.destination else None
    case ACloser =>
      if s.closer.KInspect? || s.closer.KConstruct? || s.closer.KPublish? then s.closer.task.destination else None
  }

  /** place is never refused: whoever delivers finds the slot stamped for its position, and still
      raw until it constructs the file there itself. So no cancellation is ever dropped. */
  lemma PlaceIsNeverRefused(setup: Setup, schedule: seq<Action>)
    requires setup.cap > 1
    ensures var s := After(setup, schedule);
            && s.counts.cancellationsDropped == 0
            && (forall a :: IsAgent(s, a) && Delivery(s, a).Some? ==>
                  && Delivery(s, a).value.stream < |s.streams|
                  && CellOf(s, Delivery(s, a).value)
                     == Cell(Delivery(s, a).value.at,
                             if Constructed(s, a).Some? then Live(Constructed(s, a).value) else Raw))
  {
    AfterInv(setup, schedule);
    var s := After(setup, schedule);
    forall a | IsAgent(s, a) && Delivery(s, a).Some? ensures HandSlotOk(s, a) && Hand(s, a) == Delivery(s, a) {
      InHandSlot(s, a);
    }
  }

  /** No two threads are inside one cell: delivering agents are in different slots, and none in the
      one the source thread is taking from. */
  lemma ExclusiveAccess(setup: Setup, schedule: seq<Action>, a: Agent)
    requires setup.cap > 1
    requires var s := After(setup, schedule); IsAgent(s, a) && Delivery(s, a).Some?
    ensures var s := After(setup, schedule);
            var mine := Delivery(s, a).value;
            && (forall b :: IsAgent(s, b) && b != a && Delivery(s, b).Some?
                            && Delivery(s, b).value.stream == mine.stream ==>
                  Slot(Delivery(s, b).value.at, s.cap) != Slot(mine.at, s.cap))
            && (Taking(s.source) && s.source.stream == mine.stream < |s.streams| ==>
                  Slot(s.streams[mine.stream].read, s.cap) != Slot(mine.at, s.cap))
  {
    AfterInv(setup, schedule);
    var s := After(setup, schedule);
    InHandSlot(s, a);
    var mine := Delivery(s, a).value;
    forall b | IsAgent(s, b) && b != a && Delivery(s, b).Some? && Delivery(s, b).value.stream == mine.stream
      ensures Slot(Delivery(s, b).value.at, s.cap) != Slot(mine.at, s.cap)
    {
      InHandSlot(s, b);
      DeliveriesApart(s, a, b);
    }
    if Taking(s.source) && s.source.stream == mine.stream {
      TakeApart(s, a);
    }
  }

  lemma WindowApart(s: Pool, t: Ticket, u: Ticket)
    requires s.cap > 1 && InWindow(s, t) && InWindow(s, u) && t.stream == u.stream && t.at != u.at
    ensures Slot(t.at, s.cap) != Slot(u.at, s.cap)
  {
    if t.at < u.at { SlotApart(t.at, u.at, s.cap); } else { SlotApart(u.at, t.at, s.cap); }
  }

  lemma DeliveriesApart(s: Pool, a: Agent, b: Agent)
    requires Sized(s) && IsAgent(s, a) && IsAgent(s, b) && a != b && HandSlotOk(s, a) && HandSlotOk(s, b)
    requires Delivery(s, a).Some? && Delivery(s, b).Some? && Delivery(s, a).value.stream == Delivery(s, b).value.stream
    ensures Slot(Delivery(s, b).value.at, s.cap) != Slot(Delivery(s, a).value.at, s.cap)
  {
    assert Hand(s, a) == Delivery(s, a) && Hand(s, b) == Delivery(s, b);
    WindowApart(s, Delivery(s, a).value, Delivery(s, b).value);
  }

  lemma TakeApart(s: Pool, a: Agent)
    requires Sized(s) && SourceOk(s) && IsAgent(s, a) && HandSlotOk(s, a) && Delivery(s, a).Some?
    requires Taking(s.source) && s.source.stream == Delivery(s, a).value.stream
    ensures Slot(s.streams[s.source.stream].read, s.cap) != Slot(Delivery(s, a).value.at, s.cap)
  {
    assert Hand(s, a) == Delivery(s, a);
    WindowApart(s, Ticket(s.source.stream, s.streams[s.source.stream].read), Delivery(s, a).value);
  }

  /** One stage further or unmoved. Landing is by the agent that held the fetch, with the file it
      constructed, and is final. */
  ghost predicate Advances(s: Pool, r: Pool, t: Ticket) {
    if t !in s.place then t in r.place ==> r.place[t] == Queued && s.source == SPush(Task(Some(t)))
    else
      && t in r.place
      && match s.place[t]
         case Queued => r.place[t] == Queued || (r.place[t].InHand? && s.tasks != [] && s.tasks[0] == Task(Some(t)))
         case InHand(a) =>
           r.place[t] == InHand(a) || (IsAgent(s, a) && Constructed(s, a).Some? &&
               r.place[t] == Landed(Constructed(s, a).value))
         case Landed(file) => r.place[t] == Landed(file)
  }

  /** Every accepted fetch goes from the queue to one agent to its slot, so exactly one file is
      ever placed for it. */
  lemma PlacedOnce(setup: Setup, schedule: seq<Action>, a: Action, t: Ticket)
    requires setup.cap > 1
    ensures After(setup, schedule + [a]) == Step(After(setup, schedule), a)
    ensures Advances(After(setup, schedule), After(setup, schedule + [a]), t)
  {
    assert (schedule + [a])[..|schedule|] == schedule;
    AfterInv(setup, schedule);
    StepAdvances(After(setup, schedule), a, t);
  }

  lemma SourceAdvances(s: Pool, room: bool, t: Ticket)
    requires Sized(s) && Fresh(s)
    ensures Advances(s, SourceStep(s, room), t)
  {
    hide TakeStep;
    if !Submitting(s.source) { TakeLeavesPlaces(s); }
  }

  lemma StepAdvances(s: Pool, a: Action, t: Ticket)
    requires Inv(s)
    ensures Advances(s, Step(s, a), t)
  {
    hide SourceStep, WorkerStep, CloserStep, AgentMoves, HandSlotOk, Balanced;
    match a
    case GoSource(room) =>
      InvAtSource(s);
      SourceAdvances(s, room, t);
    case GoWorker(w, fetched) =>
      if w < |s.workers| {
        InHandSlot(s, AWorker(w));
        WorkerMoves(s, w, fetched);
        MoveAdvances(s, WorkerStep(s, w, fetched), AWorker(w), t);
      }
    case GoCloser =>
      InHandSlot(s, ACloser);
      CloserMoves(s);
      MoveAdvances(s, CloserStep(s), ACloser, t);
    case _ =>
  }

  lemma MoveAdvances(s: Pool, r: Pool, a: Agent, t: Ticket)
    requires AgentMoves(s, r, a) && QueueOk(s) && HandOk(s, a)
    ensures Advances(s, r, t)
  {
  }

  // what is read is what was fetched

  /** Step j of the schedule ended the fetch of t, with this outcome. */
  ghost predicate FetchedAt(setup: Setup, schedule: seq<Action>, j: nat, t: Ticket, file: File)
    requires setup.cap > 1
  {
    && j < |schedule| && schedule[j].GoWorker? && schedule[j].fetched == file
    && Fetching(After(setup, schedule[..j]), schedule[j].worker, t)
  }

  predicate Fetching(s: Pool, w: nat, t: Ticket) {
    w < |s.workers| && s.workers[w] == WFetch(Task(Some(t)))
  }

  /** Step j of the schedule is the closer taking t, never fetched, off the queue. */
  ghost predicate CancelledAt(setup: Setup, schedule: seq<Action>, j: nat, t: Ticket)
    requires setup.cap > 1
  {
    j < |schedule| && schedule[j].GoCloser? && Cancelling(After(setup, schedule[..j]), t)
  }

  predicate Cancelling(s: Pool, t: Ticket) {
    s.closer.KPop? && s.tasks != [] && s.tasks[0] == Task(Some(t))
  }

  ghost predicate Outcome(setup: Setup, schedule: seq<Action>, j: nat, t: Ticket, file: File)
    requires setup.cap > 1
  {
    FetchedAt(setup, schedule, j, t, file) || (CancelledAt(setup, schedule, j, t) && file == CANCELLATION)
  }

  /** The fetch of t is over: file is in the hands that will place it, or placed. */
  ghost predicate Brought(s: Pool, t: Ticket, file: File) {
    || (t in s.place && s.place[t] == Landed(file))
    || (exists w :: 0 <= w < |s.workers| && BroughtBy(s.workers[w], t, file))
    || (BroughtByCloser(s.closer, t) && file == CANCELLATION)
  }

  predicate BroughtBy(pc: Worker, t: Ticket, file: File) {
    (pc.WNote? || pc.WInspect? || pc.WConstruct? || pc.WPublish?) && pc.task == Task(Some(t)) && pc.file == file
  }

  predicate BroughtByCloser(pc: Closer, t: Ticket) {
    (pc.KLower? || pc.KCount? || pc.KInspect? || pc.KConstruct? || pc.KPublish?) && pc.task == Task(Some(t))
  }

  /** This step is the end of the fetch of t with this file, or the closer's taking it instead. */
  ghost predicate Brings(s: Pool, a: Action, t: Ticket, file: File) {
    || (a.GoWorker? && Fetching(s, a.worker, t) && a.fetched == file)
    || (a.GoCloser? && Cancelling(s, t) && file == CANCELLATION)
  }

  lemma TaskBringsHand(s: Pool, w: nat, fetched: File, v: nat, t: Ticket, file: File)
    requires Sized(s) && w < |s.workers| && !Delivering(s.workers[w]) && v < |s.workers|
    requires var r := TaskStep(s, w, fetched); |r.workers| == |s.workers| && BroughtBy(r.workers[v], t, file)
    ensures BroughtBy(s.workers[v], t, file) || Brings(s, GoWorker(w, fetched), t, file)
  {
  }

  lemma TaskBringsPlace(s: Pool, w: nat, fetched: File, t: Ticket)
    requires Sized(s) && w < |s.workers| && !Delivering(s.workers[w])
    ensures var r := TaskStep(s, w, fetched);
            && |r.workers| == |s.workers| && r.closer == s.closer
            && (t in r.place && r.place[t].Landed? ==> t in s.place && s.place[t] == r.place[t])
  {
  }

  lemma TaskBrings(s: Pool, w: nat, fetched: File, t: Ticket, file: File)
    requires Sized(s) && w < |s.workers| && !Delivering(s.workers[w]) && Brought(TaskStep(s, w, fetched), t, file)
    ensures Brought(s, t, file) || Brings(s, GoWorker(w, fetched), t, file)
  {
    hide TaskStep, Brings, BroughtBy;
    var r := TaskStep(s, w, fetched);
    TaskBringsPlace(s, w, fetched, t);
    if v :| 0 <= v < |r.workers| && BroughtBy(r.workers[v], t, file) {
      TaskBringsHand(s, w, fetched, v, t, file);
    }
  }

  lemma DeliveryBrings(s: Pool, w: nat, t: Ticket, file: File)
    requires Sized(s) && w < |s.workers| && Delivering(s.workers[w]) && Brought(DeliverStep(s, w), t, file)
    ensures Brought(s, t, file)
  {
    var r := DeliverStep(s, w);
    if v :| 0 <= v < |r.workers| && BroughtBy(r.workers[v], t, file) {
      assert BroughtBy(s.workers[v], t, file);
    } else if !(t in s.place && s.place[t] == Landed(file)) && r.closer == s.closer
              && !(BroughtByCloser(s.closer, t) && file == CANCELLATION) {
      assert BroughtBy(s.workers[w], t, file);
    }
  }

  lemma CloserLeavesWorkers(s: Pool)
    requires Sized(s)
    ensures CloserStep(s).workers == s.workers
  {
    hide CellOf, Slot, Valid;
  }

  lemma CloserBringsHand(s: Pool, t: Ticket)
    requires Sized(s) && BroughtByCloser(CloserStep(s).closer, t)
    ensures BroughtByCloser(s.closer, t) || Cancelling(s, t)
  {
    hide SetCell, CellOf, Slot, Valid, Move;
  }

  lemma CloserBringsPlace(s: Pool, t: Ticket)
    requires Sized(s) && var r := CloserStep(s); t in r.place && r.place[t].Landed?
    ensures (t in s.place && s.place[t] == CloserStep(s).place[t])
            || (BroughtByCloser(s.closer, t) && CloserStep(s).place[t].file == CANCELLATION)
  {
    hide CellOf, Slot, Valid;
  }

  lemma CloserBrings(s: Pool, t: Ticket, file: File)
    requires Sized(s) && Brought(CloserStep(s), t, file)
    ensures Brought(s, t, file) || Brings(s, GoCloser, t, file)
  {
    hide CloserStep, BroughtBy, BroughtByCloser, Cancelling;
    CloserLeavesWorkers(s);
    if BroughtByCloser(CloserStep(s).closer, t) { CloserBringsHand(s, t); }
    if t in CloserStep(s).place && CloserStep(s).place[t].Landed? { CloserBringsPlace(s, t); }
  }

  lemma SourceBrings(s: Pool, room: bool, t: Ticket, file: File)
    requires Sized(s) && Brought(SourceStep(s, room), t, file)
    ensures Brought(s, t, file)
  {
    hide TakeStep;
    var r := SourceStep(s, room);
    if !Submitting(s.source) { TakeLeavesPlaces(s); }
    SourceLeavesAgents(s, room);
    if v :| 0 <= v < |r.workers| && BroughtBy(r.workers[v], t, file) {
      assert BroughtBy(s.workers[v], t, file);
    }
  }

  /** Only the end of its fetch, or the closer, gives a fetch its file. */
  lemma StepBrings(s: Pool, a: Action, t: Ticket, file: File)
    requires Sized(s) && Brought(Step(s, a), t, file)
    ensures Brought(s, t, file) || Brings(s, a, t, file)
  {
    hide SubmitStep, TakeStep, TaskStep, DeliverStep, CloserStep, SourceStep, Brought, Brings;
    match a
    case GoSource(room) => SourceBrings(s, room, t, file);
    case GoWorker(w, fetched) =>
      if w < |s.workers| {
        if Delivering(s.workers[w]) { DeliveryBrings(s, w, t, file); } else { TaskBrings(s, w, fetched, t, file); }
      }
    case GoCloser => CloserBrings(s, t, file);
    case _ => SameAgentsBring(s, Step(s, a), t, file);
  }

  lemma SameAgentsBring(s: Pool, r: Pool, t: Ticket, file: File)
    requires r.workers == s.workers && r.place == s.place && r.closer == s.closer && Brought(r, t, file)
    ensures Brought(s, t, file)
  {
  }

  lemma {:induction false} BroughtFromOutcome(setup: Setup, schedule: seq<Action>, t: Ticket, file: File)
      returns (j: nat)
    requires setup.cap > 1 && Brought(After(setup, schedule), t, file)
    ensures Outcome(setup, schedule, j, t, file)
  {
    hide Step, Brings, Brought;
    NothingBrought(setup, t, file);
    var last := |schedule| - 1;
    var before := schedule[..last];
    StepBrings(After(setup, before), schedule[last], t, file);
    if Brought(After(setup, before), t, file) {
      j := BroughtFromOutcome(setup, before, t, file);
      assert before[..j] == schedule[..j];
    } else {
      j := last;
      BringsIsOutcome(setup, schedule, t, file);
    }
  }

  lemma NothingBrought(setup: Setup, t: Ticket, file: File)
    requires setup.cap > 1
    ensures !Brought(Opened(setup), t, file)
  {
  }

  lemma BringsIsOutcome(setup: Setup, schedule: seq<Action>, t: Ticket, file: File)
    requires setup.cap > 1 && schedule != []
    requires Brings(After(setup, schedule[..|schedule| - 1]), schedule[|schedule| - 1], t, file)
    ensures Outcome(setup, schedule, |schedule| - 1, t, file)
  {
    hide After;
  }

  /** Once its fetch is over, or the closer has it, a fetch does not go back to a worker about to fetch it or to the
      queue. */
  ghost predicate Over(s: Pool, t: Ticket) {
    t in s.place &&
    match s.place[t]
    case Queued => false
    case InHand(ACloser) => true
    case InHand(AWorker(w)) => w < |s.workers| && !s.workers[w].WLower? && !s.workers[w].WFetch?
    case Landed(_) => true
  }

  /** A worker about to fetch has just popped. */
  lemma WorkersGoOn(s: Pool, a: Action, v: nat)
    requires Sized(s) && v < |s.workers|
    ensures var r := Step(s, a);
            && |r.workers| == |s.workers|
            && (r.workers[v] == s.workers[v]
                || ((r.workers[v].WLower? ==> s.workers[v].WPop?) && (r.workers[v].WFetch? ==> s.workers[v].WLower?)))
  {
    hide SubmitStep, TakeStep;
    match a
    case GoSource(room) => SourceLeavesAgents(s, room);
    case _ =>
  }

  lemma StaysOver(s: Pool, a: Action, t: Ticket)
    requires Inv(s) && Over(s, t)
    ensures Over(Step(s, a), t)
  {
    assert PlaceOk(s, t);
    StepAdvances(s, a, t);
    hide Step;
    match s.place[t]
    case InHand(AWorker(v)) => WorkersGoOn(s, a, v);
    case _ =>
  }

  lemma OverIsOver(s: Pool, a: Action, t: Ticket, file: File)
    requires Inv(s) && Over(s, t)
    ensures !Brings(s, a, t, file)
  {
    if a.GoWorker? && a.worker < |s.workers| {
      assert HandOk(s, AWorker(a.worker));
    }
  }

  lemma OverOnceBrought(s: Pool, a: Action, t: Ticket, file: File)
    requires Inv(s) && Brings(s, a, t, file)
    ensures Over(Step(s, a), t)
  {
    if a.GoWorker? {
      assert HandOk(s, AWorker(a.worker));
    }
  }

  lemma AfterOneMore(setup: Setup, schedule: seq<Action>, n: nat)
    requires setup.cap > 1 && n < |schedule|
    ensures After(setup, schedule[..n + 1]) == Step(After(setup, schedule[..n]), schedule[n])
  {
    hide Step;
    assert schedule[..n + 1][..n] == schedule[..n];
  }

  lemma OutcomeBrings(setup: Setup, schedule: seq<Action>, j: nat, t: Ticket, file: File)
    requires setup.cap > 1 && Outcome(setup, schedule, j, t, file)
    ensures j < |schedule| && Brings(After(setup, schedule[..j]), schedule[j], t, file)
  {
    hide After;
  }

  lemma {:induction false} OverFrom(setup: Setup, schedule: seq<Action>, i: nat, t: Ticket, file: File, n: nat)
    requires setup.cap > 1 && Outcome(setup, schedule, i, t, file) && i < n <= |schedule|
    ensures Over(After(setup, schedule[..n]), t)
  {
    hide Step, Over, Inv, After, Outcome, Brings;
    AfterOneMore(setup, schedule, n - 1);
    AfterInv(setup, schedule[..n - 1]);
    if n == i + 1 {
      OutcomeBrings(setup, schedule, i, t, file);
      OverOnceBrought(After(setup, schedule[..i]), schedule[i], t, file);
    } else {
      OverFrom(setup, schedule, i, t, file, n - 1);
      StaysOver(After(setup, schedule[..n - 1]), schedule[n - 1], t);
    }
  }

  lemma OutcomeIsNext(setup: Setup, schedule: seq<Action>, i: nat, t: Ticket, file: File, j: nat, other: File)
    requires setup.cap > 1 && Outcome(setup, schedule, i, t, file) && Outcome(setup, schedule, j, t, other)
    ensures j <= i
  {
    hide After, Inv, Over, Outcome, Brings;
    OutcomeBrings(setup, schedule, i, t, file);
    OutcomeBrings(setup, schedule, j, t, other);
    if i < j {
      OverFrom(setup, schedule, i, t, file, j);
      AfterInv(setup, schedule[..j]);
      OverIsOver(After(setup, schedule[..j]), schedule[j], t, other);
    }
  }

  /** No fetch ends twice, or ends and is cancelled. */
  lemma OneOutcome(setup: Setup, schedule: seq<Action>, i: nat, t: Ticket, file: File, j: nat, other: File)
    requires setup.cap > 1 && Outcome(setup, schedule, i, t, file) && Outcome(setup, schedule, j, t, other)
    ensures i == j && file == other
  {
    hide Outcome;
    OutcomeIsNext(setup, schedule, i, t, file, j, other);
    OutcomeIsNext(setup, schedule, j, t, other, i, file);
    SameOutcome(setup, schedule, i, t, file, other);
  }

  lemma SameOutcome(setup: Setup, schedule: seq<Action>, i: nat, t: Ticket, file: File, other: File)
    requires setup.cap > 1 && Outcome(setup, schedule, i, t, file) && Outcome(setup, schedule, i, t, other)
    ensures file == other
  {
    hide After;
  }

  /** Files are read in plan order whatever order fetches finish in: the k-th file a stream has read is what a
      worker's fetch for plan position k ended with at some step j of the schedule, or the cancellation of that fetch
      when the closer took it off the queue there, and that is the only step at which the fetch ended. */
  lemma FilesReadInPlanOrder(setup: Setup, schedule: seq<Action>, d: nat, k: nat) returns (j: nat)
    requires setup.cap > 1 && d < |setup.plans|
    requires k < After(setup, schedule).streams[d].read
    ensures var s, t := After(setup, schedule), Ticket(d, k);
            && |s.streams[d].files| == s.streams[d].read
            && t in s.place && s.place[t] == Landed(s.streams[d].files[k])
            && (FetchedAt(setup, schedule, j, t, s.streams[d].files[k])
                || (CancelledAt(setup, schedule, j, t) && s.streams[d].files[k] == CANCELLATION))
            && forall i, file :: Outcome(setup, schedule, i, t, file) ==> i == j && file == s.streams[d].files[k]
  {
    AfterInv(setup, schedule);
    var s, t := After(setup, schedule), Ticket(d, k);
    assert StreamOk(s, d) && t in s.place && PlaceOk(s, t);
    hide Inv, After, FetchedAt, CancelledAt;
    j := BroughtFromOutcome(setup, schedule, t, s.streams[d].files[k]);
    forall i, file | Outcome(setup, schedule, i, t, file) ensures i == j && file == s.streams[d].files[k] {
      OneOutcome(setup, schedule, i, t, file, j, s.streams[d].files[k]);
    }
  }

  // each call left alone does its work

  lemma Extend(setup: Setup, schedule: seq<Action>, s: Pool, a: Action) returns (schedule': seq<Action>, r: Pool)
    requires setup.cap > 1 && s == After(setup, schedule)
    ensures schedule' == schedule + [a] && r == After(setup, schedule') == Step(s, a)
  {
    schedule', r := schedule + [a], Step(s, a);
    assert schedule'[..|schedule|] == schedule;
  }

  lemma ExtendThrice(setup: Setup, schedule: seq<Action>, s: Pool, a: Action, b: Action, c: Action)
      returns (schedule': seq<Action>, r: Pool)
    requires setup.cap > 1 && s == After(setup, schedule)
    ensures schedule' == schedule + [a, b, c] && r == After(setup, schedule') == Step(Step(Step(s, a), b), c)
  {
    hide After, Step;
    var s1, r1 := Extend(setup, schedule, s, a);
    var s2, r2 := Extend(setup, s1, r1, b);
    schedule', r := Extend(setup, s2, r2, c);
    assert schedule' == schedule + [a, b, c];
  }

  ghost predicate HasLanded(s: Pool, t: Ticket) {
    t in s.place && s.place[t].Landed?
  }

  /** take gets a file exactly when the fetch of the stream's next position has its file in place. */
  lemma TakeIsExact(setup: Setup, schedule: seq<Action>, room: bool)
    requires setup.cap > 1 && After(setup, schedule).source.TInspect?
    ensures var s := After(setup, schedule);
            && s.source.stream < |s.streams|
            && Step(s, GoSource(room))
               == s.(source := if HasLanded(s, Ticket(s.source.stream, s.streams[s.source.stream].read))
                               then TMove(s.source.stream) else Idle)
  {
    AfterInv(setup, schedule);
    var s := After(setup, schedule);
    InvAtSource(s);
    hide Inv, After;
  }

  /** The slot under the read cursor of a stream nothing is being taken from. */
  lemma NextSlot(s: Pool, d: nat)
    requires Inv(s) && d < |s.streams| && s.source.Idle?
    ensures var t := Ticket(d, s.streams[d].read);
            if HasLanded(s, t) then CellOf(s, t) == Cell(t.at + 1, Live(s.place[t].file))
            else CellOf(s, t).stamp == t.at
  {
    var t := Ticket(d, s.streams[d].read);
    assert StreamOk(s, d) && InWindow(s, t) && SlotOk(s, t);
  }

  lemma Looks(s: Pool, d: nat, room: bool)
    requires Sized(s) && d < |s.streams| && s.source.Idle?
    ensures var t := Ticket(d, s.streams[d].read);
            Step(Step(s, Take(d)), GoSource(room))
            == if CellOf(s, t).stamp == t.at + 1 then s.(source := TMove(d)) else s
  {
    assert s.(source := TInspect(d)).(source := Idle) == s;
  }

  /** The stream has one file more and its window has moved on. Nothing else has changed but its slots. */
  ghost predicate TookFile(s: Pool, r: Pool, d: nat, file: File)
    requires d < |s.streams|
  {
    && |r.streams| == |s.streams| && r == s.(source := Idle, streams := r.streams)
    && (forall e :: 0 <= e < |s.streams| && e != d ==> r.streams[e] == s.streams[e])
    && r.streams[d].files == s.streams[d].files + [file] && r.streams[d].read == s.streams[d].read + 1
    && r.streams[d].(read := 0, files := [], cells := []) == s.streams[d].(read := 0, files := [], cells := [])
  }

  lemma TookWhileIdle(s: Pool, q: Pool, r: Pool, d: nat, file: File)
    requires d < |s.streams| && s.source.Idle? && q == s.(source := TMove(d)) && TookFile(q, r, d, file)
    ensures TookFile(s, r, d, file)
  {
  }

  lemma Takes(s: Pool, d: nat, file: File, a: bool, b: bool, c: bool)
    requires Sized(s) && d < |s.streams| && s.source == TMove(d)
    requires CellOf(s, Ticket(d, s.streams[d].read)).storage == Live(file)
    ensures var r := Step(Step(Step(s, GoSource(a)), GoSource(b)), GoSource(c));
            TookFile(s, r, d, file)
  {
    var t := Ticket(d, s.streams[d].read);
    var s1 := Step(s, GoSource(a));
    assert s1 == SetCell(s, t, CellOf(s, t).(storage := MovedFrom)).(source := TDestroy(d, file));
    var s2 := Step(s1, GoSource(b));
    assert s2 == SetCell(s1, t, CellOf(s1, t).(storage := Raw)).(source := TRelease(d, file));
    hide Slot;
  }

  lemma TakeLooks(setup: Setup, schedule: seq<Action>, d: nat, room: bool) returns (schedule': seq<Action>, r: Pool)
    requires setup.cap > 1 && d < |setup.plans| && After(setup, schedule).source.Idle?
    ensures schedule' == schedule + [Take(d), GoSource(room)] && r == After(setup, schedule')
    ensures var s := After(setup, schedule);
            var t := Ticket(d, s.streams[d].read);
            if HasLanded(s, t) then r == s.(source := TMove(d)) && CellOf(r, t).storage == Live(s.place[t].file)
            else r == s
  {
    AfterInv(setup, schedule);
    var s := After(setup, schedule);
    hide Inv, After, Step, Slot, HasLanded;
    NextSlot(s, d);
    Looks(s, d, room);
    var s1, r1 := Extend(setup, schedule, s, Take(d));
    schedule', r := Extend(setup, s1, r1, GoSource(room));
  }

  /** After any schedule, a take that nothing interrupts: it gives the stream the file placed for its next position and
      moves its window on, or changes nothing when that file is not there yet. */
  lemma TakeAlone(setup: Setup, schedule: seq<Action>, d: nat, room: bool) returns (r: Pool)
    requires setup.cap > 1 && d < |setup.plans| && After(setup, schedule).source.Idle?
    ensures var s, go := After(setup, schedule), GoSource(room);
            var t := Ticket(d, s.streams[d].read);
            if HasLanded(s, t)
            then r == After(setup, schedule + [Take(d), go, go, go, go]) && TookFile(s, r, d, s.place[t].file)
            else r == s && r == After(setup, schedule + [Take(d), go])
  {
    var s, go := After(setup, schedule), GoSource(room);
    hide Inv, After, Step, Slot, TookFile, CellOf;
    var s2, r2 := TakeLooks(setup, schedule, d, room);
    r := r2;
    if HasLanded(s, Ticket(d, s.streams[d].read)) {
      var file := s.place[Ticket(d, s.streams[d].read)].file;
      Takes(r2, d, file, room, room, room);
      var s5, r5 := ExtendThrice(setup, s2, r2, go, go, go);
      assert s5 == schedule + [Take(d), go, go, go, go];
      TookWhileIdle(s, r2, r5, d, file);
      r := r5;
    }
  }

  /** A submit, from raising submits_active_ to lowering it again. */
  lemma Submits(s: Pool, task: Task, room: bool)
    requires Sized(s) && s.source == SEnter(task) && Valid(s, task)
    ensures var go := GoSource(room);
            var r := Step(Step(Step(s, go), go), go);
            Submitted(s, if s.stopping then r
                         else if !room || |s.tasks| >= s.taskCap then Step(r, go)
                         else Step(Step(Step(r, go), go), go), task, room)
  {
  }

  ghost predicate Submitted(s: Pool, r: Pool, task: Task, room: bool) {
    if s.stopping then r == s.(source := Idle)
    else if !room || |s.tasks| >= s.taskCap then
      r == s.(source := Idle, counts := s.counts.(refused := s.counts.refused + 1))
    else
      r == s.(source := Idle, tasks := s.tasks + [task],
              counts := s.counts.(submitted := s.counts.submitted + 1, queued := s.counts.queued + 1),
              place := if task.destination.Some? then s.place[task.destination.value := Queued] else s.place,
              streams := if task.destination.Some? && Valid(s, task)
                         then var d := task.destination.value.stream;
                              s.streams[d := s.streams[d].(fetch := s.streams[d].fetch + 1)]
                         else s.streams)
  }

  lemma SubmitRuns(setup: Setup, schedule: seq<Action>, s: Pool, task: Task, room: bool)
      returns (r: Pool, more: seq<Action>)
    requires setup.cap > 1 && s == After(setup, schedule) && s.source == SEnter(task) && Valid(s, task)
    ensures r == After(setup, schedule + more) && Submitted(s, r, task, room)
    ensures forall k :: 0 <= k < |more| ==> more[k] == GoSource(room)
  {
    hide After, Step, Submitted;
    Submits(s, task, room);
    var go := GoSource(room);
    var s3, r3 := ExtendThrice(setup, schedule, s, go, go, go);
    r, more := r3, [go, go, go];
    if !s.stopping && (!room || |s.tasks| >= s.taskCap) {
      var s4, r4 := Extend(setup, s3, r3, go);
      assert s4 == schedule + [go, go, go, go];
      r, more := r4, [go, go, go, go];
    } else if !s.stopping {
      var s6, r6 := ExtendThrice(setup, s3, r3, go, go, go);
      assert s6 == schedule + [go, go, go, go, go, go];
      r, more := r6, [go, go, go, go, go, go];
    }
  }

  lemma PumpPicks(s: Pool, d: nat)
    requires Sized(s) && d < |s.streams| && s.source.Idle?
    ensures var stream := s.streams[d];
            Step(s, Pump(d))
            == if stream.fetch < stream.planned && stream.fetch < stream.read + stream.depth
               then s.(source := SEnter(Task(Some(Ticket(d, stream.fetch))))) else s
  {
  }

  lemma Pumped(s: Pool, d: nat, r: Pool, room: bool)
    requires d < |s.streams| && s.source.Idle?
    requires var task := Task(Some(Ticket(d, s.streams[d].fetch)));
             Submitted(s.(source := SEnter(task)), r, task, room)
    ensures PumpedTo(s, d, r, room)
  {
  }

  ghost predicate PumpedTo(s: Pool, d: nat, r: Pool, room: bool)
    requires d < |s.streams|
  {
    var stream := s.streams[d];
    var t := Ticket(d, stream.fetch);
    if s.stopping then r == s
    else if !room || |s.tasks| >= s.taskCap then r == s.(counts := s.counts.(refused := s.counts.refused + 1))
    else
      r == s.(tasks := s.tasks + [Task(Some(t))], place := s.place[t := Queued],
              counts := s.counts.(submitted := s.counts.submitted + 1, queued := s.counts.queued + 1),
              streams := s.streams[d := stream.(fetch := stream.fetch + 1)])
  }

  /** After any schedule, a pump that nothing interrupts: with the plan at its end or the window full it does nothing.
      Otherwise the fetch of the next position is accepted exactly when the pool is not stopping and the ring of
      tasks has room, and refused without a trace but its count when there is none. */
  lemma PumpAlone(setup: Setup, schedule: seq<Action>, d: nat, room: bool) returns (r: Pool, more: seq<Action>)
    requires setup.cap > 1 && d < |setup.plans| && After(setup, schedule).source.Idle?
    ensures r == After(setup, schedule + more)
    ensures forall k :: 0 <= k < |more| ==> more[k] == if k == 0 then Pump(d) else GoSource(room)
    ensures var s := After(setup, schedule);
            var stream := s.streams[d];
            if stream.fetch == stream.planned || stream.fetch == stream.read + stream.depth then r == s
            else PumpedTo(s, d, r, room)
  {
    AfterInv(setup, schedule);
    var s := After(setup, schedule);
    assert StreamOk(s, d);
    PumpPicks(s, d);
    hide Inv, After, Step, Submitted, PumpedTo;
    var s1, r1 := Extend(setup, schedule, s, Pump(d));
    r, more := r1, [Pump(d)];
    if s.streams[d].fetch < s.streams[d].planned && s.streams[d].fetch < s.streams[d].read + s.streams[d].depth {
      r, more := SubmitRuns(setup, s1, r1, Task(Some(Ticket(d, s.streams[d].fetch))), room);
      Pumped(s, d, r, room);
      assert s1 + more == schedule + ([Pump(d)] + more);
      more := [Pump(d)] + more;
    }
  }

  ghost predicate Popped(s: Pool, r: Pool, w: nat, task: Task, file: File)
    requires w < |s.workers| && s.tasks != []
  {
    && r.workers == s.workers[w := if task.destination.Some? then WInspect(task, file) else WTest]
    && r.tasks == s.tasks[1..] && r.place == Move(s.place, task, InHand(AWorker(w)))
    && r.counts == (if file.status == Ok
                    then s.counts.(queued := s.counts.queued - 1, completedOk := s.counts.completedOk + 1)
                    else s.counts.(queued := s.counts.queued - 1,
                                   completedFailed := s.counts.completedFailed + 1))
  }

  /** A worker's way from the queue to the delivery. */
  lemma Works(s: Pool, w: nat, task: Task, f: seq<File>)
    requires Sized(s) && w < |s.workers| && s.workers[w].WTest? && !s.stopping && |f| == 5
    requires s.tasks != [] && s.tasks[0] == task
    ensures var r := Step(Step(Step(Step(Step(s, GoWorker(w, f[0])), GoWorker(w, f[1])), GoWorker(w, f[2])),
                               GoWorker(w, f[3])), GoWorker(w, f[4]));
            Popped(s, r, w, task, f[3])
  {
    var s1 := Step(s, GoWorker(w, f[0]));
    assert s1 == s.(workers := s.workers[w := WPop]);
    var s2 := Step(s1, GoWorker(w, f[1]));
    assert s2 == s.(workers := s.workers[w := WLower(task)], tasks := s.tasks[1..],
                    place := Move(s.place, task, InHand(AWorker(w))));
    hide Move;
    var s3 := Step(s2, GoWorker(w, f[2]));
    assert s3.workers == s.workers[w := WFetch(task)];
    var s4 := Step(s3, GoWorker(w, f[3]));
    assert s4.workers == s.workers[w := WNote(task, f[3])];
  }

  /** A worker's delivery into a slot stamped for it. */
  lemma Delivers(s: Pool, w: nat, t: Ticket, file: File, f: seq<File>)
    requires Sized(s) && w < |s.workers| && s.workers[w] == WInspect(Task(Some(t)), file) && |f| == 3
    requires t.stream < |s.streams| && CellOf(s, t).stamp == t.at
    ensures var r := Step(Step(Step(s, GoWorker(w, f[0])), GoWorker(w, f[1])), GoWorker(w, f[2]));
            && r == s.(workers := s.workers[w := WTest], place := s.place[t := Landed(file)], streams := r.streams)
            && CellOf(r, t) == Cell(t.at + 1, Live(file))
  {
    var task := Task(Some(t));
    hide Slot;
    var s1 := Step(s, GoWorker(w, f[0]));
    assert s1 == s.(workers := s.workers[w := WConstruct(task, file)]);
    var s2 := Step(s1, GoWorker(w, f[1]));
    assert s2 == s.(workers := s.workers[w := WPublish(task, file)], streams := s2.streams);
    assert CellOf(s2, t) == Cell(t.at, Live(file));
    var r := Step(s2, GoWorker(w, f[2]));
    assert r == s.(workers := s.workers[w := WTest], place := s.place[t := Landed(file)], streams := r.streams);
  }

  /** Steps of one worker in a row. */
  function Turns(w: nat, f: seq<File>): (steps: seq<Action>)
    ensures |steps| == |f|
  {
    seq(|f|, i requires 0 <= i < |f| => GoWorker(w, f[i]))
  }

  lemma FiveTurns(schedule: seq<Action>, w: nat, f: seq<File>)
    requires |f| == 5
    ensures schedule + [GoWorker(w, f[0]), GoWorker(w, f[1]), GoWorker(w, f[2])] + [GoWorker(w, f[3])]
            + [GoWorker(w, f[4])]
            == schedule + Turns(w, f)
  {
  }

  lemma EightTurns(schedule: seq<Action>, w: nat, f: seq<File>)
    requires |f| == 8
    ensures schedule + Turns(w, f[..5]) + [GoWorker(w, f[5]), GoWorker(w, f[6]), GoWorker(w, f[7])]
            == schedule + Turns(w, f)
  {
  }

  lemma FetchPops(setup: Setup, schedule: seq<Action>, w: nat, task: Task, f: seq<File>)
      returns (schedule': seq<Action>, r: Pool)
    requires setup.cap > 1 && |f| == 5
    requires var s := After(setup, schedule);
             !s.stopping && w < |s.workers| && s.workers[w].WTest? && s.tasks != [] && s.tasks[0] == task
    ensures schedule' == schedule + Turns(w, f) && r == After(setup, schedule')
    ensures Popped(After(setup, schedule), r, w, task, f[3])
  {
    var s := After(setup, schedule);
    hide After, Step, Popped, Turns;
    Works(s, w, task, f);
    var s3, r3 := ExtendThrice(setup, schedule, s, GoWorker(w, f[0]), GoWorker(w, f[1]), GoWorker(w, f[2]));
    var s4, r4 := Extend(setup, s3, r3, GoWorker(w, f[3]));
    schedule', r := Extend(setup, s4, r4, GoWorker(w, f[4]));
    FiveTurns(schedule, w, f);
  }

  lemma InPlaceNow(s: Pool, q: Pool, r: Pool, w: nat, t: Ticket, file: File)
    requires w < |s.workers| && s.workers[w].WTest? && s.tasks != [] && Popped(s, q, w, Task(Some(t)), file)
    requires r == q.(workers := q.workers[w := WTest], place := q.place[t := Landed(file)], streams := r.streams)
    ensures r.workers == s.workers && r.tasks == s.tasks[1..] && r.place == s.place[t := Landed(file)]
    ensures r.counts == q.counts
  {
  }

  /** After any schedule, with the pool open and a worker between tasks, its next eight steps if nothing interrupts
      them: the fetch at the front of the queue leaves it, is counted by its outcome, and its file is in place. */
  lemma FetchAlone(setup: Setup, schedule: seq<Action>, w: nat, t: Ticket, f: seq<File>) returns (r: Pool)
    requires setup.cap > 1 && |f| == 8
    requires var s := After(setup, schedule);
             && !s.stopping && w < |s.workers| && s.workers[w].WTest?
             && s.tasks != [] && s.tasks[0] == Task(Some(t))
    ensures r == After(setup, schedule + Turns(w, f))
    ensures var s := After(setup, schedule);
            && r.workers == s.workers && r.tasks == s.tasks[1..] && r.place == s.place[t := Landed(f[3])]
            && r.counts == (if f[3].status == Ok
                            then s.counts.(queued := s.counts.queued - 1, completedOk := s.counts.completedOk + 1)
                            else s.counts.(queued := s.counts.queued - 1,
                                           completedFailed := s.counts.completedFailed + 1))
            && t.stream < |s.streams| && CellOf(r, t) == Cell(t.at + 1, Live(f[3]))
  {
    hide After, Step, Slot, Popped, CellOf, Turns;
    var s := After(setup, schedule);
    var s5, r5 := FetchPops(setup, schedule, w, Task(Some(t)), f[..5]);
    assert r5.workers[w] == WInspect(Task(Some(t)), f[3]) by { PoppedHolds(s, r5, w, t, f[3]); }
    StampedForIt(setup, s5, w);
    Delivers(r5, w, t, f[3], f[5..]);
    var s8;
    s8, r := ExtendThrice(setup, s5, r5, GoWorker(w, f[5]), GoWorker(w, f[6]), GoWorker(w, f[7]));
    EightTurns(schedule, w, f);
    InPlaceNow(s, r5, r, w, t, f[3]);
    PoppedHolds(s, r5, w, t, f[3]);
  }

  lemma PoppedHolds(s: Pool, q: Pool, w: nat, t: Ticket, file: File)
    requires w < |s.workers| && s.tasks != [] && Popped(s, q, w, Task(Some(t)), file)
    ensures w < |q.workers| && q.workers[w] == WInspect(Task(Some(t)), file)
    ensures q.counts == (if file.status == Ok
                         then s.counts.(queued := s.counts.queued - 1, completedOk := s.counts.completedOk + 1)
                         else s.counts.(queued := s.counts.queued - 1,
                                        completedFailed := s.counts.completedFailed + 1))
  {
  }

  lemma StampedForIt(setup: Setup, schedule: seq<Action>, w: nat)
    requires setup.cap > 1
    requires var s := After(setup, schedule); w < |s.workers| && s.workers[w].WInspect?
    ensures var s := After(setup, schedule);
            && s.workers[w].task.destination.Some?
            && s.workers[w].task.destination.value.stream < |s.streams|
            && CellOf(s, s.workers[w].task.destination.value).stamp == s.workers[w].task.destination.value.at
  {
    AfterInv(setup, schedule);
    var s := After(setup, schedule);
    assert WorkerOk(s, w);
    PlaceIsNeverRefused(setup, schedule);
    assert IsAgent(s, AWorker(w)) && Delivery(s, AWorker(w)) == s.workers[w].task.destination;
  }

  // the counts of completions

  predicate EndsFetch(s: Pool, a: Action) {
    a.GoWorker? && a.worker < |s.workers| && s.workers[a.worker].WFetch?
  }

  /** Fetches the schedule has ended whose outcome was Ok, or was not. */
  ghost function Ended(setup: Setup, schedule: seq<Action>, ok: bool): nat
    requires setup.cap > 1
  {
    if schedule == [] then 0
    else
      var before, a := schedule[..|schedule| - 1], schedule[|schedule| - 1];
      Ended(setup, before, ok)
      + if EndsFetch(After(setup, before), a) && (a.fetched.status == Ok) == ok then 1 else 0
  }

  /** Tasks the closer has taken off the queue over the schedule. */
  ghost function Drained(setup: Setup, schedule: seq<Action>): nat
    requires setup.cap > 1
  {
    if schedule == [] then 0
    else
      var before, a := schedule[..|schedule| - 1], schedule[|schedule| - 1];
      var s := After(setup, before);
      Drained(setup, before) + if a.GoCloser? && s.closer.KPop? && s.tasks != [] then 1 else 0
  }

  function NotingOf(pc: Worker, ok: bool): nat {
    if pc.WNote? && (pc.file.status == Ok) == ok then 1 else 0
  }

  /** Workers about to count such an outcome. */
  function Noting(workers: seq<Worker>, ok: bool): nat {
    if workers == [] then 0 else NotingOf(workers[0], ok) + Noting(workers[1..], ok)
  }

  function CloserCounting(pc: Closer): nat {
    if pc.KLower? || pc.KCount? then 1 else 0
  }

  lemma {:induction false} NotingAfter(workers: seq<Worker>, w: nat, pc: Worker, ok: bool)
    requires w < |workers|
    ensures Noting(workers[w := pc], ok) == Noting(workers, ok) - NotingOf(workers[w], ok) + NotingOf(pc, ok)
  {
    if w == 0 {
      assert workers[w := pc][1..] == workers[1..];
    } else {
      assert workers[w := pc][1..] == workers[1..][w - 1 := pc];
      NotingAfter(workers[1..], w - 1, pc, ok);
    }
  }

  lemma {:induction false} NoneNoting(workers: seq<Worker>, ok: bool)
    requires forall w :: 0 <= w < |workers| ==> !workers[w].WNote?
    ensures Noting(workers, ok) == 0
  {
    if workers != [] {
      NoneNoting(workers[1..], ok);
    }
  }

  ghost predicate WorkerCounted(s: Pool, r: Pool, w: nat, ok: nat, failed: nat)
    requires w < |s.workers|
  {
    && |r.workers| == |s.workers| && r.workers == s.workers[w := r.workers[w]] && r.closer == s.closer
    && r.counts.cancelled == s.counts.cancelled
    && r.counts.completedOk + NotingOf(r.workers[w], true)
       == s.counts.completedOk + NotingOf(s.workers[w], true) + ok
    && r.counts.completedFailed + NotingOf(r.workers[w], false)
       == s.counts.completedFailed + NotingOf(s.workers[w], false) + failed
  }

  lemma TaskCounts(s: Pool, w: nat, fetched: File)
    requires Sized(s) && w < |s.workers| && !Delivering(s.workers[w])
    ensures WorkerCounted(s, TaskStep(s, w, fetched), w, if s.workers[w].WFetch? && fetched.status == Ok then 1 else 0,
                          if s.workers[w].WFetch? && fetched.status != Ok then 1 else 0)
  {
  }

  lemma DeliveryCounts(s: Pool, w: nat)
    requires Sized(s) && w < |s.workers| && Delivering(s.workers[w])
    ensures WorkerCounted(s, DeliverStep(s, w), w, 0, 0)
  {
    hide CellOf, Slot;
  }

  lemma CloserCounts(s: Pool)
    requires Sized(s)
    ensures var r := CloserStep(s);
            var popped := if s.closer.KPop? && s.tasks != [] then 1 else 0;
            && r.workers == s.workers
            && r.counts.completedOk == s.counts.completedOk
            && r.counts.completedFailed + CloserCounting(r.closer)
               == s.counts.completedFailed + CloserCounting(s.closer) + popped
            && r.counts.cancelled + CloserCounting(r.closer)
               == s.counts.cancelled + CloserCounting(s.closer) + popped
  {
  }

  lemma SourceCounts(s: Pool, room: bool)
    requires Sized(s)
    ensures var r := SourceStep(s, room);
            && r.counts.completedOk == s.counts.completedOk && r.counts.completedFailed == s.counts.completedFailed
            && r.counts.cancelled == s.counts.cancelled
  {
    hide TakeStep;
    if !Submitting(s.source) { TakeLeavesPlaces(s); }
  }

  ghost predicate CountsOutcomes(s: Pool, ok: nat, failed: nat, drained: nat) {
    && s.counts.completedOk + Noting(s.workers, true) == ok
    && s.counts.completedFailed + Noting(s.workers, false) + CloserCounting(s.closer) == failed + drained
    && s.counts.cancelled + CloserCounting(s.closer) == drained
  }

  lemma StepCounts(s: Pool, a: Action, ok: nat, failed: nat, drained: nat)
    requires Sized(s) && CountsOutcomes(s, ok, failed, drained)
    ensures CountsOutcomes(Step(s, a), ok + (if EndsFetch(s, a) && a.fetched.status == Ok then 1 else 0),
                           failed + (if EndsFetch(s, a) && a.fetched.status != Ok then 1 else 0),
                           drained + (if a.GoCloser? && s.closer.KPop? && s.tasks != [] then 1 else 0))
  {
    hide SourceStep, TaskStep, DeliverStep, CloserStep, NotingOf, CloserCounting;
    match a
    case GoSource(room) =>
      SourceCounts(s, room);
      SourceLeavesAgents(s, room);
    case GoWorker(w, fetched) =>
      if w < |s.workers| {
        if Delivering(s.workers[w]) { DeliveryCounts(s, w); } else { TaskCounts(s, w, fetched); }
        NotingAfter(s.workers, w, WorkerStep(s, w, fetched).workers[w], true);
        NotingAfter(s.workers, w, WorkerStep(s, w, fetched).workers[w], false);
      }
    case GoCloser => CloserCounts(s);
    case _ =>
  }

  lemma {:induction false} CountsGoByOutcome(setup: Setup, schedule: seq<Action>)
    requires setup.cap > 1
    ensures CountsOutcomes(After(setup, schedule), Ended(setup, schedule, true), Ended(setup, schedule, false),
                           Drained(setup, schedule))
  {
    hide Step, CountsOutcomes;
    if schedule == [] {
      NoneCounted(setup);
    } else {
      var before, a := schedule[..|schedule| - 1], schedule[|schedule| - 1];
      CountsGoByOutcome(setup, before);
      StepCounts(After(setup, before), a, Ended(setup, before, true), Ended(setup, before, false),
                 Drained(setup, before));
    }
  }

  lemma NoneCounted(setup: Setup)
    requires setup.cap > 1
    ensures CountsOutcomes(Opened(setup), 0, 0, 0)
  {
    NoneNoting(Opened(setup).workers, true);
    NoneNoting(Opened(setup).workers, false);
  }

  /** completed_ok goes up by one for every fetch that ended Ok, completed_failed for every other and for every task the
      closer took, and cancelled for those alone; a step may lie between the end of a fetch and its count, and when
      quiesce has returned none does. */
  lemma CountsAreOutcomes(setup: Setup, schedule: seq<Action>)
    requires setup.cap > 1
    ensures var s := After(setup, schedule);
            && s.counts.completedOk + Noting(s.workers, true) == Ended(setup, schedule, true)
            && s.counts.completedFailed + Noting(s.workers, false) + CloserCounting(s.closer)
               == Ended(setup, schedule, false) + Drained(setup, schedule)
            && s.counts.cancelled + CloserCounting(s.closer) == Drained(setup, schedule)
            && (s.closer.KDone? ==>
                  && s.counts.completedOk == Ended(setup, schedule, true)
                  && s.counts.completedFailed == Ended(setup, schedule, false) + Drained(setup, schedule)
                  && s.counts.cancelled == Drained(setup, schedule))
  {
    CountsGoByOutcome(setup, schedule);
    AfterInv(setup, schedule);
    var s := After(setup, schedule);
    if s.closer.KDone? {
      NoneNoting(s.workers, true);
      NoneNoting(s.workers, false);
    }
  }

  /** When quiesce returns, the queue is empty, every accepted fetch has its file in place, the
      books balance, and the submit in progress, if any, can only be refused. */
  lemma QuiesceDrains(setup: Setup, schedule: seq<Action>)
    requires setup.cap > 1 && After(setup, schedule).closer == KDone
    ensures var s := After(setup, schedule);
            && s.tasks == []
            && (forall t :: t in s.place ==> s.place[t].Landed?)
            && s.counts.submitted == s.counts.completedOk + s.counts.completedFailed
            && s.counts.queued == 0
            && s.stopping && !s.source.SPush? && !Pushed(s.source)
  {
    AfterInv(setup, schedule);
    var s := After(setup, schedule);
    NoneBusy(s.workers);
    forall t | t in s.place ensures s.place[t].Landed? {
      assert PlaceOk(s, t);
    }
  }

  // quiesce can always get through

  /** Steps a worker has left once the pool is stopping, at most. */
  function WorkerLeft(pc: Worker): nat {
    match pc
    case WExit => 0
    case WTest => 1
    case WRetest => 1
    case WPublish(_, _) => 2
    case WConstruct(_, _) => 3
    case WInspect(_, _) => 4
    case WNote(_, _) => 5
    case WFetch(_) => 6
    case WLower(_) => 7
    case WPop => 8
  }

  function SubmitLeft(pc: Source): nat {
    match pc
    case SEnter(_) => 6
    case STest(_) => 5
    case SPush(_) => 4
    case SCount(_) => 3
    case SQueue(_) => 2
    case SLeave(_, _) => 1
    case _ => 0
  }

  function CloserLeft(s: Pool): nat {
    7 * |s.tasks| + match s.closer
                    case KPop => 1
                    case KLower(_) => 6
                    case KCount(_) => 5
                    case KInspect(_) => 4
                    case KConstruct(_) => 3
                    case KPublish(_) => 2
                    case _ => 0
  }

  predicate Draining(pc: Closer) {
    !pc.KOpen? && !pc.KJoin? && !pc.KWait?
  }

  lemma WorkerEnds(s: Pool, w: nat)
    requires Sized(s) && w < |s.workers| && WorkerOk(s, w) && HandSlotOk(s, AWorker(w))
    requires s.stopping && s.workers[w] != WExit
    ensures var r := WorkerStep(s, w, CANCELLATION);
            && |r.workers| == |s.workers| && r.workers == s.workers[w := r.workers[w]]
            && WorkerLeft(r.workers[w]) < WorkerLeft(s.workers[w])
            && r.closer == s.closer && r.stopping
  {
    hide CellOf, Slot, Move;
  }

  lemma {:induction false} StopWorker(setup: Setup, schedule: seq<Action>, w: nat) returns (schedule': seq<Action>)
    requires setup.cap > 1
    requires var s := After(setup, schedule); s.stopping && w < |s.workers|
    ensures schedule <= schedule'
    ensures var s, r := After(setup, schedule), After(setup, schedule');
            r.workers == s.workers[w := WExit] && r.closer == s.closer && r.stopping
    decreases WorkerLeft(After(setup, schedule).workers[w])
  {
    var s := After(setup, schedule);
    schedule' := schedule;
    if s.workers[w] != WExit {
      AfterInv(setup, schedule);
      InHandSlot(s, AWorker(w));
      hide After, Inv, WorkerStep, WorkerOk, HandSlotOk, WorkerLeft;
      WorkerEnds(s, w);
      var s1, r1 := Extend(setup, schedule, s, GoWorker(w, CANCELLATION));
      schedule' := StopWorker(setup, s1, w);
    }
  }

  lemma {:induction false} StopWorkers(setup: Setup, schedule: seq<Action>, n: nat) returns (schedule': seq<Action>)
    requires setup.cap > 1
    requires var s := After(setup, schedule); s.stopping && n <= |s.workers|
    ensures schedule <= schedule'
    ensures var s, r := After(setup, schedule), After(setup, schedule');
            && |r.workers| == |s.workers| && (forall w :: 0 <= w < n ==> r.workers[w] == WExit)
            && r.closer == s.closer && r.stopping
  {
    hide After;
    schedule' := schedule;
    if n > 0 {
      var s1 := StopWorkers(setup, schedule, n - 1);
      schedule' := StopWorker(setup, s1, n - 1);
    }
  }

  lemma {:induction false} EndSubmit(setup: Setup, schedule: seq<Action>) returns (schedule': seq<Action>)
    requires setup.cap > 1
    ensures schedule <= schedule'
    ensures var s, r := After(setup, schedule), After(setup, schedule');
            !Submitting(r.source) && r.closer == s.closer && r.workers == s.workers
    decreases SubmitLeft(After(setup, schedule).source)
  {
    var s := After(setup, schedule);
    schedule' := schedule;
    if Submitting(s.source) {
      hide After;
      var s1, r1 := Extend(setup, schedule, s, GoSource(false));
      schedule' := EndSubmit(setup, s1);
    }
  }

  lemma CloserGoes(s: Pool)
    requires Sized(s) && CloserOk(s) && HandSlotOk(s, ACloser) && Draining(s.closer) && s.closer != KDone
    ensures Draining(CloserStep(s).closer) && CloserLeft(CloserStep(s)) < CloserLeft(s)
  {
    hide CellOf, Slot, Move;
  }

  lemma {:induction false} DrainAll(setup: Setup, schedule: seq<Action>) returns (schedule': seq<Action>)
    requires setup.cap > 1 && Draining(After(setup, schedule).closer)
    ensures schedule <= schedule' && After(setup, schedule').closer == KDone
    decreases CloserLeft(After(setup, schedule))
  {
    var s := After(setup, schedule);
    schedule' := schedule;
    if s.closer != KDone {
      AfterInv(setup, schedule);
      InHandSlot(s, ACloser);
      hide After, Inv, CloserStep, CloserOk, HandSlotOk, CloserLeft, Draining;
      CloserGoes(s);
      var s1, r1 := Extend(setup, schedule, s, GoCloser);
      schedule' := DrainAll(setup, s1);
    }
  }

  /** Whatever has happened, quiesce is not stuck: the threads can go on so that it returns. */
  lemma QuiesceCanReturn(setup: Setup, schedule: seq<Action>) returns (schedule': seq<Action>)
    requires setup.cap > 1
    ensures schedule <= schedule' && After(setup, schedule').closer == KDone
  {
    hide After, Inv;
    schedule' := schedule;
    var s := After(setup, schedule);
    if s.closer.KOpen? { schedule', s := Extend(setup, schedule', s, GoCloser); }
    AfterInv(setup, schedule');
    assert s.stopping by { StoppingOnceCalled(s); }
    if s.closer.KJoin? {
      schedule' := StopWorkers(setup, schedule', |s.workers|);
      s := After(setup, schedule');
      schedule', s := Extend(setup, schedule', s, GoCloser);
    }
    if s.closer.KWait? {
      schedule' := EndSubmit(setup, schedule');
      s := After(setup, schedule');
      AfterInv(setup, schedule');
      NoSubmits(s);
      schedule', s := Extend(setup, schedule', s, GoCloser);
    }
    schedule' := DrainAll(setup, schedule');
  }

  lemma StoppingOnceCalled(s: Pool)
    requires Inv(s) && !s.closer.KOpen?
    ensures s.stopping
  {
  }

  lemma NoSubmits(s: Pool)
    requires Inv(s) && !Submitting(s.source)
    ensures s.submitsActive == 0
  {
  }

  /** Nothing reopens the pool: from quiesce's return on, no step accepts a fetch, changes a place
      or touches any count but that of refusals, and a submit that starts ends in a refusal. */
  lemma ClosedForGood(setup: Setup, schedule: seq<Action>, a: Action)
    requires setup.cap > 1 && After(setup, schedule).closer == KDone
    ensures var s, r := After(setup, schedule), After(setup, schedule + [a]);
            && r.closer == KDone && r.tasks == [] && r.place == s.place
            && r.counts == s.counts.(refused := r.counts.refused) && r.counts.queued == 0
            && s.counts.refused <= r.counts.refused
            && (s.source.STest? && a.GoSource? ==> r.source == SLeave(s.source.task, false))
  {
    var s, r := After(setup, schedule), After(setup, schedule + [a]);
    hide Step;
    assert (schedule + [a])[..|schedule|] == schedule && r == Step(s, a);
    QuiesceDrains(setup, schedule);
    AfterInv(setup, schedule);
    ClosedStep(s, a);
  }

  lemma ClosedStep(s: Pool, a: Action)
    requires Sized(s) && CloserOk(s) && s.closer == KDone && s.counts.queued == 0
    ensures var r := Step(s, a);
            && r.closer == KDone && r.tasks == [] && r.place == s.place
            && r.counts == s.counts.(refused := r.counts.refused) && r.counts.queued == 0
            && s.counts.refused <= r.counts.refused
            && (s.source.STest? && a.GoSource? ==> r.source == SLeave(s.source.task, false))
  {
    hide DeliverStep;
    if a.GoWorker? && a.worker < |s.workers| {
      assert s.workers[a.worker] == WExit;
    }
  }

  /** With the pool quiesced and the source thread idle, the residue test of the ring's destructor
      is true of exactly the slots that hold a file. */
  lemma DestructorFindsLiveSlots(setup: Setup, schedule: seq<Action>, d: nat, i: nat)
    requires setup.cap > 1 && d < |setup.plans| && i < setup.cap
    requires After(setup, schedule).closer == KDone && After(setup, schedule).source.Idle?
    ensures var cell := After(setup, schedule).streams[d].cells[i];
            && ((cell.stamp - i) % setup.cap == 1 <==> cell.storage.Live?)
            && ((cell.stamp - i) % setup.cap != 1 <==> cell.storage.Raw?)
  {
    hide After;
    var s := After(setup, schedule);
    var p := SlotCovered(s.streams[d].read, i, s.cap);
    SettledSlot(setup, schedule, Ticket(d, p));
    ResidueTells(s.streams[d].cells[i], p, i, s.cap);
  }

  lemma SettledSlot(setup: Setup, schedule: seq<Action>, t: Ticket)
    requires setup.cap > 1
    requires var s := After(setup, schedule); s.closer == KDone && s.source.Idle? && InWindow(s, t)
    ensures var cell := CellOf(After(setup, schedule), t);
            cell == Cell(t.at, Raw) || (cell.stamp == t.at + 1 && cell.storage.Live?)
  {
    AfterInv(setup, schedule);
    QuiesceDrains(setup, schedule);
    assert SlotOk(After(setup, schedule), t);
  }

  lemma ResidueTells(cell: Cell, pos: nat, slot: nat, cap: nat)
    requires cap > 1 && Slot(pos, cap) == slot
    requires cell == Cell(pos, Raw) || (cell.stamp == pos + 1 && cell.storage.Live?)
    ensures (cell.stamp - slot) % cap == 1 <==> cell.storage.Live?
    ensures (cell.stamp - slot) % cap != 1 <==> cell.storage.Raw?
  {
    SlotResidue(pos, slot, cap);
  }
}
