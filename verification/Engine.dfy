/** Engine.step over whole runs: market event, strategy, risk gate, simulated execution, books. */
module Engine {
  import opened Portfolio
  import RiskGate
  import SimExecution
  import FundingCarry

  datatype Config = Config(risk: RiskGate.Config, carry: FundingCarry.Config)

  datatype State = State(books: Books, gate: RiskGate.Gate, exec: SimExecution.Exec)

  /** One pull from the transport. */
  datatype Input = Market(event: MarketEvent) | Timer(ts: int)

  predicate Fits(c: Config, n: nat) {
    RiskGate.ConfigOk(c.risk, n) && c.carry.futures < n && c.carry.spot < n
  }

  predicate FillsWithin(fills: seq<Fill>, n: nat) {
    forall k :: 0 <= k < |fills| ==> fills[k].slot < n
  }

  predicate StateOk(s: State, n: nat) {
    Shape(s.books, n) && |s.exec.lastPrice| == n && FillsWithin(s.exec.fills, n)
  }

  predicate InputOk(input: Input, n: nat) {
    input.Market? ==> input.event.slot < n
  }

  predicate InputsOk(inputs: seq<Input>, n: nat) {
    forall k :: 0 <= k < |inputs| ==> InputOk(inputs[k], n)
  }

  function TsOf(input: Input): int {
    if input.Market? then input.event.ts else input.ts
  }

  // ------------------------------------------------------------------------- one step, as a function

  /** What the market event alone does: fills cleared, prices, funding and marks taken over. A timer
      does nothing here, not even clear the fills. */
  function Observed(s: State, input: Input, n: nat): (r: State)
    requires StateOk(s, n) && InputOk(input, n)
    ensures StateOk(r, n) && r.gate == s.gate && r.books.positions == s.books.positions
  {
    if input.Timer? then s
    else
      var e := input.event;
      State(Marked(Funded(s.books, e), e), s.gate, SimExecution.Exec(SimExecution.Priced(s.exec.lastPrice, e), [], []))
  }

  function IntentsOf(c: Config, s: State, input: Input, n: nat): (r: seq<RiskGate.Intent>)
    requires StateOk(s, n) && Fits(c, n)
    ensures forall k :: 0 <= k < |r| ==> r[k].slot < n
  {
    if input.Timer? then [] else FundingCarry.Intents(c.carry, s.books.positions, input.event)
  }

  /** The orders the gate makes of a step's intents. */
  function Checked(c: Config, s: State, intents: seq<RiskGate.Intent>, n: nat): (r: seq<Order>)
    requires StateOk(s, n) && forall k :: 0 <= k < |intents| ==> intents[k].slot < n
    ensures RiskGate.OrdersWithin(r, n)
  {
    if s.gate.tripped then []
    else seq(|intents|, k requires 0 <= k < |intents| =>
               RiskGate.OrderFor(c.risk.maxPositionQty, s.books.positions, intents[k], s.gate.nextId + k))
  }

  function GateAfterChecks(s: State, intents: seq<RiskGate.Intent>): RiskGate.Gate {
    s.gate.(nextId := s.gate.nextId + if s.gate.tripped then 0 else |intents|)
  }

  function FlattenOrders(c: Config, s: State, intents: seq<RiskGate.Intent>, n: nat): (r: seq<Order>)
    requires StateOk(s, n) && Fits(c, n)
    ensures RiskGate.OrdersWithin(r, n)
  {
    var gate := GateAfterChecks(s, intents);
    RiskGate.FlatteningWithin(s.books.positions, c.risk.tracked, gate.nextId);
    RiskGate.TickOrders(c.risk, gate, s.books)
  }

  /** The step from the observed state on. */
  function Acted(c: Config, s: State, intents: seq<RiskGate.Intent>, ts: int, n: nat): (r: State)
    requires StateOk(s, n) && Fits(c, n) && forall k :: 0 <= k < |intents| ==> intents[k].slot < n
    ensures StateOk(r, n)
  {
    var orders := Checked(c, s, intents, n) + FlattenOrders(c, s, intents, n);
    var exec := SimExecution.Submitted(s.exec, orders, ts);
    SubmittedWithin(s.exec, orders, ts, n);
    State(Drained(s.books, exec.fills), RiskGate.Ticked(c.risk, GateAfterChecks(s, intents), s.books), exec)
  }

  lemma {:induction false} SubmittedWithin(x: SimExecution.Exec, orders: seq<Order>, ts: int, n: nat)
    requires FillsWithin(x.fills, n) && |x.lastPrice| == n && RiskGate.OrdersWithin(orders, n)
    ensures FillsWithin(SimExecution.Submitted(x, orders, ts).fills, n)
  {
    if orders != [] {
      SubmittedWithin(x, orders[..|orders| - 1], ts, n);
    }
  }

  function Stepped(c: Config, s: State, input: Input, n: nat): (r: State)
    requires StateOk(s, n) && Fits(c, n) && InputOk(input, n)
    ensures StateOk(r, n)
  {
    var seen := Observed(s, input, n);
    Acted(c, seen, IntentsOf(c, seen, input, n), TsOf(input), n)
  }

  function Initial(n: nat): State {
    State(Empty(n), RiskGate.Gate(false, 0.0, 1), SimExecution.Exec(Zeros(n), [], []))
  }

  function After(c: Config, n: nat, inputs: seq<Input>): (r: State)
    requires Fits(c, n) && InputsOk(inputs, n)
    ensures StateOk(r, n)
  {
    if inputs == [] then Initial(n)
    else Stepped(c, After(c, n, inputs[..|inputs| - 1]), inputs[|inputs| - 1], n)
  }

  // ------------------------------------------------------------------- what every run keeps in order

  /** The orders submitted in one pull. */
  function StepOrders(c: Config, s: State, input: Input, n: nat): seq<Order>
    requires StateOk(s, n) && Fits(c, n) && InputOk(input, n)
  {
    var seen := Observed(s, input, n);
    var intents := IntentsOf(c, seen, input, n);
    Checked(c, seen, intents, n) + FlattenOrders(c, seen, intents, n)
  }

  /** The orders submitted over a run. */
  function AllOrders(c: Config, n: nat, inputs: seq<Input>): seq<Order>
    requires Fits(c, n) && InputsOk(inputs, n)
  {
    if inputs == [] then []
    else
      var before := inputs[..|inputs| - 1];
      AllOrders(c, n, before) + StepOrders(c, After(c, n, before), inputs[|inputs| - 1], n)
  }

  lemma StepNumbers(c: Config, s: State, input: Input, n: nat)
    requires StateOk(s, n) && Fits(c, n) && InputOk(input, n)
    ensures RiskGate.Numbered(StepOrders(c, s, input, n), s.gate.nextId)
    ensures Stepped(c, s, input, n).gate.nextId == s.gate.nextId + |StepOrders(c, s, input, n)|
  {
    var seen := Observed(s, input, n);
    var intents := IntentsOf(c, seen, input, n);
    hide Observed, IntentsOf, RiskGate.Ticked, RiskGate.TickOrders, Drained;
    RiskGate.TickNumbers(c.risk, GateAfterChecks(seen, intents), seen.books);
  }

  /** Over a run every order has a number of its own: 1, 2, 3 and so on in the order of submission, the flattening's
      among them. */
  lemma {:induction false} OrdersNumbered(c: Config, n: nat, inputs: seq<Input>)
    requires Fits(c, n) && InputsOk(inputs, n)
    ensures RiskGate.Numbered(AllOrders(c, n, inputs), 1)
    ensures After(c, n, inputs).gate.nextId == 1 + |AllOrders(c, n, inputs)|
  {
    if inputs != [] {
      var before := inputs[..|inputs| - 1];
      OrdersNumbered(c, n, before);
      hide Stepped, StepOrders;
      StepNumbers(c, After(c, n, before), inputs[|inputs| - 1], n);
    }
  }

  /** What a pull answers its orders with carries the pull's own stamp, the event's or the timer's, and of its fills
      those before are what the pull before left to a timer. */
  lemma AnswersAreStamped(c: Config, s: State, input: Input, n: nat)
    requires StateOk(s, n) && Fits(c, n) && InputOk(input, n)
    ensures var left := if input.Timer? then s.exec.fills else [];
            var fills, ts := Stepped(c, s, input, n).exec.fills, if input.Market? then input.event.ts else input.ts;
            left <= fills && forall k :: |left| <= k < |fills| ==> fills[k].ts == ts
  {
    var seen, orders, r := Observed(s, input, n), StepOrders(c, s, input, n), Stepped(c, s, input, n);
    hide StepOrders, Stepped;
    StepSubmits(c, s, input, n);
    SimExecution.NewFillsStamped(seen.exec, orders, TsOf(input));
  }

  lemma StepSubmits(c: Config, s: State, input: Input, n: nat)
    requires StateOk(s, n) && Fits(c, n) && InputOk(input, n)
    ensures RiskGate.OrdersWithin(StepOrders(c, s, input, n), n)
    ensures Stepped(c, s, input, n).exec
            == SimExecution.Submitted(Observed(s, input, n).exec, StepOrders(c, s, input, n), TsOf(input))
  {
    hide Observed, IntentsOf, RiskGate.Ticked, RiskGate.TickOrders, Drained;
  }

  /** This input is a trade or a bar of the slot at this price. */
  predicate QuotedAt(input: Input, slot: nat, price: real) {
    && input.Market? && input.event.slot == slot
    && (input.event.payload == Trade(price) || input.event.payload == Kline(price))
  }

  lemma StepQuotes(c: Config, s: State, input: Input, n: nat, slot: nat)
    requires StateOk(s, n) && Fits(c, n) && InputOk(input, n) && slot < n
    ensures forall price :: QuotedAt(input, slot, price) ==> Stepped(c, s, input, n).exec.lastPrice[slot] == price
    ensures (forall price :: !QuotedAt(input, slot, price)) ==>
              Stepped(c, s, input, n).exec.lastPrice[slot] == s.exec.lastPrice[slot]
  {
    hide Drained, FlattenOrders, Checked, IntentsOf, GateAfterChecks, RiskGate.Ticked, Marked, Funded;
    assert Stepped(c, s, input, n).exec.lastPrice == Observed(s, input, n).exec.lastPrice;
    if input.Market? && input.event.slot == slot {
      match input.event.payload
      case Trade(price) => assert QuotedAt(input, slot, price);
      case Kline(price) => assert QuotedAt(input, slot, price);
      case _ =>
    }
  }

  /** Orders meet the slot's latest trade or bar of the run, whatever else came since. */
  lemma {:induction false} LastPriceIsLatest(c: Config, n: nat, inputs: seq<Input>, slot: nat, k: nat, price: real)
    requires Fits(c, n) && InputsOk(inputs, n) && slot < n
    requires k < |inputs| && QuotedAt(inputs[k], slot, price)
    requires forall j, other :: k < j < |inputs| ==> !QuotedAt(inputs[j], slot, other)
    ensures After(c, n, inputs).exec.lastPrice[slot] == price
  {
    var last := |inputs| - 1;
    hide Stepped;
    StepQuotes(c, After(c, n, inputs[..last]), inputs[last], n, slot);
    if k < last {
      LastPriceIsLatest(c, n, inputs[..last], slot, k, price);
    }
  }

  // ------------------------------------------------------------------------------ what one step moves

  predicate HasPrice(s: State, slot: nat) {
    slot < |s.exec.lastPrice| && s.exec.lastPrice[slot] != 0.0
  }

  /** Where a position ends: old fills still in the buffer, and on a priced slot everything ordered. */
  lemma ActedMoves(c: Config, s: State, intents: seq<RiskGate.Intent>, ts: int, n: nat, i: nat)
    requires StateOk(s, n) && Fits(c, n) && forall k :: 0 <= k < |intents| ==> intents[k].slot < n
    requires i < n
    ensures var r := Acted(c, s, intents, ts, n);
            var ordered := RiskGate.Ordered(Checked(c, s, intents, n), i)
                           + RiskGate.Ordered(FlattenOrders(c, s, intents, n), i);
            r.books.positions[i]
            == s.books.positions[i] + Moved(s.exec.fills, i) + if HasPrice(s, i) then ordered else 0.0
  {
    var checked, flatten := Checked(c, s, intents, n), FlattenOrders(c, s, intents, n);
    var exec := SimExecution.Submitted(s.exec, checked + flatten, ts);
    SubmittedWithin(s.exec, checked + flatten, ts, n);
    SimExecution.FillsMoveWhatWasOrdered(s.exec, checked + flatten, ts, i);
    RiskGate.OrderedConcat(checked, flatten, i);
    DrainedPositions(s.books, exec.fills, i);
  }

  /** The signed quantity the strategy's intents have ordered on a slot in this step. */
  function Wanted(c: Config, s: State, e: MarketEvent, i: nat): real
    requires c.carry.spot < |s.books.positions| && c.carry.futures < |s.books.positions|
  {
    if s.gate.tripped || !FundingCarry.Acts(c.carry, e) then 0.0
    else
      var limit, p := c.risk.maxPositionQty, s.books.positions;
      var target := FundingCarry.Target(c.carry, p, e.payload.rate);
      (if i == c.carry.spot then RiskGate.Clamp(target, limit) - p[c.carry.spot] else 0.0)
      + (if i == c.carry.futures then RiskGate.Clamp(-target, limit) - p[c.carry.futures] else 0.0)
  }

  lemma TwoOrders(orders: seq<Order>, i: nat)
    requires |orders| == 2
    ensures RiskGate.Ordered(orders, i)
            == (if orders[0].slot == i then SignedQty(orders[0].side, orders[0].qty) else 0.0)
               + (if orders[1].slot == i then SignedQty(orders[1].side, orders[1].qty) else 0.0)
  {
    var first := orders[..1];
    assert RiskGate.Ordered(first[..0], i) == 0.0;
    assert RiskGate.Ordered(first, i) == if orders[0].slot == i then SignedQty(orders[0].side, orders[0].qty) else 0.0;
    assert |orders| - 1 == 1;
  }

  lemma CheckedOrders(c: Config, s: State, e: MarketEvent, n: nat, i: nat)
    requires StateOk(s, n) && Fits(c, n)
    ensures RiskGate.Ordered(Checked(c, s, IntentsOf(c, s, Market(e), n), n), i) == Wanted(c, s, e, i)
  {
    var intents := IntentsOf(c, s, Market(e), n);
    var orders := Checked(c, s, intents, n);
    if !s.gate.tripped && FundingCarry.Acts(c.carry, e) {
      TwoOrders(orders, i);
      var target := FundingCarry.Target(c.carry, s.books.positions, e.payload.rate);
      assert intents == [RiskGate.Intent(c.carry.spot, target), RiskGate.Intent(c.carry.futures, -target)];
    }
  }

  /** Whether the gate trips in this step, judged before any of the step's fills. */
  predicate Trips(c: Config, s: State) {
    && |s.books.positions| == |s.books.marks|
    && !s.gate.tripped
    && (if s.gate.peak < Equity(s.books) then Equity(s.books) else s.gate.peak) - Equity(s.books) >= c.risk.maxDrawdown
  }

  /** The signed quantity the flattening orders on a slot in this step: minus the position held, as often as
      the slot is tracked. */
  function Flattened(c: Config, s: State, i: nat): real
    requires i < |s.books.positions|
  {
    if Trips(c, s) then RiskGate.Unwound(RiskGate.Times(c.risk.tracked, i), s.books.positions[i]) else 0.0
  }

  lemma FlattenOrdered(c: Config, s: State, intents: seq<RiskGate.Intent>, n: nat, i: nat)
    requires StateOk(s, n) && Fits(c, n) && i < n
    ensures RiskGate.Ordered(FlattenOrders(c, s, intents, n), i) == Flattened(c, s, i)
  {
    hide RiskGate.Unwound, RiskGate.Times;
    RiskGate.FlatteningFlattens(s.books.positions, c.risk.tracked, GateAfterChecks(s, intents).nextId, i);
  }

  /** One event step on one position, in full. */
  lemma EventStepMoves(c: Config, s: State, e: MarketEvent, n: nat, i: nat)
    requires StateOk(s, n) && Fits(c, n) && e.slot < n && i < n
    ensures var seen, r := Observed(s, Market(e), n), Stepped(c, s, Market(e), n);
            && r.books.positions[i]
               == s.books.positions[i]
                  + (if HasPrice(seen, i) then Wanted(c, seen, e, i) + Flattened(c, seen, i) else 0.0)
            && r.gate.tripped == (s.gate.tripped || Trips(c, seen))
            && r.exec.lastPrice == seen.exec.lastPrice
  {
    hide Flattened, RiskGate.Unwound, RiskGate.Times;
    var seen := Observed(s, Market(e), n);
    var intents := IntentsOf(c, seen, Market(e), n);
    ActedMoves(c, seen, intents, e.ts, n, i);
    CheckedOrders(c, seen, e, n, i);
    FlattenOrdered(c, seen, intents, n, i);
  }

  // ------------------------------------------------------------------------------- over event-only runs

  predicate EventsFrom(inputs: seq<Input>, from: nat) {
    forall k :: from <= k < |inputs| ==> inputs[k].Market?
  }

  predicate EventsOnly(inputs: seq<Input>) {
    EventsFrom(inputs, 0)
  }

  /** The limit until the trip, and then once more for each time the slot is tracked. */
  function Bound(c: Config, s: State, i: nat): real {
    if s.gate.tripped then Multiple(1 + RiskGate.Times(c.risk.tracked, i), c.risk.maxPositionQty)
    else c.risk.maxPositionQty
  }

  function Multiple(times: nat, limit: real): real {
    times as real * limit
  }

  lemma UnwoundBound(times: nat, position: real, limit: real)
    requires RiskGate.Abs(position) <= limit
    ensures RiskGate.Abs(RiskGate.Unwound(times, position)) + limit <= Multiple(1 + times, limit)
    ensures limit <= Multiple(1 + times, limit)
  {
    var t := times as real;
    assert (1 + times) as real * limit == limit + t * limit;
    assert -(t * limit) <= t * position <= t * limit by {
      assert t * (limit - position) >= 0.0 && t * (limit + position) >= 0.0;
    }
  }

  lemma BoundStep(c: Config, s: State, e: MarketEvent, n: nat, i: nat)
    requires StateOk(s, n) && Fits(c, n) && e.slot < n && i < n
    requires RiskGate.Abs(s.books.positions[i]) <= Bound(c, s, i)
    ensures var r := Stepped(c, s, Market(e), n);
            RiskGate.Abs(r.books.positions[i]) <= Bound(c, r, i)
  {
    hide Stepped, RiskGate.Unwound, RiskGate.Times, Multiple;
    EventStepMoves(c, s, e, n, i);
    if !s.gate.tripped {
      UnwoundBound(RiskGate.Times(c.risk.tracked, i), s.books.positions[i], c.risk.maxPositionQty);
    }
  }

  lemma FrozenStep(c: Config, s: State, e: MarketEvent, n: nat, i: nat)
    requires StateOk(s, n) && Fits(c, n) && e.slot < n && i < n
    requires s.gate.tripped
    ensures Stepped(c, s, Market(e), n).gate.tripped
    ensures Stepped(c, s, Market(e), n).books.positions[i] == s.books.positions[i]
  {
    EventStepMoves(c, s, e, n, i);
  }

  /** A run, one event longer. */
  lemma AfterEvent(c: Config, n: nat, inputs: seq<Input>) returns (before: seq<Input>, e: MarketEvent)
    requires Fits(c, n) && InputsOk(inputs, n) && inputs != [] && inputs[|inputs| - 1].Market?
    ensures inputs == before + [Market(e)] && e.slot < n
    ensures InputsOk(before, n) && After(c, n, inputs) == Stepped(c, After(c, n, before), Market(e), n)
  {
    before, e := inputs[..|inputs| - 1], inputs[|inputs| - 1].event;
    assert InputOk(inputs[|inputs| - 1], n) && inputs[|inputs| - 1] == Market(e);
  }

  /** Over any run of events, every position stays within the limit until the gate trips, and from then on
      within the limit times one more than the slot is tracked: twice it for a slot tracked once. */
  lemma {:induction false} PositionsStayWithinLimit(c: Config, n: nat, inputs: seq<Input>, i: nat)
    requires Fits(c, n) && InputsOk(inputs, n) && EventsOnly(inputs) && i < n
    ensures RiskGate.Abs(After(c, n, inputs).books.positions[i]) <= Bound(c, After(c, n, inputs), i)
  {
    hide Stepped, Multiple, RiskGate.Times;
    if inputs != [] {
      var before, e := AfterEvent(c, n, inputs);
      PositionsStayWithinLimit(c, n, before, i);
      BoundStep(c, After(c, n, before), e, n, i);
    }
  }

  lemma Earlier<T>(before: seq<T>, last: T, k: nat)
    requires k <= |before|
    ensures (before + [last])[..k] == before[..k]
  {
  }

  /** No fill ever again after the trip step: positions stay where it left them. */
  lemma {:induction false} NothingMovesAfterTrip(c: Config, n: nat, inputs: seq<Input>, tripped: nat, i: nat)
    requires Fits(c, n) && InputsOk(inputs, n) && i < n
    requires tripped <= |inputs| && EventsFrom(inputs, tripped)
    requires After(c, n, inputs[..tripped]).gate.tripped
    ensures After(c, n, inputs).gate.tripped
    ensures After(c, n, inputs).books.positions[i] == After(c, n, inputs[..tripped]).books.positions[i]
  {
    hide Stepped;
    if tripped == |inputs| {
      assert inputs[..tripped] == inputs;
    } else {
      var before, e := AfterEvent(c, n, inputs);
      Earlier(before, Market(e), tripped);
      NothingMovesAfterTrip(c, n, before, tripped, i);
      FrozenStep(c, After(c, n, before), e, n, i);
    }
  }

  /** How far past zero a position goes that is flattened so many times. */
  function Overshot(times: nat, position: real): real {
    (times - 1) as real * position
  }

  lemma UnwoundLeaves(times: nat, position: real)
    ensures position + RiskGate.Unwound(times, position) == -Overshot(times, position)
    ensures Overshot(1, position) == 0.0
  {
  }

  /** The step that trips leaves a priced position flat exactly when the step's own intents order as much as
      the flattening, sized before they fill, overshoots: nothing at all for a slot tracked once. */
  lemma TripStepLeavesTheIntent(c: Config, s: State, e: MarketEvent, n: nat, i: nat)
    requires StateOk(s, n) && Fits(c, n) && e.slot < n && i < n
    requires Trips(c, Observed(s, Market(e), n))
    ensures var seen, p, times := Observed(s, Market(e), n), s.books.positions[i], RiskGate.Times(c.risk.tracked, i);
            && (Stepped(c, s, Market(e), n).books.positions[i] == 0.0
                <==> if HasPrice(seen, i) then Wanted(c, seen, e, i) == Overshot(times, p) else p == 0.0)
            && (times == 1 ==> Overshot(times, p) == 0.0)
  {
    hide Stepped, Wanted, Overshot, RiskGate.Times, RiskGate.Unwound;
    EventStepMoves(c, s, e, n, i);
    UnwoundLeaves(RiskGate.Times(c.risk.tracked, i), s.books.positions[i]);
  }

  /** What a funding event of the futures leg does with both legs priced and no trip: at the entry rate
      or above it puts the legs at the target and its opposite, at the exit rate or below it closes
      them, and in between it leaves opposite legs within the limit alone. */
  lemma EntersHoldsAndExits(c: Config, s: State, e: MarketEvent, n: nat)
    requires StateOk(s, n) && Fits(c, n) && e.slot < n
    requires FundingCarry.Acts(c.carry, e) && c.carry.spot != c.carry.futures
    requires !s.gate.tripped && !Trips(c, Observed(s, Market(e), n))
    requires HasPrice(s, c.carry.spot) && HasPrice(s, c.carry.futures)
    ensures var was, now, rate := s.books.positions, Stepped(c, s, Market(e), n).books.positions, e.payload.rate;
            var target := RiskGate.Clamp(c.carry.targetQty, c.risk.maxPositionQty);
            && (rate >= c.carry.entryRate ==> now[c.carry.spot] == target && now[c.carry.futures] == -target)
            && (rate <= c.carry.exitRate && rate < c.carry.entryRate ==>
                now[c.carry.spot] == now[c.carry.futures] == 0.0)
            && (c.carry.exitRate < rate < c.carry.entryRate && was[c.carry.futures] == -was[c.carry.spot]
                && RiskGate.Abs(was[c.carry.spot]) <= c.risk.maxPositionQty ==>
                  now[c.carry.spot] == was[c.carry.spot] && now[c.carry.futures] == was[c.carry.futures])
  {
    hide Stepped;
    EventStepMoves(c, s, e, n, c.carry.spot);
    EventStepMoves(c, s, e, n, c.carry.futures);
  }

  // ------------------------------------------------------------------------------ the legs cancel out

  predicate Prices(e: MarketEvent, slot: nat) {
    e.slot == slot && (e.payload.Trade? || e.payload.Kline?)
  }

  function PriceIn(e: MarketEvent): real
    requires e.payload.Trade? || e.payload.Kline?
  {
    if e.payload.Trade? then e.payload.price else e.payload.close
  }

  predicate NoZeroPrice(c: Config, e: MarketEvent) {
    Prices(e, c.carry.spot) || Prices(e, c.carry.futures) ==> PriceIn(e) != 0.0
  }

  predicate NoZeroPrices(c: Config, inputs: seq<Input>) {
    forall k :: 0 <= k < |inputs| && inputs[k].Market? ==> NoZeroPrice(c, inputs[k].event)
  }

  /** Both legs have had a price before the first funding event of the futures leg, and no price of
      either is ever zero. */
  predicate PricedBeforeFunding(c: Config, inputs: seq<Input>) {
    && NoZeroPrices(c, inputs)
    && (forall k :: 0 <= k < |inputs| && inputs[k].Market? && FundingCarry.Acts(c.carry, inputs[k].event) ==>
          SeenPrice(inputs[..k], c.carry.spot) && SeenPrice(inputs[..k], c.carry.futures))
  }

  predicate SeenPrice(inputs: seq<Input>, slot: nat) {
    exists k :: 0 <= k < |inputs| && inputs[k].Market? && Prices(inputs[k].event, slot)
  }

  /** Both legs are tracked equally often: once each, as a rule, or not at all. */
  predicate TrackedAlike(c: Config) {
    RiskGate.Times(c.risk.tracked, c.carry.spot) == RiskGate.Times(c.risk.tracked, c.carry.futures)
  }

  /** The legs are opposite, and where they hold anything both have a price. */
  predicate Hedged(c: Config, s: State, n: nat)
    requires StateOk(s, n) && Fits(c, n)
  {
    var p := s.books.positions;
    && p[c.carry.spot] + p[c.carry.futures] == 0.0
    && (p[c.carry.spot] == 0.0 || (HasPrice(s, c.carry.spot) && HasPrice(s, c.carry.futures)))
  }

  lemma SeenPriceSnoc(before: seq<Input>, e: MarketEvent, slot: nat)
    ensures SeenPrice(before + [Market(e)], slot) ==> SeenPrice(before, slot) || Prices(e, slot)
  {
    var inputs := before + [Market(e)];
    if SeenPrice(inputs, slot) && !Prices(e, slot) {
      var k :| 0 <= k < |inputs| && inputs[k].Market? && Prices(inputs[k].event, slot);
      assert before[k] == inputs[k];
    }
  }

  lemma EarlierPrices(c: Config, before: seq<Input>, e: MarketEvent)
    requires NoZeroPrices(c, before + [Market(e)]) && EventsOnly(before + [Market(e)])
    ensures NoZeroPrices(c, before) && NoZeroPrice(c, e) && EventsOnly(before)
  {
    hide NoZeroPrice;
    var inputs := before + [Market(e)];
    assert inputs[|before|] == Market(e);
    forall k | 0 <= k < |before| ensures before[k] == inputs[k] {}
  }

  lemma {:induction false} SeenMeansPriced(c: Config, n: nat, inputs: seq<Input>, slot: nat)
    requires Fits(c, n) && InputsOk(inputs, n) && EventsOnly(inputs) && slot in [c.carry.spot, c.carry.futures]
    requires NoZeroPrices(c, inputs)
    ensures SeenPrice(inputs, slot) ==> HasPrice(After(c, n, inputs), slot)
  {
    if inputs != [] {
      var before, e := AfterEvent(c, n, inputs);
      EarlierPrices(c, before, e);
      assert slot == c.carry.spot || slot == c.carry.futures;
      hide Stepped, After, SeenPrice, HasPrice, NoZeroPrices, EventsFrom, Fits, InputsOk;
      SeenMeansPriced(c, n, before, slot);
      StepPrices(c, After(c, n, before), e, n, slot);
      SeenPriceSnoc(before, e, slot);
    }
  }

  lemma StepPrices(c: Config, s: State, e: MarketEvent, n: nat, slot: nat)
    requires StateOk(s, n) && Fits(c, n) && e.slot < n && (Prices(e, slot) ==> PriceIn(e) != 0.0)
    ensures HasPrice(s, slot) || Prices(e, slot) ==> HasPrice(Stepped(c, s, Market(e), n), slot)
  {
  }

  predicate Opposite(c: Config, s: State)
    requires c.carry.spot < |s.books.positions| && c.carry.futures < |s.books.positions|
  {
    s.books.positions[c.carry.spot] + s.books.positions[c.carry.futures] == 0.0
  }

  /** What one leg's fills move in an event step that wants the spot position changed by w and holds p of it,
      counted in the direction of the spot leg. */
  function LegMoves(c: Config, s: State, w: real, p: real, leg: nat): real {
    if !HasPrice(s, leg) then 0.0
    else w + if Trips(c, s) then RiskGate.Unwound(RiskGate.Times(c.risk.tracked, leg), p) else 0.0
  }

  /** Any event step keeps opposite legs opposite exactly when both legs move as far: an unpriced leg not at
      all, a priced one by the order wanted, less what a trip unwinds of it. */
  lemma LegsStayOppositeExactly(c: Config, s: State, e: MarketEvent, n: nat)
    requires StateOk(s, n) && Fits(c, n) && e.slot < n && c.carry.spot != c.carry.futures && Opposite(c, s)
    ensures var seen, p := Observed(s, Market(e), n), s.books.positions[c.carry.spot];
            var w := Wanted(c, seen, e, c.carry.spot);
            Opposite(c, Stepped(c, s, Market(e), n))
            <==> LegMoves(c, seen, w, p, c.carry.spot) == LegMoves(c, seen, w, p, c.carry.futures)
  {
    hide Stepped, RiskGate.Unwound, RiskGate.Times;
    var p := s.books.positions[c.carry.spot];
    EventStepMoves(c, s, e, n, c.carry.spot);
    EventStepMoves(c, s, e, n, c.carry.futures);
    UnwoundOpposite(RiskGate.Times(c.risk.tracked, c.carry.futures), p, s.books.positions[c.carry.futures]);
  }

  lemma UnwoundOpposite(times: nat, p: real, q: real)
    requires p + q == 0.0
    ensures RiskGate.Unwound(times, q) == -RiskGate.Unwound(times, p)
  {
    assert q == -p;
  }

  lemma HedgedStep(c: Config, s: State, e: MarketEvent, n: nat)
    requires StateOk(s, n) && Fits(c, n) && e.slot < n && Hedged(c, s, n)
    requires c.carry.spot != c.carry.futures && TrackedAlike(c)
    requires NoZeroPrice(c, e)
    requires FundingCarry.Acts(c.carry, e) ==> HasPrice(s, c.carry.spot) && HasPrice(s, c.carry.futures)
    ensures Hedged(c, Stepped(c, s, Market(e), n), n)
  {
    hide Stepped, RiskGate.Unwound, RiskGate.Times;
    LegsStayOppositeExactly(c, s, e, n);
    EventStepMoves(c, s, e, n, c.carry.spot);
    var times := RiskGate.Times(c.risk.tracked, c.carry.spot);
    UnwoundOpposite(times, 0.0, 0.0);
    StepPrices(c, s, e, n, c.carry.spot);
    StepPrices(c, s, e, n, c.carry.futures);
  }

  /** Over any run of events with both legs priced in time and tracked equally often, spot and futures cancel
      after every step, also through the flattening. */
  lemma {:induction false} LegsCancel(c: Config, n: nat, inputs: seq<Input>)
    requires Fits(c, n) && InputsOk(inputs, n) && EventsOnly(inputs)
    requires c.carry.spot != c.carry.futures && TrackedAlike(c) && PricedBeforeFunding(c, inputs)
    ensures Hedged(c, After(c, n, inputs), n)
  {
    if inputs != [] {
      var before, last := inputs[..|inputs| - 1], inputs[|inputs| - 1];
      assert forall k :: 0 <= k < |before| ==> before[k] == inputs[k] && before[..k] == inputs[..k];
      LegsCancel(c, n, before);
      SeenMeansPriced(c, n, before, c.carry.spot);
      SeenMeansPriced(c, n, before, c.carry.futures);
      assert InputOk(last, n) && last == Market(last.event) && NoZeroPrice(c, last.event);
      HedgedStep(c, After(c, n, before), last.event, n);
    }
  }

  /** Without a trip opposite legs part exactly when something is ordered and only one leg has a price. */
  lemma LegsPartWhenOneIsUnpriced(c: Config, s: State, e: MarketEvent, n: nat)
    requires StateOk(s, n) && Fits(c, n) && e.slot < n && c.carry.spot != c.carry.futures && Opposite(c, s)
    requires !Trips(c, Observed(s, Market(e), n))
    ensures var seen := Observed(s, Market(e), n);
            Opposite(c, Stepped(c, s, Market(e), n))
            <==> || Wanted(c, seen, e, c.carry.spot) == 0.0
                 || (HasPrice(seen, c.carry.spot) <==> HasPrice(seen, c.carry.futures))
  {
    hide Stepped;
    LegsStayOppositeExactly(c, s, e, n);
  }

  /** How many of the flattening orders on a slot are filled. */
  function TimesFlattened(c: Config, s: State, slot: nat): nat {
    if HasPrice(s, slot) then RiskGate.Times(c.risk.tracked, slot) else 0
  }

  /** A trip that comes with no order of the strategy parts them exactly when there is a position and the legs
      are flattened unequally often. */
  lemma LegsPartWhenOneIsFlattened(c: Config, s: State, e: MarketEvent, n: nat)
    requires StateOk(s, n) && Fits(c, n) && e.slot < n && c.carry.spot != c.carry.futures && Opposite(c, s)
    requires Trips(c, Observed(s, Market(e), n)) && Wanted(c, Observed(s, Market(e), n), e, c.carry.spot) == 0.0
    ensures var seen := Observed(s, Market(e), n);
            Opposite(c, Stepped(c, s, Market(e), n))
            <==> s.books.positions[c.carry.spot] == 0.0
                 || TimesFlattened(c, seen, c.carry.spot) == TimesFlattened(c, seen, c.carry.futures)
  {
    hide Stepped, RiskGate.Times, RiskGate.Unwound;
    var seen, p := Observed(s, Market(e), n), s.books.positions[c.carry.spot];
    LegsStayOppositeExactly(c, s, e, n);
    UnwoundEqual(TimesFlattened(c, seen, c.carry.spot), TimesFlattened(c, seen, c.carry.futures), p);
    RiskGate.UnwoundOnceMore(0, p);
  }

  lemma UnwoundEqual(t: nat, u: nat, p: real)
    ensures RiskGate.Unwound(t, p) == RiskGate.Unwound(u, p) <==> t == u || p == 0.0
  {
    assert RiskGate.Unwound(t, p) - RiskGate.Unwound(u, p) == (u - t) as real * p;
  }

  // -------------------------------------------------------------------------- when the gate trips

  /** Equity as the gate sees it at each pull: after the event, before any of the pull's fills. */
  function Levels(c: Config, n: nat, inputs: seq<Input>): (r: seq<real>)
    requires Fits(c, n) && InputsOk(inputs, n)
    ensures |r| == |inputs|
  {
    if inputs == [] then []
    else
      var last := |inputs| - 1;
      Levels(c, n, inputs[..last]) + [Equity(Observed(After(c, n, inputs[..last]), inputs[last], n).books)]
  }

  function Peak(levels: seq<real>): real {
    if levels == [] then 0.0
    else
      var before, last := Peak(levels[..|levels| - 1]), levels[|levels| - 1];
      if before < last then last else before
  }

  function Tripping(levels: seq<real>, limit: real): bool {
    levels != [] && (Tripping(levels[..|levels| - 1], limit) || Peak(levels) - levels[|levels| - 1] >= limit)
  }

  lemma GateStep(c: Config, s: State, input: Input, n: nat)
    requires StateOk(s, n) && Fits(c, n) && InputOk(input, n)
    ensures var seen := Observed(s, input, n);
            var gate := Stepped(c, s, input, n).gate;
            && gate.peak == (if s.gate.peak < Equity(seen.books) then Equity(seen.books) else s.gate.peak)
            && gate.tripped == (s.gate.tripped || gate.peak - Equity(seen.books) >= c.risk.maxDrawdown)
  {
  }

  lemma {:induction false} GateFollowsLevels(c: Config, n: nat, inputs: seq<Input>)
    requires Fits(c, n) && InputsOk(inputs, n)
    ensures After(c, n, inputs).gate.peak == Peak(Levels(c, n, inputs))
    ensures After(c, n, inputs).gate.tripped == Tripping(Levels(c, n, inputs), c.risk.maxDrawdown)
  {
    if inputs != [] {
      var before, last := inputs[..|inputs| - 1], inputs[|inputs| - 1];
      GateFollowsLevels(c, n, before);
      GateStep(c, After(c, n, before), last, n);
      assert Levels(c, n, inputs)[..|inputs| - 1] == Levels(c, n, before);
    }
  }

  /** By pull k equity has come down by the limit from an earlier level, or from zero. */
  predicate DrawnDown(levels: seq<real>, k: nat, limit: real)
    requires k < |levels|
  {
    0.0 - levels[k] >= limit || exists j :: 0 <= j <= k && levels[j] - levels[k] >= limit
  }

  lemma {:induction false} PeakIsHighest(levels: seq<real>)
    ensures Peak(levels) >= 0.0 && forall j :: 0 <= j < |levels| ==> levels[j] <= Peak(levels)
    ensures Peak(levels) == 0.0 || Peak(levels) in levels
  {
    if levels != [] {
      PeakIsHighest(levels[..|levels| - 1]);
    }
  }

  lemma {:induction false} TrippingMeansDrawnDown(levels: seq<real>, limit: real)
    ensures Tripping(levels, limit) <==> exists k :: 0 <= k < |levels| && DrawnDown(levels, k, limit)
  {
    if levels != [] {
      var before, last := levels[..|levels| - 1], |levels| - 1;
      TrippingMeansDrawnDown(before, limit);
      forall k | 0 <= k < last ensures DrawnDown(before, k, limit) <==> DrawnDown(levels, k, limit) {
        forall j | 0 <= j <= k ensures before[j] == levels[j] {}
        if DrawnDown(levels, k, limit) && 0.0 - levels[k] < limit {
          var j :| 0 <= j <= k && levels[j] - levels[k] >= limit;
          assert before[j] - before[k] >= limit;
        }
      }
      PeakIsHighest(levels);
      assert DrawnDown(levels, last, limit) <==> Peak(levels) - levels[last] >= limit;
    }
  }

  /** In any run, timers or not, the gate has tripped exactly when at some pull equity was the drawdown
      limit or more below an earlier level or zero. */
  lemma TripsOnDrawdown(c: Config, n: nat, inputs: seq<Input>)
    requires Fits(c, n) && InputsOk(inputs, n)
    ensures var levels := Levels(c, n, inputs);
            After(c, n, inputs).gate.tripped
            <==> exists k :: 0 <= k < |levels| && DrawnDown(levels, k, c.risk.maxDrawdown)
  {
    GateFollowsLevels(c, n, inputs);
    TrippingMeansDrawnDown(Levels(c, n, inputs), c.risk.maxDrawdown);
  }

  // ------------------------------------------------------------------------------ fills applied twice

  lemma {:induction false} MovedConcat(a: seq<Fill>, b: seq<Fill>, slot: nat)
    ensures Moved(a + b, slot) == Moved(a, slot) + Moved(b, slot)
  {
    if b == [] {
      assert a + b == a;
    } else {
      MovedConcat(a, b[..|b| - 1], slot);
      assert (a + b)[..|a + b| - 1] == a + b[..|b| - 1];
    }
  }

  /** Every fill applied to the books over a run, in order. */
  function Applied(c: Config, n: nat, inputs: seq<Input>): seq<Fill>
    requires Fits(c, n) && InputsOk(inputs, n)
  {
    if inputs == [] then [] else Applied(c, n, inputs[..|inputs| - 1]) + After(c, n, inputs).exec.fills
  }

  /** The fills a pull finds in the buffer: none for an event, which clears it. */
  function Found(c: Config, n: nat, inputs: seq<Input>, k: nat): seq<Fill>
    requires Fits(c, n) && InputsOk(inputs, n) && k < |inputs|
  {
    Observed(After(c, n, inputs[..k]), inputs[k], n).exec.fills
  }

  lemma StepAddsFills(c: Config, s: State, input: Input, n: nat)
    requires StateOk(s, n) && Fits(c, n) && InputOk(input, n)
    ensures Observed(s, input, n).exec.fills <= Stepped(c, s, input, n).exec.fills
  {
    var seen := Observed(s, input, n);
    var intents := IntentsOf(c, seen, input, n);
    var orders := Checked(c, seen, intents, n) + FlattenOrders(c, seen, intents, n);
    SimExecution.OneOutcomeEach(seen.exec, orders, TsOf(input));
  }

  /** Every fill the execution made over a run, in order. */
  function Produced(c: Config, n: nat, inputs: seq<Input>): seq<Fill>
    requires Fits(c, n) && InputsOk(inputs, n)
  {
    if inputs == [] then []
    else
      var last := |inputs| - 1;
      StepAddsFills(c, After(c, n, inputs[..last]), inputs[last], n);
      Produced(c, n, inputs[..last]) + After(c, n, inputs).exec.fills[|Found(c, n, inputs, last)|..]
  }

  /** Positions are the sum of what was applied. */
  lemma {:induction false} PositionsAreAppliedFills(c: Config, n: nat, inputs: seq<Input>, i: nat)
    requires Fits(c, n) && InputsOk(inputs, n) && i < n
    ensures After(c, n, inputs).books.positions[i] == Moved(Applied(c, n, inputs), i)
  {
    if inputs != [] {
      var before, last := inputs[..|inputs| - 1], inputs[|inputs| - 1];
      PositionsAreAppliedFills(c, n, before, i);
      MovedConcat(Applied(c, n, before), After(c, n, inputs).exec.fills, i);
      StepDrains(c, After(c, n, before), last, n, i);
    }
  }

  /** Money is conserved over any run, timers or not: what went out in trades, fees and funding is what
      cash has lost. */
  lemma {:induction false} RunBalances(c: Config, n: nat, inputs: seq<Input>)
    requires Fits(c, n) && InputsOk(inputs, n)
    ensures Balance(After(c, n, inputs).books) + Notional(Applied(c, n, inputs)) == 0.0
  {
    if inputs == [] {
      ZerosSumToZero(n);
    } else {
      var before, last := inputs[..|inputs| - 1], inputs[|inputs| - 1];
      RunBalances(c, n, before);
      NotionalConcat(Applied(c, n, before), After(c, n, inputs).exec.fills);
      StepBalances(c, After(c, n, before), last, n);
    }
  }

  lemma StepBalances(c: Config, s: State, input: Input, n: nat)
    requires StateOk(s, n) && Fits(c, n) && InputOk(input, n)
    ensures Balance(Stepped(c, s, input, n).books) + Notional(Stepped(c, s, input, n).exec.fills) == Balance(s.books)
  {
    var seen := Observed(s, input, n);
    DrainBalances(seen.books, Stepped(c, s, input, n).exec.fills);
    if input.Market? {
      OneBookingBalances(s.books, EventBooked(input.event));
    }
  }

  lemma StepDrains(c: Config, s: State, input: Input, n: nat, i: nat)
    requires StateOk(s, n) && Fits(c, n) && InputOk(input, n) && i < n
    ensures var r := Stepped(c, s, input, n);
            r.books.positions[i] == s.books.positions[i] + Moved(r.exec.fills, i)
  {
    var seen := Observed(s, input, n);
    DrainedPositions(seen.books, Stepped(c, s, input, n).exec.fills, i);
  }

  /** Pull k is a timer and finds fills left over from the pull before. */
  predicate StaleAt(c: Config, n: nat, inputs: seq<Input>, k: nat)
    requires Fits(c, n) && InputsOk(inputs, n) && k < |inputs|
  {
    inputs[k].Timer? && After(c, n, inputs[..k]).exec.fills != []
  }

  predicate NothingStale(c: Config, n: nat, inputs: seq<Input>)
    requires Fits(c, n) && InputsOk(inputs, n)
  {
    inputs == []
    || (var last := |inputs| - 1;
        NothingStale(c, n, inputs[..last]) && !StaleAt(c, n, inputs, last))
  }

  lemma FoundIsStale(c: Config, n: nat, inputs: seq<Input>, k: nat)
    requires Fits(c, n) && InputsOk(inputs, n) && k < |inputs|
    ensures Found(c, n, inputs, k) == if inputs[k].Timer? then After(c, n, inputs[..k]).exec.fills else []
  {
  }

  lemma {:induction false} AppliedAtLeastProduced(c: Config, n: nat, inputs: seq<Input>)
    requires Fits(c, n) && InputsOk(inputs, n)
    ensures |Applied(c, n, inputs)| >= |Produced(c, n, inputs)|
    ensures |Applied(c, n, inputs)| == |Produced(c, n, inputs)| <==> NothingStale(c, n, inputs)
    ensures NothingStale(c, n, inputs) ==> Applied(c, n, inputs) == Produced(c, n, inputs)
  {
    if inputs != [] {
      var before, last := inputs[..|inputs| - 1], |inputs| - 1;
      AppliedAtLeastProduced(c, n, before);
      StepAddsFills(c, After(c, n, before), inputs[last], n);
      FoundIsStale(c, n, inputs, last);
    }
  }

  lemma StaleEarlier(c: Config, n: nat, inputs: seq<Input>, k: nat)
    requires Fits(c, n) && InputsOk(inputs, n) && k < |inputs| - 1
    ensures InputsOk(inputs[..|inputs| - 1], n)
    ensures StaleAt(c, n, inputs[..|inputs| - 1], k) == StaleAt(c, n, inputs, k)
  {
    assert inputs[..|inputs| - 1][..k] == inputs[..k];
  }

  predicate NoneStale(c: Config, n: nat, inputs: seq<Input>)
    requires Fits(c, n) && InputsOk(inputs, n)
  {
    forall k :: 0 <= k < |inputs| ==> !StaleAt(c, n, inputs, k)
  }

  lemma StaleSplit(c: Config, n: nat, inputs: seq<Input>)
    requires Fits(c, n) && InputsOk(inputs, n) && inputs != [] && InputsOk(inputs[..|inputs| - 1], n)
    ensures NoneStale(c, n, inputs)
            <==> NoneStale(c, n, inputs[..|inputs| - 1]) && !StaleAt(c, n, inputs, |inputs| - 1)
  {
    hide StaleAt, After, Fits, InputOk, InputsOk;
    var before := inputs[..|inputs| - 1];
    if NoneStale(c, n, inputs) {
      forall k | 0 <= k < |before| ensures !StaleAt(c, n, before, k) { StaleEarlier(c, n, inputs, k); }
    }
    if NoneStale(c, n, before) && !StaleAt(c, n, inputs, |inputs| - 1) {
      forall k | 0 <= k < |inputs| ensures !StaleAt(c, n, inputs, k) {
        if k < |before| { StaleEarlier(c, n, inputs, k); }
      }
    }
  }

  lemma {:induction false} NothingStaleEverywhere(c: Config, n: nat, inputs: seq<Input>)
    requires Fits(c, n) && InputsOk(inputs, n)
    ensures NothingStale(c, n, inputs) <==> NoneStale(c, n, inputs)
  {
    if inputs != [] {
      assert InputsOk(inputs[..|inputs| - 1], n);
      hide StaleAt, After, Fits, InputOk, InputsOk, NoneStale;
      StaleSplit(c, n, inputs);
      NothingStaleEverywhere(c, n, inputs[..|inputs| - 1]);
    }
  }

  /** What was applied is what was made, each fill once, exactly when no timer pull finds fills left
      over from the pull before. */
  lemma FillsAppliedOnce(c: Config, n: nat, inputs: seq<Input>)
    requires Fits(c, n) && InputsOk(inputs, n)
    ensures Applied(c, n, inputs) == Produced(c, n, inputs) <==>
              forall k :: 0 <= k < |inputs| ==> !StaleAt(c, n, inputs, k)
  {
    AppliedAtLeastProduced(c, n, inputs);
    NothingStaleEverywhere(c, n, inputs);
  }

  /** A timer pull that finds fills moves every position by them once more. */
  lemma TimerAppliesAgain(c: Config, s: State, ts: int, n: nat, i: nat)
    requires StateOk(s, n) && Fits(c, n) && i < n
    ensures Stepped(c, s, Timer(ts), n).books.positions[i]
            == s.books.positions[i] + Moved(s.exec.fills, i) + if HasPrice(s, i) then Flattened(c, s, i) else 0.0
  {
    hide Flattened;
    ActedMoves(c, s, [], ts, n, i);
    FlattenOrdered(c, s, [], n, i);
  }

  lemma {:induction false} NoExposure(positions: seq<real>, marks: seq<real>)
    requires |positions| == |marks| && forall i :: 0 <= i < |positions| ==> positions[i] == 0.0
    ensures Exposure(positions, marks) == 0.0
  {
    if positions != [] {
      NoExposure(positions[..|positions| - 1], marks[..|marks| - 1]);
    }
  }

  /** Nothing traded yet. */
  predicate Untouched(s: State, n: nat) {
    && StateOk(s, n) && s.gate.peak == 0.0 && !s.gate.tripped && s.books.cash == 0.0
    && (forall i :: 0 <= i < n ==> s.books.positions[i] == 0.0)
  }

  lemma UntouchedDoesNotTrip(c: Config, s: State, e: MarketEvent, n: nat)
    requires Untouched(s, n) && Fits(c, n) && c.risk.maxDrawdown > 0.0 && e.slot < n
    ensures !Trips(c, Observed(s, Market(e), n)) && Stepped(c, s, Market(e), n).gate.peak == 0.0
    ensures !Stepped(c, s, Market(e), n).gate.tripped
  {
    hide Stepped, Exposure;
    ObservedFlat(s, e, n);
    GateStep(c, s, Market(e), n);
  }

  lemma ObservedFlat(s: State, e: MarketEvent, n: nat)
    requires Untouched(s, n) && e.slot < n
    ensures var seen := Observed(s, Market(e), n);
            Equity(seen.books) == 0.0 && seen.gate == s.gate && |seen.books.positions| == |seen.books.marks|
  {
    hide Exposure;
    var seen := Observed(s, Market(e), n);
    NoExposure(seen.books.positions, seen.books.marks);
    if e.payload.Funding? {
      ZeroFlow(s.books.positions[e.slot], s.books.fundingMarks[e.slot], e.payload.rate);
    }
  }

  lemma ZeroFlow(p: real, m: real, rate: real)
    requires p == 0.0
    ensures p * m * rate == 0.0
  {
  }

  lemma QuietStep(c: Config, s: State, e: MarketEvent, n: nat)
    requires Untouched(s, n) && Fits(c, n) && c.risk.maxDrawdown > 0.0 && e.slot < n
    requires e.payload.Kline?
    ensures Untouched(Stepped(c, s, Market(e), n), n)
  {
    UntouchedDoesNotTrip(c, s, e, n);
    var seen := Observed(s, Market(e), n);
    var intents := IntentsOf(c, seen, Market(e), n);
    assert intents == [] && FlattenOrders(c, seen, intents, n) == [];
    assert Checked(c, seen, intents, n) + FlattenOrders(c, seen, intents, n) == [];
    assert Stepped(c, s, Market(e), n).exec.fills == [];
  }

  /** The first entry fills the clamped target on a priced spot leg. */
  lemma FirstEntry(c: Config, s: State, e: MarketEvent, n: nat)
    requires Untouched(s, n) && Fits(c, n) && c.risk.maxDrawdown > 0.0
    requires c.carry.spot != c.carry.futures && e.slot == c.carry.futures && e.payload == Funding(c.carry.entryRate)
    requires HasPrice(s, c.carry.spot)
    ensures var once := RiskGate.Clamp(c.carry.targetQty, c.risk.maxPositionQty);
            var r := Stepped(c, s, Market(e), n);
            r.books.positions[c.carry.spot] == once == Moved(r.exec.fills, c.carry.spot)
  {
    UntouchedDoesNotTrip(c, s, e, n);
    EventStepMoves(c, s, e, n, c.carry.spot);
    StepDrains(c, s, Market(e), n, c.carry.spot);
  }

  lemma AfterOneMore(c: Config, n: nat, inputs: seq<Input>, e: MarketEvent)
    requires Fits(c, n) && InputsOk(inputs, n) && e.slot < n
    ensures InputsOk(inputs + [Market(e)], n)
    ensures After(c, n, inputs + [Market(e)]) == Stepped(c, After(c, n, inputs), Market(e), n)
  {
    assert (inputs + [Market(e)])[..|inputs|] == inputs;
  }

  lemma OneBar(c: Config, n: nat, inputs: seq<Input>, e: MarketEvent)
    requires Fits(c, n) && c.risk.maxDrawdown > 0.0
    requires InputsOk(inputs, n) && Untouched(After(c, n, inputs), n)
    requires e.slot < n && e.payload.Kline? && e.payload.close != 0.0
    ensures InputsOk(inputs + [Market(e)], n)
    ensures Untouched(After(c, n, inputs + [Market(e)]), n) && HasPrice(After(c, n, inputs + [Market(e)]), e.slot)
  {
    AfterOneMore(c, n, inputs, e);
    QuietStep(c, After(c, n, inputs), e, n);
    StepPrices(c, After(c, n, inputs), e, n, e.slot);
  }

  lemma EntryAfterBars(c: Config, n: nat, inputs: seq<Input>, e: MarketEvent)
    requires Fits(c, n) && c.risk.maxDrawdown > 0.0
    requires InputsOk(inputs, n) && Untouched(After(c, n, inputs), n) && HasPrice(After(c, n, inputs), c.carry.spot)
    requires c.carry.spot != c.carry.futures && e.slot == c.carry.futures && e.payload == Funding(c.carry.entryRate)
    ensures var once := RiskGate.Clamp(c.carry.targetQty, c.risk.maxPositionQty);
            && InputsOk(inputs + [Market(e)], n)
            && After(c, n, inputs + [Market(e)]).books.positions[c.carry.spot] == once
            && Moved(After(c, n, inputs + [Market(e)]).exec.fills, c.carry.spot) == once
  {
    AfterOneMore(c, n, inputs, e);
    FirstEntry(c, After(c, n, inputs), e, n);
  }

  lemma TimerAfter(c: Config, n: nat, inputs: seq<Input>, ts: int)
    requires Fits(c, n) && InputsOk(inputs, n) && RiskGate.Times(c.risk.tracked, c.carry.spot) == 0
    ensures InputsOk(inputs + [Timer(ts)], n)
    ensures After(c, n, inputs + [Timer(ts)]).books.positions[c.carry.spot]
            == After(c, n, inputs).books.positions[c.carry.spot] + Moved(After(c, n, inputs).exec.fills, c.carry.spot)
  {
    assert (inputs + [Timer(ts)])[..|inputs|] == inputs;
    TimerAppliesAgain(c, After(c, n, inputs), ts, n, c.carry.spot);
  }

  /** Two bars, one funding event and one timer tick: the tick buys the spot position a second time. */
  lemma TimerFillsTwice(c: Config, n: nat, price: real, ts: int)
    requires Fits(c, n) && c.risk.maxDrawdown > 0.0
    requires c.carry.spot != c.carry.futures && price != 0.0 && RiskGate.Times(c.risk.tracked, c.carry.spot) == 0
    ensures var futures, spot := c.carry.futures, c.carry.spot;
            var bars := [Market(MarketEvent(futures, ts, Kline(price)))]
                        + [Market(MarketEvent(spot, ts, Kline(price)))];
            var entered := bars + [Market(MarketEvent(c.carry.futures, ts, Funding(c.carry.entryRate)))];
            var once := RiskGate.Clamp(c.carry.targetQty, c.risk.maxPositionQty);
            && After(c, n, entered).books.positions[c.carry.spot] == once
            && After(c, n, entered + [Timer(ts)]).books.positions[c.carry.spot] == 2.0 * once
  {
    var futures, spot := MarketEvent(c.carry.futures, ts, Kline(price)), MarketEvent(c.carry.spot, ts, Kline(price));
    var funding := MarketEvent(c.carry.futures, ts, Funding(c.carry.entryRate));
    var one := [Market(futures)];
    var bars := one + [Market(spot)];
    OneBar(c, n, [], futures);
    assert [] + one == one;
    OneBar(c, n, one, spot);
    EntryAfterBars(c, n, bars, funding);
    TimerAfter(c, n, bars + [Market(funding)], ts);
  }

  // ----------------------------------------------------------- runs that part the legs or end not flat

  /** One bar of the spot leg and one funding event: the spot order fills and the other is rejected. */
  lemma RunPartsTheLegs(c: Config, n: nat, price: real, ts: int)
    requires Fits(c, n) && c.risk.maxDrawdown > 0.0 && c.carry.spot != c.carry.futures && price != 0.0
    ensures var bar := Market(MarketEvent(c.carry.spot, ts, Kline(price)));
            var entry := Market(MarketEvent(c.carry.futures, ts, Funding(c.carry.entryRate)));
            var p := After(c, n, [bar] + [entry]).books.positions;
            && p[c.carry.spot] == RiskGate.Clamp(c.carry.targetQty, c.risk.maxPositionQty)
            && p[c.carry.futures] == 0.0
  {
    hide Stepped;
    var bar := MarketEvent(c.carry.spot, ts, Kline(price));
    var entry := MarketEvent(c.carry.futures, ts, Funding(c.carry.entryRate));
    OneBar(c, n, [], bar);
    assert [] + [Market(bar)] == [Market(bar)];
    EntryAfterBars(c, n, [Market(bar)], entry);
    AfterOneMore(c, n, [], bar);
    EventStepMoves(c, Initial(n), bar, n, c.carry.futures);
    AfterOneMore(c, n, [Market(bar)], entry);
    EventStepMoves(c, After(c, n, [Market(bar)]), entry, n, c.carry.futures);
  }

  /** Two instruments, the spot leg tracked, and a drawdown limit that the fees of one entry reach. */
  const SPOT_TRACKED := Config(RiskGate.Config(1.0, 0.0008, [1]), FundingCarry.Config(0, 1, 1.0, 0.01, 0.0))

  /** Nothing traded, and what has been quoted is quoted at one. */
  function Quoted(marks: seq<real>): State {
    State(Books([0.0, 0.0], marks, [0.0, 0.0], [0.0, 0.0], [0.0, 0.0], [0.0, 0.0], 0.0),
          RiskGate.Gate(false, 0.0, 1), SimExecution.Exec(marks, [], []))
  }

  function Quote(slot: nat): MarketEvent {
    MarketEvent(slot, 0, Kline(1.0))
  }

  function FundingAt(rate: real): MarketEvent {
    MarketEvent(0, 0, Funding(rate))
  }

  lemma QuoteStep(marks: seq<real>, slot: nat)
    requires |marks| == 2 && slot < 2
    ensures Stepped(SPOT_TRACKED, Quoted(marks), Market(Quote(slot)), 2) == Quoted(marks[slot := 1.0])
  {
    var s := Quoted(marks);
    var seen := Observed(s, Market(Quote(slot)), 2);
    NoExposure(seen.books.positions, seen.books.marks);
    assert !Trips(SPOT_TRACKED, seen);
    assert Checked(SPOT_TRACKED, seen, [], 2) + FlattenOrders(SPOT_TRACKED, seen, [], 2) == [];
  }

  lemma PairExposure(p: seq<real>, marks: seq<real>)
    requires |p| == |marks| == 2
    ensures Exposure(p, marks) == p[0] * marks[0] + p[1] * marks[1]
  {
    assert Exposure(p[..1][..0], marks[..1][..0]) == 0.0;
    assert Exposure(p[..1], marks[..1]) == p[0] * marks[0];
  }

  const BUY_SPOT := Order(1, 1, Buy, 1.0)
  const SELL_FUTURES := Order(2, 0, Sell, 1.0)

  lemma EntryOrders()
    ensures var seen, e := Observed(Quoted([1.0, 1.0]), Market(FundingAt(0.01)), 2), Market(FundingAt(0.01));
            var intents := IntentsOf(SPOT_TRACKED, seen, e, 2);
            && seen.books.positions == [0.0, 0.0] && seen.books.marks == [1.0, 1.0] && seen.books.cash == 0.0
            && !Trips(SPOT_TRACKED, seen)
            && Checked(SPOT_TRACKED, seen, intents, 2) == [BUY_SPOT, SELL_FUTURES]
            && FlattenOrders(SPOT_TRACKED, seen, intents, 2) == []
  {
    var seen := Observed(Quoted([1.0, 1.0]), Market(FundingAt(0.01)), 2);
    NoExposure(seen.books.positions, seen.books.marks);
    assert seen.books.cash == 0.0 && Equity(seen.books) == 0.0;
  }

  lemma EntryFills(x: SimExecution.Exec)
    requires x.lastPrice == [1.0, 1.0] && x.fills == []
    ensures SimExecution.Submitted(x, [BUY_SPOT, SELL_FUTURES], 0).fills
            == [SimExecution.FillFor(1.0, BUY_SPOT, 0), SimExecution.FillFor(1.0, SELL_FUTURES, 0)]
  {
    assert [BUY_SPOT, SELL_FUTURES][..1] == [BUY_SPOT] && [BUY_SPOT][..0] == [];
    assert SimExecution.Submitted(x, [BUY_SPOT], 0).fills == [SimExecution.FillFor(1.0, BUY_SPOT, 0)];
  }

  lemma EntryBooks(b: Books)
    requires Shape(b, 2) && b.positions == [0.0, 0.0] && b.cash == 0.0
    ensures var r := Drained(b, [SimExecution.FillFor(1.0, BUY_SPOT, 0), SimExecution.FillFor(1.0, SELL_FUTURES, 0)]);
            r.positions == [-1.0, 1.0] && r.marks == b.marks && r.cash == -0.0008
  {
    var first, second := SimExecution.FillFor(1.0, BUY_SPOT, 0), SimExecution.FillFor(1.0, SELL_FUTURES, 0);
    assert [first, second][..1] == [first] && [first][..0] == [];
    assert Drained(b, [first]) == Filled(b, first);
  }

  lemma EntryStep()
    ensures var r := Stepped(SPOT_TRACKED, Quoted([1.0, 1.0]), Market(FundingAt(0.01)), 2);
            && r.books.positions == [-1.0, 1.0] && r.books.marks == [1.0, 1.0] && r.books.cash == -0.0008
            && !r.gate.tripped && r.gate.peak == 0.0 && r.exec.lastPrice == [1.0, 1.0]
  {
    hide Drained, Checked, FlattenOrders, SimExecution.Submitted, SimExecution.FillFor, Exposure;
    var seen := Observed(Quoted([1.0, 1.0]), Market(FundingAt(0.01)), 2);
    EntryOrders();
    EntryFills(seen.exec);
    EntryBooks(seen.books);
    NoExposure(seen.books.positions, seen.books.marks);
    assert [BUY_SPOT, SELL_FUTURES] + [] == [BUY_SPOT, SELL_FUTURES];
  }

  lemma TripLevel(s: State)
    requires StateOk(s, 2) && s.books.positions == [-1.0, 1.0] && s.books.marks == [1.0, 1.0]
    requires s.books.cash == -0.0008 && !s.gate.tripped && s.gate.peak == 0.0
    ensures Trips(SPOT_TRACKED, Observed(s, Market(FundingAt(0.0)), 2))
  {
    var seen := Observed(s, Market(FundingAt(0.0)), 2);
    assert Flow(s.books, 0, 0.0) == 0.0;
    assert seen.books.cash == -0.0008;
    assert Exposure([-1.0, 1.0], [1.0, 1.0]) == 0.0 by { PairExposure([-1.0, 1.0], [1.0, 1.0]); }
  }

  /** The exit that comes with the trip: the spot leg is sold twice and ends short, the futures leg ends flat. */
  lemma RunTripsNotFlat()
    ensures var entered := [Market(Quote(0))] + [Market(Quote(1))] + [Market(FundingAt(0.01))];
            var inputs := entered + [Market(FundingAt(0.0))];
            && InputsOk(inputs, 2)
            && !After(SPOT_TRACKED, 2, inputs[..3]).gate.tripped && After(SPOT_TRACKED, 2, inputs).gate.tripped
            && After(SPOT_TRACKED, 2, inputs).books.positions == [0.0, -1.0]
  {
    hide Stepped;
    var c := SPOT_TRACKED;
    var one := [Market(Quote(0))];
    var two := one + [Market(Quote(1))];
    var three := two + [Market(FundingAt(0.01))];
    var inputs := three + [Market(FundingAt(0.0))];
    assert Initial(2) == Quoted([0.0, 0.0]) && [] + one == one && inputs[..3] == three;
    AfterOneMore(c, 2, [], Quote(0));
    QuoteStep([0.0, 0.0], 0);
    assert [0.0, 0.0][0 := 1.0] == [1.0, 0.0] && [1.0, 0.0][1 := 1.0] == [1.0, 1.0];
    AfterOneMore(c, 2, one, Quote(1));
    QuoteStep([1.0, 0.0], 1);
    AfterOneMore(c, 2, two, FundingAt(0.01));
    EntryStep();
    var s := After(c, 2, three);
    AfterOneMore(c, 2, three, FundingAt(0.0));
    var seen := Observed(s, Market(FundingAt(0.0)), 2);
    TripLevel(s);
    assert RiskGate.Times([1], 0) == 0 && RiskGate.Times([1], 1) == 1 by { assert [1][..0] == []; }
    EventStepMoves(c, s, FundingAt(0.0), 2, 0);
    EventStepMoves(c, s, FundingAt(0.0), 2, 1);
  }

  // ---------------------------------------------------------------------------------------- the engine

  class Engine {
    const config: Config
    const slots: nat
    const portfolio: Portfolio
    const risk: RiskGate.BasicRiskGate
    const exec: SimExecution.SimExecution
    const strategy: FundingCarry.FundingCarryStrategy

    ghost function Value(): State
      reads portfolio, risk, exec, exec.matcher
    {
      State(portfolio.Value(), risk.Value(), exec.Value())
    }

    ghost predicate Valid()
      reads portfolio, exec, exec.matcher
    {
      && Fits(config, slots)
      && risk.config == config.risk && risk.portfolio == portfolio
      && strategy.config == config.carry && strategy.portfolio == portfolio
      && Shape(portfolio.Value(), slots) && |exec.matcher.lastPrice| == slots && FillsWithin(exec.fills, slots)
    }

    constructor (config: Config, slots: nat)
      requires Fits(config, slots)
      ensures Valid() && this.config == config && this.slots == slots
      ensures Value() == Initial(slots)
      ensures fresh(portfolio) && fresh(risk) && fresh(exec) && fresh(exec.matcher) && fresh(strategy)
    {
      this.config, this.slots := config, slots;
      var portfolio := new Portfolio(slots);
      this.portfolio := portfolio;
      risk := new RiskGate.BasicRiskGate(config.risk, portfolio);
      var matcher := new SimExecution.LastTradeMatcher(slots);
      exec := new SimExecution.SimExecution(matcher);
      strategy := new FundingCarry.FundingCarryStrategy(config.carry, portfolio);
    }

    method SubmitIfApproved(decision: RiskGate.Decision, ts: int)
      requires decision.Decided? ==> decision.order.slot < |exec.matcher.lastPrice|
      modifies exec
      ensures exec.Value()
              == SimExecution.Submitted(old(exec.Value()), if decision.Decided? then [decision.order] else [], ts)
    {
      if decision.Decided? {
        exec.Submit(decision.order, ts);
      }
    }

    method DrainOutcomes()
      requires Valid()
      modifies portfolio
      ensures Valid() && portfolio.Value() == Drained(old(portfolio.Value()), exec.fills)
    {
      for k := 0 to |exec.fills|
        invariant Valid()
        invariant portfolio.Value() == Drained(old(portfolio.Value()), exec.fills[..k])
      {
        assert exec.fills[..k + 1][..k] == exec.fills[..k];
        portfolio.ApplyFill(exec.fills[k]);
      }
      assert exec.fills[..|exec.fills|] == exec.fills;
    }

    /** The intents of one event, checked and submitted in turn. */
    method SubmitIntents(intents: seq<RiskGate.Intent>, ts: int)
      requires Valid() && forall k :: 0 <= k < |intents| ==> intents[k].slot < slots
      modifies risk, exec
      ensures risk.Value() == GateAfterChecks(old(Value()), intents)
      ensures exec.Value()
              == SimExecution.Submitted(old(exec.Value()), Checked(config, old(Value()), intents, slots), ts)
    {
      ghost var s := Value();
      ghost var checked := Checked(config, s, intents, slots);
      for k := 0 to |intents|
        invariant risk.Value() == GateAfterChecks(s, intents[..k])
        invariant exec.Value() == SimExecution.Submitted(s.exec, if s.gate.tripped then [] else checked[..k], ts)
      {
        ghost var x := exec.Value();
        var decision := risk.Check(intents[k]);
        SubmitIfApproved(decision, ts);
        if !s.gate.tripped {
          assert decision.order == checked[k];
          assert checked[..k + 1] == checked[..k] + [checked[k]];
          SimExecution.SubmittedConcat(s.exec, checked[..k], [checked[k]], ts);
        }
      }
      assert intents[..|intents|] == intents && (s.gate.tripped || checked[..|intents|] == checked);
    }

    method SubmitAll(orders: seq<Order>, ts: int)
      requires RiskGate.OrdersWithin(orders, |exec.matcher.lastPrice|)
      modifies exec
      ensures exec.Value() == SimExecution.Submitted(old(exec.Value()), orders, ts)
    {
      ghost var x := exec.Value();
      for k := 0 to |orders|
        invariant exec.Value() == SimExecution.Submitted(x, orders[..k], ts)
      {
        exec.Submit(orders[k], ts);
        assert orders[..k + 1] == orders[..k] + [orders[k]];
        SimExecution.SubmittedConcat(x, orders[..k], [orders[k]], ts);
      }
      assert orders[..|orders|] == orders;
    }

    /** One pull of the transport, applied in full. */
    method Step(input: Input)
      requires Valid() && InputOk(input, slots)
      modifies portfolio, risk, exec, exec.matcher, strategy
      ensures Valid() && Value() == Stepped(config, old(Value()), input, slots)
    {
      hide SimExecution.Submitted, SimExecution.Priced, Drained, Funded, Marked, Checked;
      hide RiskGate.Ticked, RiskGate.TickOrders, FundingCarry.Intents;
      ghost var s := Value();
      var intents := [];
      if input.Market? {
        exec.OnMarketEvent(input.event);
        portfolio.ApplyFunding(input.event);
        portfolio.ApplyMarkPrice(input.event);
        intents := strategy.OnEvent(input.event);
      }
      ghost var seen := Observed(s, input, slots);
      assert Value() == seen && intents == IntentsOf(config, seen, input, slots);
      SubmitIntents(intents, TsOf(input));
      var orders := risk.OnTick();
      assert orders == FlattenOrders(config, seen, intents, slots);
      SubmitAll(orders, TsOf(input));
      ghost var checked := Checked(config, seen, intents, slots);
      SimExecution.SubmittedConcat(seen.exec, checked, orders, TsOf(input));
      SubmittedWithin(seen.exec, checked + orders, TsOf(input), slots);
      DrainOutcomes();
    }
  }
}
