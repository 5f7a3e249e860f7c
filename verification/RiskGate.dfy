/** BasicRiskGate: intents clamped to a position limit, and one flattening of everything tracked when
    the drawdown limit is reached, after which every intent is rejected. */
module RiskGate {
  import opened Portfolio

  datatype Config = Config(maxPositionQty: real, maxDrawdown: real, tracked: seq<nat>)

  predicate Within(slots: seq<nat>, n: nat) {
    forall k :: 0 <= k < |slots| ==> slots[k] < n
  }

  /** std::clamp demands a limit that is not negative, and the portfolio its own slots. */
  predicate ConfigOk(config: Config, n: nat) {
    config.maxPositionQty >= 0.0 && Within(config.tracked, n)
  }

  datatype Gate = Gate(tripped: bool, peak: real, nextId: nat)

  datatype Intent = Intent(slot: nat, target: real)

  datatype Decision = Rejected | Decided(resized: bool, order: Order)

  function Clamp(v: real, limit: real): real {
    if v < -limit then -limit else if v > limit then limit else v
  }

  function Abs(v: real): real {
    if v < 0.0 then -v else v
  }

  /** The order that would take a position to the intent's target, cut to the limit. */
  function OrderFor(limit: real, positions: seq<real>, intent: Intent, id: nat): Order
    requires intent.slot < |positions|
  {
    var delta := Clamp(intent.target, limit) - positions[intent.slot];
    Order(id, intent.slot, if delta >= 0.0 then Buy else Sell, Abs(delta))
  }

  /** The orders that would take every tracked position to zero. */
  function Flattening(positions: seq<real>, tracked: seq<nat>, id: nat): seq<Order>
    requires Within(tracked, |positions|)
  {
    if tracked == [] then []
    else
      var before := Flattening(positions, tracked[..|tracked| - 1], id);
      var slot := tracked[|tracked| - 1];
      var position := positions[slot];
      if position == 0.0 then before
      else before + [Order(id + |before|, slot, if position > 0.0 then Sell else Buy, Abs(position))]
  }

  predicate OrdersWithin(orders: seq<Order>, n: nat) {
    forall k :: 0 <= k < |orders| ==> orders[k].slot < n
  }

  lemma {:induction false} FlatteningWithin(positions: seq<real>, tracked: seq<nat>, id: nat)
    requires Within(tracked, |positions|)
    ensures OrdersWithin(Flattening(positions, tracked, id), |positions|)
  {
    if tracked != [] {
      var last := |tracked| - 1;
      FlatteningWithin(positions, tracked[..last], id);
      assert tracked[last] < |positions|;
    }
  }

  /** The gate after a tick at this equity. */
  function Ticked(config: Config, gate: Gate, b: Books): Gate
    requires Shape(b, |b.positions|) && ConfigOk(config, |b.positions|)
  {
    var peak := if gate.peak < Equity(b) then Equity(b) else gate.peak;
    var trips := !gate.tripped && peak - Equity(b) >= config.maxDrawdown;
    Gate(gate.tripped || trips, peak,
         gate.nextId + if trips then |Flattening(b.positions, config.tracked, gate.nextId)| else 0)
  }

  function TickOrders(config: Config, gate: Gate, b: Books): seq<Order>
    requires Shape(b, |b.positions|) && ConfigOk(config, |b.positions|)
  {
    if !gate.tripped && Ticked(config, gate, b).tripped
    then Flattening(b.positions, config.tracked, gate.nextId)
    else []
  }

  /** Signed quantity ordered on one slot. */
  function Ordered(orders: seq<Order>, slot: nat): real {
    if orders == [] then 0.0
    else
      var last := orders[|orders| - 1];
      Ordered(orders[..|orders| - 1], slot) + if last.slot == slot then SignedQty(last.side, last.qty) else 0.0
  }

  lemma {:induction false} OrderedConcat(a: seq<Order>, b: seq<Order>, slot: nat)
    ensures Ordered(a + b, slot) == Ordered(a, slot) + Ordered(b, slot)
  {
    if b == [] {
      assert a + b == a;
    } else {
      OrderedConcat(a, b[..|b| - 1], slot);
      assert (a + b)[..|a + b| - 1] == a + b[..|b| - 1];
    }
  }

  /** How often a slot is listed. */
  function Times(slots: seq<nat>, slot: nat): nat {
    if slots == [] then 0
    else Times(slots[..|slots| - 1], slot) + if slots[|slots| - 1] == slot then 1 else 0
  }

  /** What flattening a position once for each time its slot is listed orders in all. */
  function Unwound(times: nat, position: real): real {
    -(times as real) * position
  }

  lemma UnwoundOnceMore(times: nat, position: real)
    ensures Unwound(0, position) == 0.0
    ensures Unwound(times + 1, position) == Unwound(times, position) - position
    ensures position + Unwound(times, position) == 0.0 <==> times == 1 || position == 0.0
  {
    assert position + Unwound(times, position) == (1 - times) as real * position;
  }

  /** The flattening orders minus the position of a slot as many times as the slot is tracked, so it takes
      the position to zero exactly when the slot is tracked once or nothing is held. */
  lemma {:induction false} FlatteningFlattens(positions: seq<real>, tracked: seq<nat>, id: nat, slot: nat)
    requires Within(tracked, |positions|) && slot < |positions|
    ensures var ordered := Ordered(Flattening(positions, tracked, id), slot);
            && ordered == Unwound(Times(tracked, slot), positions[slot])
            && (positions[slot] + ordered == 0.0 <==> Times(tracked, slot) == 1 || positions[slot] == 0.0)
  {
    hide Unwound;
    UnwoundOnceMore(Times(tracked, slot), positions[slot]);
    if tracked != [] {
      var before, last := tracked[..|tracked| - 1], tracked[|tracked| - 1];
      FlatteningFlattens(positions, before, id, slot);
      UnwoundOnceMore(Times(before, slot), positions[slot]);
      if positions[last] != 0.0 {
        var order := Flattening(positions, tracked, id)[|Flattening(positions, before, id)|];
        assert Flattening(positions, tracked, id) == Flattening(positions, before, id) + [order];
        assert SignedQty(order.side, order.qty) == -positions[last];
        OrderedConcat(Flattening(positions, before, id), [order], slot);
        assert [order][..0] == [];
      }
    }
  }

  /** Orders numbered one after the other. */
  predicate Numbered(orders: seq<Order>, id: nat) {
    forall k :: 0 <= k < |orders| ==> orders[k].id == id + k
  }

  lemma {:induction false} FlatteningNumbered(positions: seq<real>, tracked: seq<nat>, id: nat)
    requires Within(tracked, |positions|)
    ensures Numbered(Flattening(positions, tracked, id), id)
  {
    if tracked != [] {
      FlatteningNumbered(positions, tracked[..|tracked| - 1], id);
    }
  }

  /** A tick's orders take the next numbers, and the gate goes on after them. */
  lemma TickNumbers(config: Config, gate: Gate, b: Books)
    requires Shape(b, |b.positions|) && ConfigOk(config, |b.positions|)
    ensures Numbered(TickOrders(config, gate, b), gate.nextId)
    ensures Ticked(config, gate, b).nextId == gate.nextId + |TickOrders(config, gate, b)|
  {
    hide Equity, Flattening;
    FlatteningNumbered(b.positions, config.tracked, gate.nextId);
  }

  /** Tracking a slot twice makes the flattening overshoot: a long position becomes a short one. */
  lemma TrackedTwiceOvershoots()
    ensures Ordered(Flattening([1.0], [0, 0], 1), 0) == -2.0
  {
    FlatteningFlattens([1.0], [0, 0], 1, 0);
    assert [0, 0][..1] == [0] && [0][..0] == [];
    assert Times([0], 0) == 1;
  }

  /** An order's signed quantity is what its intent asked for, never past the limit. */
  lemma OrderReachesTarget(limit: real, positions: seq<real>, intent: Intent, id: nat)
    requires intent.slot < |positions| && limit >= 0.0
    ensures var order := OrderFor(limit, positions, intent, id);
            var reached := positions[intent.slot] + SignedQty(order.side, order.qty);
            && order.qty >= 0.0
            && Abs(reached) <= limit
            && (Abs(intent.target) <= limit ==> reached == intent.target)
            && (forall v: real :: Abs(v) <= limit ==> Abs(intent.target - reached) <= Abs(intent.target - v))
  {
  }

  class BasicRiskGate {
    const config: Config
    const portfolio: Portfolio
    var tripped: bool
    var peakEquity: real
    var nextId: nat

    ghost function Value(): Gate
      reads this
    {
      Gate(tripped, peakEquity, nextId)
    }

    constructor (config: Config, portfolio: Portfolio)
      ensures this.config == config && this.portfolio == portfolio
      ensures Value() == Gate(false, 0.0, 1)
    {
      this.config, this.portfolio := config, portfolio;
      tripped, peakEquity, nextId := false, 0.0, 1;
    }

    method Check(intent: Intent) returns (decision: Decision)
      requires intent.slot < |portfolio.positions|
      modifies this
      ensures if old(tripped) then decision == Rejected && Value() == old(Value())
              else decision == Decided(Clamp(intent.target, config.maxPositionQty) != intent.target,
                                       OrderFor(config.maxPositionQty, portfolio.positions, intent, old(nextId)))
                   && Value() == old(Value()).(nextId := old(nextId) + 1)
    {
      if tripped {
        return Rejected;
      }
      var current := portfolio.positions[intent.slot];
      var target := Clamp(intent.target, config.maxPositionQty);
      var delta := target - current;
      var id := nextId;
      nextId := nextId + 1;
      var side := if delta >= 0.0 then Buy else Sell;
      decision := Decided(target != intent.target, Order(id, intent.slot, side, Abs(delta)));
    }

    method OnTick() returns (orders: seq<Order>)
      requires portfolio.Valid(|portfolio.positions|) && ConfigOk(config, |portfolio.positions|)
      modifies this
      ensures orders == TickOrders(config, old(Value()), portfolio.Value())
      ensures Value() == Ticked(config, old(Value()), portfolio.Value())
    {
      hide Equity;
      var equity := portfolio.TotalEquity();
      peakEquity := if peakEquity < equity then equity else peakEquity;
      if tripped || peakEquity - equity < config.maxDrawdown {
        return [];
      }
      tripped := true;
      orders := [];
      ghost var id := nextId;
      for k := 0 to |config.tracked|
        invariant orders == Flattening(portfolio.positions, config.tracked[..k], id)
        invariant nextId == id + |orders|
        invariant tripped && peakEquity == Ticked(config, old(Value()), portfolio.Value()).peak
      {
        var slot := config.tracked[k];
        var position := portfolio.positions[slot];
        assert config.tracked[..k + 1][..k] == config.tracked[..k];
        if position != 0.0 {
          orders := orders + [Order(nextId, slot, if position > 0.0 then Sell else Buy, Abs(position))];
          nextId := nextId + 1;
        }
      }
      assert config.tracked[..|config.tracked|] == config.tracked;
    }
  }
}
