/** SimExecution over LastTradeMatcher: orders fill at the slot's last trade or bar price, or are
    rejected while it has none. */
module SimExecution {
  import opened Portfolio
  import RiskGate

  const TAKER_FEE_RATE: real := 0.0004

  datatype Outcome = Filled(fill: Fill) | Rejected(reject: Reject)

  datatype Exec = Exec(lastPrice: seq<real>, fills: seq<Fill>, rejects: seq<Reject>)

  function Priced(lastPrice: seq<real>, e: MarketEvent): seq<real>
    requires e.slot < |lastPrice|
  {
    match e.payload
    case Trade(price) => lastPrice[e.slot := price]
    case Kline(close) => lastPrice[e.slot := close]
    case _ => lastPrice
  }

  function FillFor(price: real, o: Order, ts: int): Fill {
    Fill(o.id, o.slot, o.side, ts, price, o.qty, price * o.qty * TAKER_FEE_RATE)
  }

  /** Orders submitted one after the other. */
  function Submitted(x: Exec, orders: seq<Order>, ts: int): (r: Exec)
    requires forall o :: o in orders ==> o.slot < |x.lastPrice|
    ensures r.lastPrice == x.lastPrice
  {
    if orders == [] then x
    else
      var before := Submitted(x, orders[..|orders| - 1], ts);
      var o := orders[|orders| - 1];
      var price := x.lastPrice[o.slot];
      if price == 0.0 then before.(rejects := before.rejects + [Reject(o.id, o.slot, ts)])
      else before.(fills := before.fills + [FillFor(price, o, ts)])
  }

  lemma {:induction false} SubmittedConcat(x: Exec, a: seq<Order>, b: seq<Order>, ts: int)
    requires forall o :: o in a + b ==> o.slot < |x.lastPrice|
    ensures (forall o :: o in a ==> o.slot < |x.lastPrice|) && (forall o :: o in b ==> o.slot < |x.lastPrice|)
    ensures Submitted(x, a + b, ts) == Submitted(Submitted(x, a, ts), b, ts)
  {
    assert forall o :: o in a ==> o in a + b;
    assert forall o :: o in b ==> o in a + b;
    if b == [] {
      assert a + b == a;
    } else {
      assert (a + b)[..|a + b| - 1] == a + b[..|b| - 1];
      SubmittedConcat(x, a, b[..|b| - 1], ts);
    }
  }

  /** Every order ends as one fill or one reject, and a slot's fills are in slots with a price. */
  lemma {:induction false} OneOutcomeEach(x: Exec, orders: seq<Order>, ts: int)
    requires forall o :: o in orders ==> o.slot < |x.lastPrice|
    ensures var r := Submitted(x, orders, ts);
            && |r.fills| + |r.rejects| == |x.fills| + |x.rejects| + |orders|
            && x.fills <= r.fills && x.rejects <= r.rejects
            && (forall k :: |x.fills| <= k < |r.fills| ==>
                  && r.fills[k].slot < |x.lastPrice|
                  && r.fills[k].price == x.lastPrice[r.fills[k].slot] != 0.0
                  && r.fills[k].fee == r.fills[k].price * r.fills[k].qty * TAKER_FEE_RATE)
            && (forall k :: |x.rejects| <= k < |r.rejects| ==>
                  r.rejects[k].slot < |x.lastPrice| && x.lastPrice[r.rejects[k].slot] == 0.0)
  {
    if orders != [] {
      OneOutcomeEach(x, orders[..|orders| - 1], ts);
    }
  }

  /** The fill is this order's: all of it, at this price and time, for the taker's fee. */
  predicate Answers(f: Fill, o: Order, price: real, ts: int) {
    && f.orderId == o.id && f.slot == o.slot && f.side == o.side && f.qty == o.qty
    && f.ts == ts && f.price == price && f.fee == price * o.qty * TAKER_FEE_RATE
  }

  /** Positions in a list of orders, ascending. */
  predicate Picks(picked: seq<nat>, n: nat) {
    && (forall j :: 0 <= j < |picked| ==> picked[j] < n)
    && (forall i, j :: 0 <= i < j < |picked| ==> picked[i] < picked[j])
  }

  /** These are the orders of slots with a price, or of those without. */
  ghost predicate Chosen(x: Exec, orders: seq<Order>, picked: seq<nat>, priced: bool) {
    && Picks(picked, |orders|)
    && forall k :: 0 <= k < |orders| ==>
         && orders[k].slot < |x.lastPrice|
         && (k in picked <==> (x.lastPrice[orders[k].slot] != 0.0) == priced)
  }

  ghost predicate FillsAnswer(x: Exec, orders: seq<Order>, ts: int, fills: seq<Fill>, filled: seq<nat>) {
    && |fills| == |x.fills| + |filled| && x.fills <= fills
    && forall j :: 0 <= j < |filled| ==>
         && filled[j] < |orders| && orders[filled[j]].slot < |x.lastPrice|
         && Answers(fills[|x.fills| + j], orders[filled[j]], x.lastPrice[orders[filled[j]].slot], ts)
  }

  ghost predicate RejectsAnswer(x: Exec, orders: seq<Order>, ts: int, rejects: seq<Reject>, rejected: seq<nat>) {
    && |rejects| == |x.rejects| + |rejected| && x.rejects <= rejects
    && forall j :: 0 <= j < |rejected| ==>
         && rejected[j] < |orders|
         && rejects[|x.rejects| + j] == Reject(orders[rejected[j]].id, orders[rejected[j]].slot, ts)
  }

  ghost predicate Answered(x: Exec, orders: seq<Order>, ts: int, r: Exec, filled: seq<nat>, rejected: seq<nat>) {
    && Chosen(x, orders, filled, true) && Chosen(x, orders, rejected, false)
    && FillsAnswer(x, orders, ts, r.fills, filled) && RejectsAnswer(x, orders, ts, r.rejects, rejected)
  }

  lemma ChosenOneMore(x: Exec, before: seq<Order>, o: Order, picked: seq<nat>, priced: bool)
    requires Chosen(x, before, picked, priced) && o.slot < |x.lastPrice|
    ensures var more := if (x.lastPrice[o.slot] != 0.0) == priced then picked + [|before|] else picked;
            Chosen(x, before + [o], more, priced)
  {
  }

  lemma FillOneMore(x: Exec, before: seq<Order>, o: Order, ts: int, fills: seq<Fill>, filled: seq<nat>, f: Fill)
    requires FillsAnswer(x, before, ts, fills, filled)
    ensures FillsAnswer(x, before + [o], ts, fills, filled)
    ensures o.slot < |x.lastPrice| && Answers(f, o, x.lastPrice[o.slot], ts) ==>
              FillsAnswer(x, before + [o], ts, fills + [f], filled + [|before|])
  {
    hide Answers;
  }

  lemma RejectOneMore(x: Exec, before: seq<Order>, o: Order, ts: int, rejects: seq<Reject>, rejected: seq<nat>)
    requires RejectsAnswer(x, before, ts, rejects, rejected)
    ensures RejectsAnswer(x, before + [o], ts, rejects, rejected)
    ensures RejectsAnswer(x, before + [o], ts, rejects + [Reject(o.id, o.slot, ts)], rejected + [|before|])
  {
  }

  lemma NothingAnswered(x: Exec, ts: int)
    ensures Answered(x, [], ts, x, [], [])
  {
  }

  lemma OneMoreSubmitted(x: Exec, orders: seq<Order>, ts: int)
    requires orders != [] && forall o :: o in orders ==> o.slot < |x.lastPrice|
    ensures var before, last := orders[..|orders| - 1], orders[|orders| - 1];
            && (forall o :: o in before ==> o.slot < |x.lastPrice|) && last.slot < |x.lastPrice|
            && orders == before + [last]
            && var r, r' := Submitted(x, before, ts), Submitted(x, orders, ts);
               if x.lastPrice[last.slot] == 0.0
               then r' == r.(rejects := r.rejects + [Reject(last.id, last.slot, ts)])
               else r' == r.(fills := r.fills + [FillFor(x.lastPrice[last.slot], last, ts)])
  {
    var before, last := orders[..|orders| - 1], orders[|orders| - 1];
    assert forall o :: o in before ==> o in orders;
    assert last in orders;
  }

  lemma AnsweredOneMore(x: Exec, before: seq<Order>, o: Order, ts: int, r: Exec, filled: seq<nat>, rejected: seq<nat>)
    requires o.slot < |x.lastPrice| && Answered(x, before, ts, r, filled, rejected)
    ensures if x.lastPrice[o.slot] == 0.0
            then Answered(x, before + [o], ts, r.(rejects := r.rejects + [Reject(o.id, o.slot, ts)]), filled,
                          rejected + [|before|])
            else Answered(x, before + [o], ts, r.(fills := r.fills + [FillFor(x.lastPrice[o.slot], o, ts)]),
                          filled + [|before|], rejected)
  {
    hide Chosen, FillsAnswer, RejectsAnswer;
    ChosenOneMore(x, before, o, filled, true);
    ChosenOneMore(x, before, o, rejected, false);
    FillOneMore(x, before, o, ts, r.fills, filled, FillFor(x.lastPrice[o.slot], o, ts));
    RejectOneMore(x, before, o, ts, r.rejects, rejected);
  }

  /** Every order is answered once and in turn, by its own fill when its slot has a price and by its own reject when it
      has none. */
  lemma {:induction false} EveryOrderAnswered(x: Exec, orders: seq<Order>, ts: int)
      returns (filled: seq<nat>, rejected: seq<nat>)
    requires forall o :: o in orders ==> o.slot < |x.lastPrice|
    ensures Answered(x, orders, ts, Submitted(x, orders, ts), filled, rejected)
  {
    hide Answered;
    if orders == [] {
      NothingAnswered(x, ts);
      filled, rejected := [], [];
    } else {
      var before, last := orders[..|orders| - 1], orders[|orders| - 1];
      OneMoreSubmitted(x, orders, ts);
      hide Submitted;
      filled, rejected := EveryOrderAnswered(x, before, ts);
      AnsweredOneMore(x, before, last, ts, Submitted(x, before, ts), filled, rejected);
      if x.lastPrice[last.slot] == 0.0 {
        rejected := rejected + [|before|];
      } else {
        filled := filled + [|before|];
      }
    }
  }

  lemma {:induction false} NewFillsStamped(x: Exec, orders: seq<Order>, ts: int)
    requires forall o :: o in orders ==> o.slot < |x.lastPrice|
    ensures var fills := Submitted(x, orders, ts).fills;
            x.fills <= fills && forall k :: |x.fills| <= k < |fills| ==> fills[k].ts == ts
  {
    if orders != [] {
      NewFillsStamped(x, orders[..|orders| - 1], ts);
    }
  }

  /** What the new fills move on a slot: all that was ordered when it has a price, else nothing. */
  lemma {:induction false} FillsMoveWhatWasOrdered(x: Exec, orders: seq<Order>, ts: int, slot: nat)
    requires forall o :: o in orders ==> o.slot < |x.lastPrice|
    requires slot < |x.lastPrice|
    ensures Moved(Submitted(x, orders, ts).fills, slot)
            == Moved(x.fills, slot) + if x.lastPrice[slot] == 0.0 then 0.0 else RiskGate.Ordered(orders, slot)
  {
    if orders != [] {
      FillsMoveWhatWasOrdered(x, orders[..|orders| - 1], ts, slot);
      var before := Submitted(x, orders[..|orders| - 1], ts);
      var o := orders[|orders| - 1];
      if x.lastPrice[o.slot] != 0.0 {
        var fills := Submitted(x, orders, ts).fills;
        assert fills[..|fills| - 1] == before.fills;
      }
    }
  }

  class LastTradeMatcher {
    var lastPrice: seq<real>

    constructor (slots: nat)
      ensures lastPrice == Zeros(slots)
    {
      lastPrice := Zeros(slots);
    }

    method OnMarketEvent(e: MarketEvent)
      requires e.slot < |lastPrice|
      modifies this
      ensures lastPrice == Priced(old(lastPrice), e)
    {
      if e.payload.Trade? {
        lastPrice := lastPrice[e.slot := e.payload.price];
      } else if e.payload.Kline? {
        lastPrice := lastPrice[e.slot := e.payload.close];
      }
    }

    method TryFill(o: Order, ts: int) returns (outcome: Outcome)
      requires o.slot < |lastPrice|
      ensures outcome == if lastPrice[o.slot] == 0.0 then Rejected(Reject(o.id, o.slot, ts))
                         else Filled(FillFor(lastPrice[o.slot], o, ts))
    {
      var price := lastPrice[o.slot];
      if price == 0.0 {
        return Rejected(Reject(o.id, o.slot, ts));
      }
      outcome := Filled(Fill(o.id, o.slot, o.side, ts, price, o.qty, price * o.qty * TAKER_FEE_RATE));
    }
  }

  class SimExecution {
    const matcher: LastTradeMatcher
    var fills: seq<Fill>
    var rejects: seq<Reject>

    ghost function Value(): Exec
      reads this, matcher
    {
      Exec(matcher.lastPrice, fills, rejects)
    }

    constructor (matcher: LastTradeMatcher)
      ensures this.matcher == matcher && Value() == Exec(matcher.lastPrice, [], [])
    {
      this.matcher, fills, rejects := matcher, [], [];
    }

    method OnMarketEvent(e: MarketEvent)
      requires e.slot < |matcher.lastPrice|
      modifies this, matcher
      ensures Value() == Exec(Priced(old(matcher.lastPrice), e), [], [])
    {
      fills, rejects := [], [];
      matcher.OnMarketEvent(e);
    }

    method Submit(o: Order, ts: int)
      requires o.slot < |matcher.lastPrice|
      modifies this
      ensures Value() == Submitted(old(Value()), [o], ts)
    {
      assert [o][..0] == [];
      var outcome := matcher.TryFill(o, ts);
      match outcome {
        case Filled(fill) => fills := fills + [fill];
        case Rejected(reject) => rejects := rejects + [reject];
      }
    }
  }
}
