/** Engine::run over the backtest transport: the state a replay ends in. */
module Replay {
  import opened Ring
  import opened SourceMerge
  import opened Transport
  import Portfolio
  import Engine

  /** What the sinks carry: an instrument's slot and the payload. */
  type Datum = (nat, Portfolio.Payload)

  function PullOf(input: Input<Datum>): Engine.Input {
    match input
    case Tick(ts) => Engine.Timer(ts)
    case Market(_, event) => Engine.Market(Portfolio.MarketEvent(event.payload.0, event.ts, event.payload.1))
  }

  function PullsOf(inputs: seq<Input<Datum>>): seq<Engine.Input> {
    seq(|inputs|, k requires 0 <= k < |inputs| => PullOf(inputs[k]))
  }

  /** Every event pushed is of an instrument the portfolio has a slot for. */
  ghost predicate Booked(tapes: seq<seq<Event<Datum>>>, slots: nat) {
    forall i, e :: 0 <= i < |tapes| && e in tapes[i] ==> e.payload.0 < slots
  }

  lemma TimelineBooked(tapes: seq<seq<Event<Datum>>>, out: seq<nat>, period: int, armed: bool, next: int, slots: nat)
    requires At(tapes, NoBars(|tapes|), out) && Booked(tapes, slots)
    ensures Engine.InputsOk(PullsOf(Timeline(tapes, out, period, armed, next)), slots)
  {
    var line := Merge(tapes, NoBars(|tapes|), out);
    var inputs := Timeline(tapes, out, period, armed, next);
    TicksLoseNoEvent(line, period, armed, next);
    forall k | 0 <= k < |inputs| ensures Engine.InputOk(PullsOf(inputs)[k], slots) {
      if inputs[k].Market? {
        MarketsOf(inputs, k);
        var m :| 0 <= m < |line| && line[m] == Tagged(inputs[k].leg, inputs[k].event);
        MergedFromTapes(tapes, out, m);
      }
    }
  }

  /** The engine has been stepped with the first of all the pulls, and the transport holds the rest. */
  ghost predicate Replayed(state: Engine.State, config: Engine.Config, slots: nat, all: seq<Input<Datum>>,
                           done: seq<Input<Datum>>, rest: seq<Input<Datum>>)
    requires Engine.Fits(config, slots) && Engine.InputsOk(PullsOf(all), slots)
  {
    all == done + rest && Engine.InputsOk(PullsOf(done), slots) && state == Engine.After(config, slots, PullsOf(done))
  }

  lemma OneMorePull(state: Engine.State, config: Engine.Config, slots: nat, all: seq<Input<Datum>>,
                    done: seq<Input<Datum>>, input: Input<Datum>, rest: seq<Input<Datum>>)
    requires Engine.Fits(config, slots) && Engine.InputsOk(PullsOf(all), slots)
    requires Replayed(state, config, slots, all, done, [input] + rest)
    ensures Engine.StateOk(state, slots) && Engine.InputOk(PullOf(input), slots)
    ensures Replayed(Engine.Stepped(config, state, PullOf(input), slots), config, slots, all, done + [input], rest)
  {
    hide Engine.Stepped;
    assert all[|done|] == input && PullsOf(all)[|done|] == PullOf(input);
    assert PullsOf(done + [input]) == PullsOf(done) + [PullOf(input)];
    assert PullsOf(done + [input])[..|done|] == PullsOf(done);
    assert done + ([input] + rest) == (done + [input]) + rest;
  }

  /** step: one pull of the transport, applied in full. False when the transport has none. */
  method Step(transport: BacktestInProcessTransport<Datum>, engine: Engine.Engine, arrived: seq<nat>,
              ghost all: seq<Input<Datum>>, ghost done0: seq<Input<Datum>>)
      returns (stepped: bool, ghost done: seq<Input<Datum>>)
    requires transport.Valid() && engine.Valid() && Engine.InputsOk(PullsOf(all), engine.slots)
    requires Pushed(transport.tapes, arrived, transport.flushing) && Behind(transport.read, arrived)
    requires Replayed(engine.Value(), engine.config, engine.slots, all, done0, transport.Rest())
    modifies transport, engine.portfolio, engine.risk, engine.exec, engine.exec.matcher, engine.strategy
    ensures transport.Valid() && engine.Valid() && Behind(transport.read, arrived)
    ensures transport.flushing == old(transport.flushing)
    ensures Replayed(engine.Value(), engine.config, engine.slots, all, done, transport.Rest())
    ensures if stepped then |transport.Rest()| < |old(transport.Rest())| else transport.Rest() == old(transport.Rest())
    ensures !stepped && transport.flushing ==> transport.Rest() == []
  {
    var input := transport.Next(arrived);
    done := done0;
    if input.None? { return false, done; }
    OneMorePull(engine.Value(), engine.config, engine.slots, all, done, input.value, transport.Rest());
    engine.Step(PullOf(input.value));
    done := done + [input.value];
    stepped := true;
  }

  /** flush, and steps until the transport is dry: with everything pushed that ends. */
  method Drain(transport: BacktestInProcessTransport<Datum>, engine: Engine.Engine,
               ghost all: seq<Input<Datum>>, ghost done0: seq<Input<Datum>>)
      returns (ghost done: seq<Input<Datum>>)
    requires transport.Valid() && engine.Valid() && Engine.InputsOk(PullsOf(all), engine.slots)
    requires Replayed(engine.Value(), engine.config, engine.slots, all, done0, transport.Rest())
    modifies transport, engine.portfolio, engine.risk, engine.exec, engine.exec.matcher, engine.strategy
    ensures transport.Valid() && engine.Valid() && transport.Rest() == []
    ensures Replayed(engine.Value(), engine.config, engine.slots, all, done, transport.Rest())
  {
    hide Engine.After, Replayed, PullsOf;
    transport.Flush();
    done := done0;
    var tapes := transport.tapes;
    var everything := seq(|tapes|, i requires 0 <= i < |tapes| => |tapes[i]|);
    assert Behind(transport.read, everything) by {
      forall i | 0 <= i < |tapes| ensures transport.read[i] <= |tapes[i]| {
        assert LegOk(tapes[i], transport.out[i], transport.read[i], transport.lookahead[i]);
      }
    }
    var more := true;
    while more
      invariant transport.Valid() && engine.Valid() && transport.flushing && Behind(transport.read, everything)
      invariant Replayed(engine.Value(), engine.config, engine.slots, all, done, transport.Rest())
      invariant !more ==> transport.Rest() == []
      decreases |transport.Rest()|, more
    {
      more, done := Step(transport, engine, everything, all, done);
    }
  }

  /** run: steps while events arrive, any of which may find the transport dry, then, with the stop polled
      and so every push done, the drain. Whatever was pushed when, the run ends, and the engine ends in
      the state that stepping the whole timeline of ticks and merged legs leads to. */
  method Run(transport: BacktestInProcessTransport<Datum>, engine: Engine.Engine, schedule: seq<seq<nat>>)
    requires transport.Valid() && !transport.flushing && Schedule(transport.tapes, transport.read, schedule)
    requires engine.Valid() && engine.Value() == Engine.Initial(engine.slots) && Booked(transport.tapes, engine.slots)
    modifies transport, engine.portfolio, engine.risk, engine.exec, engine.exec.matcher, engine.strategy
    ensures transport.Valid() && engine.Valid() && transport.Rest() == []
    ensures Engine.InputsOk(PullsOf(old(transport.Rest())), engine.slots)
    ensures engine.Value() == Engine.After(engine.config, engine.slots, PullsOf(old(transport.Rest())))
  {
    TimelineBooked(transport.tapes, transport.out, transport.timerPeriod, transport.timerArmed, transport.nextTimer,
        engine.slots);
    ghost var all, done := transport.Rest(), [];
    assert [] + all == all && PullsOf([]) == [];
    for k := 0 to |schedule|
      invariant transport.Valid() && engine.Valid() && !transport.flushing
      invariant Replayed(engine.Value(), engine.config, engine.slots, all, done, transport.Rest())
      invariant k < |schedule| ==> Behind(transport.read, schedule[k])
    {
      var stepped;
      stepped, done := Step(transport, engine, schedule[k], all, done);
      if k + 1 < |schedule| {
        BehindLater(transport.read, schedule[k], schedule[k + 1]);
      }
    }
    done := Drain(transport, engine, all, done);
    assert done + [] == done;
  }
}
