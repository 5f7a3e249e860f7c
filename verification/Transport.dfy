/** BacktestInProcessTransport: legs merged by stamp, with timer ticks in the same replay-time line,
    and the engine's drain of it after flush. */
module Transport {
  import opened Ring
  import opened SourceMerge

  /** What the engine is handed: a tick, or the event of one leg. */
  datatype Input<+P> = Tick(ts: int) | Market(leg: nat, event: Event<P>)

  function StampOf<P>(input: Input<P>): int {
    if input.Tick? then input.ts else input.event.ts
  }

  // ----------------------------------------- the line of events and ticks, as a function of the tapes

  /** A line of events with the ticks due before each: the first is one period after the first
      event ever seen, and a tick at an event's stamp comes before it. */
  function Ticked<P>(line: seq<Tagged<P>>, period: int, armed: bool, next: int): seq<Input<P>>
    decreases |line|, if line != [] && armed && next <= line[0].event.ts then line[0].event.ts - next + 1 else 0
  {
    if line == [] then []
    else
      var ts := line[0].event.ts;
      var next' := if armed then next else ts + period;
      if period > 0 && next' <= ts
      then [Tick(next')] + Ticked(line, period, true, next' + period)
      else [Market(line[0].index, line[0].event)]
           + Ticked(line[1..], period, armed || period > 0, if period > 0 then next' else next)
  }

  function NoBars(n: nat): seq<bool> {
    seq(n, _ => false)
  }

  /** Everything still to be delivered, given what each leg is ever pushed. */
  function Timeline<P>(tapes: seq<seq<Event<P>>>, out: seq<nat>, period: int, armed: bool, next: int): seq<Input<P>>
    requires At(tapes, NoBars(|tapes|), out)
  {
    Ticked(Merge(tapes, NoBars(|tapes|), out), period, armed, next)
  }

  function Markets<P>(inputs: seq<Input<P>>): seq<Tagged<P>> {
    if inputs == [] then []
    else (if inputs[0].Market? then [Tagged(inputs[0].leg, inputs[0].event)] else []) + Markets(inputs[1..])
  }

  function Ticks<P>(inputs: seq<Input<P>>): seq<int> {
    if inputs == [] then []
    else (if inputs[0].Tick? then [inputs[0].ts] else []) + Ticks(inputs[1..])
  }

  /** Ticks only come in between: the events are the merge, each once and in order. */
  lemma {:induction false} TicksLoseNoEvent<P>(line: seq<Tagged<P>>, period: int, armed: bool, next: int)
    ensures Markets(Ticked(line, period, armed, next)) == line
    decreases |line|, if line != [] && armed && next <= line[0].event.ts then line[0].event.ts - next + 1 else 0
  {
    if line != [] {
      var ts := line[0].event.ts;
      var next' := if armed then next else ts + period;
      if period > 0 && next' <= ts {
        TicksLoseNoEvent(line, period, true, next' + period);
      } else {
        TicksLoseNoEvent(line[1..], period, armed || period > 0, if period > 0 then next' else next);
      }
    }
  }

  ghost predicate Ascending<P>(line: seq<Tagged<P>>) {
    forall j, k :: 0 <= j < k < |line| ==> line[j].event.ts <= line[k].event.ts
  }

  /** Stamps never decrease, and a tick is before every event at or after it. */
  ghost predicate InTimeOrder<P>(inputs: seq<Input<P>>) {
    forall j, k :: 0 <= j < k < |inputs| ==>
      StampOf(inputs[j]) <= StampOf(inputs[k])
      && (inputs[j].Market? && inputs[k].Tick? ==> StampOf(inputs[j]) < StampOf(inputs[k]))
  }

  lemma {:induction false} TickedInTimeOrder<P>(line: seq<Tagged<P>>, period: int, armed: bool, next: int, low: int)
    requires Ascending(line) && (line != [] ==> low <= line[0].event.ts)
    requires period > 0 && armed ==> low < next
    ensures InTimeOrder(Ticked(line, period, armed, next))
    ensures forall input :: input in Ticked(line, period, armed, next) ==>
              low <= StampOf(input) && (input.Tick? ==> low < StampOf(input))
    decreases |line|, if line != [] && armed && next <= line[0].event.ts then line[0].event.ts - next + 1 else 0
  {
    hide Ticked;
    TickedUnfolds(line, period, armed, next);
    if line != [] {
      var ts := line[0].event.ts;
      var next' := if armed then next else ts + period;
      if period > 0 && next' <= ts {
        TickedInTimeOrder(line, period, true, next' + period, next');
        InTimeOrderCons(Tick(next'), Ticked(line, period, true, next' + period));
      } else {
        var later := if period > 0 then next' else next;
        TickedInTimeOrder(line[1..], period, armed || period > 0, later, ts);
        InTimeOrderCons(Market(line[0].index, line[0].event), Ticked(line[1..], period, armed || period > 0, later));
      }
    }
  }

  lemma TickedUnfolds<P>(line: seq<Tagged<P>>, period: int, armed: bool, next: int)
    ensures line == [] ==> Ticked(line, period, armed, next) == []
    ensures line != [] ==>
              var ts := line[0].event.ts;
              var next' := if armed then next else ts + period;
              Ticked(line, period, armed, next)
              == if period > 0 && next' <= ts then [Tick(next')] + Ticked(line, period, true, next' + period)
                 else [Market(line[0].index, line[0].event)]
                      + Ticked(line[1..], period, armed || period > 0, if period > 0 then next' else next)
  {
  }

  lemma InTimeOrderCons<P>(first: Input<P>, rest: seq<Input<P>>)
    requires InTimeOrder(rest)
    requires forall input :: input in rest ==>
               StampOf(first) <= StampOf(input) && (input.Tick? ==> StampOf(first) < StampOf(input))
    ensures InTimeOrder([first] + rest)
  {
    var all := [first] + rest;
    forall j, k | 0 <= j < k < |all|
      ensures StampOf(all[j]) <= StampOf(all[k])
              && (all[j].Market? && all[k].Tick? ==> StampOf(all[j]) < StampOf(all[k]))
    {
      assert all[k] == rest[k - 1];
      if j > 0 { assert all[j] == rest[j - 1]; }
    }
  }

  /** The ticks are next, next + period, ... and stop with the last one not past the last event. */
  lemma {:induction false} TicksAreEveryPeriod<P>(line: seq<Tagged<P>>, period: int, next: int)
    requires period > 0 && Ascending(line) && line != []
    ensures var ticks := Ticks(Ticked(line, period, true, next));
            && (forall k :: 0 <= k < |ticks| ==> ticks[k] == next + k * period)
            && (ticks != [] ==> next + (|ticks| - 1) * period <= line[|line| - 1].event.ts)
            && line[|line| - 1].event.ts < next + |ticks| * period
    decreases |line|, if next <= line[0].event.ts then line[0].event.ts - next + 1 else 0
  {
    hide Ticked, Ticks;
    OneInput(line, period, next);
    if next <= line[0].event.ts {
      TicksAreEveryPeriod(line, period, next + period);
      TicksCons(Ticks(Ticked(line, period, true, next + period)), period, next);
    } else if |line| > 1 {
      TicksAreEveryPeriod(line[1..], period, next);
    }
  }

  lemma OneInput<P>(line: seq<Tagged<P>>, period: int, next: int)
    requires period > 0 && line != []
    ensures Ticks(Ticked(line, period, true, next))
            == if next <= line[0].event.ts then [next] + Ticks(Ticked(line, period, true, next + period))
               else Ticks(Ticked(line[1..], period, true, next))
    ensures Ticks(Ticked<P>([], period, true, next)) == []
  {
  }

  lemma TicksCons(rest: seq<int>, period: int, next: int)
    requires forall k :: 0 <= k < |rest| ==> rest[k] == next + period + k * period
    ensures var ticks := [next] + rest;
            && (forall k :: 0 <= k < |ticks| ==> ticks[k] == next + k * period)
            && next + (|ticks| - 1) * period == next + period + (|rest| - 1) * period
            && next + |ticks| * period == next + period + |rest| * period
  {
    var ticks := [next] + rest;
    forall k | 0 <= k < |ticks| ensures ticks[k] == next + k * period {
      if k > 0 {
        assert ticks[k] == rest[k - 1];
        assert (k - 1) * period + period == k * period;
      }
    }
    assert |rest| * period == (|rest| - 1) * period + period;
    assert |ticks| * period == |rest| * period + period;
  }

  /** The line of ticks and events from the start. With every leg pushed in stamp order: stamps never
      go back and a tick comes before every event at or after it, equal stamps come out lowest leg
      first, every leg's events all come out in the order they were pushed, and the ticks are one
      period apart from the first stamp up to the last. */
  lemma WholeTimeline<P>(tapes: seq<seq<Event<P>>>, period: int)
    requires forall i :: 0 <= i < |tapes| ==> StampSorted(tapes[i])
    ensures At(tapes, NoBars(|tapes|), Start(|tapes|))
    ensures var inputs := Timeline(tapes, Start(|tapes|), period, false, 0);
            && InTimeOrder(inputs)
            && LowestLegFirst(Markets(inputs))
            && (forall i :: 0 <= i < |tapes| ==> Project(Markets(inputs), i) == tapes[i])
            && (Markets(inputs) != [] && period > 0 ==>
                  var first, last := Markets(inputs)[0].event.ts, Markets(inputs)[|Markets(inputs)| - 1].event.ts;
                  EveryPeriod(Ticks(inputs), first, period, last))
            && (period <= 0 ==> Ticks(inputs) == [])
  {
    var bars, start := NoBars(|tapes|), Start(|tapes|);
    var line := Merge(tapes, bars, start);
    LegsInOrder(tapes);
    TicksLoseNoEvent(line, period, false, 0);
    TickedInTimeOrder(line, period, false, 0, if line == [] then 0 else line[0].event.ts);
    forall i | 0 <= i < |tapes| ensures Project(line, i) == tapes[i] {
      MergeKeepsEveryTape(tapes, bars, start, i);
    }
    if line != [] && period > 0 {
      TicksFromFirst(line, period);
    }
    if period <= 0 {
      NoPeriodNoTick(line, period, false, 0);
    }
  }

  lemma LegsInOrder<P>(tapes: seq<seq<Event<P>>>)
    requires forall i :: 0 <= i < |tapes| ==> StampSorted(tapes[i])
    requires At(tapes, NoBars(|tapes|), Start(|tapes|))
    ensures var line := Merge(tapes, NoBars(|tapes|), Start(|tapes|)); Ascending(line) && LowestLegFirst(line)
  {
    var bars := NoBars(|tapes|);
    var line := Merge(tapes, bars, Start(|tapes|));
    MergeIsSorted(tapes, bars, Start(|tapes|));
    forall j, k | 0 <= j < k < |line|
      ensures line[j].event.ts <= line[k].event.ts
              && (line[j].event.ts == line[k].event.ts ==> line[j].index <= line[k].index)
    {
      assert Le(KeyOf(bars, line[j]), KeyOf(bars, line[k]));
    }
  }

  ghost predicate LowestLegFirst<P>(line: seq<Tagged<P>>) {
    forall j, k :: 0 <= j < k < |line| && line[j].event.ts == line[k].event.ts ==> line[j].index <= line[k].index
  }

  /** first + period, first + 2 * period, ..., the last of them not past last. */
  ghost predicate EveryPeriod(ticks: seq<int>, first: int, period: int, last: int) {
    && (forall k :: 0 <= k < |ticks| ==> ticks[k] == first + period + k * period)
    && first + |ticks| * period <= last < first + period + |ticks| * period
  }

  lemma TicksFromFirst<P>(line: seq<Tagged<P>>, period: int)
    requires period > 0 && Ascending(line) && line != []
    ensures EveryPeriod(Ticks(Ticked(line, period, false, 0)), line[0].event.ts, period, line[|line| - 1].event.ts)
  {
    var first := line[0].event.ts;
    FirstArms(line, period);
    if |line| > 1 {
      var ticks := Ticks(Ticked(line[1..], period, true, first + period));
      TicksAreEveryPeriod(line[1..], period, first + period);
      Shift(first, period, |ticks|);
    }
  }

  /** The first event goes out and arms the timer one period later. */
  lemma FirstArms<P>(line: seq<Tagged<P>>, period: int)
    requires period > 0 && line != []
    ensures Ticks(Ticked(line, period, false, 0)) == Ticks(Ticked(line[1..], period, true, line[0].event.ts + period))
  {
    var later := Ticked(line[1..], period, true, line[0].event.ts + period);
    assert Ticked(line, period, false, 0) == [Market(line[0].index, line[0].event)] + later;
  }

  lemma Shift(first: int, period: int, n: nat)
    ensures first + period + (n - 1) * period == first + n * period
  {
  }

  lemma {:induction false} NoPeriodNoTick<P>(line: seq<Tagged<P>>, period: int, armed: bool, next: int)
    requires period <= 0
    ensures Ticks(Ticked(line, period, armed, next)) == []
    decreases |line|
  {
    if line != [] {
      NoPeriodNoTick(line[1..], period, armed, next);
    }
  }

  // ------------------------------------------------------------------------------- the transport

  /** A leg's lookahead holds its next event to go out, read from its queue and not yet delivered. */
  ghost predicate LegOk<P>(tape: seq<Event<P>>, out: nat, read: nat, ahead: Option<Event<P>>) {
    if ahead.Some? then read == out + 1 <= |tape| && ahead.value == tape[out]
    else read == out <= |tape|
  }

  ghost predicate Legs<P>(tapes: seq<seq<Event<P>>>, out: seq<nat>, read: seq<nat>, lookahead: seq<Option<Event<P>>>) {
    && |tapes| == |out| == |read| == |lookahead|
    && (forall i :: 0 <= i < |tapes| ==> LegOk(tapes[i], out[i], read[i], lookahead[i]))
  }

  /** How much of each leg has been pushed by now; all of it once the transport is flushing. */
  ghost predicate Pushed<P>(tapes: seq<seq<Event<P>>>, arrived: seq<nat>, flushing: bool) {
    && |arrived| == |tapes|
    && (forall i :: 0 <= i < |tapes| ==> arrived[i] <= |tapes[i]|)
    && (flushing ==> forall i :: 0 <= i < |tapes| ==> arrived[i] == |tapes[i]|)
  }

  /** No queue has been read past what it was pushed. */
  ghost predicate Behind(read: seq<nat>, arrived: seq<nat>) {
    |read| == |arrived| && forall i :: 0 <= i < |read| ==> read[i] <= arrived[i]
  }

  ghost predicate Dry(out: seq<nat>, arrived: seq<nat>, i: nat) {
    i < |out| == |arrived| && arrived[i] <= out[i]
  }

  ghost predicate AnyDry(out: seq<nat>, arrived: seq<nat>) {
    exists i :: 0 <= i < |out| && Dry(out, arrived, i)
  }

  /** The front of the timeline, by the earliest leg. */
  lemma FrontOfTimeline<P>(tapes: seq<seq<Event<P>>>, out: seq<nat>, period: int, armed: bool, next: int)
    requires At(tapes, NoBars(|tapes|), out)
    ensures var earliest := Earliest(tapes, NoBars(|tapes|), out, |tapes|);
            var timeline := Timeline(tapes, out, period, armed, next);
            if earliest.None? then timeline == []
            else
              var leg := earliest.value;
              var event := tapes[leg][out[leg]];
              var next' := if armed then next else event.ts + period;
              if period > 0 && next' <= event.ts then
                timeline == [Tick(next')] + Timeline(tapes, out, period, true, next' + period)
              else
                && At(tapes, NoBars(|tapes|), out[leg := out[leg] + 1])
                && timeline == [Market(leg, event)]
                               + Timeline(tapes, out[leg := out[leg] + 1], period, armed || period > 0,
                                          if period > 0 then next' else next)
  {
    hide Le, Left, Earliest, Merge;
    MergeFront(tapes, out);
  }

  lemma MergeFront<P>(tapes: seq<seq<Event<P>>>, out: seq<nat>)
    requires At(tapes, NoBars(|tapes|), out)
    ensures var bars := NoBars(|tapes|);
            var line, earliest := Merge(tapes, bars, out), Earliest(tapes, bars, out, |tapes|);
            if earliest.None? then line == []
            else
              var leg := earliest.value;
              && leg < |tapes| && out[leg] < |tapes[leg]| && At(tapes, bars, out[leg := out[leg] + 1])
              && line == [Tagged(leg, tapes[leg][out[leg]])] + Merge(tapes, bars, out[leg := out[leg] + 1])
  {
    hide Le, Left;
    var bars := NoBars(|tapes|);
    EarliestIsLeast(tapes, bars, out, |tapes|);
    if Merge(tapes, bars, out) != [] {
      var leg, rest := Unfold(tapes, bars, out);
      assert leg == Earliest(tapes, bars, out, |tapes|).value;
    }
  }

  lemma LegDelivered<P>(tapes: seq<seq<Event<P>>>, out: seq<nat>, read: seq<nat>, lookahead: seq<Option<Event<P>>>,
                        leg: nat)
    requires Legs(tapes, out, read, lookahead) && leg < |tapes| && lookahead[leg].Some?
    ensures Legs(tapes, out[leg := out[leg] + 1], read, lookahead[leg := None])
  {
    assert LegOk(tapes[leg], out[leg], read[leg], lookahead[leg]);
    var out', lookahead' := out[leg := out[leg] + 1], lookahead[leg := None];
    forall i | 0 <= i < |tapes| ensures LegOk(tapes[i], out'[i], read[i], lookahead'[i]) {
      assert LegOk(tapes[i], out[i], read[i], lookahead[i]);
    }
  }

  /** The single pass of next over the legs. */
  method Look<P(!new)>(tapes: seq<seq<Event<P>>>, ghost out: seq<nat>, arrived: seq<nat>, flushing: bool,
                       read0: seq<nat>, lookahead0: seq<Option<Event<P>>>)
      returns (missing: bool, earliest: Option<nat>, read: seq<nat>, lookahead: seq<Option<Event<P>>>)
    requires Legs(tapes, out, read0, lookahead0) && Pushed(tapes, arrived, flushing)
    requires Behind(read0, arrived)
    ensures Legs(tapes, out, read, lookahead)
    ensures Behind(read, arrived)
    ensures missing <==> !flushing && AnyDry(out, arrived)
    ensures At(tapes, NoBars(|tapes|), out)
    ensures !missing ==> earliest == Earliest(tapes, NoBars(|tapes|), out, |tapes|)
    ensures earliest.Some? ==> earliest.value < |tapes| && lookahead[earliest.value].Some?
  {
    read, lookahead, missing, earliest := read0, lookahead0, false, None;
    ghost var bars := NoBars(|tapes|);
    assert At(tapes, bars, out) by {
      forall i | 0 <= i < |tapes| ensures out[i] <= |tapes[i]| {
        assert LegOk(tapes[i], out[i], read0[i], lookahead0[i]);
      }
    }
    for i := 0 to |tapes|
      invariant Legs(tapes, out, read, lookahead)
      invariant Behind(read, arrived)
      invariant missing <==> !flushing && exists k :: 0 <= k < i && Dry(out, arrived, k)
      invariant !missing ==> earliest == Earliest(tapes, bars, out, i)
      invariant earliest.Some? ==> earliest.value < i && lookahead[earliest.value].Some?
    {
      assert LegOk(tapes[i], out[i], read[i], lookahead[i]);
      if lookahead[i].None? && read[i] < arrived[i] {
        lookahead := lookahead[i := Some(tapes[i][read[i]])];
        read := read[i := read[i] + 1];
      }
      assert LegOk(tapes[i], out[i], read[i], lookahead[i]);
      if lookahead[i].None? {
        assert Dry(out, arrived, i);
        missing := missing || !flushing;
      } else {
        assert !Dry(out, arrived, i);
        if earliest.Some? {
          assert LegOk(tapes[earliest.value], out[earliest.value], read[earliest.value], lookahead[earliest.value]);
        }
        if earliest.None? || lookahead[i].value.ts < lookahead[earliest.value].value.ts {
          earliest := Some(i);
        }
      }
    }
  }

  /** The end of next, with the earliest leg known: the tick that is due, or that leg's event. */
  method Deliver<P(!new)>(tapes: seq<seq<Event<P>>>, ghost out: seq<nat>, ghost read: seq<nat>,
                          lookahead: seq<Option<Event<P>>>, period: int, armed: bool, next: int, leg: nat)
      returns (r: Input<P>, ghost out': seq<nat>, lookahead': seq<Option<Event<P>>>, armed': bool, next': int)
    requires Legs(tapes, out, read, lookahead) && At(tapes, NoBars(|tapes|), out)
    requires Earliest(tapes, NoBars(|tapes|), out, |tapes|) == Some(leg) && lookahead[leg].Some?
    ensures Legs(tapes, out', read, lookahead') && At(tapes, NoBars(|tapes|), out')
    ensures Timeline(tapes, out, period, armed, next) == [r] + Timeline(tapes, out', period, armed', next')
    ensures match r
            case Tick(ts) => armed' && ts <= lookahead[leg].value.ts && lookahead' == lookahead
            case Market(from, event) =>
              from == leg && event == lookahead[leg].value && lookahead' == lookahead[leg := None]
  {
    FrontOfTimeline(tapes, out, period, armed, next);
    assert LegOk(tapes[leg], out[leg], read[leg], lookahead[leg]);
    var event := lookahead[leg].value;
    out', lookahead', armed', next' := out, lookahead, armed, next;
    if period > 0 {
      if !armed {
        next' := event.ts + period;
        armed' := true;
      }
      if next' <= event.ts {
        r := Tick(next');
        next' := next' + period;
        return;
      }
    }
    LegDelivered(tapes, out, read, lookahead, leg);
    r := Market(leg, event);
    lookahead' := lookahead[leg := None];
    out' := out[leg := out[leg] + 1];
  }

  class BacktestInProcessTransport<P(!new)> {
    const tapes: seq<seq<Event<P>>>           // what each queue is pushed in all
    const timerPeriod: int
    var read: seq<nat>                        // events popped from each queue
    var lookahead: seq<Option<Event<P>>>
    var nextTimer: int
    var timerArmed: bool
    var flushing: bool
    ghost var out: seq<nat>                   // events of each leg delivered

    ghost predicate Valid()
      reads this
    {
      Legs(tapes, out, read, lookahead) && At(tapes, NoBars(|tapes|), out)
    }

    /** What is still to be delivered. */
    ghost function Rest(): seq<Input<P>>
      reads this
      requires Valid()
    {
      Timeline(tapes, out, timerPeriod, timerArmed, nextTimer)
    }

    constructor (tapes: seq<seq<Event<P>>>, timerPeriod: int)
      ensures Valid() && this.tapes == tapes && this.timerPeriod == timerPeriod && !flushing
      ensures read == Start(|tapes|)
      ensures At(tapes, NoBars(|tapes|), Start(|tapes|))
      ensures Rest() == Timeline(tapes, Start(|tapes|), timerPeriod, false, 0)
    {
      this.tapes, this.timerPeriod := tapes, timerPeriod;
      read, out := Start(|tapes|), Start(|tapes|);
      lookahead := seq(|tapes|, _ => None);
      nextTimer, timerArmed, flushing := 0, false, false;
    }

    method Flush()
      requires Valid()
      modifies this`flushing
      ensures Valid() && flushing && Rest() == old(Rest())
    {
      flushing := true;
    }

    /** Whatever has arrived, next delivers the front of the line or nothing, and nothing exactly
        while a leg that could still hold an earlier event is dry, or when the line is out. */
    method Next(arrived: seq<nat>) returns (r: Option<Input<P>>)
      requires Valid() && Pushed(tapes, arrived, flushing) && Behind(read, arrived)
      modifies this
      ensures Valid() && Behind(read, arrived) && flushing == old(flushing)
      ensures r.None? <==> (!flushing && AnyDry(old(out), arrived)) || old(Rest()) == []
      ensures if r.None? then Rest() == old(Rest()) else old(Rest()) == [r.value] + Rest()
    {
      var missing, earliest;
      missing, earliest, read, lookahead := Look(tapes, out, arrived, flushing, read, lookahead);
      if missing { return None; }
      if earliest.None? {
        FrontOfTimeline(tapes, out, timerPeriod, timerArmed, nextTimer);
        return None;
      }
      var input;
      input, out, lookahead, timerArmed, nextTimer :=
        Deliver(tapes, out, read, lookahead, timerPeriod, timerArmed, nextTimer, earliest.value);
      r := Some(input);
    }
  }

  /** What each leg has been pushed by each step, until the stop. */
  ghost predicate Schedule<P>(tapes: seq<seq<Event<P>>>, read: seq<nat>, schedule: seq<seq<nat>>) {
    && (forall k :: 0 <= k < |schedule| ==> Pushed(tapes, schedule[k], false))
    && (schedule != [] ==> Behind(read, schedule[0]))
    && (forall k :: 0 < k < |schedule| ==> Behind(schedule[k - 1], schedule[k]))
  }

  lemma BehindLater(read: seq<nat>, now: seq<nat>, later: seq<nat>)
    requires Behind(read, now) && Behind(now, later)
    ensures Behind(read, later)
  {
  }

  /** Every event of a timeline is an event of its leg. */
  lemma {:induction false} MergedFromTapes<P>(tapes: seq<seq<Event<P>>>, out: seq<nat>, k: nat)
    requires At(tapes, NoBars(|tapes|), out) && k < |Merge(tapes, NoBars(|tapes|), out)|
    ensures var tagged := Merge(tapes, NoBars(|tapes|), out)[k];
            tagged.index < |tapes| && tagged.event in tapes[tagged.index]
    decreases k
  {
    var leg, rest := Unfold(tapes, NoBars(|tapes|), out);
    if k > 0 {
      assert Merge(tapes, NoBars(|tapes|), out)[k] == Merge(tapes, NoBars(|tapes|), out)[1..][k - 1];
      MergedFromTapes(tapes, rest, k - 1);
    }
  }

  lemma {:induction false} MarketsOf<P>(inputs: seq<Input<P>>, k: nat)
    requires k < |inputs| && inputs[k].Market?
    ensures Tagged(inputs[k].leg, inputs[k].event) in Markets(inputs)
  {
    if k > 0 {
      MarketsOf(inputs[1..], k - 1);
    }
  }
}
