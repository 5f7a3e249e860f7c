/** run_data_source: rounds that pull each source once and record into its sink, holding an event its
    sink refuses until it is taken. */
module RunDataSource {
  import opened Ring
  import opened SourceMerge

  function Held<T>(slot: Option<T>): seq<T> {
    if slot.Some? then [slot.value] else []
  }

  /** One leg: what the source has answered, what the sink has taken, the slot between them. */
  ghost predicate LegOk<P>(answers: seq<Pull<P>>, recorded: seq<Event<P>>, slot: Option<Event<P>>, done: bool) {
    && recorded + Held(slot) == Emitted(answers)
    && (done <==> Eof in answers)
    && (done ==> slot.None?)
  }

  /** What one round does to one leg that is not done, given the source's answer should it be asked and
      whether the sink has room: a held event goes first, and only with none held is the source asked. */
  ghost predicate LegRound<P>(answers: seq<Pull<P>>, recorded: seq<Event<P>>, slot: Option<Event<P>>,
                              pull: Pull<P>, room: bool,
                              answers': seq<Pull<P>>, recorded': seq<Event<P>>, slot': Option<Event<P>>, done': bool) {
    if slot.Some? then
      && answers' == answers && !done'
      && recorded' == (if room then recorded + [slot.value] else recorded)
      && slot' == if room then None else slot
    else
      && answers' == answers + [pull] && (done' <==> pull.Eof?)
      && recorded' == (if pull.Data? && room then recorded + [pull.event] else recorded)
      && slot' == if pull.Data? && !room then Some(pull.event) else None
  }

  lemma RoundKeepsLeg<P>(answers: seq<Pull<P>>, recorded: seq<Event<P>>, slot: Option<Event<P>>, pull: Pull<P>,
                         room: bool,
                         answers': seq<Pull<P>>, recorded': seq<Event<P>>, slot': Option<Event<P>>, done': bool)
    requires LegOk(answers, recorded, slot, false)
    requires LegRound(answers, recorded, slot, pull, room, answers', recorded', slot', done')
    ensures LegOk(answers', recorded', slot', done')
  {
    if slot.Some? {
      assert recorded + [slot.value] + [] == recorded + [slot.value];
    } else {
      EmittedSnoc(answers, pull);
      assert recorded + [] == recorded;
      assert recorded' + Held(slot') == recorded + if pull.Data? then [pull.event] else [];
    }
  }

  /** What a source has answered, and has still to answer, is its line. */
  ghost predicate Spells<P>(answers: seq<Pull<P>>, rest: seq<Tagged<P>>, line: seq<Tagged<P>>) {
    && Emitted(answers) + Events(rest) == Events(line)
    && (Eof in answers ==> rest == [])
  }

  lemma SpellsOn<P>(answers: seq<Pull<P>>, rest: seq<Tagged<P>>, line: seq<Tagged<P>>, r: Pull<P>,
                    rest': seq<Tagged<P>>)
    requires Spells(answers, rest, line) && Answers(rest, r, rest')
    ensures Spells(answers + [r], rest', line)
  {
    EmittedSnoc(answers, r);
    if r.Data? {
      assert Events(rest) == [r.event] + Events(rest');
    }
  }

  /** At every moment what a sink has taken, what is held for it and what its source has still to give are the
      line of the source; an end for Eof leaves nothing held and nothing to give. */
  lemma WholeLineRecorded<P>(answers: seq<Pull<P>>, recorded: seq<Event<P>>, slot: Option<Event<P>>, done: bool,
                             rest: seq<Tagged<P>>, line: seq<Tagged<P>>)
    requires LegOk(answers, recorded, slot, done) && Spells(answers, rest, line)
    ensures recorded + Held(slot) + Events(rest) == Events(line)
    ensures done ==> slot == None && recorded == Events(line)
  {
    if done {
      assert recorded + [] + [] == recorded;
    }
  }

  /** The newest answer. */
  ghost function Last<P>(answers: seq<Pull<P>>): Pull<P> {
    if answers == [] then NoData else answers[|answers| - 1]
  }

  /** The line a source gives in all. */
  ghost function Line<P(!new)>(source: Source<P>): seq<Tagged<P>> {
    if |source.tapes| == |source.bars| then Merge(source.tapes, source.bars, Start(|source.tapes|)) else []
  }

  /** The source is at the place in its line that its answers say. */
  ghost predicate SourceOk<P(!new)>(source: Source<P>, answers: seq<Pull<P>>)
    reads source
  {
    source.Valid() && Spells(answers, source.Rest(), Line(source))
  }

  /** One leg's lambda in poll_round: a source is asked only with nothing held. */
  method PollLeg<P(!new)>(source: Source<P>, a: Arrivals, slot: Option<Event<P>>, room: bool,
                          ghost answers: seq<Pull<P>>, recorded: seq<Event<P>>)
      returns (any: bool, slot': Option<Event<P>>, done': bool, ghost answers': seq<Pull<P>>, recorded': seq<Event<P>>)
    requires SourceOk(source, answers) && Possible(a, source.tapes) && LegOk(answers, recorded, slot, false)
    modifies source
    ensures SourceOk(source, answers') && LegOk(answers', recorded', slot', done')
    ensures LegRound(answers, recorded, slot, Last(answers'), room, answers', recorded', slot', done')
    ensures slot.None? ==> (Last(answers') == NoData <==> AnyStarved(a, old(source.out), old(source.pending)))
    ensures any <==> recorded' != recorded
  {
    hide Spells, Answers, AnyStarved, Line;
    any, slot', done', answers', recorded' := false, slot, false, answers, recorded;
    if slot.Some? {
      if room {
        recorded' := recorded + [slot.value];
        slot' := None;
        any := true;
      }
    } else {
      ghost var rest := source.Rest();
      var pulled := source.Next(a);
      answers' := answers + [pulled];
      SpellsOn(answers, rest, Line(source), pulled, source.Rest());
      match pulled {
        case Eof => done' := true;
        case NoData =>
        case Data(event) =>
          if room {
            recorded' := recorded + [event];
            any := true;
          } else {
            slot' := Some(event);
          }
      }
    }
    RoundKeepsLeg(answers, recorded, slot, Last(answers'), room, answers', recorded', slot', done');
  }

  /** What has arrived at each source and which sinks have room, in one round. */
  datatype Round = Round(arrivals: seq<Arrivals>, room: seq<bool>)

  ghost predicate RoundOk<P(!new)>(round: Round, sources: seq<Source<P>>) {
    && |round.arrivals| == |round.room| == |sources|
    && forall i :: 0 <= i < |sources| ==> Possible(round.arrivals[i], sources[i].tapes)
  }

  /** All that a run holds for its legs. */
  datatype Legs<+P> = Legs(answers: seq<seq<Pull<P>>>, recorded: seq<seq<Event<P>>>, pending: seq<Option<Event<P>>>,
      done: seq<bool>)

  ghost predicate LegsOk<P>(s: Legs<P>, n: nat) {
    && |s.answers| == |s.recorded| == |s.pending| == |s.done| == n
    && forall i :: 0 <= i < n ==> LegOk(s.answers[i], s.recorded[i], s.pending[i], s.done[i])
  }

  /** Leg i across one round: left alone once done, else one step. */
  ghost predicate Turn<P>(s: Legs<P>, room: bool, r: Legs<P>, n: nat, i: nat)
    requires LegsOk(s, n) && LegsOk(r, n) && i < n
  {
    if s.done[i] then Same(s, r, n, i)
    else LegRound(s.answers[i], s.recorded[i], s.pending[i], Last(r.answers[i]), room,
                  r.answers[i], r.recorded[i], r.pending[i], r.done[i])
  }

  ghost predicate Same<P>(s: Legs<P>, r: Legs<P>, n: nat, i: nat)
    requires LegsOk(s, n) && LegsOk(r, n) && i < n
  {
    && r.answers[i] == s.answers[i] && r.recorded[i] == s.recorded[i]
    && r.pending[i] == s.pending[i] && r.done[i] == s.done[i]
  }

  /** Only leg i has changed. */
  ghost predicate Others<P>(s: Legs<P>, r: Legs<P>, n: nat, i: nat)
    requires LegsOk(s, n) && LegsOk(r, n) && i < n
  {
    r == Legs(s.answers[i := r.answers[i]], s.recorded[i := r.recorded[i]], s.pending[i := r.pending[i]],
              s.done[i := r.done[i]])
  }

  lemma OneLegMoves<P(!new)>(was: Legs<P>, s: Legs<P>, r: Legs<P>, room: seq<bool>, n: nat, i: nat)
    requires LegsOk(was, n) && LegsOk(s, n) && LegsOk(r, n) && |room| == n && i < n
    requires Others(s, r, n, i)
    requires forall k :: i <= k < n ==> Same(was, s, n, k)
    requires forall k :: 0 <= k < i ==> Turn(was, room[k], s, n, k)
    requires Turn(was, room[i], r, n, i)
    ensures forall k :: i < k < n ==> Same(was, r, n, k)
    ensures forall k :: 0 <= k <= i ==> Turn(was, room[k], r, n, k)
  {
    hide LegOk, LegRound;
    forall k | i < k < n ensures Same(was, r, n, k) { assert Same(was, s, n, k); }
    forall k | 0 <= k < i ensures Turn(was, room[k], r, n, k) { assert Turn(was, room[k], s, n, k); }
  }

  class DataSourceRun<P(!new)> {
    const sources: seq<Source<P>>
    var pending: seq<Option<Event<P>>>
    var done: seq<bool>
    var recorded: seq<seq<Event<P>>>           // what each sink has taken
    ghost var answers: seq<seq<Pull<P>>>       // what each source has answered

    ghost function Value(): Legs<P>
      reads this
    {
      Legs(answers, recorded, pending, done)
    }

    ghost predicate Valid()
      reads this, sources
    {
      && LegsOk(Value(), |sources|)
      && (forall i, j :: 0 <= i < j < |sources| ==> sources[i] != sources[j])
      && (forall i :: 0 <= i < |sources| ==> SourceOk(sources[i], answers[i]))
    }

    constructor (sources: seq<Source<P>>)
      requires forall i, j :: 0 <= i < j < |sources| ==> sources[i] != sources[j]
      requires forall i :: 0 <= i < |sources| ==> sources[i].Valid() && sources[i].Rest() == Line(sources[i])
      ensures Valid() && this.sources == sources
    {
      this.sources := sources;
      pending, done := seq(|sources|, _ => None), seq(|sources|, _ => false);
      recorded, answers := seq(|sources|, _ => []), seq(|sources|, _ => []);
    }

    /** One leg that is not done. */
    method PollOne(i: nat, a: Arrivals, room: bool) returns (any: bool)
      requires Valid() && i < |sources| && Possible(a, sources[i].tapes) && !done[i]
      modifies this, sources[i]
      ensures Valid() && Others(old(Value()), Value(), |sources|, i)
      ensures Turn(old(Value()), room, Value(), |sources|, i)
      ensures any <==> recorded != old(recorded)
    {
      hide LegOk, LegRound, SourceOk, Last;
      ghost var was := Value();
      assert LegOk(answers[i], recorded[i], pending[i], done[i]) && SourceOk(sources[i], answers[i]);
      var slot, isDone, taken;
      ghost var answered;
      any, slot, isDone, answered, taken := PollLeg(sources[i], a, pending[i], room, answers[i], recorded[i]);
      pending, done := pending[i := slot], done[i := isDone];
      recorded, answers := recorded[i := taken], answers[i := answered];
      assert recorded[i] == taken && was.recorded[i] == old(recorded[i]);
      forall k | 0 <= k < |sources| ensures SourceOk(sources[k], answers[k]) {}
    }

    /** One round over the legs. Progress is reported exactly when some sink has taken an event. */
    method PollRound(round: Round) returns (any: bool)
      requires Valid() && RoundOk(round, sources)
      modifies this, sources
      ensures Valid()
      ensures any <==> recorded != old(recorded)
      ensures forall i :: 0 <= i < |sources| ==> Turn(old(Value()), round.room[i], Value(), |sources|, i)
    {
      hide LegOk, LegRound, SourceOk, Last;
      any := false;
      ghost var was, n := Value(), |sources|;
      for i := 0 to |sources|
        invariant Valid()
        invariant any <==> recorded != was.recorded
        invariant forall k :: i <= k < n ==> Same(was, Value(), n, k)
        invariant forall k :: 0 <= k < i ==> Turn(was, round.room[k], Value(), n, k)
      {
        assert Same(was, Value(), n, i);
        if !done[i] {
          ghost var before := Value();
          var moved := PollOne(i, round.arrivals[i], round.room[i]);
          any := any || moved;
          OneLegMoves(was, before, Value(), round.room, n, i);
        }
      }
    }
  }

  /** The loop of run_data_source: a round, an end once every source has answered Eof, a poll of the stop
      every so many rounds. The schedule says what each round meets; the loop may also outlast it. Whenever it
      ends, what each sink has taken, what is held for it and what its source has still to give are the line
      of the source; and an end for Eof has the whole line recorded and nothing held. */
  method Run<P(!new)>(run: DataSourceRun<P>, schedule: seq<Round>, stopAt: nat -> bool, stopPollEvery: nat)
      returns (allEof: bool)
    requires run.Valid() && stopPollEvery > 0
    requires forall k :: 0 <= k < |schedule| ==> RoundOk(schedule[k], run.sources)
    modifies run, run.sources
    ensures run.Valid()
    ensures forall i :: 0 <= i < |run.sources| ==> Split(run, i)
    ensures allEof ==> forall i :: 0 <= i < |run.sources| ==>
                         run.pending[i] == None && run.recorded[i] == Events(Line(run.sources[i]))
  {
    hide RoundOk, LegOk, Line, SourceOk, Events;
    for round := 0 to |schedule|
      invariant run.Valid()
    {
      var any := run.PollRound(schedule[round]);
      var allDone := true;
      for i := 0 to |run.sources|
        invariant |run.done| == |run.sources| && (allDone <==> forall k :: 0 <= k < i ==> run.done[k])
      {
        allDone := allDone && run.done[i];
      }
      if allDone {
        WholeLines(run);
        return true;
      }
      if round % stopPollEvery == 0 && stopAt(round) {
        WholeLines(run);
        return false;
      }
    }
    WholeLines(run);
    allEof := false;
  }

  /** Where the line of leg i is: recorded, held, or still in the source. */
  ghost predicate Split<P(!new)>(run: DataSourceRun<P>, i: nat)
    requires run.Valid() && i < |run.sources|
    reads run, run.sources
  {
    var source := run.sources[i];
    && source.Valid()
    && run.recorded[i] + Held(run.pending[i]) + Events(source.Rest()) == Events(Line(source))
  }

  lemma WholeLines<P(!new)>(run: DataSourceRun<P>)
    requires run.Valid()
    ensures forall i :: 0 <= i < |run.sources| ==> Split(run, i)
    ensures forall i :: 0 <= i < |run.sources| && run.done[i] ==>
              run.pending[i] == None && run.recorded[i] == Events(Line(run.sources[i]))
  {
    hide LegOk, Spells, Line;
    forall i | 0 <= i < |run.sources|
      ensures Split(run, i)
      ensures run.done[i] ==> run.pending[i] == None && run.recorded[i] == Events(Line(run.sources[i]))
    {
      var source := run.sources[i];
      assert SourceOk(source, run.answers[i]) && LegOk(run.answers[i], run.recorded[i], run.pending[i], run.done[i]);
      WholeLineRecorded(run.answers[i], run.recorded[i], run.pending[i], run.done[i], source.Rest(), Line(source));
    }
  }
}
