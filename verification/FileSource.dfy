/** A source in terms of its files: what its streams hand over as files arrive, and the line they merge into. */
module FileSource {
  import opened Ring
  import StreamRows
  import opened SourceMerge

  /** A stream's parser and planned files. */
  datatype Feed<!P> = Feed(parser: StreamRows.Parser<P>, files: seq<StreamRows.File>)

  /** What a stream hands to the merge of one of its events. */
  function Handed<P>(e: StreamRows.Event<P>): Event<P> {
    Event(e.ts, e.payload)
  }

  /** All that a stream will ever hand over: the events of its readable files, in plan order. */
  function Tape<P>(feed: Feed<P>): (tape: seq<Event<P>>)
    ensures |tape| == |StreamRows.EventsFrom(feed.parser, feed.files, 0)|
  {
    var events := StreamRows.EventsFrom(feed.parser, feed.files, 0);
    seq(|events|, k requires 0 <= k < |events| => Handed(events[k]))
  }

  function Tapes<P>(feeds: seq<Feed<P>>): seq<seq<Event<P>>> {
    seq(|feeds|, i requires 0 <= i < |feeds| => Tape(feeds[i]))
  }

  lemma {:induction false} FewerLater<P>(p: StreamRows.Parser<P>, files: seq<StreamRows.File>, j: nat, k: nat)
    requires j <= k <= |files|
    ensures |StreamRows.EventsFrom(p, files, k)| <= |StreamRows.EventsFrom(p, files, j)|
    decreases k - j
  {
    hide StreamRows.Events;
    if j < k {
      FewerLater(p, files, j + 1, k);
    }
  }

  /** How many events the first k files hold. */
  function Arrived<P>(feed: Feed<P>, k: nat): (n: nat)
    requires k <= |feed.files|
    ensures n <= |Tape(feed)| && (k == |feed.files| ==> n == |Tape(feed)|)
  {
    FewerLater(feed.parser, feed.files, 0, k);
    |StreamRows.EventsFrom(feed.parser, feed.files, 0)| - |StreamRows.EventsFrom(feed.parser, feed.files, k)|
  }

  /** A stream as the merge meets it: asked with k of its files there, it hands over the next event of its tape
      exactly when the first k files hold it, and with none left it is finished exactly when all files were
      there. */
  method Pull<P(!new)>(stream: StreamRows.BinanceHistoricalStream<P>, k: nat)
      returns (r: Option<Event<P>>, finished: bool)
    requires stream.Valid() && stream.readCursor <= k <= |stream.files|
    modifies stream
    ensures stream.Valid() && stream.readCursor <= k
    ensures var feed, out := Feed(stream.parser, stream.files), |old(stream.emitted)|;
            && out <= |Tape(feed)|
            && r == (if out < Arrived(feed, k) then Some(Tape(feed)[out]) else None)
            && |stream.emitted| == out + (if r.Some? then 1 else 0)
    ensures r.None? ==> (finished <==> k == |stream.files|)
  {
    hide StreamRows.EventsFrom, StreamRows.Events, StreamRows.InBalance;
    ghost var feed, was := Feed(stream.parser, stream.files), stream.emitted;
    WithinTape(feed, stream.emitted, stream.rows, stream.readCursor);
    var next := stream.Next(k);
    finished := stream.Finished();
    if next.Some? {
      HandedOver(feed, was, next.value, stream.rows, stream.readCursor, k);
      r := Some(Handed(next.value));
    } else {
      NothingToHand(feed, was, k);
      r := None;
    }
  }

  lemma WithinTape<P(!new)>(feed: Feed<P>, emitted: seq<StreamRows.Event<P>>, rows: string, read: nat)
    requires StreamRows.InOrder(feed.parser, feed.files, emitted, rows, read)
    ensures |emitted| <= |Tape(feed)|
  {
    hide StreamRows.EventsFrom, StreamRows.Events;
  }

  lemma HandedOver<P(!new)>(feed: Feed<P>, emitted: seq<StreamRows.Event<P>>, e: StreamRows.Event<P>, rows: string,
                            read: nat, k: nat)
    requires StreamRows.InOrder(feed.parser, feed.files, emitted + [e], rows, read) && read <= k <= |feed.files|
    ensures |emitted| < Arrived(feed, k) && Tape(feed)[|emitted|] == Handed(e)
  {
    hide StreamRows.EventsFrom, StreamRows.Events;
    FewerLater(feed.parser, feed.files, read, k);
    var all := StreamRows.EventsFrom(feed.parser, feed.files, 0);
    assert (emitted + [e])[|emitted|] == all[|emitted|];
  }

  lemma NothingToHand<P(!new)>(feed: Feed<P>, emitted: seq<StreamRows.Event<P>>, k: nat)
    requires StreamRows.InOrder(feed.parser, feed.files, emitted, [], k)
    ensures |emitted| == Arrived(feed, k)
  {
    hide StreamRows.EventsFrom;
    assert StreamRows.Events(feed.parser, []) == [];
  }

  /** How many files of each stream are there. */
  predicate FilesThere<P>(feeds: seq<Feed<P>>, there: seq<nat>) {
    |there| == |feeds| && forall i :: 0 <= i < |feeds| ==> there[i] <= |feeds[i].files|
  }

  /** What that lets each stream hand over. */
  function ArrivalsOf<P>(feeds: seq<Feed<P>>, there: seq<nat>): Arrivals
    requires FilesThere(feeds, there)
  {
    Arrivals(seq(|feeds|, i requires 0 <= i < |feeds| => Arrived(feeds[i], there[i])),
             seq(|feeds|, i requires 0 <= i < |feeds| => there[i] == |feeds[i].files|))
  }

  lemma ArrivalsArePossible<P>(feeds: seq<Feed<P>>, there: seq<nat>)
    requires FilesThere(feeds, there)
    ensures Possible(ArrivalsOf(feeds, there), Tapes(feeds))
  {
    hide Arrived, Tape;
  }

  /** The line a source of these files gives. */
  function LineOf<P>(feeds: seq<Feed<P>>, bars: seq<bool>): seq<Tagged<P>>
    requires |bars| == |feeds|
  {
    Merge(Tapes(feeds), bars, Start(|feeds|))
  }

  /** In the line are the events of each stream's readable files, file after file, row after row, and nothing
      else; and with ascending streams it ascends, bars after all else of their stamp. */
  lemma LineOfFiles<P>(feeds: seq<Feed<P>>, bars: seq<bool>, i: nat)
    requires |bars| == |feeds| && i < |feeds|
    ensures Project(LineOf(feeds, bars), i) == Tape(feeds[i])
    ensures (forall k :: 0 <= k < |feeds| ==> StampSorted(Tape(feeds[k]))) ==> KeySorted(bars, LineOf(feeds, bars))
  {
    hide Tape, Merge, StampSorted, Project, KeySorted;
    var tapes := Tapes(feeds);
    MergeKeepsEveryTape(tapes, bars, Start(|feeds|), i);
    assert tapes[i][0..] == tapes[i];
    if forall k :: 0 <= k < |feeds| ==> StampSorted(Tape(feeds[k])) {
      MergeIsSorted(tapes, bars, Start(|feeds|));
    }
  }

  /** A source over streams whose files arrive on any schedule and all in the end gives that line. */
  method ReadFiles<P(!new)>(feeds: seq<Feed<P>>, bars: seq<bool>, schedule: seq<seq<nat>>)
      returns (events: seq<Event<P>>)
    requires |bars| == |feeds| && forall k :: 0 <= k < |schedule| ==> FilesThere(feeds, schedule[k])
    ensures events == Events(LineOf(feeds, bars))
  {
    hide Arrived, Tape;
    var source := new Source(Tapes(feeds), bars);
    var arrivals := seq(|schedule|, k requires 0 <= k < |schedule| && FilesThere(feeds, schedule[k]) =>
      ArrivalsOf(feeds, schedule[k]));
    forall k | 0 <= k < |schedule| ensures Possible(arrivals[k], source.tapes) {
      ArrivalsArePossible(feeds, schedule[k]);
    }
    events := ReadAll(source, arrivals);
  }
}
