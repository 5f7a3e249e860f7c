/** The partition cache: what is complete far enough is read, the rest fetched and written, and the
    least recently read partitions evicted past the cap. */
module Cache {
  import opened Ring

  datatype Row = Row(symbol: string, stamp: int, payload: int)

  /** One partition's span, [start, end). */
  datatype Part = Part(start: int, end: int)

  datatype Key = Key(dataset: string, symbol: string, start: int)

  /** A row of the index. Its path, when it has one, follows from its key. */
  datatype Entry = Entry(through: int, bytes: nat, onDisk: bool, lastRead: int)

  type Fetch = (seq<string>, int, int) -> (seq<Row>, int)

  function Min(a: int, b: int): int {
    if a <= b then a else b
  }

  function Max(a: int, b: int): int {
    if a <= b then b else a
  }

  // ------------------------------------------------------------------------- rows of a span of time

  function Between(rows: seq<Row>, lo: int, hi: int): seq<Row> {
    if rows == [] then []
    else Between(rows[..|rows| - 1], lo, hi) + if lo <= rows[|rows| - 1].stamp < hi then [rows[|rows| - 1]] else []
  }

  function OfSymbol(rows: seq<Row>, symbol: string): seq<Row> {
    if rows == [] then []
    else OfSymbol(rows[..|rows| - 1], symbol) + if rows[|rows| - 1].symbol == symbol then [rows[|rows| - 1]] else []
  }

  /** A span inside a span. */
  lemma {:induction false} BetweenWithin(rows: seq<Row>, lo: int, hi: int, a: int, b: int)
    requires lo <= a && b <= hi
    ensures Between(Between(rows, lo, hi), a, b) == Between(rows, a, b)
  {
    if rows != [] {
      var front, last := rows[..|rows| - 1], rows[|rows| - 1];
      BetweenWithin(front, lo, hi, a, b);
      if lo <= last.stamp < hi {
        assert (Between(front, lo, hi) + [last])[..|Between(front, lo, hi)|] == Between(front, lo, hi);
      } else {
        assert Between(front, lo, hi) + [] == Between(front, lo, hi);
        assert Between(front, a, b) + [] == Between(front, a, b);
      }
    }
  }

  lemma {:induction false} EmptySpan(rows: seq<Row>, lo: int, hi: int)
    requires hi <= lo
    ensures Between(rows, lo, hi) == []
  {
    if rows != [] {
      EmptySpan(rows[..|rows| - 1], lo, hi);
    }
  }

  // -------------------------------------------------------------------------------- the cache's promise

  /** What the archive holds: the rows of each symbol of each dataset. */
  type Archive = (string, string) -> seq<Row>

  function Stored(index: map<Key, Entry>, disk: map<Key, seq<Row>>, k: Key): seq<Row> {
    if k in index && index[k].onDisk && k in disk then disk[k] else []
  }

  /** Below its through time a partition holds the archive's rows of its span, all and in order. */
  ghost predicate Faithful(archive: Archive, index: map<Key, Entry>, disk: map<Key, seq<Row>>, k: Key)
    requires k in index
  {
    && Between(Stored(index, disk, k), k.start, index[k].through)
       == Between(archive(k.dataset, k.symbol), k.start, index[k].through)
    && (index[k].onDisk ==> k in disk)
    && (!index[k].onDisk ==> index[k].bytes == 0)
  }

  ghost predicate AllFaithful(archive: Archive, index: map<Key, Entry>, disk: map<Key, seq<Row>>) {
    forall k :: k in index ==> Faithful(archive, index, disk, k)
  }

  /** What the index says a file weighs is what its rows weigh on disk. */
  ghost predicate Weighed(index: map<Key, Entry>, disk: map<Key, seq<Row>>, size: seq<Row> -> nat) {
    forall k :: k in index && index[k].onDisk ==> k in disk && index[k].bytes == size(disk[k])
  }

  /** Fetching some symbols over a span returns every row below the time it reports as complete. */
  ghost predicate FetchedOk(archive: Archive, dataset: string, fetch: Fetch, symbols: seq<string>, lo: int, hi: int) {
    var (rows, through) := fetch(symbols, lo, hi);
    forall s :: s in symbols ==>
      Between(OfSymbol(rows, s), lo, Min(hi, through)) == Between(archive(dataset, s), lo, Min(hi, through))
  }

  ghost predicate FetchOk(archive: Archive, dataset: string, fetch: Fetch) {
    forall symbols, lo, hi :: FetchedOk(archive, dataset, fetch, symbols, lo, hi)
  }

  /** From parts asked for on, a fetch is complete as far as needed. */
  ghost predicate Reaches(fetch: Fetch, from: int, need: int) {
    forall symbols, lo, hi :: from <= lo ==> fetch(symbols, lo, hi).1 >= Min(hi, need)
  }

  /** Parts in time order, none overlapping. */
  ghost predicate PartsOk(parts: seq<Part>) {
    && (forall i :: 0 <= i < |parts| ==> parts[i].start < parts[i].end)
    && (forall i, j :: 0 <= i < j < |parts| ==> parts[i].end <= parts[j].start)
  }

  // ------------------------------------------------------------------------------------ what is stale

  function Have(index: map<Key, Entry>, k: Key): int {
    if k in index then index[k].through else -1
  }

  predicate IsStale(index: map<Key, Entry>, dataset: string, symbol: string, p: Part, need: int) {
    Have(index, Key(dataset, symbol, p.start)) < Min(p.end, need)
  }

  predicate CompleteFor(index: map<Key, Entry>, dataset: string, symbol: string, p: Part, need: int) {
    !IsStale(index, dataset, symbol, p, need)
  }

  function Gaps(index: map<Key, Entry>, dataset: string, symbol: string, parts: seq<Part>, need: int): seq<Part> {
    if parts == [] then []
    else
      var last := parts[|parts| - 1];
      Gaps(index, dataset, symbol, parts[..|parts| - 1], need)
      + if IsStale(index, dataset, symbol, last, need) then [last] else []
  }

  lemma {:induction false} GapsAreStale(index: map<Key, Entry>, dataset: string, symbol: string, parts: seq<Part>,
                                        need: int, p: Part)
    ensures p in Gaps(index, dataset, symbol, parts, need) <==> p in parts && IsStale(index, dataset, symbol, p, need)
  {
    if parts != [] {
      GapsAreStale(index, dataset, symbol, parts[..|parts| - 1], need, p);
      assert parts == parts[..|parts| - 1] + [parts[|parts| - 1]];
    }
  }

  lemma {:induction false} GapsInOrder(index: map<Key, Entry>, dataset: string, symbol: string, parts: seq<Part>,
                                       need: int)
    requires PartsOk(parts)
    ensures PartsOk(Gaps(index, dataset, symbol, parts, need))
  {
    if parts != [] {
      var front := parts[..|parts| - 1];
      assert PartsOk(front) by {
        assert forall i :: 0 <= i < |front| ==> front[i] == parts[i];
      }
      GapsInOrder(index, dataset, symbol, front, need);
      var gaps := Gaps(index, dataset, symbol, front, need);
      forall i | 0 <= i < |gaps| ensures gaps[i].end <= parts[|parts| - 1].start {
        GapsAreStale(index, dataset, symbol, front, need, gaps[i]);
      }
    }
  }

  /** From the first part a symbol lacks to the last. */
  ghost predicate InSpanOf(gaps: seq<Part>, p: Part) {
    gaps != [] && gaps[0].start <= p.start && p.end <= gaps[|gaps| - 1].end
  }

  ghost predicate BetweenStale(index: map<Key, Entry>, dataset: string, symbol: string, parts: seq<Part>, need: int,
                               q: Part, p: Part, r: Part) {
    && q in parts && r in parts && q.end <= p.start && p.end <= r.start
    && IsStale(index, dataset, symbol, q, need) && IsStale(index, dataset, symbol, r, need)
  }

  /** A part that is not stale lies in that span exactly when it lies between two that are. */
  lemma FetchedBetween(index: map<Key, Entry>, dataset: string, symbol: string, parts: seq<Part>, need: int, p: Part)
    requires PartsOk(parts) && p in parts && !IsStale(index, dataset, symbol, p, need)
    ensures InSpanOf(Gaps(index, dataset, symbol, parts, need), p)
            <==> exists q, r :: BetweenStale(index, dataset, symbol, parts, need, q, p, r)
  {
    hide IsStale, PartsOk, BetweenStale, InSpanOf;
    if InSpanOf(Gaps(index, dataset, symbol, parts, need), p) {
      var q, r := EndsAround(index, dataset, symbol, parts, need, p);
    }
    if q, r :| BetweenStale(index, dataset, symbol, parts, need, q, p, r) {
      InSpanBetween(index, dataset, symbol, parts, need, q, p, r);
    }
  }

  lemma EndsAround(index: map<Key, Entry>, dataset: string, symbol: string, parts: seq<Part>, need: int, p: Part)
      returns (q: Part, r: Part)
    requires PartsOk(parts) && p in parts && !IsStale(index, dataset, symbol, p, need)
    requires InSpanOf(Gaps(index, dataset, symbol, parts, need), p)
    ensures BetweenStale(index, dataset, symbol, parts, need, q, p, r)
  {
    hide IsStale, PartsOk, Gaps;
    var gaps := Gaps(index, dataset, symbol, parts, need);
    q, r := gaps[0], gaps[|gaps| - 1];
    GapsAreStale(index, dataset, symbol, parts, need, q);
    GapsAreStale(index, dataset, symbol, parts, need, r);
    Apart(parts, q, p);
    Apart(parts, p, r);
    Lasts(parts, p);
  }

  lemma InSpanBetween(index: map<Key, Entry>, dataset: string, symbol: string, parts: seq<Part>, need: int,
                      q: Part, p: Part, r: Part)
    requires PartsOk(parts) && BetweenStale(index, dataset, symbol, parts, need, q, p, r)
    ensures InSpanOf(Gaps(index, dataset, symbol, parts, need), p)
  {
    hide IsStale, PartsOk, Gaps;
    var gaps := Gaps(index, dataset, symbol, parts, need);
    GapsInOrder(index, dataset, symbol, parts, need);
    GapsAreStale(index, dataset, symbol, parts, need, q);
    GapsAreStale(index, dataset, symbol, parts, need, r);
    InSpan(gaps, q);
    InSpan(gaps, r);
    Lasts(parts, q);
    Lasts(parts, r);
  }

  lemma Lasts(parts: seq<Part>, p: Part)
    requires PartsOk(parts) && p in parts
    ensures p.start < p.end
  {
  }

  lemma Apart(parts: seq<Part>, p: Part, q: Part)
    requires PartsOk(parts) && p in parts && q in parts && p != q
    ensures p.end <= q.start || q.end <= p.start
  {
    var i :| 0 <= i < |parts| && parts[i] == p;
    var j :| 0 <= j < |parts| && parts[j] == q;
  }

  lemma InSpan(gaps: seq<Part>, p: Part)
    requires PartsOk(gaps) && p in gaps
    ensures gaps[0].start <= p.start && p.end <= gaps[|gaps| - 1].end
  {
    var i :| 0 <= i < |gaps| && gaps[i] == p;
  }

  /** Three parts, the middle one complete: the span fetched takes it along. */
  lemma FetchesWhatIsComplete(dataset: string, symbol: string)
    ensures var first, middle, last := Part(0, 10), Part(10, 20), Part(20, 30);
            var index := map[Key(dataset, symbol, 10) := Entry(20, 0, false, 0)];
            var gaps := Gaps(index, dataset, symbol, [first] + [middle] + [last], 30);
            gaps == [first, last] && CompleteFor(index, dataset, symbol, middle, 30) && InSpanOf(gaps, middle)
  {
    var first, middle, last := Part(0, 10), Part(10, 20), Part(20, 30);
    var index := map[Key(dataset, symbol, 10) := Entry(20, 0, false, 0)];
    var one := [first];
    var two := one + [middle];
    var three := two + [last];
    assert one[..0] == [] && two[..1] == one && three[..2] == two;
    assert Gaps(index, dataset, symbol, one, 30) == [first];
    assert Gaps(index, dataset, symbol, two, 30) == [first];
    assert Gaps(index, dataset, symbol, three, 30) == [first] + [last];
  }

  // ------------------------------------------------------------------------------- one partition written

  /** What a fetched span makes of one partition. */
  function Cut(rows: seq<Row>, symbol: string, p: Part): seq<Row> {
    Between(OfSymbol(rows, symbol), p.start, p.end)
  }

  lemma WrittenIsFaithful(archive: Archive, dataset: string, fetch: Fetch, symbols: seq<string>, lo: int, hi: int,
                          symbol: string, p: Part, through: int)
    requires FetchedOk(archive, dataset, fetch, symbols, lo, hi) && symbol in symbols
    requires lo <= p.start && p.end <= hi && through == Min(p.end, fetch(symbols, lo, hi).1)
    ensures Between(Cut(fetch(symbols, lo, hi).0, symbol, p), p.start, through)
            == Between(archive(dataset, symbol), p.start, through)
  {
    var (rows, reached) := fetch(symbols, lo, hi);
    BetweenWithin(OfSymbol(rows, symbol), p.start, p.end, p.start, through);
    BetweenWithin(OfSymbol(rows, symbol), lo, Min(hi, reached), p.start, through);
    BetweenWithin(archive(dataset, symbol), lo, Min(hi, reached), p.start, through);
  }

  /** What a partition holds below need, and what the archive does. */
  ghost predicate AsArchived(archive: Archive, index: map<Key, Entry>, disk: map<Key, seq<Row>>, dataset: string,
                             symbol: string, p: Part, need: int) {
    var k := Key(dataset, symbol, p.start);
    Between(Stored(index, disk, k), p.start, Min(p.end, need)) == Needed(archive, dataset, symbol, p, need)
  }

  /** The archive's rows of a part below need. */
  ghost function Needed(archive: Archive, dataset: string, symbol: string, p: Part, need: int): seq<Row> {
    Between(archive(dataset, symbol), p.start, Min(p.end, need))
  }

  /** Complete enough means that all that is needed of the part can be read, exactly when the part is in the
      index or nothing is needed of it. The default of -1 for what is not in the index is complete enough for
      a part that ends, or is needed, before the epoch. */
  lemma CompleteIsReadable(archive: Archive, index: map<Key, Entry>, disk: map<Key, seq<Row>>, dataset: string,
                           symbol: string, p: Part, need: int)
    requires AllFaithful(archive, index, disk) && CompleteFor(index, dataset, symbol, p, need)
    ensures AsArchived(archive, index, disk, dataset, symbol, p, need)
            <==> Key(dataset, symbol, p.start) in index || Needed(archive, dataset, symbol, p, need) == []
    ensures Key(dataset, symbol, p.start) in index || Min(p.end, need) < 0
  {
    var k := Key(dataset, symbol, p.start);
    if k in index {
      assert Faithful(archive, index, disk, k);
      BetweenWithin(Stored(index, disk, k), p.start, index[k].through, p.start, Min(p.end, need));
      BetweenWithin(archive(dataset, symbol), p.start, index[k].through, p.start, Min(p.end, need));
    }
  }

  /** A row from before the epoch that an empty cache is complete without. */
  lemma MissedBeforeTheEpoch(dataset: string, symbol: string)
    ensures var archive: Archive := (_, _) => [Row(symbol, -2, 0)];
            && CompleteFor(map[], dataset, symbol, Part(-2, -1), 0)
            && !AsArchived(archive, map[], map[], dataset, symbol, Part(-2, -1), 0)
  {
    var rows := [Row(symbol, -2, 0)];
    assert rows[..0] == [];
    assert Between(rows, -2, -1) == rows;
  }

  // ---------------------------------------------------------------------------------------- the groups

  /** Symbols that lack the same parts share fetches. */
  datatype Group = Group(gaps: seq<Part>, symbols: seq<string>)

  ghost predicate GroupsOk(groups: seq<Group>, index: map<Key, Entry>, dataset: string, parts: seq<Part>, need: int) {
    forall g :: 0 <= g < |groups| ==> GroupOk(groups[g], index, dataset, parts, need)
  }

  ghost predicate GroupOk(group: Group, index: map<Key, Entry>, dataset: string, parts: seq<Part>, need: int) {
    && group.gaps != [] && group.symbols != []
    && forall s :: s in group.symbols ==> Gaps(index, dataset, s, parts, need) == group.gaps
  }

  /** The symbols of all groups, each as often as it is in one. */
  ghost function Grouped(groups: seq<Group>): multiset<string> {
    if groups == [] then multiset{}
    else Grouped(groups[..|groups| - 1]) + multiset(groups[|groups| - 1].symbols)
  }

  lemma {:induction false} GroupedOneMore(groups: seq<Group>, g: nat, gaps: seq<Part>, symbol: string)
    requires g < |groups|
    ensures Grouped(groups[g := Group(gaps, groups[g].symbols + [symbol])]) == Grouped(groups) + multiset{symbol}
  {
    var last := |groups| - 1;
    var more := groups[g := Group(gaps, groups[g].symbols + [symbol])];
    if g == last {
      assert more[..last] == groups[..last];
    } else {
      GroupedOneMore(groups[..last], g, gaps, symbol);
      assert more[..last] == groups[..last][g := Group(gaps, groups[g].symbols + [symbol])];
    }
  }

  /** The symbols that lack some part, each as often as it is asked for. */
  ghost function Lacking(index: map<Key, Entry>, dataset: string, symbols: seq<string>, parts: seq<Part>, need: int)
    : multiset<string>
  {
    if symbols == [] then multiset{}
    else
      var last := symbols[|symbols| - 1];
      Lacking(index, dataset, symbols[..|symbols| - 1], parts, need)
      + if Gaps(index, dataset, last, parts, need) == [] then multiset{} else multiset{last}
  }

  ghost predicate InGroup(groups: seq<Group>, symbol: string) {
    exists g :: 0 <= g < |groups| && symbol in groups[g].symbols
  }

  method Join(groups: seq<Group>, gaps: seq<Part>, symbol: string) returns (joined: seq<Group>)
    ensures InGroup(joined, symbol) && forall s :: InGroup(groups, s) ==> InGroup(joined, s)
    ensures |groups| <= |joined| <= |groups| + 1
    ensures forall g :: 0 <= g < |joined| ==>
              || (g < |groups| && joined[g] == groups[g])
              || (joined[g].gaps == gaps && (g < |groups| ==> groups[g].gaps == gaps)
                  && joined[g].symbols == (if g < |groups| then groups[g].symbols else []) + [symbol])
    ensures Grouped(joined) == Grouped(groups) + multiset{symbol}
  {
    for g := 0 to |groups|
    {
      if groups[g].gaps == gaps {
        joined := groups[g := Group(gaps, groups[g].symbols + [symbol])];
        GroupedOneMore(groups, g, gaps, symbol);
        assert symbol in joined[g].symbols;
        forall s | InGroup(groups, s) ensures InGroup(joined, s) {
          var h :| 0 <= h < |groups| && s in groups[h].symbols;
          assert s in joined[h].symbols;
        }
        return;
      }
    }
    joined := groups + [Group(gaps, [symbol])];
    assert joined[..|groups|] == groups;
    assert symbol in joined[|groups|].symbols;
    forall s | InGroup(groups, s) ensures InGroup(joined, s) {
      var h :| 0 <= h < |groups| && s in groups[h].symbols;
      assert s in joined[h].symbols;
    }
  }

  /** Every symbol that lacks some part is in a group that lacks exactly its parts, as often as asked for, and
      no other symbol is in any. */
  method StaleGroups(index: map<Key, Entry>, dataset: string, symbols: seq<string>, parts: seq<Part>, need: int)
      returns (groups: seq<Group>)
    ensures GroupsOk(groups, index, dataset, parts, need)
    ensures forall s :: s in symbols && Gaps(index, dataset, s, parts, need) != [] ==> InGroup(groups, s)
    ensures (forall s :: s in symbols ==> Gaps(index, dataset, s, parts, need) == []) ==> groups == []
    ensures Grouped(groups) == Lacking(index, dataset, symbols, parts, need)
  {
    hide Grouped, Lacking, Gaps, GroupOk;
    groups := [];
    NoneLacking(index, dataset, parts, need);
    assert Grouped([]) == multiset{} by { NoneGrouped(); }
    for k := 0 to |symbols|
      invariant GroupsOk(groups, index, dataset, parts, need)
      invariant forall j :: 0 <= j < k && Gaps(index, dataset, symbols[j], parts, need) != [] ==>
                InGroup(groups, symbols[j])
      invariant (forall s :: s in symbols ==> Gaps(index, dataset, s, parts, need) == []) ==> groups == []
      invariant Grouped(groups) == Lacking(index, dataset, symbols[..k], parts, need)
    {
      OneMoreLacking(index, dataset, symbols, parts, need, k);
      var gaps := Gaps(index, dataset, symbols[k], parts, need);
      if gaps != [] {
        ghost var before := groups;
        groups := Join(groups, gaps, symbols[k]);
        forall g | 0 <= g < |groups| ensures GroupOk(groups[g], index, dataset, parts, need) {
          if g < |before| {
            assert GroupOk(before[g], index, dataset, parts, need);
          }
          if g >= |before| || groups[g] != before[g] {
            JoinedOk(index, dataset, parts, need, if g < |before| then before[g].symbols else [], symbols[k]);
          }
        }
      }
    }
    assert symbols[..|symbols|] == symbols;
  }

  /** A group that lacks what one more symbol lacks. */
  lemma JoinedOk(index: map<Key, Entry>, dataset: string, parts: seq<Part>, need: int, symbols: seq<string>,
                 symbol: string)
    requires Gaps(index, dataset, symbol, parts, need) != []
    requires symbols == [] || GroupOk(Group(Gaps(index, dataset, symbol, parts, need), symbols), index, dataset, parts,
                                      need)
    ensures GroupOk(Group(Gaps(index, dataset, symbol, parts, need), symbols + [symbol]), index, dataset, parts, need)
  {
    hide Gaps;
  }

  lemma NoneLacking(index: map<Key, Entry>, dataset: string, parts: seq<Part>, need: int)
    ensures Lacking(index, dataset, [], parts, need) == multiset{}
  {
  }

  lemma OneMoreLacking(index: map<Key, Entry>, dataset: string, symbols: seq<string>, parts: seq<Part>, need: int,
                       k: nat)
    requires k < |symbols|
    ensures Lacking(index, dataset, symbols[..k + 1], parts, need)
            == Lacking(index, dataset, symbols[..k], parts, need)
               + if Gaps(index, dataset, symbols[k], parts, need) == [] then multiset{} else multiset{symbols[k]}
  {
    assert symbols[..k + 1][..k] == symbols[..k];
  }

  lemma NoneGrouped()
    ensures Grouped([]) == multiset{}
  {
  }

  // --------------------------------------------------------------------------------------------- write

  /** The index after the partitions of some symbols and gaps were written. */
  ghost predicate Wrote(was: map<Key, Entry>, index: map<Key, Entry>, dataset: string, symbols: seq<string>,
                        gaps: seq<Part>, reached: int)
  {
    && was.Keys <= index.Keys
    && (forall s, p :: s in symbols && p in gaps ==>
          Key(dataset, s, p.start) in index && index[Key(dataset, s, p.start)].through == Min(p.end, reached))
    && (forall k :: k in index && !Touched(dataset, symbols, gaps, k) ==> k in was && index[k] == was[k])
  }

  ghost predicate Touched(dataset: string, symbols: seq<string>, gaps: seq<Part>, k: Key) {
    k.dataset == dataset && k.symbol in symbols && exists p :: p in gaps && p.start == k.start
  }

  /** Of every other partition the index row and the file are as they were. */
  ghost predicate Beside(dataset: string, symbols: seq<string>, parts: seq<Part>, index0: map<Key, Entry>,
                         disk0: map<Key, seq<Row>>, index: map<Key, Entry>, disk: map<Key, seq<Row>>) {
    forall k :: !Touched(dataset, symbols, parts, k) ==> SameAt(index0, disk0, index, disk, k)
  }

  ghost predicate SameAt(index0: map<Key, Entry>, disk0: map<Key, seq<Row>>, index: map<Key, Entry>,
                         disk: map<Key, seq<Row>>, k: Key) {
    && (k in index <==> k in index0) && (k in index ==> index[k] == index0[k])
    && (k in disk <==> k in disk0) && (k in disk ==> disk[k] == disk0[k])
  }

  lemma BesideOn(dataset: string, symbols: seq<string>, parts: seq<Part>, index0: map<Key, Entry>,
                 disk0: map<Key, seq<Row>>, mid: map<Key, Entry>, files: map<Key, seq<Row>>, index: map<Key, Entry>,
                 disk: map<Key, seq<Row>>, some: seq<string>, gaps: seq<Part>)
    requires Beside(dataset, symbols, parts, index0, disk0, mid, files)
    requires Beside(dataset, some, gaps, mid, files, index, disk)
    requires (forall s :: s in some ==> s in symbols) && (forall p :: p in gaps ==> p in parts)
    ensures Beside(dataset, symbols, parts, index0, disk0, index, disk)
  {
    forall k | !Touched(dataset, symbols, parts, k) ensures SameAt(index0, disk0, index, disk, k) {
      assert !Touched(dataset, some, gaps, k);
      assert SameAt(index0, disk0, mid, files, k) && SameAt(mid, files, index, disk, k);
    }
  }

  lemma BesideWider(dataset: string, symbols: seq<string>, parts: seq<Part>, index0: map<Key, Entry>,
                    disk0: map<Key, seq<Row>>, index: map<Key, Entry>, disk: map<Key, seq<Row>>, more: seq<string>,
                    gaps: seq<Part>)
    requires Beside(dataset, symbols, parts, index0, disk0, index, disk)
    requires (forall s :: s in symbols ==> s in more) && (forall p :: p in parts ==> p in gaps)
    ensures Beside(dataset, more, gaps, index0, disk0, index, disk)
  {
    forall k | !Touched(dataset, more, gaps, k) ensures SameAt(index0, disk0, index, disk, k) {
      assert !Touched(dataset, symbols, parts, k);
    }
  }

  lemma NothingBeside(dataset: string, symbols: seq<string>, parts: seq<Part>, index: map<Key, Entry>,
                      disk: map<Key, seq<Row>>)
    ensures Beside(dataset, symbols, parts, index, disk, index, disk)
  {
  }

  /** Writing gaps that a fetch reaches completes them, nothing complete becomes stale, and nothing else is
      new to the index. */
  lemma WroteCompletes(was: map<Key, Entry>, index: map<Key, Entry>, dataset: string, symbols: seq<string>,
                       gaps: seq<Part>, reached: int, parts: seq<Part>, need: int, symbol: string, p: Part)
    requires Wrote(was, index, dataset, symbols, gaps, reached)
    requires PartsOk(parts) && p in parts && forall q :: q in gaps ==> q in parts
    requires forall q :: q in gaps ==> Min(q.end, reached) >= Min(q.end, need)
    ensures CompleteFor(was, dataset, symbol, p, need) || (symbol in symbols && p in gaps) ==>
              CompleteFor(index, dataset, symbol, p, need)
    ensures Key(dataset, symbol, p.start) in index ==>
              Key(dataset, symbol, p.start) in was || (symbol in symbols && p in gaps)
  {
    var k := Key(dataset, symbol, p.start);
    if Touched(dataset, symbols, gaps, k) {
      var q :| q in gaps && q.start == k.start;
      assert q == p by {
        var i :| 0 <= i < |parts| && parts[i] == p;
        var j :| 0 <= j < |parts| && parts[j] == q;
      }
    }
  }

  /** One partition's file and index row. */
  method WriteOne(ghost archive: Archive, index0: map<Key, Entry>, disk0: map<Key, seq<Row>>, k: Key, part: seq<Row>,
                  through: int, now: int, size: seq<Row> -> nat)
      returns (index: map<Key, Entry>, disk: map<Key, seq<Row>>)
    requires AllFaithful(archive, index0, disk0)
    requires Between(part, k.start, through) == Between(archive(k.dataset, k.symbol), k.start, through)
    ensures AllFaithful(archive, index, disk)
    ensures k in index && index[k].through == through && index.Keys == index0.Keys + {k}
    ensures index[k].lastRead == now && (index[k].onDisk <==> part != [])
    ensures Weighed(index0, disk0, size) ==> Weighed(index, disk, size)
    ensures forall other :: other != k ==> SameAt(index0, disk0, index, disk, other)
  {
    hide Between, AllFaithful, Weighed;
    disk := if part != [] then disk0[k := part] else disk0;
    index := index0[k := Entry(through, if part != [] then size(part) else 0, part != [], now)];
    OneFaithful(archive, index0, disk0, k, part, index[k], index, disk);
    if Weighed(index0, disk0, size) { OneWeighed(index0, disk0, k, part, index[k], index, disk, size); }
  }

  lemma OneFaithful(archive: Archive, index0: map<Key, Entry>, disk0: map<Key, seq<Row>>, k: Key, part: seq<Row>,
                    entry: Entry, index: map<Key, Entry>, disk: map<Key, seq<Row>>)
    requires AllFaithful(archive, index0, disk0) && index == index0[k := entry]
    requires disk == (if part != [] then disk0[k := part] else disk0)
    requires (entry.onDisk <==> part != []) && (part == [] ==> entry.bytes == 0)
    requires Between(part, k.start, entry.through) == Between(archive(k.dataset, k.symbol), k.start, entry.through)
    ensures AllFaithful(archive, index, disk)
  {
    hide Between;
    forall other | other in index ensures Faithful(archive, index, disk, other) {
      if other == k {
        assert Stored(index, disk, k) == part;
      } else {
        assert Faithful(archive, index0, disk0, other);
      }
    }
  }

  lemma OneWeighed(index0: map<Key, Entry>, disk0: map<Key, seq<Row>>, k: Key, part: seq<Row>, entry: Entry,
                   index: map<Key, Entry>, disk: map<Key, seq<Row>>, size: seq<Row> -> nat)
    requires Weighed(index0, disk0, size) && index == index0[k := entry]
    requires disk == (if part != [] then disk0[k := part] else disk0)
    requires (entry.onDisk <==> part != []) && (part != [] ==> entry.bytes == size(part))
    ensures Weighed(index, disk, size)
  {
  }

  lemma WroteOneMore(was: map<Key, Entry>, mid: map<Key, Entry>, index: map<Key, Entry>, dataset: string,
                     symbol: string, gaps: seq<Part>, j: nat, reached: int)
    requires j < |gaps| && PartsOk(gaps) && Wrote(was, mid, dataset, [symbol], gaps[..j], reached)
    requires var k := Key(dataset, symbol, gaps[j].start);
             && k in index && index[k].through == Min(gaps[j].end, reached) && index.Keys == mid.Keys + {k}
             && forall other :: other in mid && other != k ==> other in index && index[other] == mid[other]
    ensures Wrote(was, index, dataset, [symbol], gaps[..j + 1], reached)
  {
    hide PartsOk, Touched;
    var done, more := gaps[..j], gaps[..j + 1];
    assert more == done + [gaps[j]];
    OwnStart(gaps, j);
    forall s, p | s in [symbol] && p in more
      ensures Key(dataset, s, p.start) in index && index[Key(dataset, s, p.start)].through == Min(p.end, reached)
    {
      assert p in done || p == gaps[j];
    }
    forall k | k in index && !Touched(dataset, [symbol], more, k) ensures k in was && index[k] == was[k] {
      MoreTouched(dataset, symbol, done, gaps[j], k);
    }
  }

  lemma OwnStart(gaps: seq<Part>, j: nat)
    requires PartsOk(gaps) && j < |gaps|
    ensures forall p :: p in gaps[..j] ==> p.start != gaps[j].start
  {
  }

  lemma MoreTouched(dataset: string, symbol: string, done: seq<Part>, p: Part, k: Key)
    ensures Touched(dataset, [symbol], done, k) || k == Key(dataset, symbol, p.start) ==>
              Touched(dataset, [symbol], done + [p], k)
  {
    assert p in done + [p];
  }

  lemma WroteSymbols(was: map<Key, Entry>, mid: map<Key, Entry>, index: map<Key, Entry>, dataset: string,
                     symbols: seq<string>, symbol: string, gaps: seq<Part>, reached: int)
    requires Wrote(was, mid, dataset, symbols, gaps, reached) && Wrote(mid, index, dataset, [symbol], gaps, reached)
    ensures Wrote(was, index, dataset, symbols + [symbol], gaps, reached)
  {
    assert symbol in [symbol];
    forall s, p | s in symbols + [symbol] && p in gaps
      ensures Key(dataset, s, p.start) in index && index[Key(dataset, s, p.start)].through == Min(p.end, reached)
    {
      var k := Key(dataset, s, p.start);
      if s != symbol {
        assert s in symbols;
        assert !Touched(dataset, [symbol], gaps, k);
      }
    }
  }

  method WriteSymbol(ghost archive: Archive, index0: map<Key, Entry>, disk0: map<Key, seq<Row>>, dataset: string,
                     symbol: string, gaps: seq<Part>, rows: seq<Row>, reached: int, now: int, size: seq<Row> -> nat)
      returns (index: map<Key, Entry>, disk: map<Key, seq<Row>>)
    requires AllFaithful(archive, index0, disk0) && PartsOk(gaps)
    requires forall p :: p in gaps ==>
               var through := Min(p.end, reached);
               Between(Cut(rows, symbol, p), p.start, through) == Between(archive(dataset, symbol), p.start, through)
    ensures AllFaithful(archive, index, disk) && Wrote(index0, index, dataset, [symbol], gaps, reached)
    ensures Beside(dataset, [symbol], gaps, index0, disk0, index, disk)
    ensures Weighed(index0, disk0, size) ==> Weighed(index, disk, size)
  {
    hide AllFaithful, Wrote, Beside, Touched, Weighed;
    index, disk := index0, disk0;
    NothingBeside(dataset, [symbol], gaps, index0, disk0);
    assert Wrote(index0, index, dataset, [symbol], gaps[..0], reached) by {
      NothingWritten(index0, dataset, [symbol], reached);
    }
    for j := 0 to |gaps|
      invariant AllFaithful(archive, index, disk) && Wrote(index0, index, dataset, [symbol], gaps[..j], reached)
      invariant Weighed(index0, disk0, size) ==> Weighed(index, disk, size)
      invariant Beside(dataset, [symbol], gaps, index0, disk0, index, disk)
    {
      var p := gaps[j];
      ghost var mid, files := index, disk;
      var k, through := Key(dataset, symbol, p.start), Min(p.end, reached);
      index, disk := WriteOne(archive, index, disk, k, Cut(rows, symbol, p), through, now, size);
      assert forall other :: other in mid && other != k ==> SameAt(mid, files, index, disk, other);
      WroteOneMore(index0, mid, index, dataset, symbol, gaps, j, reached);
      BesideOne(dataset, symbol, p, mid, files, index, disk);
      BesideOn(dataset, [symbol], gaps, index0, disk0, mid, files, index, disk, [symbol], [p]);
    }
    assert gaps[..|gaps|] == gaps;
  }

  lemma BesideOne(dataset: string, symbol: string, p: Part, index0: map<Key, Entry>, disk0: map<Key, seq<Row>>,
                  index: map<Key, Entry>, disk: map<Key, seq<Row>>)
    requires forall k :: k != Key(dataset, symbol, p.start) ==> SameAt(index0, disk0, index, disk, k)
    ensures Beside(dataset, [symbol], [p], index0, disk0, index, disk)
  {
    forall k | k == Key(dataset, symbol, p.start) ensures Touched(dataset, [symbol], [p], k) {
      assert p in [p];
    }
  }

  lemma NothingWritten(index: map<Key, Entry>, dataset: string, symbols: seq<string>, reached: int)
    ensures Wrote(index, index, dataset, symbols, [], reached)
    ensures Wrote(index, index, dataset, [], [], reached)
  {
  }

  lemma NoSymbolWritten(index: map<Key, Entry>, dataset: string, gaps: seq<Part>, reached: int)
    ensures Wrote(index, index, dataset, [], gaps, reached)
  {
  }

  /** _write: what one fetch brought, for its symbols and the gaps they share. */
  method Write(ghost archive: Archive, index0: map<Key, Entry>, disk0: map<Key, seq<Row>>, dataset: string,
               symbols: seq<string>, gaps: seq<Part>, ghost fetch: Fetch, rows: seq<Row>, reached: int, now: int,
               size: seq<Row> -> nat)
      returns (index: map<Key, Entry>, disk: map<Key, seq<Row>>)
    requires AllFaithful(archive, index0, disk0) && PartsOk(gaps) && gaps != []
    requires FetchedOk(archive, dataset, fetch, symbols, gaps[0].start, gaps[|gaps| - 1].end)
    requires (rows, reached) == fetch(symbols, gaps[0].start, gaps[|gaps| - 1].end)
    ensures AllFaithful(archive, index, disk) && Wrote(index0, index, dataset, symbols, gaps, reached)
    ensures Beside(dataset, symbols, gaps, index0, disk0, index, disk)
    ensures Weighed(index0, disk0, size) ==> Weighed(index, disk, size)
  {
    hide AllFaithful, Wrote, Beside, Weighed;
    index, disk := index0, disk0;
    NothingBeside(dataset, symbols, gaps, index0, disk0);
    assert Wrote(index0, index, dataset, symbols[..0], gaps, reached) by {
      NoSymbolWritten(index0, dataset, gaps, reached);
    }
    for i := 0 to |symbols|
      invariant AllFaithful(archive, index, disk) && Wrote(index0, index, dataset, symbols[..i], gaps, reached)
      invariant Weighed(index0, disk0, size) ==> Weighed(index, disk, size)
      invariant Beside(dataset, symbols, gaps, index0, disk0, index, disk)
    {
      forall p | p in gaps
        ensures var through := Min(p.end, reached);
                Between(Cut(rows, symbols[i], p), p.start, through)
                == Between(archive(dataset, symbols[i]), p.start, through)
      {
        InSpan(gaps, p);
        var lo, hi, through := gaps[0].start, gaps[|gaps| - 1].end, Min(p.end, reached);
        WrittenIsFaithful(archive, dataset, fetch, symbols, lo, hi, symbols[i], p, through);
      }
      ghost var mid, files := index, disk;
      index, disk := WriteSymbol(archive, index, disk, dataset, symbols[i], gaps, rows, reached, now, size);
      BesideOn(dataset, symbols, gaps, index0, disk0, mid, files, index, disk, [symbols[i]], gaps);
      WroteSymbols(index0, mid, index, dataset, symbols[..i], symbols[i], gaps, reached);
      assert symbols[..i + 1] == symbols[..i] + [symbols[i]];
    }
    assert symbols[..|symbols|] == symbols;
  }

  // ---------------------------------------------------------------------------------------------- trim

  function Bytes(index: map<Key, Entry>, keys: seq<Key>): nat {
    if keys == [] then 0
    else
      var last := keys[|keys| - 1];
      Bytes(index, keys[..|keys| - 1]) + if last in index then index[last].bytes else 0
  }

  ghost predicate Distinct(keys: seq<Key>) {
    forall i, j :: 0 <= i < j < |keys| ==> keys[i] != keys[j]
  }

  ghost predicate Ordered(index: map<Key, Entry>, keys: seq<Key>) {
    && (forall i :: 0 <= i < |keys| ==> keys[i] in index)
    && (forall i, j :: 0 <= i < j < |keys| ==> index[keys[i]].lastRead <= index[keys[j]].lastRead)
  }

  /** Every partition on disk, once, the least recently read first. */
  ghost predicate IsListing(index: map<Key, Entry>, keys: seq<Key>) {
    && (forall k :: k in keys <==> k in index && index[k].onDisk)
    && Distinct(keys)
    && Ordered(index, keys)
  }

  function Without(keys: seq<Key>, gone: set<Key>): seq<Key> {
    if keys == [] then []
    else Without(keys[..|keys| - 1], gone) + if keys[|keys| - 1] in gone then [] else [keys[|keys| - 1]]
  }

  lemma {:induction false} WithoutMembers(keys: seq<Key>, gone: set<Key>, k: Key)
    ensures k in Without(keys, gone) <==> k in keys && k !in gone
  {
    if keys != [] {
      WithoutMembers(keys[..|keys| - 1], gone, k);
      assert keys == keys[..|keys| - 1] + [keys[|keys| - 1]];
    }
  }

  /** One more partition gone takes its bytes off. */
  lemma {:induction false} BytesWithout(index: map<Key, Entry>, keys: seq<Key>, gone: set<Key>, k: Key)
    requires k in index && k !in gone && Distinct(keys)
    ensures Bytes(index, Without(keys, gone))
            == Bytes(index, Without(keys, gone + {k})) + if k in keys then index[k].bytes else 0
  {
    hide Bytes, Without;
    if keys == [] {
      WithoutNone(gone);
      WithoutNone(gone + {k});
    } else {
      var front, last := keys[..|keys| - 1], keys[|keys| - 1];
      FrontDistinct(keys);
      BytesWithout(index, front, gone, k);
      WithoutSnoc(keys, gone);
      WithoutSnoc(keys, gone + {k});
      BytesSnoc(index, Without(front, gone), last);
      BytesSnoc(index, Without(front, gone + {k}), last);
    }
  }

  lemma FrontDistinct(keys: seq<Key>)
    requires keys != [] && Distinct(keys)
    ensures var front, last := keys[..|keys| - 1], keys[|keys| - 1];
            Distinct(front) && last !in front && forall k :: k in keys <==> k in front || k == last
  {
    var front := keys[..|keys| - 1];
    assert forall i :: 0 <= i < |front| ==> front[i] == keys[i];
    assert keys == front + [keys[|keys| - 1]];
  }

  lemma WithoutNone(gone: set<Key>)
    ensures Without([], gone) == []
  {
  }

  lemma WithoutSnoc(keys: seq<Key>, gone: set<Key>)
    requires keys != []
    ensures var front, last := keys[..|keys| - 1], keys[|keys| - 1];
            Without(keys, gone) == if last in gone then Without(front, gone) else Without(front, gone) + [last]
  {
    assert Without(keys[..|keys| - 1], gone) + [] == Without(keys[..|keys| - 1], gone);
  }

  lemma BytesSnoc(index: map<Key, Entry>, keys: seq<Key>, k: Key)
    ensures Bytes(index, keys + [k]) == Bytes(index, keys) + if k in index then index[k].bytes else 0
  {
    assert (keys + [k])[..|keys|] == keys;
  }

  lemma {:induction false} WithoutNothing(keys: seq<Key>)
    ensures Without(keys, {}) == keys
  {
    if keys != [] {
      WithoutNothing(keys[..|keys| - 1]);
    }
  }

  /** Nothing goes of a cache that fits, and without the last partition to go the rest would not fit. */
  ghost predicate StopsAtOnce(index: map<Key, Entry>, listing: seq<Key>, gone: set<Key>, cap: nat) {
    && (Bytes(index, listing) <= cap ==> gone == {})
    && (gone != {} ==> exists last :: LastNeeded(index, listing, gone, last, cap))
  }

  ghost predicate LastNeeded(index: map<Key, Entry>, listing: seq<Key>, gone: set<Key>, last: Key, cap: nat) {
    && last in gone && last in index && Bytes(index, Without(listing, gone - {last})) > cap
    && forall k :: k in gone ==> k in index && index[k].lastRead <= index[last].lastRead
  }

  lemma LastOut(index: map<Key, Entry>, listing: seq<Key>, gone: set<Key>, i: nat, cap: nat)
    requires IsListing(index, listing) && i < |listing| && listing[i] !in gone
    requires (forall k :: k in gone ==> k in listing[..i]) && Bytes(index, Without(listing, gone)) > cap
    ensures LastNeeded(index, listing, gone + {listing[i]}, listing[i], cap)
  {
    hide Bytes, Without;
    assert gone + {listing[i]} - {listing[i]} == gone;
  }

  lemma {:induction false} FewerBytes(index: map<Key, Entry>, keys: seq<Key>, gone: set<Key>)
    ensures Bytes(index, Without(keys, gone)) <= Bytes(index, keys)
  {
    if keys != [] {
      hide Bytes, Without;
      var front := keys[..|keys| - 1];
      FewerBytes(index, front, gone);
      WithoutSnoc(keys, gone);
      BytesSnoc(index, Without(front, gone), keys[|keys| - 1]);
      assert keys == front + [keys[|keys| - 1]];
      BytesSnoc(index, front, keys[|keys| - 1]);
    } else {
      WithoutNone(gone);
    }
  }

  /** Which partitions go: from the least recently read on, sparing keep, until the rest fits. */
  method Evicted(index: map<Key, Entry>, listing: seq<Key>, keep: set<Key>, cap: nat) returns (gone: set<Key>)
    requires IsListing(index, listing)
    ensures forall k :: k in gone ==> k in listing && k !in keep
    ensures Bytes(index, Without(listing, gone)) <= cap || forall k :: k in Without(listing, gone) ==> k in keep
    ensures forall a, b :: a in gone && b in Without(listing, gone) && b !in keep ==>
              a in index && b in index && index[a].lastRead <= index[b].lastRead
    ensures StopsAtOnce(index, listing, gone, cap)
  {
    hide Bytes, Without, LastNeeded;
    gone := {};
    var total := Bytes(index, listing);
    WithoutNothing(listing);
    for i := 0 to |listing|
      invariant total == Bytes(index, Without(listing, gone))
      invariant forall k :: k in gone <==> k in listing[..i] && k !in keep
      invariant StopsAtOnce(index, listing, gone, cap)
    {
      if total <= cap {
        Untried(index, listing, keep, gone, i);
        return;
      }
      var k := listing[i];
      assert listing[..i + 1] == listing[..i] + [k];
      assert k !in listing[..i];
      if k !in keep {
        BytesWithout(index, listing, gone, k);
        FewerBytes(index, listing, gone);
        LastOut(index, listing, gone, i, cap);
        gone := gone + {k};
        total := total - index[k].bytes;
      }
    }
    assert listing[..|listing|] == listing;
    Untried(index, listing, keep, gone, |listing|);
  }

  lemma InPrefix<T>(s: seq<T>, n: nat, y: nat)
    requires n <= |s| && y < |s|
    ensures y < n ==> s[y] in s[..n]
  {
    if y < n {
      assert s[..n][y] == s[y];
    }
  }

  lemma Untried(index: map<Key, Entry>, listing: seq<Key>, keep: set<Key>, gone: set<Key>, i: nat)
    requires IsListing(index, listing) && i <= |listing|
    requires forall k :: k in gone <==> k in listing[..i] && k !in keep
    ensures forall a, b :: a in gone && b in Without(listing, gone) && b !in keep ==>
              a in index && b in index && index[a].lastRead <= index[b].lastRead
    ensures i == |listing| ==> forall k :: k in Without(listing, gone) ==> k in keep
    ensures forall k :: k in gone ==> k in listing
  {
    forall b | b in Without(listing, gone) ensures b in listing && b !in gone {
      WithoutMembers(listing, gone, b);
    }
    forall a, b | a in gone && b in Without(listing, gone) && b !in keep
      ensures a in index && b in index && index[a].lastRead <= index[b].lastRead
    {
      var x :| 0 <= x < i && listing[x] == a;
      var y :| 0 <= y < |listing| && listing[y] == b;
      InPrefix(listing, i, y);
    }
    assert i == |listing| ==> listing[..i] == listing;
  }

  // ---------------------------------------------------------------------------------------------- scan

  /** What is complete stays so, and only a part needed from the epoch on is new to the index. */
  ghost predicate Kept(was: map<Key, Entry>, index: map<Key, Entry>, dataset: string, symbol: string, p: Part,
                       need: int) {
    && (CompleteFor(was, dataset, symbol, p, need) ==> CompleteFor(index, dataset, symbol, p, need))
    && (Key(dataset, symbol, p.start) in index ==> Key(dataset, symbol, p.start) in was || Min(p.end, need) >= 0)
  }

  ghost predicate Keeps(was: map<Key, Entry>, index: map<Key, Entry>, dataset: string, parts: seq<Part>, need: int) {
    was.Keys <= index.Keys && forall s, p :: p in parts ==> Kept(was, index, dataset, s, p, need)
  }

  /** Every part of these symbols is complete enough. */
  ghost predicate Full(index: map<Key, Entry>, dataset: string, symbols: seq<string>, parts: seq<Part>, need: int) {
    forall s, p :: s in symbols && p in parts ==> CompleteFor(index, dataset, s, p, need)
  }

  lemma KeepsOn(was: map<Key, Entry>, mid: map<Key, Entry>, index: map<Key, Entry>, dataset: string,
                symbols: seq<string>, parts: seq<Part>, need: int)
    requires Keeps(was, mid, dataset, parts, need) && Keeps(mid, index, dataset, parts, need)
    ensures Keeps(was, index, dataset, parts, need)
    ensures Full(mid, dataset, symbols, parts, need) ==> Full(index, dataset, symbols, parts, need)
  {
    hide CompleteFor;
    forall s, p | p in parts ensures Kept(was, index, dataset, s, p, need) {
      assert Kept(was, mid, dataset, s, p, need) && Kept(mid, index, dataset, s, p, need);
    }
    if Full(mid, dataset, symbols, parts, need) {
      forall s, p | s in symbols && p in parts ensures CompleteFor(index, dataset, s, p, need) {
        assert Kept(mid, index, dataset, s, p, need);
      }
    }
  }

  lemma FullConcat(index: map<Key, Entry>, dataset: string, a: seq<string>, b: seq<string>, parts: seq<Part>, need: int)
    requires Full(index, dataset, a, parts, need) && Full(index, dataset, b, parts, need)
    ensures Full(index, dataset, a + b, parts, need)
  {
  }

  /** Writing the shared gaps of some symbols completes them, given that what they had is still there. */
  lemma ChunkCompletes(was: map<Key, Entry>, mid: map<Key, Entry>, index: map<Key, Entry>, dataset: string,
                       symbols: seq<string>, gaps: seq<Part>, reached: int, parts: seq<Part>, need: int)
    requires PartsOk(parts) && Keeps(was, mid, dataset, parts, need)
    requires gaps != [] && PartsOk(gaps) && reached >= Min(gaps[|gaps| - 1].end, need)
    requires forall s :: s in symbols ==> Gaps(was, dataset, s, parts, need) == gaps
    requires forall q :: q in gaps ==> q in parts
    requires Wrote(mid, index, dataset, symbols, gaps, reached)
    ensures Keeps(mid, index, dataset, parts, need) && Full(index, dataset, symbols, parts, need)
  {
    hide CompleteFor;
    assert mid.Keys <= index.Keys;
    hide Wrote;
    forall q | q in gaps ensures Min(q.end, reached) >= Min(q.end, need) { InSpan(gaps, q); }
    forall s, p | p in parts ensures Kept(mid, index, dataset, s, p, need) {
      WroteCompletes(mid, index, dataset, symbols, gaps, reached, parts, need, s, p);
      GapsFromTheEpoch(was, dataset, s, parts, need, p);
    }
    forall s, p | s in symbols && p in parts ensures CompleteFor(index, dataset, s, p, need) {
      WroteCompletes(mid, index, dataset, symbols, gaps, reached, parts, need, s, p);
      GapOrComplete(was, dataset, s, parts, need, p);
      assert Kept(was, mid, dataset, s, p, need);
    }
  }

  lemma GapsFromTheEpoch(index: map<Key, Entry>, dataset: string, symbol: string, parts: seq<Part>, need: int, p: Part)
    ensures p in Gaps(index, dataset, symbol, parts, need) && Key(dataset, symbol, p.start) !in index ==>
              Min(p.end, need) >= 0
  {
    GapsAreStale(index, dataset, symbol, parts, need, p);
  }

  lemma GapOrComplete(index: map<Key, Entry>, dataset: string, symbol: string, parts: seq<Part>, need: int, p: Part)
    requires p in parts
    ensures p in Gaps(index, dataset, symbol, parts, need) || CompleteFor(index, dataset, symbol, p, need)
  {
    GapsAreStale(index, dataset, symbol, parts, need, p);
  }

  lemma GapsArePartsInOrder(index: map<Key, Entry>, dataset: string, symbol: string, parts: seq<Part>, need: int)
    requires PartsOk(parts)
    ensures PartsOk(Gaps(index, dataset, symbol, parts, need))
    ensures forall q :: q in Gaps(index, dataset, symbol, parts, need) ==> q in parts
  {
    GapsInOrder(index, dataset, symbol, parts, need);
    forall q | q in Gaps(index, dataset, symbol, parts, need) ensures q in parts {
      GapsAreStale(index, dataset, symbol, parts, need, q);
    }
  }

  /** One call of fetch. */
  datatype Span = Span(symbols: seq<string>, lo: int, hi: int)

  /** A span is fetched for at most a chunk of symbols, from the first part each of them lacks to the last. */
  ghost predicate SpanOk(f: Span, index: map<Key, Entry>, dataset: string, parts: seq<Part>, need: int, chunk: nat) {
    && 0 < |f.symbols| <= chunk
    && forall s :: s in f.symbols ==>
         var gaps := Gaps(index, dataset, s, parts, need);
         gaps != [] && f.lo == gaps[0].start && f.hi == gaps[|gaps| - 1].end
  }

  ghost predicate SpansOk(spans: seq<Span>, index: map<Key, Entry>, dataset: string, parts: seq<Part>, need: int,
                          chunk: nat) {
    forall k :: 0 <= k < |spans| ==> SpanOk(spans[k], index, dataset, parts, need, chunk)
  }

  /** The symbols fetched, each as often as it was. */
  ghost function Fetched(spans: seq<Span>): multiset<string> {
    if spans == [] then multiset{} else Fetched(spans[..|spans| - 1]) + multiset(spans[|spans| - 1].symbols)
  }

  lemma {:induction false} FetchedConcat(a: seq<Span>, b: seq<Span>)
    ensures Fetched(a + b) == Fetched(a) + Fetched(b)
  {
    if b == [] {
      NoSpan();
      assert a + b == a;
    } else {
      hide Fetched;
      var front, last := b[..|b| - 1], b[|b| - 1];
      FetchedConcat(a, front);
      assert front + [last] == b && a + front + [last] == a + b;
      OneSpan(front, last);
      OneSpan(a + front, last);
      Regrouped(Fetched(a), Fetched(front), multiset(last.symbols));
    }
  }

  lemma Regrouped(a: multiset<string>, b: multiset<string>, c: multiset<string>)
    ensures (a + b) + c == a + (b + c)
  {
  }

  lemma OneSpan(spans: seq<Span>, f: Span)
    ensures Fetched(spans + [f]) == Fetched(spans) + multiset(f.symbols)
  {
    assert (spans + [f])[..|spans|] == spans;
  }

  /** The chunks of one group: each is fetched over the span of the gaps and written. */
  method FillGroup(ghost archive: Archive, ghost was: map<Key, Entry>, index0: map<Key, Entry>,
                   disk0: map<Key, seq<Row>>, dataset: string, group: Group, ghost parts: seq<Part>, ghost need: int,
                   fetch: Fetch, chunk: nat, now: int, size: seq<Row> -> nat)
      returns (index: map<Key, Entry>, disk: map<Key, seq<Row>>, spans: seq<Span>)
    requires AllFaithful(archive, index0, disk0) && PartsOk(parts) && chunk > 0
    requires FetchOk(archive, dataset, fetch) && (parts != [] ==> Reaches(fetch, parts[0].start, need))
    requires GroupOk(group, was, dataset, parts, need) && Keeps(was, index0, dataset, parts, need)
    ensures AllFaithful(archive, index, disk) && Beside(dataset, group.symbols, parts, index0, disk0, index, disk)
    ensures Keeps(index0, index, dataset, parts, need) && Full(index, dataset, group.symbols, parts, need)
    ensures SpansOk(spans, was, dataset, parts, need, chunk) && Fetched(spans) == multiset(group.symbols)
    ensures Weighed(index0, disk0, size) ==> Weighed(index, disk, size)
  {
    hide Weighed, AllFaithful, Keeps, Full, CompleteFor, Beside, Fetched, SpanOk, SpansOk;
    NoSpanYet(was, dataset, parts, need, chunk);
    GapsArePartsInOrder(was, dataset, group.symbols[0], parts, need);
    var gaps := group.gaps;
    InSpan(parts, gaps[0]);
    index, disk, spans := index0, disk0, [];
    NothingBeside(dataset, group.symbols, parts, index0, disk0);
    assert Keeps(index0, index, dataset, parts, need) && Full(index, dataset, group.symbols[..0], parts, need) by {
      NothingKept(index0, dataset, parts, need);
    }
    assert Fetched([]) == multiset{} by { NoSpan(); }
    var i: nat := 0;
    while i < |group.symbols|
      invariant i <= |group.symbols|
      invariant AllFaithful(archive, index, disk) && Keeps(index0, index, dataset, parts, need)
      invariant Full(index, dataset, group.symbols[..i], parts, need)
      invariant Weighed(index0, disk0, size) ==> Weighed(index, disk, size)
      invariant Beside(dataset, group.symbols, parts, index0, disk0, index, disk)
      invariant SpansOk(spans, was, dataset, parts, need, chunk) && Fetched(spans) == multiset(group.symbols[..i])
    {
      var end := if i + chunk < |group.symbols| then i + chunk else |group.symbols|;
      var symbols := group.symbols[i..end];
      var (rows, reached) := fetch(symbols, gaps[0].start, gaps[|gaps| - 1].end);
      ghost var mid, files := index, disk;
      assert FetchedOk(archive, dataset, fetch, symbols, gaps[0].start, gaps[|gaps| - 1].end);
      index, disk := Write(archive, index, disk, dataset, symbols, gaps, fetch, rows, reached, now, size);
      KeepsOn(was, index0, mid, dataset, [], parts, need);
      ChunkCompletes(was, mid, index, dataset, symbols, gaps, reached, parts, need);
      KeepsOn(index0, mid, index, dataset, group.symbols[..i], parts, need);
      FullConcat(index, dataset, group.symbols[..i], symbols, parts, need);
      BesideOn(dataset, group.symbols, parts, index0, disk0, mid, files, index, disk, symbols, gaps);
      assert group.symbols[..end] == group.symbols[..i] + symbols;
      i := end;
      var span := Span(symbols, gaps[0].start, gaps[|gaps| - 1].end);
      SpanIsOk(span, was, dataset, group, parts, need, chunk);
      SpanAdded(spans, span, was, dataset, parts, need, chunk);
      spans := spans + [span];
    }
    assert group.symbols[..i] == group.symbols;
  }

  lemma SpanIsOk(f: Span, index: map<Key, Entry>, dataset: string, group: Group, parts: seq<Part>, need: int,
                 chunk: nat)
    requires GroupOk(group, index, dataset, parts, need) && 0 < |f.symbols| <= chunk
    requires forall s :: s in f.symbols ==> s in group.symbols
    requires f.lo == group.gaps[0].start && f.hi == group.gaps[|group.gaps| - 1].end
    ensures SpanOk(f, index, dataset, parts, need, chunk)
  {
  }

  lemma SpanAdded(spans: seq<Span>, f: Span, index: map<Key, Entry>, dataset: string, parts: seq<Part>, need: int,
                  chunk: nat)
    requires SpansOk(spans, index, dataset, parts, need, chunk) && SpanOk(f, index, dataset, parts, need, chunk)
    ensures SpansOk(spans + [f], index, dataset, parts, need, chunk)
    ensures Fetched(spans + [f]) == Fetched(spans) + multiset(f.symbols)
  {
    hide SpanOk;
    OneSpan(spans, f);
  }

  lemma NoSpanYet(index: map<Key, Entry>, dataset: string, parts: seq<Part>, need: int, chunk: nat)
    ensures SpansOk([], index, dataset, parts, need, chunk)
  {
  }

  lemma NoSpan()
    ensures Fetched([]) == multiset{}
  {
  }

  lemma NothingKept(index: map<Key, Entry>, dataset: string, parts: seq<Part>, need: int)
    ensures Keeps(index, index, dataset, parts, need) && Full(index, dataset, [], parts, need)
  {
  }

  ghost predicate GroupsFull(index: map<Key, Entry>, dataset: string, groups: seq<Group>, n: nat, parts: seq<Part>,
                             need: int) {
    n <= |groups| && forall g :: 0 <= g < n ==> Full(index, dataset, groups[g].symbols, parts, need)
  }

  /** With every group done, every symbol asked for is. */
  lemma AllFull(was: map<Key, Entry>, index: map<Key, Entry>, dataset: string, symbols: seq<string>, groups: seq<Group>,
                parts: seq<Part>, need: int)
    requires Keeps(was, index, dataset, parts, need) && GroupsFull(index, dataset, groups, |groups|, parts, need)
    requires forall s :: s in symbols && Gaps(was, dataset, s, parts, need) != [] ==> InGroup(groups, s)
    ensures Full(index, dataset, symbols, parts, need)
  {
    hide CompleteFor;
    forall s, p | s in symbols && p in parts ensures CompleteFor(index, dataset, s, p, need) {
      GapOrComplete(was, dataset, s, parts, need, p);
      assert Kept(was, index, dataset, s, p, need);
      if p in Gaps(was, dataset, s, parts, need) {
        var g :| 0 <= g < |groups| && s in groups[g].symbols;
        assert Full(index, dataset, groups[g].symbols, parts, need);
      }
    }
  }

  lemma NoGapsWhenFull(index: map<Key, Entry>, dataset: string, symbols: seq<string>, parts: seq<Part>, need: int)
    requires Full(index, dataset, symbols, parts, need)
    ensures forall s :: s in symbols ==> Gaps(index, dataset, s, parts, need) == []
  {
    forall s | s in symbols ensures Gaps(index, dataset, s, parts, need) == [] {
      if Gaps(index, dataset, s, parts, need) != [] {
        GapsAreStale(index, dataset, s, parts, need, Gaps(index, dataset, s, parts, need)[0]);
      }
    }
  }

  /** The fetching half of scan: each symbol that lacks a part is fetched once for each time it is asked for, and
      no other. */
  method Fill(ghost archive: Archive, index0: map<Key, Entry>, disk0: map<Key, seq<Row>>, dataset: string,
              symbols: seq<string>, parts: seq<Part>, need: int, fetch: Fetch, chunk: nat, now: int,
              size: seq<Row> -> nat)
      returns (index: map<Key, Entry>, disk: map<Key, seq<Row>>, spans: seq<Span>)
    requires AllFaithful(archive, index0, disk0) && PartsOk(parts) && chunk > 0
    requires FetchOk(archive, dataset, fetch) && (parts != [] ==> Reaches(fetch, parts[0].start, need))
    ensures AllFaithful(archive, index, disk) && Full(index, dataset, symbols, parts, need)
    ensures Keeps(index0, index, dataset, parts, need) && Beside(dataset, symbols, parts, index0, disk0, index, disk)
    ensures SpansOk(spans, index0, dataset, parts, need, chunk)
    ensures Fetched(spans) == Lacking(index0, dataset, symbols, parts, need)
    ensures Full(index0, dataset, symbols, parts, need) ==> spans == [] && index == index0 && disk == disk0
    ensures Weighed(index0, disk0, size) ==> Weighed(index, disk, size)
  {
    hide Weighed, AllFaithful, Keeps, Full, CompleteFor, FetchOk, Reaches, Beside, Fetched, Grouped, Lacking, SpanOk;
    var groups := StaleGroups(index0, dataset, symbols, parts, need);
    if Full(index0, dataset, symbols, parts, need) {
      NoGapsWhenFull(index0, dataset, symbols, parts, need);
    }
    index, disk, spans := index0, disk0, [];
    NothingKept(index0, dataset, parts, need);
    NothingBeside(dataset, symbols, parts, index0, disk0);
    NoSpan();
    assert Grouped(groups[..0]) == multiset{} by { NoneGrouped(); }
    for g := 0 to |groups|
      invariant AllFaithful(archive, index, disk) && Keeps(index0, index, dataset, parts, need)
      invariant Beside(dataset, symbols, parts, index0, disk0, index, disk)
      invariant GroupsFull(index, dataset, groups, g, parts, need)
      invariant SpansOk(spans, index0, dataset, parts, need, chunk) && Fetched(spans) == Grouped(groups[..g])
      invariant groups == [] ==> spans == [] && index == index0 && disk == disk0
      invariant Weighed(index0, disk0, size) ==> Weighed(index, disk, size)
    {
      ghost var mid, files := index, disk;
      var more;
      assert GroupOk(groups[g], index0, dataset, parts, need);
      index, disk, more := FillGroup(archive, index0, index, disk, dataset, groups[g], parts, need, fetch, chunk,
          now, size);
      FetchedConcat(spans, more);
      NextGroup(groups, g);
      spans := spans + more;
      GroupIsAsked(index0, dataset, symbols, parts, need, groups, g);
      BesideOn(dataset, symbols, parts, index0, disk0, mid, files, index, disk, groups[g].symbols, parts);
      KeepsOn(index0, mid, index, dataset, [], parts, need);
      forall h | 0 <= h < g ensures Full(index, dataset, groups[h].symbols, parts, need) {
        assert Full(mid, dataset, groups[h].symbols, parts, need);
        KeepsOn(index0, mid, index, dataset, groups[h].symbols, parts, need);
      }
    }
    assert groups[..|groups|] == groups;
    AllFull(index0, index, dataset, symbols, groups, parts, need);
  }

  lemma NextGroup(groups: seq<Group>, g: nat)
    requires g < |groups|
    ensures Grouped(groups[..g + 1]) == Grouped(groups[..g]) + multiset(groups[g].symbols)
  {
    assert groups[..g + 1][..g] == groups[..g];
  }

  lemma {:induction false} InGrouped(groups: seq<Group>, g: nat, s: string)
    requires g < |groups| && s in groups[g].symbols
    ensures s in Grouped(groups)
  {
    if g < |groups| - 1 {
      InGrouped(groups[..|groups| - 1], g, s);
    }
  }

  lemma {:induction false} LackingAsked(index: map<Key, Entry>, dataset: string, symbols: seq<string>,
                                        parts: seq<Part>, need: int, s: string)
    requires s in Lacking(index, dataset, symbols, parts, need)
    ensures s in symbols
  {
    if symbols != [] {
      if s != symbols[|symbols| - 1] {
        LackingAsked(index, dataset, symbols[..|symbols| - 1], parts, need, s);
      }
    }
  }

  lemma GroupIsAsked(index: map<Key, Entry>, dataset: string, symbols: seq<string>, parts: seq<Part>, need: int,
                     groups: seq<Group>, g: nat)
    requires g < |groups| && Grouped(groups) == Lacking(index, dataset, symbols, parts, need)
    ensures forall s :: s in groups[g].symbols ==> s in symbols
  {
    hide Grouped, Lacking;
    forall s | s in groups[g].symbols ensures s in symbols {
      InGrouped(groups, g, s);
      LackingAsked(index, dataset, symbols, parts, need, s);
    }
  }

  /** The partitions asked for that are on disk, and the index with their reading noted. */
  method Read(index0: map<Key, Entry>, dataset: string, symbols: seq<string>, parts: seq<Part>, now: int)
      returns (index: map<Key, Entry>, read: set<Key>)
    ensures forall k :: k in read <==> k in index0 && index0[k].onDisk && Asked(dataset, symbols, parts, k)
    ensures index.Keys == index0.Keys
    ensures forall k :: k in index ==> index[k] == if k in read then index0[k].(lastRead := now) else index0[k]
  {
    read := set k | k in index0 && index0[k].onDisk && Asked(dataset, symbols, parts, k);
    index := map k | k in index0 :: if k in read then index0[k].(lastRead := now) else index0[k];
  }

  predicate Asked(dataset: string, symbols: seq<string>, parts: seq<Part>, k: Key) {
    k.dataset == dataset && k.symbol in symbols && exists i :: 0 <= i < |parts| && parts[i].start == k.start
  }

  /** The order the index gives its partitions on disk: least recently read first. */
  method Listing(index: map<Key, Entry>) returns (keys: seq<Key>)
    ensures IsListing(index, keys)
  {
    keys := [];
    var left := set k | k in index && index[k].onDisk;
    while left != {}
      invariant forall k :: k in keys <==> k in index && index[k].onDisk && k !in left
      invariant forall k :: k in left ==> k in index && index[k].onDisk
      invariant Distinct(keys)
      invariant Ordered(index, keys)
      decreases |left|
    {
      var k: Key :| k in left;
      keys := Insert(index, keys, k);
      left := left - {k};
    }
  }

  method Insert(index: map<Key, Entry>, keys: seq<Key>, k: Key) returns (r: seq<Key>)
    requires Ordered(index, keys) && k in index && k !in keys
    requires Distinct(keys)
    ensures Ordered(index, r) && Distinct(r)
    ensures forall x :: x in r <==> x in keys || x == k
  {
    hide Distinct;
    var at := 0;
    while at < |keys| && index[keys[at]].lastRead <= index[k].lastRead
      invariant at <= |keys| && forall i :: 0 <= i < at ==> index[keys[i]].lastRead <= index[k].lastRead
    {
      at := at + 1;
    }
    r := keys[..at] + [k] + keys[at..];
    InsertedInOrder(index, keys, k, at);
  }

  lemma Inserted(keys: seq<Key>, k: Key, at: nat)
    requires at <= |keys|
    ensures var r := keys[..at] + [k] + keys[at..];
            && (forall i :: 0 <= i < |r| ==> r[i] == if i < at then keys[i] else if i == at then k else keys[i - 1])
            && (forall x :: x in r <==> x in keys || x == k)
  {
    var r := keys[..at] + [k] + keys[at..];
    assert keys == keys[..at] + keys[at..];
  }

  lemma InsertedInOrder(index: map<Key, Entry>, keys: seq<Key>, k: Key, at: nat)
    requires Ordered(index, keys) && Distinct(keys) && k in index && k !in keys && at <= |keys|
    requires forall i :: 0 <= i < at ==> index[keys[i]].lastRead <= index[k].lastRead
    requires at == |keys| || index[k].lastRead <= index[keys[at]].lastRead
    ensures var r := keys[..at] + [k] + keys[at..];
            Ordered(index, r) && Distinct(r) && forall x :: x in r <==> x in keys || x == k
  {
    Inserted(keys, k, at);
    var r := keys[..at] + [k] + keys[at..];
    forall i, j | 0 <= i < j < |r| ensures r[i] != r[j] {
      assert i < at ==> r[i] == keys[i];
    }
  }

  /** The cache fits, or holds on disk only what it was asked to spare. */
  ghost predicate Trimmed(index: map<Key, Entry>, keep: set<Key>, cap: nat) {
    exists listing ::
      IsListing(index, listing) && (Bytes(index, listing) <= cap || forall k :: k in listing ==> k in keep)
  }

  /** Trimming went no further than it had to. */
  ghost predicate JustTrimmed(index: map<Key, Entry>, gone: set<Key>, cap: nat) {
    exists listing :: IsListing(index, listing) && StopsAtOnce(index, listing, gone, cap)
  }

  /** trim: what was spared or has no file stays in the index as it is, and no more goes than has to. */
  method Trim(ghost archive: Archive, index0: map<Key, Entry>, disk0: map<Key, seq<Row>>, keep: set<Key>, cap: nat)
      returns (index: map<Key, Entry>, disk: map<Key, seq<Row>>, gone: set<Key>)
    requires AllFaithful(archive, index0, disk0)
    ensures AllFaithful(archive, index, disk) && Trimmed(index, keep, cap) && JustTrimmed(index0, gone, cap)
    ensures forall k :: k in gone ==> k in index0 && index0[k].onDisk && k !in keep
    ensures index == index0 - gone && disk == disk0 - gone
    ensures forall a, b :: a in gone && b in index && index[b].onDisk && b !in keep ==>
              index0[a].lastRead <= index[b].lastRead
  {
    hide Bytes, Without, StopsAtOnce;
    var listing := Listing(index0);
    gone := Evicted(index0, listing, keep, cap);
    index, disk := index0 - gone, disk0 - gone;
    forall k | k in index ensures Faithful(archive, index, disk, k) {
      assert Faithful(archive, index0, disk0, k);
    }
    ListingLeft(index0, listing, gone);
    forall k ensures k in Without(listing, gone) <==> k in listing && k !in gone { WithoutMembers(listing, gone, k); }
  }

  lemma {:induction false} BytesSame(index: map<Key, Entry>, other: map<Key, Entry>, keys: seq<Key>)
    requires forall k :: k in keys ==> k in index && k in other && index[k] == other[k]
    ensures Bytes(index, keys) == Bytes(other, keys)
  {
    if keys != [] {
      assert forall k :: k in keys[..|keys| - 1] ==> k in keys;
      BytesSame(index, other, keys[..|keys| - 1]);
    }
  }

  lemma {:induction false} WithoutInOrder(index: map<Key, Entry>, keys: seq<Key>, gone: set<Key>)
    requires Ordered(index, keys) && Distinct(keys)
    ensures Ordered(index, Without(keys, gone))
    ensures Distinct(Without(keys, gone))
  {
    if keys != [] {
      var front, last := keys[..|keys| - 1], keys[|keys| - 1];
      assert forall i :: 0 <= i < |front| ==> front[i] == keys[i];
      WithoutInOrder(index, front, gone);
      var r := Without(front, gone);
      forall i | 0 <= i < |r| ensures r[i] != last && index[r[i]].lastRead <= index[last].lastRead {
        WithoutMembers(front, gone, r[i]);
      }
      OneMoreInOrder(index, r, last);
    }
  }

  lemma OneMoreInOrder(index: map<Key, Entry>, keys: seq<Key>, last: Key)
    requires Ordered(index, keys) && Distinct(keys) && last in index
    requires forall i :: 0 <= i < |keys| ==> keys[i] != last && index[keys[i]].lastRead <= index[last].lastRead
    ensures Ordered(index, keys + [last]) && Distinct(keys + [last])
  {
  }

  /** The listing without what is gone lists what is left. */
  lemma ListingLeft(index: map<Key, Entry>, listing: seq<Key>, gone: set<Key>)
    requires IsListing(index, listing)
    ensures IsListing(index - gone, Without(listing, gone))
    ensures Bytes(index - gone, Without(listing, gone)) == Bytes(index, Without(listing, gone))
  {
    hide Bytes, Without;
    var left := Without(listing, gone);
    forall k ensures k in left <==> k in listing && k !in gone { WithoutMembers(listing, gone, k); }
    WithoutInOrder(index, listing, gone);
    BytesSame(index - gone, index, left);
  }

  /** Of every part asked for, all that is needed can be read as the archive has it, exactly when the part was
      known before, or is needed from the epoch on, or nothing is needed of it. */
  ghost predicate ReadableExactly(archive: Archive, was: map<Key, Entry>, index: map<Key, Entry>,
                                  disk: map<Key, seq<Row>>, dataset: string, symbols: seq<string>, parts: seq<Part>,
                                  need: int) {
    forall s, p :: s in symbols && p in parts ==>
      (AsArchived(archive, index, disk, dataset, s, p, need)
       <==> Key(dataset, s, p.start) in was || Min(p.end, need) >= 0 || Needed(archive, dataset, s, p, need) == [])
  }

  lemma FullIsReadable(archive: Archive, was: map<Key, Entry>, filled: map<Key, Entry>, index: map<Key, Entry>,
                       disk: map<Key, seq<Row>>, dataset: string, symbols: seq<string>, parts: seq<Part>, need: int)
    requires AllFaithful(archive, index, disk) && Full(index, dataset, symbols, parts, need)
    requires Keeps(was, filled, dataset, parts, need) && SameAsked(filled, index, dataset, symbols, parts)
    ensures ReadableExactly(archive, was, index, disk, dataset, symbols, parts, need)
  {
    hide AllFaithful, AsArchived, Needed, CompleteFor;
    forall s, p | s in symbols && p in parts
      ensures AsArchived(archive, index, disk, dataset, s, p, need)
              <==> || Key(dataset, s, p.start) in was
                   || Min(p.end, need) >= 0
                   || Needed(archive, dataset, s, p, need) == []
    {
      CompleteIsReadable(archive, index, disk, dataset, s, p, need);
      assert Kept(was, filled, dataset, s, p, need);
    }
  }

  /** The same parts of these symbols are in both. */
  ghost predicate SameAsked(was: map<Key, Entry>, index: map<Key, Entry>, dataset: string, symbols: seq<string>,
                            parts: seq<Part>) {
    forall s, p :: s in symbols && p in parts ==>
      (Key(dataset, s, p.start) in index <==> Key(dataset, s, p.start) in was)
  }

  /** Reading and sparing what was read keeps it complete. */
  lemma SparedStaysFull(was: map<Key, Entry>, noted: map<Key, Entry>, read: set<Key>, gone: set<Key>, dataset: string,
                        symbols: seq<string>, parts: seq<Part>, need: int)
    requires Full(was, dataset, symbols, parts, need) && noted.Keys == was.Keys
    requires forall k :: k in noted ==> noted[k].through == was[k].through && noted[k].onDisk == was[k].onDisk
    requires forall k :: k in read <==> k in was && was[k].onDisk && Asked(dataset, symbols, parts, k)
    requires forall k :: k in gone ==> k in noted && noted[k].onDisk && k !in read
    ensures Full(noted - gone, dataset, symbols, parts, need)
    ensures SameAsked(was, noted - gone, dataset, symbols, parts)
  {
    forall s, p | s in symbols && p in parts
      ensures CompleteFor(noted - gone, dataset, s, p, need)
      ensures Key(dataset, s, p.start) in noted - gone <==> Key(dataset, s, p.start) in was
    {
      var k := Key(dataset, s, p.start);
      assert CompleteFor(was, dataset, s, p, need);
      assert Asked(dataset, symbols, parts, k) by {
        var i :| 0 <= i < |parts| && parts[i] == p;
        assert parts[i].start == k.start;
      }
    }
  }

  /** Noting what is read is beside every part not asked for. */
  lemma NotedBeside(dataset: string, symbols: seq<string>, parts: seq<Part>, index0: map<Key, Entry>,
                    disk0: map<Key, seq<Row>>, filled: map<Key, Entry>, noted: map<Key, Entry>,
                    files: map<Key, seq<Row>>)
    requires Beside(dataset, symbols, parts, index0, disk0, filled, files) && noted.Keys == filled.Keys
    requires forall k :: k in noted && !Asked(dataset, symbols, parts, k) ==> noted[k] == filled[k]
    ensures Beside(dataset, symbols, parts, index0, disk0, noted, files)
  {
    forall k | !Touched(dataset, symbols, parts, k) ensures SameAt(index0, disk0, noted, files, k) {
      assert SameAt(index0, disk0, filled, files, k);
      assert !Asked(dataset, symbols, parts, k);
    }
  }

  lemma NotingKeepsFaithful(archive: Archive, was: map<Key, Entry>, noted: map<Key, Entry>, disk: map<Key, seq<Row>>)
    requires AllFaithful(archive, was, disk) && noted.Keys == was.Keys
    requires forall k :: k in noted ==> exists t :: noted[k] == was[k].(lastRead := t)
    ensures AllFaithful(archive, noted, disk)
  {
    forall k | k in noted ensures Faithful(archive, noted, disk, k) {
      assert Faithful(archive, was, disk, k);
    }
  }

  lemma StillWeighed(filled: map<Key, Entry>, noted: map<Key, Entry>, disk: map<Key, seq<Row>>, gone: set<Key>,
                     size: seq<Row> -> nat)
    requires Weighed(filled, disk, size) && noted.Keys == filled.Keys
    requires forall k :: k in noted ==> noted[k].onDisk == filled[k].onDisk && noted[k].bytes == filled[k].bytes
    ensures Weighed(noted - gone, disk - gone, size)
  {
  }

  class Cache {
    ghost const archive: Archive
    const maxBytes: nat
    const size: seq<Row> -> nat           // what rows weigh as a file
    var index: map<Key, Entry>
    var disk: map<Key, seq<Row>>

    ghost predicate Valid()
      reads this
    {
      AllFaithful(archive, index, disk) && Weighed(index, disk, size)
    }

    constructor (ghost archive: Archive, maxBytes: nat, size: seq<Row> -> nat)
      ensures Valid() && this.archive == archive && this.maxBytes == maxBytes && this.size == size
    {
      this.archive, this.maxBytes, this.size := archive, maxBytes, size;
      index, disk := map[], map[];
    }

    /** Fetches each symbol that lacks a part once for each time it is asked for, and no other, from the first
        part it lacks to the last; what is read is then the archive's, all of it below need, but for parts from
        before the epoch that were not there before. In noted and files the cache is as it was but for the
        parts asked for; it is then trimmed no further than it has to be, sparing what is read. */
    method Scan(dataset: string, symbols: seq<string>, parts: seq<Part>, need: int, fetch: Fetch, chunk: nat, now: int)
        returns (read: set<Key>, spans: seq<Span>, gone: set<Key>, ghost noted: map<Key, Entry>,
                 ghost files: map<Key, seq<Row>>)
      requires Valid() && PartsOk(parts) && chunk > 0
      requires FetchOk(archive, dataset, fetch) && (parts != [] ==> Reaches(fetch, parts[0].start, need))
      modifies this
      ensures Valid() && Full(index, dataset, symbols, parts, need)
      ensures ReadableExactly(archive, old(index), index, disk, dataset, symbols, parts, need)
      ensures forall k :: k in read <==> k in index && index[k].onDisk && Asked(dataset, symbols, parts, k)
      ensures SpansOk(spans, old(index), dataset, parts, need, chunk)
      ensures Fetched(spans) == Lacking(old(index), dataset, symbols, parts, need)
      ensures Full(old(index), dataset, symbols, parts, need) ==> spans == []
      ensures Beside(dataset, symbols, parts, old(index), old(disk), noted, files)
      ensures index == noted - gone && disk == files - gone && gone !! read
      ensures forall k :: k in read ==> index[k].lastRead == now
      ensures Trimmed(index, read, maxBytes) && JustTrimmed(noted, gone, maxBytes)
    {
      hide AllFaithful, Full, Trimmed, CompleteFor, FetchOk, Reaches, PartsOk, Asked, Keeps, SameAsked;
      hide ReadableExactly, SpansOk, Fetched, Lacking, Beside, JustTrimmed, Weighed;
      index, disk, spans := Fill(archive, index, disk, dataset, symbols, parts, need, fetch, chunk, now, size);
      ghost var filled := index;
      index, read := Read(index, dataset, symbols, parts, now);
      noted, files := index, disk;
      NotedBeside(dataset, symbols, parts, old(index), old(disk), filled, noted, files);
      assert AllFaithful(archive, index, disk) by {
        assert forall k :: k in noted ==> noted[k] == filled[k].(lastRead := noted[k].lastRead);
        NotingKeepsFaithful(archive, filled, noted, disk);
      }
      index, disk, gone := Trim(archive, index, disk, read, maxBytes);
      assert Weighed(index, disk, size) by { StillWeighed(filled, noted, files, gone, size); }
      SparedStaysFull(filled, noted, read, gone, dataset, symbols, parts, need);
      FullIsReadable(archive, old(index), filled, index, disk, dataset, symbols, parts, need);
    }

    /** The same call straight after fetches nothing. */
    method ScanTwice(dataset: string, symbols: seq<string>, parts: seq<Part>, need: int, fetch: Fetch, chunk: nat,
                     now: int, later: int)
        returns (again: seq<Span>)
      requires Valid() && PartsOk(parts) && chunk > 0
      requires FetchOk(archive, dataset, fetch) && (parts != [] ==> Reaches(fetch, parts[0].start, need))
      modifies this
      ensures Valid() && again == []
    {
      var read, spans, gone;
      ghost var noted, files;
      read, spans, gone, noted, files := Scan(dataset, symbols, parts, need, fetch, chunk, now);
      read, again, gone, noted, files := Scan(dataset, symbols, parts, need, fetch, chunk, later);
    }
  }

  // ---------------------------------------------------------------------------------------------- plan

  datatype Cadence = Daily | Monthly | Both

  datatype Window = Window(monthly: bool, lo: int, hi: int)

  /** The windows fetched over [start, end), and the time the result is complete through. */
  function Plan(cadence: Cadence, start: int, end: int, dailyEnd: int, monthlyEnd: int): (seq<Window>, int) {
    if cadence.Daily? then
      var hi := Min(end, dailyEnd);
      (if start < hi then [Window(false, start, hi)] else [], Max(start, hi))
    else
      var monthHi := Min(end, monthlyEnd);
      var windows := if start < monthHi then [Window(true, start, monthHi)] else [];
      if cadence.Monthly? then (windows, Max(start, monthHi))
      else
        var dayLo, dayHi := Max(start, monthHi), Min(end, dailyEnd);
        (if dayLo < dayHi then windows + [Window(false, dayLo, dayHi)] else windows, Max(start, dayHi))
  }

  /** The windows leave no gap and do not overlap: they run from start to the time reported. Published
      months end no later than published days, as horizon has it. */
  lemma PlanCovers(cadence: Cadence, start: int, end: int, dailyEnd: int, monthlyEnd: int)
    requires monthlyEnd <= dailyEnd
    ensures var (windows, through) := Plan(cadence, start, end, dailyEnd, monthlyEnd);
            && (windows == [] <==> through == start)
            && (windows != [] ==> windows[0].lo == start && windows[|windows| - 1].hi == through)
            && (forall i :: 0 <= i < |windows| ==>
                windows[i].lo < windows[i].hi <= (if windows[i].monthly then monthlyEnd else dailyEnd))
            && (forall i :: 0 < i < |windows| ==> windows[i - 1].hi == windows[i].lo)
            && (start <= end ==> start <= through <= end)
  {
  }

  ghost predicate Planned(windows: seq<Window>, t: int, monthly: bool) {
    exists k :: 0 <= k < |windows| && windows[k].monthly == monthly && windows[k].lo <= t < windows[k].hi
  }

  /** A plan takes from the monthly files every time of the span they are published for, from the daily files exactly
      the published times past those, and is complete through the last published time of the span. */
  lemma PlanFetches(cadence: Cadence, start: int, end: int, dailyEnd: int, monthlyEnd: int, t: int)
    requires monthlyEnd <= dailyEnd
    ensures var (windows, through) := Plan(cadence, start, end, dailyEnd, monthlyEnd);
            && (Planned(windows, t, true) <==> !cadence.Daily? && start <= t < end && t < monthlyEnd)
            && (Planned(windows, t, false) <==>
                start <= t < end && t < dailyEnd && (cadence.Daily? || (cadence.Both? && monthlyEnd <= t)))
            && (start <= t < through <==> start <= t < end && t < if cadence.Monthly? then monthlyEnd else dailyEnd)
            && start <= through
  {
    var windows := Plan(cadence, start, end, dailyEnd, monthlyEnd).0;
    if !cadence.Daily? && start <= t < end && t < monthlyEnd { assert windows[0].monthly; }
    if start <= t < end && t < dailyEnd && (cadence.Daily? || (cadence.Both? && monthlyEnd <= t)) {
      assert !windows[|windows| - 1].monthly;
    }
  }

  /** What is needed of a request is what planning the whole of it reports, and planning any span from
      its first part on reaches it: the promise the cache relies on. */
  lemma PlanReaches(cadence: Cadence, first: int, hi: int, lo: int, end: int, dailyEnd: int, monthlyEnd: int)
    requires first <= lo
    ensures var need := Plan(cadence, first, hi, dailyEnd, monthlyEnd).1;
            Plan(cadence, lo, end, dailyEnd, monthlyEnd).1 >= Min(end, need)
  {
  }
}
