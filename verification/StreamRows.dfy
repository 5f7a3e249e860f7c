/** BinanceHistoricalStream's row loop: files read in plan order, cut into rows, rows grouped into
    blocks, blocks parsed into events, and every row accounted for. */
module StreamRows {
  import opened Ring
  import opened Lines
  import CsvField

  /** What a fetch left in its slot. */
  datatype File = Failed | Body(text: string)

  datatype Event<+P> = Event(ts: int, id: Option<nat>, payload: P)

  /** A parser and whether it takes several rows at once. */
  datatype Parser<!P> = Parser(parse: string -> Option<Event<P>>, grouped: bool)

  predicate IsHeader(row: string) {
    row == [] || !CsvField.IsDigit(row[0])
  }

  /** Text before the first comma. */
  function Leading(row: string): (key: string)
    ensures key <= row
  {
    if row == [] || row[0] == ',' then [] else [row[0]] + Leading(row[1..])
  }

  /** key is what the row holds before its first comma, or all of it. */
  ghost predicate BeforeComma(row: string, key: string) {
    key <= row && ',' !in key && (|key| < |row| ==> row[|key|] == ',')
  }

  lemma {:induction false} LeadingOf(field: string, rest: string)
    requires ',' !in field && (rest == [] || rest[0] == ',')
    ensures Leading(field + rest) == field
  {
    if field == [] {
      assert field + rest == rest;
    } else {
      LeadingOf(field[1..], rest);
      assert (field + rest)[1..] == field[1..] + rest;
    }
  }

  lemma {:induction false} LeadingHasNoComma(row: string)
    ensures BeforeComma(row, Leading(row))
  {
    if row != [] && row[0] != ',' {
      LeadingHasNoComma(row[1..]);
    }
  }

  /** Leading gives exactly the text before the first comma. */
  lemma LeadingExactly(row: string, key: string)
    ensures Leading(row) == key <==> BeforeComma(row, key)
  {
    LeadingHasNoComma(row);
    if BeforeComma(row, key) {
      assert row == key + row[|key|..];
      LeadingOf(key, row[|key|..]);
    }
  }

  /** The rows have the same text before their first comma. */
  ghost predicate SameField(a: string, b: string) {
    exists key :: BeforeComma(a, key) && BeforeComma(b, key)
  }

  lemma SameFieldExactly(a: string, b: string)
    ensures SameField(a, b) <==> Leading(a) == Leading(b)
  {
    LeadingHasNoComma(a);
    LeadingHasNoComma(b);
    if key :| BeforeComma(a, key) && BeforeComma(b, key) {
      LeadingExactly(a, key);
      LeadingExactly(b, key);
    }
  }

  /** The first n rows are the longest run of rows with the first one's text before the first comma. */
  ghost predicate LongestRun(rows: seq<string>, n: nat) {
    && 0 < n <= |rows|
    && (forall k :: 0 <= k < n ==> SameField(rows[0], rows[k]))
    && (n < |rows| ==> !SameField(rows[0], rows[n]))
  }

  /** How many of the next rows share this leading field. */
  function SameKey(text: string, key: string): nat
    decreases |text|
  {
    if text == [] || Leading(FirstRow(text)) != key then 0 else 1 + SameKey(AfterRow(text), key)
  }

  /** The text after its first n rows. */
  function Skip(text: string, n: nat): (rest: string)
    ensures |rest| <= |text| && (n > 0 && text != [] ==> |rest| < |text|)
    decreases |text|
  {
    if n == 0 || text == [] then text else Skip(AfterRow(text), n - 1)
  }

  /** From the start of the text to the end of its n-th row, without that row's carriage return. */
  function BlockEnd(text: string, n: nat): (end: nat)
    ensures end <= |text|
    decreases |text|
  {
    if n == 0 || text == [] then 0
    else if n == 1 || LineEnd(text) == |text| then |FirstRow(text)|
    else LineEnd(text) + 1 + BlockEnd(AfterRow(text), n - 1)
  }

  function Used(text: string, grouped: bool): (n: nat)
    requires text != []
    ensures n > 0
  {
    if grouped then 1 + SameKey(AfterRow(text), Leading(FirstRow(text))) else 1
  }

  function Block(text: string, grouped: bool): string
    requires text != []
  {
    text[..BlockEnd(text, Used(text, grouped))]
  }

  lemma {:induction false} SkipDropsRows(text: string, n: nat)
    requires n <= |Rows(text)|
    ensures Rows(Skip(text, n)) == Rows(text)[n..]
    decreases |text|
  {
    if n > 0 {
      SkipDropsRows(AfterRow(text), n - 1);
      assert Rows(text) == [FirstRow(text)] + Rows(AfterRow(text));
      hide Rows, FirstRow, AfterRow;
      Dropped(FirstRow(text), Rows(AfterRow(text)), n);
    }
  }

  lemma Dropped<T>(first: T, rest: seq<T>, n: nat)
    requires 0 < n <= |rest| + 1
    ensures ([first] + rest)[n..] == rest[n - 1..]
  {
  }

  lemma {:induction false} SkipOneMore(text: string, n: nat)
    ensures Skip(text, n + 1) == if Skip(text, n) == [] then [] else AfterRow(Skip(text, n))
    decreases |text|
  {
    if n > 0 && text != [] {
      SkipOneMore(AfterRow(text), n - 1);
    }
  }

  lemma {:induction false} SameKeyRows(text: string, key: string)
    ensures SameKey(text, key) <= |Rows(text)|
    ensures forall k :: 0 <= k < SameKey(text, key) ==> Leading(Rows(text)[k]) == key
    decreases |text|
  {
    if text != [] && Leading(FirstRow(text)) == key {
      SameKeyRows(AfterRow(text), key);
      assert Rows(text)[1..] == Rows(AfterRow(text));
    }
  }

  lemma {:induction false} SameKeyIsLongest(text: string, key: string)
    ensures SameKey(text, key) <= |Rows(text)|
    ensures SameKey(text, key) < |Rows(text)| ==> Leading(Rows(text)[SameKey(text, key)]) != key
    decreases |text|
  {
    if text != [] && Leading(FirstRow(text)) == key {
      SameKeyIsLongest(AfterRow(text), key);
      assert Rows(text)[1..] == Rows(AfterRow(text));
    }
  }

  lemma UsedIsLongestRun(text: string)
    requires text != []
    ensures LongestRun(Rows(text), Used(text, true))
  {
    var rows, rest, n := Rows(text), Rows(AfterRow(text)), Used(text, true);
    var key := Leading(FirstRow(text));
    assert rows == [FirstRow(text)] + rest;
    SameKeyRows(AfterRow(text), key);
    SameKeyIsLongest(AfterRow(text), key);
    forall k | 0 <= k < n ensures SameField(rows[0], rows[k]) {
      if k > 0 { assert rows[k] == rest[k - 1]; }
      SameFieldExactly(rows[0], rows[k]);
    }
    if n < |rows| {
      assert rows[n] == rest[n - 1];
      SameFieldExactly(rows[0], rows[n]);
    }
  }

  lemma UsedRows(text: string, grouped: bool)
    requires text != [] && !IsHeader(FirstRow(text))
    ensures Used(text, grouped) <= |Rows(text)|
    ensures forall k :: 0 <= k < Used(text, grouped) ==> Rows(text)[k] != []
  {
    var key := Leading(FirstRow(text));
    SameKeyRows(AfterRow(text), key);
    assert Rows(text)[0] == FirstRow(text);
    assert key != [];
    forall k | 0 < k < Used(text, grouped) ensures Rows(text)[k] != [] {
      assert Rows(text)[k] == Rows(AfterRow(text))[k - 1];
    }
  }

  /** back is the first n of rows, the last of them stripped once more. */
  ghost predicate SplitBack(back: seq<string>, rows: seq<string>, n: nat) {
    && 0 < n <= |rows| && |back| == n
    && (forall k :: 0 <= k < n - 1 ==> back[k] == rows[k])
    && back[n - 1] == Strip(rows[n - 1])
  }

  lemma BlockOfMore(text: string, n: nat)
    requires text != [] && n > 1 && LineEnd(text) < |text|
    ensures text[..BlockEnd(text, n)]
            == text[..LineEnd(text)] + "\n" + AfterRow(text)[..BlockEnd(AfterRow(text), n - 1)]
  {
    var end, m := LineEnd(text), BlockEnd(AfterRow(text), n - 1);
    assert BlockEnd(text, n) == end + 1 + m;
    CutAround(text, end, m);
  }

  lemma CutAround<T>(s: seq<T>, at: nat, more: nat)
    requires at + 1 + more <= |s|
    ensures s[..at + 1 + more] == s[..at] + [s[at]] + s[at + 1..][..more]
  {
  }

  lemma OneRow(text: string)
    requires text != [] && FirstRow(text) != []
    ensures text[..|FirstRow(text)|] == FirstRow(text) && '\n' !in FirstRow(text)
    ensures Rows(FirstRow(text)) == [Strip(FirstRow(text))]
  {
    LastRow(FirstRow(text));
  }

  lemma OneMoreRow(row: string, back: seq<string>, rows: seq<string>, n: nat)
    requires SplitBack(back, rows, n)
    ensures SplitBack([row] + back, [row] + rows, n + 1)
  {
  }

  lemma BlockOfOne(text: string)
    requires text != [] && FirstRow(text) != []
    ensures SplitBack(Rows(text[..BlockEnd(text, 1)]), Rows(text), 1)
  {
    OneRow(text);
    assert Rows(text)[0] == FirstRow(text);
  }

  lemma BlockOneLonger(text: string, n: nat)
    requires text != [] && n > 1 && LineEnd(text) < |text|
    requires SplitBack(Rows(AfterRow(text)[..BlockEnd(AfterRow(text), n - 1)]), Rows(AfterRow(text)), n - 1)
    ensures SplitBack(Rows(text[..BlockEnd(text, n)]), Rows(text), n)
  {
    var row, rest := FirstRow(text), AfterRow(text);
    assert Rows(text) == [row] + Rows(rest) && row == Strip(text[..LineEnd(text)]);
    hide Rows, FirstRow, AfterRow, BlockEnd, SplitBack, Strip;
    BlockOfMore(text, n);
    RowThenRest(text[..LineEnd(text)], rest[..BlockEnd(rest, n - 1)]);
    OneMoreRow(row, Rows(rest[..BlockEnd(rest, n - 1)]), Rows(rest), n - 1);
  }

  lemma MoreThanOne(text: string)
    requires |Rows(text)| > 1
    ensures LineEnd(text) < |text|
  {
    assert Rows(AfterRow(text)) != [];
  }

  lemma RowsFirst(text: string)
    requires Rows(text) != []
    ensures text != [] && Rows(text) == [FirstRow(text)] + Rows(AfterRow(text))
  {
  }

  lemma LaterRows(text: string, n: nat)
    requires 1 < n <= |Rows(text)| && forall k :: 0 <= k < n ==> Rows(text)[k] != []
    ensures n - 1 <= |Rows(AfterRow(text))| && LineEnd(text) < |text|
    ensures forall k :: 0 <= k < n - 1 ==> Rows(AfterRow(text))[k] != []
  {
    hide Rows, FirstRow, AfterRow;
    var rest := AfterRow(text);
    MoreThanOne(text);
    RowsFirst(text);
    forall k | 0 <= k < n - 1 ensures Rows(rest)[k] != [] { assert Rows(text)[k + 1] == Rows(rest)[k]; }
  }

  /** A block splits back into exactly the rows it was made of, but for a second carriage return at its
      very end. */
  lemma {:induction false} BlockSplitsBack(text: string, n: nat)
    requires 0 < n <= |Rows(text)| && forall k :: 0 <= k < n ==> Rows(text)[k] != []
    ensures SplitBack(Rows(text[..BlockEnd(text, n)]), Rows(text), n)
    decreases |text|
  {
    hide Rows, FirstRow, AfterRow, BlockEnd, SplitBack;
    RowsFirst(text);
    assert Rows(text)[0] == FirstRow(text);
    if n == 1 {
      BlockOfOne(text);
    } else {
      LaterRows(text, n);
      BlockSplitsBack(AfterRow(text), n - 1);
      BlockOneLonger(text, n);
    }
  }

  lemma SameRowsExactly(back: seq<string>, rows: seq<string>, n: nat)
    requires SplitBack(back, rows, n)
    ensures back == rows[..n] <==> Strip(rows[n - 1]) == rows[n - 1]
  {
    if back == rows[..n] {
      assert back[n - 1] == rows[..n][n - 1];
    }
  }

  /** The block the stream hands to a parser has as many rows as the stream counts for it, and they are
      the very rows exactly when no second carriage return is left at the end of the last. */
  lemma BlockHasUsedRows(text: string, grouped: bool)
    requires text != [] && !IsHeader(FirstRow(text))
    ensures Used(text, grouped) <= |Rows(text)|
    ensures |Rows(Block(text, grouped))| == Used(text, grouped)
    ensures Rows(Block(text, grouped)) == Rows(text)[..Used(text, grouped)]
            <==> Strip(Rows(text)[Used(text, grouped) - 1]) == Rows(text)[Used(text, grouped) - 1]
  {
    UsedRows(text, grouped);
    BlockSplitsBack(text, Used(text, grouped));
    SameRowsExactly(Rows(Block(text, grouped)), Rows(text), Used(text, grouped));
  }

  /** Such a text: its one row keeps a carriage return, which the block of that row has lost once split. */
  lemma SecondReturnIsLost(grouped: bool)
    ensures Rows("1\r\r") == ["1\r"] && Used("1\r\r", grouped) == 1
    ensures Block("1\r\r", grouped) == "1\r" && Rows("1\r") == ["1"]
  {
    LastRow("1\r\r");
    LastRow("1\r");
    assert FirstRow("1\r\r") == Rows("1\r\r")[0];
    assert AfterRow("1\r\r") == [] by { assert |Rows(AfterRow("1\r\r"))| == 0; }
    assert "1\r\r"[..2] == "1\r" && "1\r"[..1] == "1";
  }

  // --------------------------------------------------------------- what a text holds, row for row

  datatype Tally = Tally(blank: nat, header: nat, rejected: nat, parsed: nat) {
    function Plus(other: Tally): Tally {
      Tally(blank + other.blank, header + other.header, rejected + other.rejected, parsed + other.parsed)
    }

    function Total(): nat {
      blank + header + rejected + parsed
    }
  }

  function Nothing(): Tally {
    Tally(0, 0, 0, 0)
  }

  /** What the front of a text counts as, and the event it gives. */
  function Front<P>(p: Parser<P>, text: string): (Tally, seq<Event<P>>)
    requires text != []
  {
    var row := FirstRow(text);
    if row == [] then (Nothing().(blank := 1), [])
    else if IsHeader(row) then (Nothing().(header := 1), [])
    else
      var event := (p.parse)(Block(text, p.grouped));
      if event.None? then (Nothing().(rejected := Used(text, p.grouped)), [])
      else (Nothing().(parsed := Used(text, p.grouped)), [event.value])
  }

  function AfterFront<P>(p: Parser<P>, text: string): (rest: string)
    requires text != []
    ensures |rest| < |text|
  {
    if IsHeader(FirstRow(text)) then AfterRow(text) else Skip(text, Used(text, p.grouped))
  }

  function Counted<P>(p: Parser<P>, text: string): Tally
    decreases |text|
  {
    if text == [] then Nothing() else Front(p, text).0.Plus(Counted(p, AfterFront(p, text)))
  }

  function Events<P>(p: Parser<P>, text: string): seq<Event<P>>
    decreases |text|
  {
    if text == [] then [] else Front(p, text).1 + Events(p, AfterFront(p, text))
  }

  lemma FrontRows<P>(p: Parser<P>, text: string)
    requires text != []
    ensures Front(p, text).0.Total() + |Rows(AfterFront(p, text))| == |Rows(text)|
  {
    if !IsHeader(FirstRow(text)) {
      UsedRows(text, p.grouped);
      SkipDropsRows(text, Used(text, p.grouped));
    }
  }

  /** Every row is counted once: blank, header, rejected or parsed. */
  lemma {:induction false} EveryRowCounted<P>(p: Parser<P>, text: string)
    ensures Counted(p, text).Total() == |Rows(text)|
    decreases |text|
  {
    hide Front, AfterFront;
    if text != [] {
      EveryRowCounted(p, AfterFront(p, text));
      FrontRows(p, text);
    }
  }

  // the same, from the rows alone

  datatype RowKind = BlankRow | HeaderRow | DataRow

  function KindOf(row: string): RowKind {
    if row == [] then BlankRow else if '0' <= row[0] <= '9' then DataRow else HeaderRow
  }

  function HowMany(rows: seq<string>, kind: RowKind): nat {
    if rows == [] then 0 else (if KindOf(rows[0]) == kind then 1 else 0) + HowMany(rows[1..], kind)
  }

  /** The data rows in order, cut into the longest runs of one leading field, or one by one. */
  ghost predicate RunsOf(runs: seq<seq<string>>, rows: seq<string>, grouped: bool)
    decreases |rows|
  {
    if rows == [] then runs == []
    else if KindOf(rows[0]) != DataRow then RunsOf(runs, rows[1..], grouped)
    else
      && runs != []
      && 0 < |runs[0]| <= |rows| && runs[0] == rows[..|runs[0]|]
      && (if grouped then LongestRun(rows, |runs[0]|) else |runs[0]| == 1)
      && RunsOf(runs[1..], rows[|runs[0]|..], grouped)
  }

  /** The text a parser gets for a run: the rows as they stand in the file, the last without its line end. */
  ghost predicate TextOfRun(block: string, run: seq<string>) {
    SplitBack(Rows(block), run, |run|) && (|run| == 1 ==> block == run[0])
  }

  function ParseEach<P>(parse: string -> Option<Event<P>>, blocks: seq<string>): seq<Event<P>> {
    if blocks == [] then []
    else (match parse(blocks[0]) case None => [] case Some(event) => [event]) + ParseEach(parse, blocks[1..])
  }

  /** Rows of the runs that parse, or of those that do not. */
  function RowsWhere<P>(parse: string -> Option<Event<P>>, blocks: seq<string>, runs: seq<seq<string>>,
                        parsed: bool): nat
    requires |blocks| == |runs|
  {
    if blocks == [] then 0
    else (if parse(blocks[0]).Some? == parsed then |runs[0]| else 0) + RowsWhere(parse, blocks[1..], runs[1..], parsed)
  }

  lemma {:induction false} HowManyOfMore(a: seq<string>, b: seq<string>, kind: RowKind)
    ensures HowMany(a + b, kind) == HowMany(a, kind) + HowMany(b, kind)
  {
    if a == [] {
      assert a + b == b;
    } else {
      HowManyOfMore(a[1..], b, kind);
      assert (a + b)[1..] == a[1..] + b;
    }
  }

  lemma {:induction false} OnlyData(rows: seq<string>)
    requires forall k :: 0 <= k < |rows| ==> KindOf(rows[k]) == DataRow
    ensures HowMany(rows, BlankRow) == HowMany(rows, HeaderRow) == 0
  {
    if rows != [] {
      OnlyData(rows[1..]);
    }
  }

  lemma KindIsHeader(row: string)
    ensures IsHeader(row) <==> KindOf(row) != DataRow
  {
  }

  /** A run that starts with a data row has no other rows. */
  lemma RunIsData(rows: seq<string>, n: nat)
    requires LongestRun(rows, n) && KindOf(rows[0]) == DataRow
    ensures forall k :: 0 <= k < n ==> KindOf(rows[k]) == DataRow
  {
    forall k | 0 <= k < n ensures KindOf(rows[k]) == DataRow {
      var key :| BeforeComma(rows[0], key) && BeforeComma(rows[k], key);
      assert key != [] && rows[k][0] == key[0] == rows[0][0];
    }
  }

  lemma SplitBackPrefix(back: seq<string>, rows: seq<string>, n: nat)
    requires SplitBack(back, rows, n)
    ensures SplitBack(back, rows[..n], n)
  {
  }

  lemma BlockOfOneRow(text: string, grouped: bool)
    requires text != [] && Used(text, grouped) == 1
    ensures Block(text, grouped) == FirstRow(text)
  {
  }

  lemma TextOfFirstRun(text: string, grouped: bool)
    requires text != [] && !IsHeader(FirstRow(text)) && 0 < Used(text, grouped) <= |Rows(text)|
    ensures TextOfRun(Block(text, grouped), Rows(text)[..Used(text, grouped)])
  {
    var n := Used(text, grouped);
    assert Rows(text)[0] == FirstRow(text);
    UsedRows(text, grouped);
    BlockSplitsBack(text, n);
    hide Rows, Used, FirstRow, AfterRow, SplitBack, BlockEnd;
    SplitBackPrefix(Rows(text[..BlockEnd(text, n)]), Rows(text), n);
    if n == 1 { BlockOfOneRow(text, grouped); }
  }

  /** The run a text begins with, and the text handed to the parser for it. */
  lemma FirstRun(text: string, grouped: bool) returns (run: seq<string>)
    requires text != [] && KindOf(FirstRow(text)) == DataRow
    ensures Rows(text) != [] && Rows(text)[0] == FirstRow(text)
    ensures |run| == Used(text, grouped) && 0 < |run| <= |Rows(text)| && run == Rows(text)[..|run|]
    ensures if grouped then LongestRun(Rows(text), |run|) else |run| == 1
    ensures TextOfRun(Block(text, grouped), run)
    ensures Rows(Skip(text, |run|)) == Rows(text)[|run|..]
    ensures HowMany(run, BlankRow) == HowMany(run, HeaderRow) == 0
  {
    assert Rows(text)[0] == FirstRow(text);
    var n := Used(text, grouped);
    assert grouped || n == 1;
    hide TextOfRun, Rows, FirstRow, AfterRow, Skip, LongestRun, Used, HowMany, Block;
    KindIsHeader(FirstRow(text));
    hide KindOf, IsHeader;
    UsedRows(text, grouped);
    TextOfFirstRun(text, grouped);
    SkipDropsRows(text, n);
    if grouped { UsedIsLongestRun(text); }
    RunHasOnlyData(Rows(text), n, grouped);
    run := Rows(text)[..n];
  }

  lemma RunHasOnlyData(rows: seq<string>, n: nat, grouped: bool)
    requires 0 < n <= |rows| && KindOf(rows[0]) == DataRow && if grouped then LongestRun(rows, n) else n == 1
    ensures HowMany(rows[..n], BlankRow) == HowMany(rows[..n], HeaderRow) == 0
  {
    if grouped { RunIsData(rows, n); }
    OnlyData(rows[..n]);
  }

  /** What a text gives, from its runs and the blocks handed to the parser for them. */
  ghost predicate GivesRuns<P(!new)>(p: Parser<P>, text: string, blocks: seq<string>, runs: seq<seq<string>>) {
    && RunsOf(runs, Rows(text), p.grouped)
    && TextsOfRuns(blocks, runs)
    && Events(p, text) == ParseEach(p.parse, blocks)
    && CountsRuns(Counted(p, text), p, Rows(text), blocks, runs)
  }

  ghost predicate TextsOfRuns(blocks: seq<string>, runs: seq<seq<string>>) {
    |blocks| == |runs| && forall k :: 0 <= k < |runs| ==> TextOfRun(blocks[k], runs[k])
  }

  /** Rows are counted by their kind, data rows by whether their run was taken. */
  ghost predicate CountsRuns<P(!new)>(tally: Tally, p: Parser<P>, rows: seq<string>, blocks: seq<string>,
                                      runs: seq<seq<string>>) {
    |blocks| == |runs| &&
    tally == Tally(HowMany(rows, BlankRow), HowMany(rows, HeaderRow),
                   RowsWhere(p.parse, blocks, runs, false), RowsWhere(p.parse, blocks, runs, true))
  }

  lemma RowSkipped<P(!new)>(p: Parser<P>, text: string, blocks: seq<string>, runs: seq<seq<string>>)
    requires text != [] && KindOf(FirstRow(text)) != DataRow && GivesRuns(p, AfterFront(p, text), blocks, runs)
    ensures GivesRuns(p, text, blocks, runs)
  {
    hide Skip, Used, Block, LongestRun, FirstRow, AfterRow, ParseEach, RowsWhere, TextsOfRuns;
    KindIsHeader(FirstRow(text));
    var rows := Rows(text);
    assert rows[0] == FirstRow(text) && rows[1..] == Rows(AfterRow(text));
  }

  lemma RunRows(rows: seq<string>, run: seq<string>)
    requires run <= rows && HowMany(run, BlankRow) == HowMany(run, HeaderRow) == 0
    ensures HowMany(rows, BlankRow) == HowMany(rows[|run|..], BlankRow)
    ensures HowMany(rows, HeaderRow) == HowMany(rows[|run|..], HeaderRow)
  {
    assert rows == run + rows[|run|..];
    HowManyOfMore(run, rows[|run|..], BlankRow);
    HowManyOfMore(run, rows[|run|..], HeaderRow);
  }

  lemma RunCounted<P(!new)>(p: Parser<P>, rows: seq<string>, block: string, run: seq<string>, tally: Tally,
                            blocks: seq<string>, runs: seq<seq<string>>)
    requires run <= rows && HowMany(run, BlankRow) == HowMany(run, HeaderRow) == 0
    requires CountsRuns(tally, p, rows[|run|..], blocks, runs)
    ensures CountsRuns(if (p.parse)(block).Some? then tally.(parsed := tally.parsed + |run|)
                       else tally.(rejected := tally.rejected + |run|), p, rows, [block] + blocks, [run] + runs)
  {
    hide HowMany;
    RunRows(rows, run);
    assert ([block] + blocks)[1..] == blocks && ([run] + runs)[1..] == runs;
  }

  lemma FrontOfRun<P(!new)>(p: Parser<P>, text: string)
    requires text != [] && KindOf(FirstRow(text)) == DataRow
    ensures AfterFront(p, text) == Skip(text, Used(text, p.grouped))
    ensures var rest, n := Counted(p, AfterFront(p, text)), Used(text, p.grouped);
            Counted(p, text) == if (p.parse)(Block(text, p.grouped)).Some? then rest.(parsed := rest.parsed + n)
                                else rest.(rejected := rest.rejected + n)
    ensures forall blocks :: Events(p, AfterFront(p, text)) == ParseEach(p.parse, blocks) ==>
                               Events(p, text) == ParseEach(p.parse, [Block(text, p.grouped)] + blocks)
  {
    hide Skip, Used, Block, FirstRow, AfterRow;
    KindIsHeader(FirstRow(text));
    forall blocks | Events(p, AfterFront(p, text)) == ParseEach(p.parse, blocks)
      ensures Events(p, text) == ParseEach(p.parse, [Block(text, p.grouped)] + blocks)
    {
      assert ([Block(text, p.grouped)] + blocks)[1..] == blocks;
    }
  }

  lemma RunCut(text: string, grouped: bool, run: seq<string>, runs: seq<seq<string>>)
    requires Rows(text) != [] && KindOf(Rows(text)[0]) == DataRow
    requires 0 < |run| <= |Rows(text)| && run == Rows(text)[..|run|]
    requires if grouped then LongestRun(Rows(text), |run|) else |run| == 1
    requires RunsOf(runs, Rows(text)[|run|..], grouped)
    ensures RunsOf([run] + runs, Rows(text), grouped)
  {
    hide LongestRun, Rows;
    assert ([run] + runs)[1..] == runs;
  }

  lemma OneTextMore(block: string, blocks: seq<string>, run: seq<string>, runs: seq<seq<string>>)
    requires TextOfRun(block, run) && TextsOfRuns(blocks, runs)
    ensures TextsOfRuns([block] + blocks, [run] + runs)
  {
    hide TextOfRun;
    forall k | 0 <= k < |runs| + 1 ensures TextOfRun(([block] + blocks)[k], ([run] + runs)[k]) {
      if k > 0 { assert TextOfRun(blocks[k - 1], runs[k - 1]); }
    }
  }

  lemma RunAdded<P(!new)>(p: Parser<P>, text: string, blocks: seq<string>, runs: seq<seq<string>>)
      returns (blocks': seq<string>, runs': seq<seq<string>>)
    requires text != [] && KindOf(FirstRow(text)) == DataRow && GivesRuns(p, AfterFront(p, text), blocks, runs)
    ensures GivesRuns(p, text, blocks', runs')
  {
    hide Skip, Used, Block, FirstRow, AfterRow, Rows, AfterFront, Front, Events, Counted, ParseEach, RowsWhere, HowMany;
    hide LongestRun, TextOfRun, TextsOfRuns, RunsOf, CountsRuns, KindOf;
    var run := FirstRun(text, p.grouped);
    FrontOfRun(p, text);
    RunCounted(p, Rows(text), Block(text, p.grouped), run, Counted(p, AfterFront(p, text)), blocks, runs);
    RunCut(text, p.grouped, run, runs);
    OneTextMore(Block(text, p.grouped), blocks, run, runs);
    blocks', runs' := [Block(text, p.grouped)] + blocks, [run] + runs;
  }

  /** What a text gives is what its runs give: its events are those of the runs the parser takes, in order, and its
      rows are counted by their kind, data rows by whether their run was taken. */
  lemma {:induction false} EventsOfRuns<P(!new)>(p: Parser<P>, text: string)
      returns (blocks: seq<string>, runs: seq<seq<string>>)
    ensures GivesRuns(p, text, blocks, runs)
    decreases |text|
  {
    if text == [] {
      blocks, runs := [], [];
    } else {
      hide GivesRuns;
      blocks, runs := EventsOfRuns(p, AfterFront(p, text));
      if KindOf(FirstRow(text)) != DataRow {
        RowSkipped(p, text, blocks, runs);
      } else {
        blocks, runs := RunAdded(p, text, blocks, runs);
      }
    }
  }

  function TextOf(f: File): string {
    if f.Failed? then [] else f.text
  }

  function CountedFrom<P>(p: Parser<P>, files: seq<File>, k: nat): Tally
    requires k <= |files|
    decreases |files| - k
  {
    if k == |files| then Nothing() else Counted(p, TextOf(files[k])).Plus(CountedFrom(p, files, k + 1))
  }

  function EventsFrom<P>(p: Parser<P>, files: seq<File>, k: nat): seq<Event<P>>
    requires k <= |files|
    decreases |files| - k
  {
    if k == |files| then [] else Events(p, TextOf(files[k])) + EventsFrom(p, files, k + 1)
  }

  function LinesUpTo(files: seq<File>, k: nat): nat
    requires k <= |files|
  {
    if k == 0 then 0 else LinesUpTo(files, k - 1) + |Rows(TextOf(files[k - 1]))|
  }

  function FailuresUpTo(files: seq<File>, k: nat): nat
    requires k <= |files|
  {
    if k == 0 then 0 else FailuresUpTo(files, k - 1) + if files[k - 1].Failed? then 1 else 0
  }

  // ------------------------------------------------------------------------------------ gap statistics

  function LastTs<P>(events: seq<Event<P>>): int {
    if events == [] then 0 else events[|events| - 1].ts
  }

  function Backwards<P>(events: seq<Event<P>>): nat {
    if events == [] then 0
    else
      var before := events[..|events| - 1];
      Backwards(before) + if events[|events| - 1].ts < LastTs(before) then 1 else 0
  }

  function Repeats<P>(events: seq<Event<P>>): nat {
    if events == [] then 0
    else
      var before := events[..|events| - 1];
      Repeats(before) + if before != [] && events[|events| - 1].ts == LastTs(before) then 1 else 0
  }

  /** The id of the last event that has one. */
  function LastId<P>(events: seq<Event<P>>): Option<nat> {
    if events == [] then None
    else if events[|events| - 1].id.Some? then events[|events| - 1].id
    else LastId(events[..|events| - 1])
  }

  function Gaps<P>(events: seq<Event<P>>): nat {
    if events == [] then 0
    else
      var before, last := events[..|events| - 1], events[|events| - 1];
      Gaps(before) + if last.id.Some? && LastId(before).Some? &&
          last.id.value != NextId(LastId(before).value) then 1 else 0
  }

  function NextId(id: nat): nat {
    (id + 1) % 0x1_0000_0000_0000_0000
  }

  /** The stamp is before the one before it, the first's before zero. */
  predicate IsBackward<P>(events: seq<Event<P>>, k: nat)
    requires k < |events|
  {
    events[k].ts < if k == 0 then 0 else events[k - 1].ts
  }

  predicate IsRepeat<P>(events: seq<Event<P>>, k: nat)
    requires k < |events|
  {
    k > 0 && events[k].ts == events[k - 1].ts
  }

  /** The last id before it, at j, is followed by another than this one's. */
  ghost predicate BreaksAfter<P(!new)>(events: seq<Event<P>>, j: int, k: nat)
    requires k < |events|
  {
    && 0 <= j < k && events[j].id.Some? && events[k].id.Some?
    && (forall i :: j < i < k ==> events[i].id.None?)
    && events[k].id.value != (events[j].id.value + 1) % 0x1_0000_0000_0000_0000
  }

  ghost predicate IsGap<P(!new)>(events: seq<Event<P>>, k: nat)
    requires k < |events|
  {
    exists j :: BreaksAfter(events, j, k)
  }

  ghost predicate LastIdAt<P(!new)>(events: seq<Event<P>>, j: int) {
    0 <= j < |events| && events[j].id.Some? && forall i :: j < i < |events| ==> events[i].id.None?
  }

  lemma {:induction false} LastIdIs<P(!new)>(events: seq<Event<P>>) returns (j: int)
    ensures if LastId(events).None? then forall i :: 0 <= i < |events| ==> events[i].id.None?
            else LastIdAt(events, j) && events[j].id == LastId(events)
  {
    j := |events| - 1;
    if events != [] && events[j].id.None? {
      var before := events[..j];
      assert forall i :: 0 <= i < |before| ==> before[i] == events[i];
      j := LastIdIs(before);
    }
  }

  lemma LastGaps<P(!new)>(events: seq<Event<P>>)
    requires events != []
    ensures var before, last := events[..|events| - 1], events[|events| - 1];
            IsGap(events, |events| - 1) <==>
              last.id.Some? && LastId(before).Some? && last.id.value != NextId(LastId(before).value)
  {
    hide LastId;
    var n := |events| - 1;
    var before := events[..n];
    var j := LastIdIs(before);
    assert forall i :: 0 <= i < n ==> before[i] == events[i];
    if LastId(before).Some? {
      assert BreaksAfter(events, j, n) <==>
               events[n].id.Some? && events[n].id.value != NextId(LastId(before).value);
      if m :| BreaksAfter(events, m, n) { assert m == j; }
    }
  }

  lemma SameBefore<P(!new)>(events: seq<Event<P>>, k: nat)
    requires k + 1 < |events|
    ensures var before := events[..|events| - 1];
            && (IsBackward(before, k) <==> IsBackward(events, k)) && (IsRepeat(before, k) <==> IsRepeat(events, k))
            && (IsGap(before, k) <==> IsGap(events, k))
  {
    var before := events[..|events| - 1];
    assert forall i :: 0 <= i <= k ==> before[i] == events[i];
    if j :| BreaksAfter(before, j, k) { assert BreaksAfter(events, j, k); }
    if j :| BreaksAfter(events, j, k) { assert BreaksAfter(before, j, k); }
  }

  ghost function BackwardOnes<P(!new)>(events: seq<Event<P>>): set<nat> {
    set k: nat | k < |events| && IsBackward(events, k)
  }

  ghost function RepeatOnes<P(!new)>(events: seq<Event<P>>): set<nat> {
    set k: nat | k < |events| && IsRepeat(events, k)
  }

  ghost function GapOnes<P(!new)>(events: seq<Event<P>>): set<nat> {
    set k: nat | k < |events| && IsGap(events, k)
  }

  lemma OneMoreMember(before: set<nat>, all: set<nat>, n: nat, member: bool)
    requires forall k: nat :: k in before ==> k < n
    requires forall k: nat :: k in all <==> k in before || (k == n && member)
    ensures |all| == |before| + if member then 1 else 0
  {
    assert all == before + if member then {n} else {};
  }

  lemma OnesOneMore<P(!new)>(events: seq<Event<P>>)
    requires events != []
    ensures var before, n := events[..|events| - 1], |events| - 1;
            && |BackwardOnes(events)| == |BackwardOnes(before)| + (if IsBackward(events, n) then 1 else 0)
            && |RepeatOnes(events)| == |RepeatOnes(before)| + (if IsRepeat(events, n) then 1 else 0)
            && |GapOnes(events)| == |GapOnes(before)| + (if IsGap(events, n) then 1 else 0)
  {
    hide IsBackward, IsRepeat, IsGap;
    var before, n := events[..|events| - 1], |events| - 1;
    forall k: nat | k < n
      ensures IsBackward(before, k) <==> IsBackward(events, k)
      ensures IsRepeat(before, k) <==> IsRepeat(events, k)
      ensures IsGap(before, k) <==> IsGap(events, k)
    {
      SameBefore(events, k);
    }
    OneMoreMember(BackwardOnes(before), BackwardOnes(events), n, IsBackward(events, n));
    OneMoreMember(RepeatOnes(before), RepeatOnes(events), n, IsRepeat(events, n));
    OneMoreMember(GapOnes(before), GapOnes(events), n, IsGap(events, n));
  }

  /** The statistics count the events that step back in time, repeat the stamp before them, or follow another id than
      the last before them. */
  lemma {:induction false} StatsAreCounts<P(!new)>(events: seq<Event<P>>)
    ensures Backwards(events) == |BackwardOnes(events)| && Repeats(events) == |RepeatOnes(events)|
    ensures Gaps(events) == |GapOnes(events)|
  {
    hide IsGap, LastId, GapOnes, BackwardOnes, RepeatOnes;
    if events == [] {
      NoOnes(events);
    } else {
      StatsAreCounts(events[..|events| - 1]);
      OnesOneMore(events);
      LastGaps(events);
    }
  }

  lemma NoOnes<P(!new)>(events: seq<Event<P>>)
    requires events == []
    ensures BackwardOnes(events) == RepeatOnes(events) == GapOnes(events) == {}
  {
  }

  /** backwards_stamps, repeated_stamps, sequence_gaps and what they compare with. */
  datatype GapStats = GapStats(backwards: nat, repeated: nat, gaps: nat, lastTs: int, lastId: Option<nat>)

  ghost predicate GapsOk<P(!new)>(g: GapStats, events: seq<Event<P>>) {
    && g.backwards == Backwards(events) && g.repeated == Repeats(events) && g.gaps == Gaps(events)
    && g.lastTs == LastTs(events) && g.lastId == LastId(events)
  }

  method Note<P(!new)>(g: GapStats, e: Event<P>, parsedBefore: bool, ghost events: seq<Event<P>>) returns (g': GapStats)
    requires GapsOk(g, events) && (parsedBefore <==> events != [])
    ensures GapsOk(g', events + [e])
  {
    g' := g;
    assert (events + [e])[..|events|] == events;
    if e.ts < g.lastTs { g' := g'.(backwards := g'.backwards + 1); }
    if e.ts == g.lastTs && parsedBefore { g' := g'.(repeated := g'.repeated + 1); }
    g' := g'.(lastTs := e.ts);
    if e.id.Some? {
      if g.lastId.Some? && e.id.value != NextId(g.lastId.value) { g' := g'.(gaps := g'.gaps + 1); }
      g' := g'.(lastId := e.id);
    }
  }

  // ---------------------------------------------------------------------------------------- the loops

  lemma {:induction false} BlockEndOneMore(text: string, n: nat)
    requires n > 0 && Skip(text, n) != []
    ensures BlockEnd(text, n + 1) == |text| - |Skip(text, n)| + |FirstRow(Skip(text, n))|
    decreases |text|
  {
    if n > 1 {
      BlockEndOneMore(AfterRow(text), n - 1);
    } else {
      assert Skip(text, 1) == AfterRow(text);
    }
  }

  lemma RunTaken(text: string)
    requires text != []
    ensures var used := Used(text, true);
            LongestRun(Rows(text), used) && Rows(Skip(text, used)) == Rows(text)[used..]
  {
    UsedIsLongestRun(text);
    SkipDropsRows(text, Used(text, true));
  }

  /** extend_run: the longest run of rows with the first one's text before the first comma, as one block. */
  method ExtendRun(text: string) returns (block: string, used: nat, rest: string)
    requires text != []
    ensures used == Used(text, true) && block == Block(text, true) && rest == Skip(text, used)
    ensures LongestRun(Rows(text), used) && Rows(rest) == Rows(text)[used..]
  {
    hide LongestRun, Rows, Leading, FirstRow, AfterRow;
    var key := Leading(FirstRow(text));
    var end := |FirstRow(text)|;
    used, rest := 1, AfterRow(text);
    while rest != [] && Leading(FirstRow(rest)) == key
      invariant used > 0 && used + SameKey(rest, key) == Used(text, true)
      invariant rest == Skip(text, used) && end == BlockEnd(text, used)
      decreases |rest|
    {
      BlockEndOneMore(text, used);
      SkipOneMore(text, used);
      end := |text| - |rest| + |FirstRow(rest)|;
      rest := AfterRow(rest);
      used := used + 1;
    }
    block := text[..end];
    RunTaken(text);
  }

  /** One turn of the row loop: what the front of the text counts as, its event, and the text left. */
  method TakeFront<P(!new)>(p: Parser<P>, text: string) returns (tally: Tally, event: Option<Event<P>>, rest: string)
    requires text != []
    ensures (tally, if event.Some? then [event.value] else []) == Front(p, text)
    ensures rest == AfterFront(p, text)
    ensures event.Some? <==> tally.parsed > 0
  {
    var row := FirstRow(text);
    rest := AfterRow(text);
    event := None;
    if row == [] { return Nothing().(blank := 1), event, rest; }
    if IsHeader(row) { return Nothing().(header := 1), event, rest; }
    var used: nat, block := 1, row;
    if p.grouped {
      block, used, rest := ExtendRun(text);
    } else {
      assert row == text[..|row|] && rest == Skip(text, 1);
    }
    event := (p.parse)(block);
    tally := if event.None? then Nothing().(rejected := used) else Nothing().(parsed := used);
  }

  predicate AddUp(a: Tally, b: Tally, c: Tally, total: Tally) {
    && a.blank + b.blank + c.blank == total.blank
    && a.header + b.header + c.header == total.header
    && a.rejected + b.rejected + c.rejected == total.rejected
    && a.parsed + b.parsed + c.parsed == total.parsed
  }

  ghost predicate InBalance<P(!new)>(p: Parser<P>, files: seq<File>, tally: Tally, rows: string, read: nat) {
    read <= |files| && AddUp(tally, Counted(p, rows), CountedFrom(p, files, read), CountedFrom(p, files, 0))
  }

  ghost predicate InOrder<P(!new)>(p: Parser<P>, files: seq<File>, emitted: seq<Event<P>>, rows: string, read: nat) {
    read <= |files| && emitted + (Events(p, rows) + EventsFrom(p, files, read)) == EventsFrom(p, files, 0)
  }

  lemma AtStart<P(!new)>(p: Parser<P>, files: seq<File>)
    ensures InBalance(p, files, Nothing(), [], 0) && InOrder(p, files, [], [], 0)
    ensures Events(p, []) + EventsFrom(p, files, 0) == EventsFrom(p, files, 0)
  {
    hide EventsFrom, CountedFrom, Front, AfterFront;
    assert Events(p, []) == [] && Counted(p, []) == Nothing();
    assert [] + EventsFrom(p, files, 0) == EventsFrom(p, files, 0);
    assert [] + (Events(p, []) + EventsFrom(p, files, 0)) == EventsFrom(p, files, 0);
  }

  lemma FrontTaken<P(!new)>(p: Parser<P>, files: seq<File>, tally: Tally, emitted: seq<Event<P>>, rows: string,
                     read: nat)
    requires InBalance(p, files, tally, rows, read) && InOrder(p, files, emitted, rows, read) && rows != []
    ensures InBalance(p, files, tally.Plus(Front(p, rows).0), AfterFront(p, rows), read)
    ensures InOrder(p, files, emitted + Front(p, rows).1, AfterFront(p, rows), read)
  {
    hide Front, AfterFront;
    var first, rest, more := Front(p, rows).1, Events(p, AfterFront(p, rows)), EventsFrom(p, files, read);
    assert emitted + ((first + rest) + more) == (emitted + first) + (rest + more);
  }

  lemma FileOpened<P(!new)>(p: Parser<P>, files: seq<File>, tally: Tally, emitted: seq<Event<P>>, read: nat)
    requires InBalance(p, files, tally, [], read) && InOrder(p, files, emitted, [], read) && read < |files|
    ensures InBalance(p, files, tally, TextOf(files[read]), read + 1)
    ensures InOrder(p, files, emitted, TextOf(files[read]), read + 1)
  {
    hide Front, AfterFront;
    assert Events(p, []) == [];
    assert [] + EventsFrom(p, files, read) == EventsFrom(p, files, read);
  }

  lemma {:induction false} LinesFrom<P(!new)>(p: Parser<P>, files: seq<File>, k: nat)
    requires k <= |files|
    ensures LinesUpTo(files, k) + CountedFrom(p, files, k).Total() == LinesUpTo(files, |files|)
    decreases |files| - k
  {
    hide Counted, Rows;
    if k < |files| {
      LinesFrom(p, files, k + 1);
      EveryRowCounted(p, TextOf(files[k]));
    }
  }

  /** Blank, header, rejected and parsed rows and the rows left are the lines of all files read. */
  lemma RowsAccountedFor<P(!new)>(p: Parser<P>, files: seq<File>, tally: Tally, rows: string, read: nat)
    requires InBalance(p, files, tally, rows, read)
    ensures tally.Total() + |Rows(rows)| == LinesUpTo(files, read)
  {
    EveryRowCounted(p, rows);
    LinesFrom(p, files, read);
    LinesFrom(p, files, 0);
  }

  function Expected(expected: seq<int>, n: nat): int
    requires n <= |expected|
  {
    if n == 0 then 0 else Expected(expected, n - 1) + expected[n - 1]
  }

  class BinanceHistoricalStream<P(!new)> {
    const parser: Parser<P>
    const files: seq<File>               // what each planned file's fetch leaves in its slot
    const expected: seq<int>             // rows each should hold
    var readCursor: nat
    var rows: string
    var filesRead: nat
    var filesFailed: nat
    var rowsExpected: int
    var tally: Tally
    var gapStats: GapStats
    ghost var emitted: seq<Event<P>>

    ghost predicate Valid()
      reads this
    {
      && |expected| == |files| && readCursor <= |files|
      && filesRead + filesFailed == readCursor && filesFailed == FailuresUpTo(files, readCursor)
      && rowsExpected == Expected(expected, readCursor)
      && InBalance(parser, files, tally, rows, readCursor)
      && InOrder(parser, files, emitted, rows, readCursor)
      && GapsOk(gapStats, emitted) && (tally.parsed > 0 <==> emitted != [])
    }

    /** The events still to come. */
    ghost function Rest(): seq<Event<P>>
      reads this
      requires Valid()
    {
      Events(parser, rows) + EventsFrom(parser, files, readCursor)
    }

    constructor (parser: Parser<P>, files: seq<File>, expected: seq<int>)
      requires |expected| == |files|
      ensures Valid() && this.parser == parser && this.files == files && this.expected == expected
      ensures readCursor == 0 && Rest() == EventsFrom(parser, files, 0)
    {
      hide InBalance, InOrder, EventsFrom, Counted, Events;
      this.parser, this.files, this.expected := parser, files, expected;
      readCursor, rows, filesRead, filesFailed, rowsExpected := 0, [], 0, 0, 0;
      tally, gapStats, emitted := Nothing(), GapStats(0, 0, 0, 0, None), [];
      new;
      AtStart(parser, files);
    }

    /** Pops until a readable file turns up. */
    method LoadNextFile(arrived: nat) returns (loaded: bool)
      requires Valid() && rows == [] && readCursor <= arrived <= |files|
      modifies this
      ensures Valid() && readCursor <= arrived && emitted == old(emitted)
      ensures !loaded ==> rows == [] && readCursor == arrived
      ensures old(readCursor) <= readCursor && (loaded ==> old(readCursor) < readCursor)
    {
      hide Front, AfterFront, InBalance, InOrder;
      while true
        invariant Valid() && rows == [] && old(readCursor) <= readCursor <= arrived && emitted == old(emitted)
        decreases arrived - readCursor
      {
        if readCursor == arrived { return false; }
        FileOpened(parser, files, tally, emitted, readCursor);
        rowsExpected := rowsExpected + expected[readCursor];
        var file := files[readCursor];
        readCursor := readCursor + 1;
        if file.Failed? {
          filesFailed := filesFailed + 1;
        } else {
          rows := file.text;
          filesRead := filesRead + 1;
          return true;
        }
      }
    }

    /** One event, or none with every arrived file read to its end. */
    method Next(arrived: nat) returns (r: Option<Event<P>>)
      requires Valid() && readCursor <= arrived <= |files|
      modifies this
      ensures Valid() && readCursor <= arrived
      ensures r.Some? ==> emitted == old(emitted) + [r.value] && old(Rest()) == [r.value] + Rest()
      ensures r.None? ==> emitted == old(emitted) && Rest() == old(Rest()) && rows == [] && readCursor == arrived
    {
      hide Front, AfterFront, Counted, Events, EventsFrom, InBalance, InOrder, GapsOk, FailuresUpTo, Expected;
      ghost var was, before, from := Rest(), rows, readCursor;
      while true
        invariant Valid() && readCursor <= arrived && emitted == old(emitted)
        decreases arrived - readCursor, |rows|
      {
        if rows == [] {
          var loaded := LoadNextFile(arrived);
          if !loaded {
            assert emitted + [] == emitted;
            SameOrder(parser, files, emitted, before, from, [], rows, readCursor);
            return None;
          }
        } else {
          FrontTaken(parser, files, tally, emitted, rows, readCursor);
          var counted, event, rest := TakeFront(parser, rows);
          if event.Some? {
            gapStats := Note(gapStats, event.value, tally.parsed > 0, emitted);
            emitted := emitted + [event.value];
          } else {
            assert emitted + [] == emitted;
          }
          tally := tally.Plus(counted);
          rows := rest;
          if event.Some? {
            SameOrder(parser, files, old(emitted), before, from, [event.value], rows, readCursor);
            return event;
          }
        }
      }
    }

    /** Once finished, everything has come out and every line has been counted. */
    method Finished() returns (done: bool)
      requires Valid()
      ensures done <==> readCursor == |files| && rows == []
      ensures done ==> Rest() == [] && emitted == EventsFrom(parser, files, 0)
      ensures done ==> tally == CountedFrom(parser, files, 0) && tally.Total() == LinesUpTo(files, |files|)
    {
      done := readCursor >= |files| && rows == [];
      if done {
        RowsAccountedFor(parser, files, tally, rows, readCursor);
        assert Rest() == [];
      }
    }
  }

  /** Two places of one order, some events apart. */
  lemma SameOrder<P(!new)>(p: Parser<P>, files: seq<File>, emitted: seq<Event<P>>, rows: string, read: nat,
                           more: seq<Event<P>>, rows': string, read': nat)
    requires InOrder(p, files, emitted, rows, read) && InOrder(p, files, emitted + more, rows', read')
    ensures Events(p, rows) + EventsFrom(p, files, read) == more + (Events(p, rows') + EventsFrom(p, files, read'))
    ensures more == [] ==>
              Events(p, rows) + EventsFrom(p, files, read) == Events(p, rows') + EventsFrom(p, files, read')
  {
    hide Events, EventsFrom;
    var left := Events(p, rows') + EventsFrom(p, files, read');
    assert emitted + more + left == emitted + (more + left);
    SameRest(emitted, Events(p, rows) + EventsFrom(p, files, read), more + left);
  }

  lemma SameRest<T>(emitted: seq<T>, a: seq<T>, b: seq<T>)
    requires emitted + a == emitted + b
    ensures a == b
  {
    assert a == (emitted + a)[|emitted|..] && b == (emitted + b)[|emitted|..];
  }
}
