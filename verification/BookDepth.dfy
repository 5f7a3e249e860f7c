/** parse_book_depth_group: one sample from its block of rows, one row per band. */
module BookDepth {
  import opened Ring
  import opened Lines
  import CsvField

  datatype DepthBand = DepthBand(depth: real, notional: real)

  datatype Row = Row(ts: int, percent: real, depth: real, notional: real)

  datatype Sample = Sample(ts: int, bids: seq<DepthBand>, asks: seq<DepthBand>)

  /** std::llround, half away from zero. */
  function Round(x: real): int {
    if x >= 0.0 then (x + 0.5).Floor else -((-x + 0.5).Floor)
  }

  function Hundredths(row: Row): int {
    Round(row.percent * 100.0)
  }

  /** One row: a datetime and three decimals, and nothing after them. */
  function RowIn(line: string, slow: string -> Option<real>): Option<Row> {
    var ts := CsvField.Datetime(line);
    if ts.None? then None
    else
      var percent := CsvField.DecimalField(ts.value.1, slow);
      if percent.None? then None
      else
        var depth := CsvField.DecimalField(percent.value.1, slow);
        if depth.None? then None
        else
          var notional := CsvField.DecimalField(depth.value.1, slow);
          if notional.None? || notional.value.1 != [] then None
          else Some(Row(ts.value.0, percent.value.0, depth.value.0, notional.value.0))
  }

  /** The text is this number, with a point or without, and short enough to be read in one pass. */
  ghost predicate Writes(text: string, value: real) {
    exists sign, whole, fraction :: WritesParts(text, value, sign, whole, fraction)
  }

  ghost predicate WritesParts(text: string, value: real, sign: string, whole: string, fraction: string) {
    && sign in {"", "-", "+"} && CsvField.AllDigits(whole) && CsvField.AllDigits(fraction)
    && 0 < |whole| + |fraction| <= CsvField.MAX_MANTISSA_DIGITS
    && value == CsvField.DecimalValue(sign == "-", whole, fraction)
    && (text == sign + (whole + ("." + fraction)) || (fraction == [] && text == sign + whole))
  }

  lemma ReadsWritten(text: string, value: real, rest: string, slow: string -> Option<real>)
    requires Writes(text, value) && (rest == [] || rest[0] == ',')
    ensures CsvField.DecimalField(text + rest, slow) == Some((value, if rest == [] then [] else rest[1..]))
  {
    hide CsvField.DecimalField, CsvField.DecimalValue, CsvField.AllDigits;
    var sign, whole, fraction :| WritesParts(text, value, sign, whole, fraction);
    if text == sign + (whole + ("." + fraction)) {
      assert text + rest == sign + (whole + ("." + (fraction + rest)));
      CsvField.DecimalReadsItsText(sign, whole, fraction, rest, slow);
    } else {
      assert text + rest == sign + (whole + rest);
      CsvField.WholeReadsItsText(sign, whole, rest, slow);
    }
  }

  /** A row written as a stamp, a percent, a depth and a notional reads as these. */
  lemma RowReadsItsText(stamp: CsvField.Stamp, percent: string, depth: string, notional: string, p: real, d: real,
                        n: real, slow: string -> Option<real>)
    requires CsvField.IsStamp(stamp) && Writes(percent, p) && Writes(depth, d) && Writes(notional, n)
    ensures RowIn(CsvField.Render(stamp) + ("," + (percent + ("," + (depth + ("," + notional))))), slow)
            == Some(Row(CsvField.Instant(stamp), p, d, n))
  {
    hide CsvField.DecimalField, CsvField.Datetime, CsvField.Render, CsvField.Instant, CsvField.IsStamp, Writes;
    var third := depth + ("," + notional);
    var second := percent + ("," + third);
    CsvField.RenderedIsAccepted(stamp, "," + second);
    assert ("," + second)[1..] == second && ("," + third)[1..] == third && ("," + notional)[1..] == notional;
    ReadsWritten(percent, p, "," + third, slow);
    ReadsWritten(depth, d, "," + notional, slow);
    ReadsWritten(notional, n, [], slow);
    assert notional + [] == notional;
  }

  function RowsIn(lines: seq<string>, parse: string -> Option<Row>): (r: Option<seq<Row>>)
    ensures r.Some? ==> |r.value| == |lines|
  {
    if lines == [] then Some([])
    else
      var before, last := RowsIn(lines[..|lines| - 1], parse), parse(lines[|lines| - 1]);
      if before.None? || last.None? then None else Some(before.value + [last.value])
  }

  // -------------------------------------------------------------------- what makes a sample complete

  const BANDS: set<int> := {-500, -400, -300, -200, -100, 100, 200, 300, 400, 500}
  const INNER: set<int> := {-20, 20}

  function Percents(rows: seq<Row>): set<int> {
    set i | 0 <= i < |rows| :: Hundredths(rows[i])
  }

  ghost predicate NoneTwice(rows: seq<Row>) {
    forall i, j :: 0 <= i < j < |rows| ==> Hundredths(rows[i]) != Hundredths(rows[j])
  }

  ghost predicate OneTime(rows: seq<Row>) {
    forall i :: 0 <= i < |rows| ==> rows[i].ts == rows[0].ts
  }

  /** Each of the ten bands exactly once, both inner bands or neither, nothing else, and one stamp. */
  ghost predicate Complete(rows: seq<Row>) {
    NoneTwice(rows) && OneTime(rows) && (Percents(rows) == BANDS || Percents(rows) == BANDS + INNER)
  }

  function BandOf(s: Sample, percent: int): DepthBand
    requires |s.bids| == |s.asks| == 5 && percent in BANDS
  {
    if percent < 0 then s.bids[-percent / 100 - 1] else s.asks[percent / 100 - 1]
  }

  ghost predicate Holds(rows: seq<Row>, s: Sample) {
    && |s.bids| == |s.asks| == 5
    && forall i :: 0 <= i < |rows| && Hundredths(rows[i]) in BANDS ==>
         BandOf(s, Hundredths(rows[i])) == DepthBand(rows[i].depth, rows[i].notional)
  }

  /** Accepted exactly when complete, and then every band kept is its own row's. */
  ghost predicate Sampled(rows: seq<Row>, r: Option<Sample>) {
    && (r.Some? <==> Complete(rows))
    && (r.Some? ==> rows != [] && r.value.ts == rows[0].ts && Holds(rows, r.value))
  }

  lemma WholePercent(k: int)
    ensures Round(k as real * 100.0) == 100 * k
  {
    assert k as real * 100.0 == (100 * k) as real;
    assert (-(100 * k)) as real == -((100 * k) as real);
  }

  /** Of an accepted block the row at minus k percent is the k-th bid and the one at plus k percent the k-th ask. */
  lemma BandsBySide(rows: seq<Row>, s: Sample, i: nat, k: nat)
    requires Sampled(rows, Some(s)) && i < |rows| && 1 <= k <= 5
    ensures |s.bids| == |s.asks| == 5
    ensures rows[i].percent == -(k as real) ==> s.bids[k - 1] == DepthBand(rows[i].depth, rows[i].notional)
    ensures rows[i].percent == k as real ==> s.asks[k - 1] == DepthBand(rows[i].depth, rows[i].notional)
  {
    var percent: int := k;
    WholePercent(percent);
    WholePercent(-percent);
    assert (-percent) as real == -(k as real);
    hide Round;
    assert Hundredths(rows[i]) in BANDS ==>
             BandOf(s, Hundredths(rows[i])) == DepthBand(rows[i].depth, rows[i].notional);
  }

  lemma {:induction false} PercentsCount(rows: seq<Row>)
    ensures NoneTwice(rows) ==> |Percents(rows)| == |rows|
  {
    if rows != [] && NoneTwice(rows) {
      var before, last := rows[..|rows| - 1], rows[|rows| - 1];
      assert NoneTwice(before) by {
        forall i, j | 0 <= i < j < |before| ensures Hundredths(before[i]) != Hundredths(before[j]) {
          assert before[i] == rows[i] && before[j] == rows[j];
        }
      }
      PercentsCount(before);
      PercentsSnoc(before, last);
      assert rows == before + [last];
      assert Hundredths(last) !in Percents(before);
    }
  }

  lemma PercentsSnoc(before: seq<Row>, last: Row)
    ensures Percents(before + [last]) == Percents(before) + {Hundredths(last)}
  {
    var rows := before + [last];
    forall h | h in Percents(before) ensures h in Percents(rows) {
      var i :| 0 <= i < |before| && Hundredths(before[i]) == h;
      assert rows[i] == before[i];
    }
    assert rows[|before|] == last;
    forall h | h in Percents(rows) ensures h in Percents(before) + {Hundredths(last)} {
      var i :| 0 <= i < |rows| && Hundredths(rows[i]) == h;
      assert i < |before| ==> rows[i] == before[i];
    }
  }

  /** Neither acceptance nor the sample depends on the order of the rows. */
  lemma OrderDoesNotMatter(rows: seq<Row>, other: seq<Row>, r: Option<Sample>, q: Option<Sample>)
    requires multiset(rows) == multiset(other) && Sampled(rows, r) && Sampled(other, q)
    ensures r == q
  {
    SameRows(rows, other);
    SameRows(other, rows);
    CompleteEitherWay(rows, other);
    CompleteEitherWay(other, rows);
    if r.Some? {
      assert other[0] in rows;
      forall h | h in BANDS ensures BandOf(r.value, h) == BandOf(q.value, h) {
        BandsAgree(rows, other, r.value, q.value, h);
      }
      SampleIsItsBands(r.value, q.value);
    }
  }

  lemma SameRows(rows: seq<Row>, other: seq<Row>)
    requires multiset(rows) == multiset(other)
    ensures |rows| == |other|
    ensures forall row :: row in rows ==> row in other
    ensures Percents(rows) <= Percents(other)
  {
    assert |multiset(rows)| == |multiset(other)|;
    forall row | row in rows ensures row in other {
      assert row in multiset(rows);
    }
    forall h | h in Percents(rows) ensures h in Percents(other) {
      var i :| 0 <= i < |rows| && Hundredths(rows[i]) == h;
      assert rows[i] in other;
    }
  }

  lemma {:induction false} DistinctWhenAsMany(rows: seq<Row>)
    requires |Percents(rows)| == |rows|
    ensures NoneTwice(rows)
  {
    if rows != [] {
      var before, last := rows[..|rows| - 1], rows[|rows| - 1];
      assert rows == before + [last];
      PercentsSnoc(before, last);
      AtMostAsMany(before);
      DistinctWhenAsMany(before);
      forall i, j | 0 <= i < j < |rows| ensures Hundredths(rows[i]) != Hundredths(rows[j]) {
        assert rows[i] == before[i];
        assert Hundredths(before[i]) in Percents(before);
        if j < |before| { assert rows[j] == before[j]; }
      }
    }
  }

  lemma {:induction false} AtMostAsMany(rows: seq<Row>)
    ensures |Percents(rows)| <= |rows|
  {
    if rows != [] {
      var before, last := rows[..|rows| - 1], rows[|rows| - 1];
      assert rows == before + [last];
      PercentsSnoc(before, last);
      AtMostAsMany(before);
    }
  }

  lemma CompleteEitherWay(rows: seq<Row>, other: seq<Row>)
    requires multiset(rows) == multiset(other)
    ensures Complete(rows) ==> Complete(other)
  {
    if Complete(rows) {
      SameRows(rows, other);
      SameRows(other, rows);
      PercentsCount(rows);
      assert Percents(rows) == Percents(other);
      DistinctWhenAsMany(other);
      forall i | 0 <= i < |other| ensures other[i].ts == other[0].ts {
        assert other[i] in rows && other[0] in rows;
      }
    }
  }

  lemma BandsAgree(rows: seq<Row>, other: seq<Row>, s: Sample, t: Sample, h: int)
    requires Complete(rows) && Holds(rows, s) && Holds(other, t) && h in BANDS
    requires forall row :: row in rows ==> row in other
    ensures BandOf(s, h) == BandOf(t, h)
  {
    assert h in Percents(rows);
    var i :| 0 <= i < |rows| && Hundredths(rows[i]) == h;
    assert rows[i] in other;
    var j :| 0 <= j < |other| && other[j] == rows[i];
  }

  lemma SampleIsItsBands(s: Sample, t: Sample)
    requires |s.bids| == |s.asks| == |t.bids| == |t.asks| == 5 && s.ts == t.ts
    requires forall h :: h in BANDS ==> BandOf(s, h) == BandOf(t, h)
    ensures s == t
  {
    forall k | 0 <= k < 5 ensures s.bids[k] == t.bids[k] && s.asks[k] == t.asks[k] {
      assert BandOf(s, 100 * (k + 1)) == BandOf(t, 100 * (k + 1));
      assert BandOf(s, -100 * (k + 1)) == BandOf(t, -100 * (k + 1));
    }
    assert s.bids == t.bids && s.asks == t.asks;
  }

  // ------------------------------------------------------------------------------------ the row loop

  /** No row in front of these can make the block complete. */
  ghost predicate Doomed(rows: seq<Row>) {
    !NoneTwice(rows) || !OneTime(rows) || !(Percents(rows) <= BANDS + INNER) || |rows| > 12
  }

  lemma DoomedStays(rows: seq<Row>, all: seq<Row>)
    requires rows <= all && Doomed(rows)
    ensures !Complete(all)
  {
    BandSizes();
    PercentsCount(all);
    forall h | h in Percents(rows) ensures h in Percents(all) {
      var i :| 0 <= i < |rows| && Hundredths(rows[i]) == h;
      assert all[i] == rows[i];
    }
  }

  lemma TenBands()
    ensures |BANDS| == 10
  {
  }

  lemma UnionSize(a: set<int>, b: set<int>)
    requires a * b == {}
    ensures |a + b| == |a| + |b| && (a + b) * b == b
  {
  }

  lemma BandSizes()
    ensures |BANDS| == 10 && |INNER| == 2 && |BANDS + INNER| == 12
    ensures BANDS * INNER == {} && (BANDS + INNER) * INNER == INNER && BANDS + {} == BANDS
  {
    TenBands();
    UnionSize(BANDS, INNER);
  }

  lemma {:induction false} RowsInPrefix(before: seq<string>, after: seq<string>, parse: string -> Option<Row>)
    ensures RowsIn(before, parse).None? ==> RowsIn(before + after, parse).None?
    ensures RowsIn(before, parse).Some? && RowsIn(before + after, parse).Some? ==>
              RowsIn(before, parse).value <= RowsIn(before + after, parse).value
  {
    if after == [] {
      assert before + after == before;
    } else {
      RowsInPrefix(before, after[..|after| - 1], parse);
      assert (before + after)[..|before + after| - 1] == before + after[..|after| - 1];
    }
  }

  /** What the loop keeps: the rows so far, the bands seen by whole percent and the inner ones. */
  ghost predicate Progress(rows: seq<Row>, stamp: int, seen: set<int>, inner: set<int>, s: Sample) {
    && NoneTwice(rows) && OneTime(rows) && (rows != [] ==> stamp == rows[0].ts)
    && Percents(rows) <= BANDS + INNER
    && (forall h :: h in BANDS ==> (h / 100 in seen <==> h in Percents(rows)))
    && inner == Percents(rows) * INNER
    && Holds(rows, s)
  }

  lemma AddedOnce(rows: seq<Row>, row: Row)
    requires NoneTwice(rows)
    ensures NoneTwice(rows + [row]) <==> Hundredths(row) !in Percents(rows)
  {
    var all := rows + [row];
    assert all[|rows|] == row;
    forall i | 0 <= i < |rows| ensures all[i] == rows[i] {}
    if Hundredths(row) in Percents(rows) {
      var i :| 0 <= i < |rows| && Hundredths(rows[i]) == Hundredths(row);
      assert Hundredths(all[i]) == Hundredths(all[|rows|]);
    }
  }

  lemma AddedInTime(rows: seq<Row>, row: Row)
    requires OneTime(rows)
    ensures OneTime(rows + [row]) <==> rows == [] || row.ts == rows[0].ts
  {
    var all := rows + [row];
    assert all[|rows|] == row;
    forall i | 0 <= i < |rows| ensures all[i] == rows[i] {}
  }

  lemma InnerTaken(rows: seq<Row>, row: Row, stamp: int, seen: set<int>, inner: set<int>, s: Sample)
    requires Progress(rows, stamp, seen, inner, s) && OneTime(rows + [row]) && stamp == row.ts
    requires Hundredths(row) in INNER
    ensures if Hundredths(row) in inner then Doomed(rows + [row])
            else Progress(rows + [row], stamp, seen, inner + {Hundredths(row)}, s)
  {
    AddedOnce(rows, row);
    PercentsSnoc(rows, row);
    HoldsOther(rows, row, s);
  }

  lemma HoldsOther(rows: seq<Row>, row: Row, s: Sample)
    requires Holds(rows, s) && Hundredths(row) !in BANDS
    ensures Holds(rows + [row], s)
  {
    var all := rows + [row];
    forall i | 0 <= i < |all| && Hundredths(all[i]) in BANDS
      ensures BandOf(s, Hundredths(all[i])) == DepthBand(all[i].depth, all[i].notional)
    {
      assert all[i] == rows[i];
    }
  }

  /** A percent that is no band, or one seen before. */
  lemma NotTaken(rows: seq<Row>, row: Row, stamp: int, seen: set<int>, inner: set<int>, s: Sample)
    requires Progress(rows, stamp, seen, inner, s) && Hundredths(row) !in INNER
    requires Hundredths(row) !in BANDS || Hundredths(row) / 100 in seen
    ensures Doomed(rows + [row])
  {
    hide Holds;
    AddedOnce(rows, row);
    PercentsSnoc(rows, row);
  }

  lemma BandTaken(rows: seq<Row>, row: Row, stamp: int, seen: set<int>, inner: set<int>, s: Sample, s': Sample)
    requires Progress(rows, stamp, seen, inner, s) && OneTime(rows + [row]) && stamp == row.ts
    requires Hundredths(row) in BANDS && Hundredths(row) / 100 !in seen && Holds(rows + [row], s')
    ensures Progress(rows + [row], stamp, seen + {Hundredths(row) / 100}, inner, s')
  {
    hide Holds;
    AddedOnce(rows, row);
    PercentsSnoc(rows, row);
    forall h | h in BANDS
      ensures h / 100 in seen + {Hundredths(row) / 100} <==> h in Percents(rows + [row])
    {
      assert h / 100 == Hundredths(row) / 100 ==> h == Hundredths(row);
    }
  }

  /** The band of one row: refused when its percent is no band or seen before, else taken over. */
  method AddBand(ghost rows: seq<Row>, row: Row, stamp: int, seen: set<int>, inner: set<int>, s: Sample)
      returns (ok: bool, seen': set<int>, inner': set<int>, s': Sample)
    requires Progress(rows, stamp, seen, inner, s) && OneTime(rows + [row]) && stamp == row.ts
    ensures s'.ts == s.ts
    ensures if ok then Progress(rows + [row], stamp, seen', inner', s') else Doomed(rows + [row])
  {
    assert Holds(rows, s) && |s.bids| == |s.asks| == 5;
    hide Progress, Doomed, Holds, OneTime;
    seen', inner', s' := seen, inner, s;
    var hundredths := Hundredths(row);
    if hundredths == 20 || hundredths == -20 {
      InnerTaken(rows, row, stamp, seen, inner, s);
      ok := hundredths !in inner;
      inner' := inner + {hundredths};
      return;
    }
    if hundredths % 100 != 0 {
      NotTaken(rows, row, stamp, seen, inner, s);
      return false, seen, inner, s;
    }
    var whole := hundredths / 100;
    if whole == 0 || whole < -5 || whole > 5 {
      NotTaken(rows, row, stamp, seen, inner, s);
      return false, seen, inner, s;
    }
    assert hundredths == 100 * whole && hundredths in BANDS;
    if whole in seen {
      NotTaken(rows, row, stamp, seen, inner, s);
      return false, seen, inner, s;
    }
    ok := true;
    seen' := seen + {whole};
    var band := DepthBand(row.depth, row.notional);
    if whole < 0 {
      s' := s.(bids := s.bids[-whole - 1 := band]);
    } else {
      s' := s.(asks := s.asks[whole - 1 := band]);
    }
    NewBand(rows, row, stamp, seen, inner, s);
    BandAdded(rows, row, s, s');
    BandTaken(rows, row, stamp, seen, inner, s, s');
  }

  lemma NewBand(rows: seq<Row>, row: Row, stamp: int, seen: set<int>, inner: set<int>, s: Sample)
    requires Progress(rows, stamp, seen, inner, s) && Hundredths(row) in BANDS && Hundredths(row) / 100 !in seen
    ensures Hundredths(row) !in Percents(rows)
  {
    hide Holds;
  }

  lemma BandAdded(rows: seq<Row>, row: Row, s: Sample, s': Sample)
    requires Holds(rows, s) && Hundredths(row) in BANDS && Hundredths(row) !in Percents(rows)
    requires var band := DepthBand(row.depth, row.notional);
             var whole := Hundredths(row) / 100;
             s' == if whole < 0 then s.(bids := s.bids[-whole - 1 := band]) else s.(asks := s.asks[whole - 1 := band])
    ensures Holds(rows + [row], s')
  {
    var all := rows + [row];
    forall i | 0 <= i < |all| && Hundredths(all[i]) in BANDS
      ensures BandOf(s', Hundredths(all[i])) == DepthBand(all[i].depth, all[i].notional)
    {
      if i < |rows| {
        assert all[i] == rows[i];
        assert Hundredths(rows[i]) in Percents(rows);
      }
    }
  }

  lemma CompleteCounts(rows: seq<Row>)
    requires Complete(rows)
    ensures var inner := Percents(rows) * INNER; (inner == {} || inner == INNER) && |rows| == 10 + |inner|
  {
    PercentsCount(rows);
    BandSizes();
  }

  /** Distinct bands and their number are enough: with ten of them none can be missing. */
  lemma CountedMeansComplete(rows: seq<Row>, inner: set<int>)
    requires NoneTwice(rows) && OneTime(rows) && Percents(rows) <= BANDS + INNER
    requires inner == Percents(rows) * INNER && (inner == {} || inner == INNER) && |rows| == 10 + |inner|
    ensures Complete(rows)
  {
    PercentsCount(rows);
    BandSizes();
    assert Percents(rows) <= BANDS + inner;
    SameSize(Percents(rows), BANDS + inner);
  }

  lemma Verdict(rows: seq<Row>, inner: set<int>)
    requires NoneTwice(rows) && OneTime(rows) && Percents(rows) <= BANDS + INNER && inner == Percents(rows) * INNER
    ensures Complete(rows) <==> (inner == {} || inner == INNER) && |rows| == 10 + |inner|
    ensures Complete(rows) ==> rows != []
  {
    if Complete(rows) {
      CompleteCounts(rows);
    } else if (inner == {} || inner == INNER) && |rows| == 10 + |inner| {
      CountedMeansComplete(rows, inner);
    }
  }

  lemma SameSize(a: set<int>, b: set<int>)
    requires a <= b && |a| == |b|
    ensures a == b
  {
    assert b == a + (b - a);
    assert |b| == |a| + |b - a|;
  }

  /** What a block's rows come to: nothing when one of them does not parse. */
  ghost predicate Parses(lines: seq<string>, parse: string -> Option<Row>, r: Option<Sample>) {
    match RowsIn(lines, parse)
    case None => r == None
    case Some(rows) => Sampled(rows, r)
  }

  lemma Refused(lines: seq<string>, done: seq<string>, line: string, rest: seq<string>, parse: string -> Option<Row>,
                rows: seq<Row>)
    requires lines == done + [line] + rest
    requires RowsIn(done, parse) == Some(rows) && Refusal(rows, parse(line))
    ensures Parses(lines, parse, None)
  {
    var upTo := done + [line];
    assert upTo[..|done|] == done;
    RowsInPrefix(upTo, rest, parse);
    if RowsIn(upTo + rest, parse).Some? {
      DoomedStays(RowsIn(upTo, parse).value, RowsIn(upTo + rest, parse).value);
    }
  }

  /** Why one more row is refused: it does not parse, or no block can go on from it. */
  ghost predicate Refusal(rows: seq<Row>, row: Option<Row>) {
    row.None? || |rows| >= 12 || Doomed(rows + [row.value])
  }

  /** The body of the row loop. */
  method AddRow(ghost rows: seq<Row>, count: nat, row: Option<Row>, stamp: int, seen: set<int>, inner: set<int>,
                s: Sample)
      returns (ok: bool, stamp': int, seen': set<int>, inner': set<int>, s': Sample)
    requires Progress(rows, stamp, seen, inner, s) && count == |rows|
    ensures if ok then row.Some? && |rows| < 12 && Progress(rows + [row.value], stamp', seen', inner', s')
            else Refusal(rows, row)
  {
    stamp', seen', inner', s' := stamp, seen, inner, s;
    if count + 1 > 12 || row.None? { return false, stamp, seen, inner, s; }
    AddedInTime(rows, row.value);
    if count > 0 && row.value.ts != stamp { return false, stamp, seen, inner, s; }
    stamp' := row.value.ts;
    ok, seen', inner', s' := AddBand(rows, row.value, stamp', seen, inner, s);
  }

  lemma RowsInSnoc(done: seq<string>, line: string, parse: string -> Option<Row>)
    requires RowsIn(done, parse).Some? && parse(line).Some?
    ensures RowsIn(done + [line], parse) == Some(RowsIn(done, parse).value + [parse(line).value])
  {
    assert (done + [line])[..|done|] == done;
  }

  /** The checks after the loop. */
  method Judge(ghost rows: seq<Row>, count: nat, stamp: int, ghost seen: set<int>, inner: set<int>, s: Sample)
      returns (r: Option<Sample>)
    requires Progress(rows, stamp, seen, inner, s) && count == |rows|
    ensures Sampled(rows, r)
  {
    Verdict(rows, inner);
    if (inner != {} && inner != INNER) || count != 10 + |inner| { return None; }
    r := Some(s.(ts := stamp));
  }

  /** The rows so far and those left make up the block. */
  ghost predicate Halfway(lines: seq<string>, done: seq<string>, block: string, rows: seq<Row>,
                          parse: string -> Option<Row>) {
    lines == done + Rows(block) && RowsIn(done, parse) == Some(rows)
  }

  lemma Regrouped<T>(done: seq<T>, x: T, rest: seq<T>)
    ensures done + ([x] + rest) == done + [x] + rest
  {
  }

  lemma RowTaken(lines: seq<string>, done: seq<string>, block: string, rows: seq<Row>, parse: string -> Option<Row>)
    requires Halfway(lines, done, block, rows, parse) && block != []
    ensures Refusal(rows, parse(FirstRow(block))) ==> Parses(lines, parse, None)
    ensures parse(FirstRow(block)).Some? ==>
              Halfway(lines, done + [FirstRow(block)], AfterRow(block), rows + [parse(FirstRow(block)).value], parse)
  {
    var line, rest := FirstRow(block), Rows(AfterRow(block));
    assert Rows(block) == [line] + rest;
    hide RowsIn, Parses, Refusal, Rows, FirstRow, AfterRow;
    Regrouped(done, line, rest);
    if Refusal(rows, parse(line)) {
      Refused(lines, done, line, rest, parse, rows);
    }
    if parse(line).Some? {
      RowsInSnoc(done, line, parse);
    }
  }

  lemma NoRowsYet(s: Sample)
    requires |s.bids| == |s.asks| == 5
    ensures Progress([], 0, {}, {}, s)
  {
  }

  /** The block is accepted exactly when all its rows parse and are complete. */
  method ParseGroup(text: string, parse: string -> Option<Row>) returns (r: Option<Sample>)
    ensures Parses(Rows(text), parse, r)
  {
    var none := DepthBand(0.0, 0.0);
    var s := Sample(0, [none, none, none, none, none], [none, none, none, none, none]);
    var block, stamp, count: nat := text, 0, 0;
    var seen: set<int>, inner: set<int> := {}, {};
    ghost var lines, done, rows := Rows(text), [], [];
    NoRowsYet(s);
    while block != []
      invariant Halfway(lines, done, block, rows, parse)
      invariant count == |rows| && Progress(rows, stamp, seen, inner, s)
      decreases |block|
    {
      RowTaken(lines, done, block, rows, parse);
      var line := FirstRow(block);
      block := AfterRow(block);
      var row := parse(line);
      var ok;
      ok, stamp, seen, inner, s := AddRow(rows, count, row, stamp, seen, inner, s);
      if !ok { return None; }
      done, rows, count := done + [line], rows + [row.value], count + 1;
    }
    assert done == lines;
    r := Judge(rows, count, stamp, seen, inner, s);
  }

  /** The whole of it on bytes, with the slow path of a decimal as a parameter. */
  method ParseBookDepth(text: string, slow: string -> Option<real>) returns (r: Option<Sample>)
    ensures Parses(Rows(text), line => RowIn(line, slow), r)
  {
    r := ParseGroup(text, line => RowIn(line, slow));
  }
}
