/** HalfSpreadLinearImpact: cost rows grouped by instrument with a counting sort, sorted by week in
    each group, and looked up by binary search. */
module CostTable {
  import opened Portfolio
  import opened Ring

  datatype CostRow = CostRow(slot: nat, week: int, halfSpreadBps: real, impactBps: real, takerFeeBps: real)

  datatype Pricing = Pricing(fillPrice: real, fee: real)

  predicate Within(table: seq<CostRow>, n: nat) {
    forall k :: 0 <= k < |table| ==> table[k].slot < n
  }

  /** The rows of one instrument, in table order. */
  function Of(table: seq<CostRow>, slot: nat): seq<CostRow> {
    if table == [] then []
    else
      var last := table[|table| - 1];
      Of(table[..|table| - 1], slot) + if last.slot == slot then [last] else []
  }

  function Groups(table: seq<CostRow>, n: nat): seq<seq<CostRow>> {
    seq(n, i requires 0 <= i < n => Of(table, i))
  }

  lemma {:induction false} OfMembers(table: seq<CostRow>, slot: nat, row: CostRow)
    ensures row in Of(table, slot) <==> row in table && row.slot == slot
  {
    if table != [] {
      OfMembers(table[..|table| - 1], slot, row);
      assert table == table[..|table| - 1] + [table[|table| - 1]];
    }
  }

  lemma {:induction false} OfGrows(table: seq<CostRow>, k: nat, slot: nat)
    requires k <= |table|
    ensures Of(table[..k], slot) <= Of(table, slot)
  {
    if k < |table| {
      OfGrows(table[..|table| - 1], k, slot);
      assert table[..|table| - 1][..k] == table[..k];
    } else {
      assert table[..k] == table;
    }
  }

  // ------------------------------------------------------------------------ runs laid end to end

  function Joined<T>(parts: seq<seq<T>>): seq<T> {
    if parts == [] then [] else Joined(parts[..|parts| - 1]) + parts[|parts| - 1]
  }

  lemma {:induction false} JoinedConcat<T>(a: seq<seq<T>>, b: seq<seq<T>>)
    ensures Joined(a + b) == Joined(a) + Joined(b)
  {
    if b == [] {
      assert a + b == a && Joined(a) + [] == Joined(a);
    } else {
      hide Joined;
      var front, last := b[..|b| - 1], b[|b| - 1];
      JoinedConcat(a, front);
      assert b == front + [last] && a + b == (a + front) + [last];
      JoinedSnoc(a + front, last);
      JoinedSnoc(front, last);
      Regrouped(Joined(a), Joined(front), last);
    }
  }

  lemma Regrouped<T>(a: seq<T>, b: seq<T>, c: seq<T>)
    ensures a + b + c == a + (b + c)
  {
  }

  lemma JoinedSnoc<T>(parts: seq<seq<T>>, last: seq<T>)
    ensures Joined(parts + [last]) == Joined(parts) + last
  {
    assert (parts + [last])[..|parts|] == parts;
  }

  lemma JoinedSplit<T>(parts: seq<seq<T>>, i: nat)
    requires i < |parts|
    ensures Joined(parts) == Joined(parts[..i]) + parts[i] + Joined(parts[i + 1..])
    ensures Joined(parts[..i + 1]) == Joined(parts[..i]) + parts[i]
  {
    hide Joined;
    Around(parts, i);
    JoinedSnoc(parts[..i], parts[i]);
    JoinedConcat(parts[..i] + [parts[i]], parts[i + 1..]);
  }

  lemma Around<T>(s: seq<T>, i: nat)
    requires i < |s|
    ensures s[..i + 1] == s[..i] + [s[i]] && s == s[..i] + [s[i]] + s[i + 1..]
  {
  }

  lemma JoinedGrown<T>(parts: seq<seq<T>>, i: nat, x: T)
    requires i < |parts|
    ensures multiset(Joined(parts[i := parts[i] + [x]])) == multiset(Joined(parts)) + multiset{x}
  {
    var grown := parts[i := parts[i] + [x]];
    JoinedSplit(parts, i);
    JoinedSplit(grown, i);
    assert grown[..i] == parts[..i] && grown[i + 1..] == parts[i + 1..];
  }

  /** A run of each length at its offset, inside total places and none over another. */
  ghost predicate Layout(offsets: seq<nat>, counts: seq<nat>, total: nat) {
    && |offsets| == |counts|
    && (forall i :: 0 <= i < |offsets| ==> offsets[i] + counts[i] <= total)
    && (forall i, j :: 0 <= i < j < |offsets| ==> offsets[i] + counts[i] <= offsets[j])
  }

  /** Run i begins where run i - 1 ends. */
  ghost predicate Adjoins(offsets: seq<nat>, counts: seq<nat>, i: nat) {
    && |offsets| == |counts| && i < |offsets|
    && offsets[i] == if i == 0 then 0 else offsets[i - 1] + counts[i - 1]
  }

  /** The runs leave no gap: each begins where the one before ends, and the last ends at total. */
  ghost predicate NoGaps(offsets: seq<nat>, counts: seq<nat>, total: nat) {
    && |offsets| == |counts|
    && (forall i :: 0 <= i < |offsets| ==> Adjoins(offsets, counts, i))
    && total == if |offsets| == 0 then 0 else offsets[|offsets| - 1] + counts[|offsets| - 1]
  }

  lemma NextRun(offsets: seq<nat>, counts: seq<nat>, total: nat, count: nat)
    requires Layout(offsets, counts, total) && NoGaps(offsets, counts, total)
    ensures Layout(offsets + [total], counts + [count], total + count)
    ensures NoGaps(offsets + [total], counts + [count], total + count)
  {
    var offsets', counts' := offsets + [total], counts + [count];
    forall i | 0 <= i < |offsets'| ensures Adjoins(offsets', counts', i) {
      if i < |offsets| {
        assert Adjoins(offsets, counts, i);
      }
    }
  }

  ghost predicate InPlace<T>(rows: seq<T>, begin: nat, part: seq<T>) {
    begin + |part| <= |rows| && rows[begin..begin + |part|] == part
  }

  ghost predicate LaidOut<T>(rows: seq<T>, offsets: seq<nat>, counts: seq<nat>, parts: seq<seq<T>>) {
    && |parts| == |offsets| == |counts|
    && (forall i :: 0 <= i < |parts| ==> |parts[i]| == counts[i] && InPlace(rows, offsets[i], parts[i]))
  }

  /** Writing inside one run leaves every other run as it is. */
  lemma WriteInRun<T>(rows: seq<T>, offsets: seq<nat>, counts: seq<nat>, parts: seq<seq<T>>, i: nat, m: nat, x: T)
    requires Layout(offsets, counts, |rows|) && LaidOut(rows, offsets, counts, parts) && i < |parts| && m < counts[i]
    ensures offsets[i] + m < |rows|
    ensures LaidOut(rows[offsets[i] + m := x], offsets, counts, parts[i := parts[i][m := x]])
  {
    assert InPlace(rows, offsets[i], parts[i]);
    var rows', parts' := rows[offsets[i] + m := x], parts[i := parts[i][m := x]];
    forall j | 0 <= j < |parts| ensures InPlace(rows', offsets[j], parts'[j]) {
      assert InPlace(rows, offsets[j], parts[j]);
      if j == i {
        SetInside(rows, offsets[i], parts[i], m, x);
      } else {
        SetOutside(rows, offsets[j], parts[j], offsets[i] + m, x);
      }
    }
  }

  lemma SetInside<T>(rows: seq<T>, begin: nat, part: seq<T>, m: nat, x: T)
    requires InPlace(rows, begin, part) && m < |part|
    ensures InPlace(rows[begin + m := x], begin, part[m := x])
  {
    var was, now := rows[begin..begin + |part|], rows[begin + m := x][begin..begin + |part|];
    forall k | 0 <= k < |part| ensures now[k] == was[m := x][k] {}
  }

  lemma SetOutside<T>(rows: seq<T>, begin: nat, part: seq<T>, at: nat, x: T)
    requires InPlace(rows, begin, part) && at < |rows| && (at < begin || begin + |part| <= at)
    ensures InPlace(rows[at := x], begin, part)
  {
    assert rows[at := x][begin..begin + |part|] == rows[begin..begin + |part|];
  }

  /** So does replacing one run by another of its length. */
  lemma ReplaceRun<T>(rows: seq<T>, offsets: seq<nat>, counts: seq<nat>, parts: seq<seq<T>>, i: nat, part: seq<T>)
    requires Layout(offsets, counts, |rows|) && LaidOut(rows, offsets, counts, parts)
    requires i < |parts| && |part| == counts[i]
    ensures offsets[i] + counts[i] <= |rows|
    ensures LaidOut(rows[..offsets[i]] + part + rows[offsets[i] + counts[i]..], offsets, counts, parts[i := part])
  {
    var rows' := rows[..offsets[i]] + part + rows[offsets[i] + counts[i]..];
    forall j | 0 <= j < |parts| ensures InPlace(rows', offsets[j], parts[i := part][j]) {
      assert InPlace(rows, offsets[j], parts[j]);
      if j != i {
        ReplaceOutside(rows, offsets[j], parts[j], offsets[i], part);
      }
    }
  }

  lemma ReplaceOutside<T>(rows: seq<T>, begin: nat, part: seq<T>, at: nat, other: seq<T>)
    requires InPlace(rows, begin, part) && at + |other| <= |rows| && (at + |other| <= begin || begin + |part| <= at)
    ensures InPlace(rows[..at] + other + rows[at + |other|..], begin, part)
  {
    var rows' := rows[..at] + other + rows[at + |other|..];
    assert rows'[begin..begin + |part|] == rows[begin..begin + |part|];
  }

  lemma {:induction false} LaidOutJoined<T>(rows: seq<T>, offsets: seq<nat>, counts: seq<nat>, parts: seq<seq<T>>,
                                            i: nat)
    requires NoGaps(offsets, counts, |rows|) && LaidOut(rows, offsets, counts, parts) && i < |parts|
    ensures offsets[i] + counts[i] <= |rows| && rows[..offsets[i] + counts[i]] == Joined(parts[..i + 1])
  {
    assert InPlace(rows, offsets[i], parts[i]) && Adjoins(offsets, counts, i);
    JoinedSplit(parts, i);
    if i > 0 {
      LaidOutJoined(rows, offsets, counts, parts, i - 1);
    } else {
      assert parts[..0] == [];
    }
    assert rows[..offsets[i] + counts[i]] == rows[..offsets[i]] + rows[offsets[i]..offsets[i] + counts[i]];
  }

  lemma LaidOutIsJoined<T>(rows: seq<T>, offsets: seq<nat>, counts: seq<nat>, parts: seq<seq<T>>)
    requires NoGaps(offsets, counts, |rows|) && LaidOut(rows, offsets, counts, parts)
    ensures rows == Joined(parts)
  {
    if parts != [] {
      LaidOutJoined(rows, offsets, counts, parts, |parts| - 1);
      assert parts[..|parts|] == parts && rows[..|rows|] == rows;
    }
  }

  lemma {:induction false} EmptyJoined<T>(parts: seq<seq<T>>)
    requires forall i :: 0 <= i < |parts| ==> parts[i] == []
    ensures Joined(parts) == []
  {
    if parts != [] {
      EmptyJoined(parts[..|parts| - 1]);
    }
  }

  lemma GroupsSnoc(before: seq<CostRow>, last: CostRow, n: nat)
    requires last.slot < n
    ensures Groups(before + [last], n) == Groups(before, n)[last.slot := Groups(before, n)[last.slot] + [last]]
  {
    var table := before + [last];
    assert table[..|table| - 1] == before;
    var grown := Groups(before, n)[last.slot := Groups(before, n)[last.slot] + [last]];
    forall i | 0 <= i < n ensures Groups(table, n)[i] == grown[i] {
      assert Of(table, i) == Of(before, i) + if last.slot == i then [last] else [];
    }
  }

  /** The groups together are the table, each row once. */
  lemma {:induction false} GroupsPermuteTable(table: seq<CostRow>, n: nat)
    requires Within(table, n)
    ensures multiset(Joined(Groups(table, n))) == multiset(table)
    ensures |Joined(Groups(table, n))| == |table|
  {
    hide Joined;
    if table == [] {
      EmptyJoined(Groups(table, n));
    } else {
      var before, last := table[..|table| - 1], table[|table| - 1];
      GroupsPermuteTable(before, n);
      JoinedGrown(Groups(before, n), last.slot, last);
      GroupsSnoc(before, last, n);
      assert table == before + [last];
    }
    SameSize(Joined(Groups(table, n)), table);
  }

  lemma SameSize<T>(a: seq<T>, b: seq<T>)
    requires multiset(a) == multiset(b)
    ensures |a| == |b|
  {
    assert |multiset(a)| == |multiset(b)|;
  }

  lemma {:induction false} SortedJoined<T>(parts: seq<seq<T>>, sorted: seq<seq<T>>)
    requires |parts| == |sorted| && forall i :: 0 <= i < |parts| ==> multiset(sorted[i]) == multiset(parts[i])
    ensures multiset(Joined(sorted)) == multiset(Joined(parts))
  {
    if parts != [] {
      SortedJoined(parts[..|parts| - 1], sorted[..|parts| - 1]);
    }
  }

  // ------------------------------------------------------------------------- the constructor's loops

  ghost predicate Counted(counts: seq<nat>, groups: seq<seq<CostRow>>) {
    |counts| == |groups| && forall i :: 0 <= i < |counts| ==> counts[i] == |groups[i]|
  }

  method CountRows(table: seq<CostRow>, n: nat) returns (counts: seq<nat>)
    requires Within(table, n)
    ensures Counted(counts, Groups(table, n))
  {
    counts := seq(n, _ => 0);
    for k := 0 to |table|
      invariant |counts| == n && forall i :: 0 <= i < n ==> counts[i] == |Of(table[..k], i)|
    {
      assert table[..k + 1][..k] == table[..k];
      counts := counts[table[k].slot := counts[table[k].slot] + 1];
    }
    assert table[..|table|] == table;
  }

  method RunningTotals(counts: seq<nat>, ghost parts: seq<seq<CostRow>>) returns (offsets: seq<nat>)
    requires Counted(counts, parts)
    ensures Layout(offsets, counts, |Joined(parts)|) && NoGaps(offsets, counts, |Joined(parts)|)
  {
    offsets := [];
    var running: nat := 0;
    for i := 0 to |counts|
      invariant |offsets| == i && running == |Joined(parts[..i])|
      invariant Layout(offsets, counts[..i], running) && NoGaps(offsets, counts[..i], running)
    {
      NextRun(offsets, counts[..i], running, counts[i]);
      assert counts[..i + 1] == counts[..i] + [counts[i]];
      offsets := offsets + [running];
      running := running + counts[i];
      JoinedSplit(parts, i);
    }
    assert parts[..|counts|] == parts && counts[..|counts|] == counts;
  }

  /** The first writes[i] places of each run hold that instrument's rows so far. */
  ghost predicate Begun(parts: seq<seq<CostRow>>, writes: seq<nat>, done: seq<seq<CostRow>>) {
    && |parts| == |writes| == |done|
    && forall i :: 0 <= i < |parts| ==> writes[i] <= |parts[i]| && parts[i][..writes[i]] == done[i]
  }

  lemma WriteNext(parts: seq<seq<CostRow>>, writes: seq<nat>, done: seq<seq<CostRow>>, slot: nat, row: CostRow)
    requires Begun(parts, writes, done) && slot < |parts| && writes[slot] < |parts[slot]|
    ensures Begun(parts[slot := parts[slot][writes[slot] := row]], writes[slot := writes[slot] + 1],
                  done[slot := done[slot] + [row]])
  {
    assert parts[slot][writes[slot] := row][..writes[slot] + 1] == parts[slot][..writes[slot]] + [row];
  }

  /** There is always room for the next row of the table. */
  lemma RoomForNext(table: seq<CostRow>, n: nat, k: nat)
    requires Within(table, n) && k < |table|
    ensures var slot, done := table[k].slot, Groups(table[..k], n);
            |done[slot]| < |Groups(table, n)[slot]|
    ensures var slot, done := table[k].slot, Groups(table[..k], n);
            Groups(table[..k + 1], n) == done[slot := done[slot] + [table[k]]]
  {
    assert table[..k + 1] == table[..k] + [table[k]];
    GroupsSnoc(table[..k], table[k], n);
    OfGrows(table, k + 1, table[k].slot);
  }

  lemma AllWritten(parts: seq<seq<CostRow>>, writes: seq<nat>, groups: seq<seq<CostRow>>, counts: seq<nat>)
    requires Begun(parts, writes, groups) && Counted(counts, groups) && Counted(counts, parts)
    ensures parts == groups
  {
    forall i | 0 <= i < |parts| ensures parts[i] == groups[i] {
      assert |parts[i][..writes[i]]| == |groups[i]|;
    }
  }

  lemma NothingDone(parts: seq<seq<CostRow>>, writes: seq<nat>, n: nat)
    requires |parts| == |writes| == n && forall i :: 0 <= i < n ==> writes[i] == 0
    ensures Begun(parts, writes, Groups([], n))
  {
  }

  method Distribute(table: seq<CostRow>, n: nat, counts: seq<nat>, offsets: seq<nat>) returns (rows: seq<CostRow>)
    requires Within(table, n) && Counted(counts, Groups(table, n)) && Layout(offsets, counts, |table|)
    ensures |rows| == |table| && LaidOut(rows, offsets, counts, Groups(table, n))
  {
    hide Of;
    rows := seq(|table|, _ => CostRow(0, 0, 0.0, 0.0, 0.0));
    var writes: seq<nat> := seq(n, _ => 0);
    ghost var parts := seq(n, i requires 0 <= i < n => rows[offsets[i]..offsets[i] + counts[i]]);
    assert table[..0] == [];
    ghost var done := Groups(table[..0], n);
    NothingDone(parts, writes, n);
    for k := 0 to |table|
      invariant |rows| == |table| && |writes| == n
      invariant done == Groups(table[..k], n)
      invariant Begun(parts, writes, done) && LaidOut(rows, offsets, counts, parts)
    {
      var slot := table[k].slot;
      RoomForNext(table, n, k);
      assert writes[slot] == |done[slot]|;
      WriteInRun(rows, offsets, counts, parts, slot, writes[slot], table[k]);
      WriteNext(parts, writes, done, slot, table[k]);
      done := Groups(table[..k + 1], n);
      parts := parts[slot := parts[slot][writes[slot] := table[k]]];
      rows := rows[offsets[slot] + writes[slot] := table[k]];
      writes := writes[slot := writes[slot] + 1];
    }
    assert table[..|table|] == table;
    AllWritten(parts, writes, done, counts);
  }

  ghost predicate ByWeek(run: seq<CostRow>) {
    forall j, k :: 0 <= j < k < |run| ==> run[j].week <= run[k].week
  }

  /** std::upper_bound: how many rows start at or before ts. */
  method UpperBound(run: seq<CostRow>, ts: int) returns (at: nat)
    requires ByWeek(run)
    ensures at <= |run|
    ensures forall k :: 0 <= k < at ==> run[k].week <= ts
    ensures forall k :: at <= k < |run| ==> ts < run[k].week
  {
    var low, high := 0, |run|;
    while low < high
      invariant 0 <= low <= high <= |run|
      invariant forall k :: 0 <= k < low ==> run[k].week <= ts
      invariant forall k :: high <= k < |run| ==> ts < run[k].week
    {
      var mid := (low + high) / 2;
      if ts < run[mid].week {
        high := mid;
      } else {
        low := mid + 1;
      }
    }
    at := low;
  }

  /** Any sort by week; equal weeks may end in any order. */
  method SortByWeek(run: seq<CostRow>) returns (sorted: seq<CostRow>)
    ensures ByWeek(sorted) && multiset(sorted) == multiset(run) && |sorted| == |run|
  {
    sorted := [];
    for k := 0 to |run|
      invariant ByWeek(sorted) && multiset(sorted) == multiset(run[..k]) && |sorted| == k
    {
      var at := UpperBound(sorted, run[k].week);
      hide ByWeek;
      InsertedByWeek(sorted, at, run[k]);
      assert run[..k + 1] == run[..k] + [run[k]];
      sorted := sorted[..at] + [run[k]] + sorted[at..];
    }
    assert run[..|run|] == run;
  }

  lemma InsertedByWeek(sorted: seq<CostRow>, at: nat, row: CostRow)
    requires ByWeek(sorted) && at <= |sorted|
    requires forall k :: 0 <= k < at ==> sorted[k].week <= row.week
    requires forall k :: at <= k < |sorted| ==> row.week < sorted[k].week
    ensures var r := sorted[..at] + [row] + sorted[at..];
            ByWeek(r) && multiset(r) == multiset(sorted) + multiset{row} && |r| == |sorted| + 1
  {
    assert sorted == sorted[..at] + sorted[at..];
  }

  ghost predicate RunOk(group: seq<CostRow>, run: seq<CostRow>) {
    ByWeek(run) && multiset(run) == multiset(group)
  }

  /** Each instrument's run holds exactly its rows of the table, by week, and the runs lie end to end
      in rows. */
  ghost predicate Indexed(table: seq<CostRow>, n: nat, rows: seq<CostRow>, offsets: seq<nat>, counts: seq<nat>,
                          runs: seq<seq<CostRow>>) {
    && Within(table, n) && |runs| == n
    && Layout(offsets, counts, |rows|) && NoGaps(offsets, counts, |rows|) && LaidOut(rows, offsets, counts, runs)
    && (forall i :: 0 <= i < n ==> RunOk(Of(table, i), runs[i]))
  }

  /** The constructor permutes the table's rows into disjoint runs. */
  lemma RunsPermuteTable(table: seq<CostRow>, n: nat, rows: seq<CostRow>, offsets: seq<nat>, counts: seq<nat>,
                         runs: seq<seq<CostRow>>)
    requires Indexed(table, n, rows, offsets, counts, runs)
    ensures multiset(rows) == multiset(table)
  {
    GroupsPermuteTable(table, n);
    forall i | 0 <= i < n ensures multiset(runs[i]) == multiset(Groups(table, n)[i]) {
      assert RunOk(Of(table, i), runs[i]);
    }
    SortedJoined(Groups(table, n), runs);
    LaidOutIsJoined(rows, offsets, counts, runs);
  }

  /** Runs before i are sorted, the others still in table order. */
  ghost predicate Sorting(groups: seq<seq<CostRow>>, i: nat, runs: seq<seq<CostRow>>) {
    && i <= |runs| == |groups|
    && (forall j :: 0 <= j < i ==> RunOk(groups[j], runs[j]))
    && (forall j :: i <= j < |runs| ==> runs[j] == groups[j])
  }

  lemma RunAt<T>(rows: seq<T>, offsets: seq<nat>, counts: seq<nat>, parts: seq<seq<T>>, i: nat)
    requires Layout(offsets, counts, |rows|) && LaidOut(rows, offsets, counts, parts) && i < |counts|
    ensures |parts| == |offsets| == |counts| && |parts[i]| == counts[i] && offsets[i] + counts[i] <= |rows|
    ensures rows[offsets[i]..offsets[i] + counts[i]] == parts[i]
  {
    assert InPlace(rows, offsets[i], parts[i]);
  }

  /** The constructor's last loop: each run sorted in place. */
  method SortRuns(ghost groups: seq<seq<CostRow>>, counts: seq<nat>, offsets: seq<nat>, rows0: seq<CostRow>)
      returns (rows: seq<CostRow>, ghost runs: seq<seq<CostRow>>)
    requires Layout(offsets, counts, |rows0|) && LaidOut(rows0, offsets, counts, groups)
    ensures |rows| == |rows0| && LaidOut(rows, offsets, counts, runs) && Sorting(groups, |groups|, runs)
  {
    rows, runs := rows0, groups;
    for i := 0 to |counts|
      invariant |rows| == |rows0| && LaidOut(rows, offsets, counts, runs) && Sorting(groups, i, runs)
    {
      hide LaidOut, Layout, RunOk;
      RunAt(rows, offsets, counts, runs, i);
      var begin, end := offsets[i], offsets[i] + counts[i];
      var sorted := SortByWeek(rows[begin..end]);
      ReplaceRun(rows, offsets, counts, runs, i, sorted);
      rows := rows[..begin] + sorted + rows[end..];
      runs := runs[i := sorted];
    }
  }

  // ------------------------------------------------------------------------------------- the lookup

  /** A linear scan of the table for the latest row of an instrument at or before ts. */
  function Latest(table: seq<CostRow>, slot: nat, ts: int): Option<CostRow> {
    if table == [] then None
    else
      var best, last := Latest(table[..|table| - 1], slot, ts), table[|table| - 1];
      if last.slot != slot || ts < last.week || (best.Some? && last.week < best.value.week) then best else Some(last)
  }

  predicate Applies(table: seq<CostRow>, slot: nat, ts: int, row: CostRow) {
    row in table && row.slot == slot && row.week <= ts
  }

  ghost predicate IsLatest(table: seq<CostRow>, slot: nat, ts: int, row: CostRow) {
    Applies(table, slot, ts, row) && forall other :: Applies(table, slot, ts, other) ==> other.week <= row.week
  }

  ghost predicate Scanned(table: seq<CostRow>, slot: nat, ts: int, found: Option<CostRow>) {
    match found
    case None => forall row :: !Applies(table, slot, ts, row)
    case Some(row) => IsLatest(table, slot, ts, row)
  }

  lemma {:induction false} LatestIsLatest(table: seq<CostRow>, slot: nat, ts: int)
    ensures Scanned(table, slot, ts, Latest(table, slot, ts))
  {
    if table != [] {
      var before, last := table[..|table| - 1], table[|table| - 1];
      LatestIsLatest(before, slot, ts);
      assert table == before + [last];
      forall row | Applies(table, slot, ts, row) && row != last ensures Applies(before, slot, ts, row) {}
    }
  }

  ghost predicate WeeksDistinct(table: seq<CostRow>) {
    forall a, b :: a in table && b in table && a.slot == b.slot && a.week == b.week ==> a == b
  }

  function PricingFrom(row: CostRow, o: Order, ref: real): Pricing {
    var bps := row.halfSpreadBps + row.impactBps * o.qty;
    var fillPrice := ref * (1.0 + (if o.side.Buy? then bps else -bps) / 10000.0);
    Pricing(fillPrice, fillPrice * o.qty * row.takerFeeBps / 10000.0)
  }

  /** What a row costs an order: half the spread and the impact of its quantity, in basis points of the reference
      price, above it for a buy and below it for a sell, and the fee in basis points of what the fill is worth. */
  ghost predicate Costs(row: CostRow, o: Order, ref: real, pricing: Pricing) {
    var away := ref * (row.halfSpreadBps + row.impactBps * o.qty);
    && (pricing.fillPrice - ref) * 10000.0 == (if o.side.Buy? then away else -away)
    && pricing.fee * 10000.0 == pricing.fillPrice * o.qty * row.takerFeeBps
  }

  lemma BasisPoints(ref: real, bps: real)
    ensures (ref * (1.0 + bps / 10000.0) - ref) * 10000.0 == ref * bps
    ensures ref * (-bps) == -(ref * bps)
  {
    assert ref * (1.0 + bps / 10000.0) == ref + ref * (bps / 10000.0);
    assert ref * (bps / 10000.0) * 10000.0 == ref * (bps / 10000.0 * 10000.0);
  }

  lemma PricedFromRow(row: CostRow, o: Order, ref: real)
    ensures Costs(row, o, ref, PricingFrom(row, o, ref))
  {
    var bps := row.halfSpreadBps + row.impactBps * o.qty;
    BasisPoints(ref, bps);
    BasisPoints(ref, -bps);
  }

  lemma NotNegative(ref: real, spread: real, impact: real, qty: real)
    requires ref >= 0.0 && spread >= 0.0 && impact >= 0.0 && qty >= 0.0
    ensures ref * (spread + impact * qty) >= 0.0
  {
    assert impact * qty >= 0.0;
    var bps := spread + impact * qty;
    assert ref * bps >= 0.0;
  }

  /** With nothing negative in it a buy fills at the reference price or above and a sell at it or below. */
  lemma NeverBetterThanRef(row: CostRow, o: Order, ref: real, pricing: Pricing)
    requires Costs(row, o, ref, pricing)
    requires ref >= 0.0 && o.qty >= 0.0 && row.halfSpreadBps >= 0.0 && row.impactBps >= 0.0
    ensures if o.side.Buy? then pricing.fillPrice >= ref else pricing.fillPrice <= ref
  {
    NotNegative(ref, row.halfSpreadBps, row.impactBps, o.qty);
  }

  /** What the binary search of a run finds, a scan of the whole table finds. */
  lemma FoundInRun(table: seq<CostRow>, slot: nat, run: seq<CostRow>, ts: int, at: nat)
    requires RunOk(Of(table, slot), run) && at <= |run|
    requires forall k :: 0 <= k < at ==> run[k].week <= ts
    requires forall k :: at <= k < |run| ==> ts < run[k].week
    ensures Scanned(table, slot, ts, if at == 0 then None else Some(run[at - 1]))
  {
    forall row | Applies(table, slot, ts, row) ensures at > 0 && row.week <= run[at - 1].week {
      OfMembers(table, slot, row);
      assert row in multiset(run);
    }
    if at > 0 {
      OfMembers(table, slot, run[at - 1]);
      assert run[at - 1] in multiset(run);
    }
  }

  lemma LatestWhenDistinct(table: seq<CostRow>, slot: nat, ts: int, row: CostRow)
    requires WeeksDistinct(table) && IsLatest(table, slot, ts, row)
    ensures Latest(table, slot, ts) == Some(row)
  {
    LatestIsLatest(table, slot, ts);
    assert Latest(table, slot, ts).Some? by { assert Applies(table, slot, ts, row); }
  }

  /** The row a price is made from, by binary search in the instrument's run. */
  method Lookup(ghost table: seq<CostRow>, slot: nat, run: seq<CostRow>, ts: int) returns (row: Option<CostRow>)
    requires RunOk(Of(table, slot), run)
    ensures Scanned(table, slot, ts, row)
    ensures row.None? <==> Latest(table, slot, ts).None?
    ensures row.Some? && WeeksDistinct(table) ==> row == Latest(table, slot, ts)
  {
    var at := UpperBound(run, ts);
    FoundInRun(table, slot, run, ts, at);
    row := if at == 0 then None else Some(run[at - 1]);
    LatestIsLatest(table, slot, ts);
    if row.Some? {
      assert Applies(table, slot, ts, row.value);
      if WeeksDistinct(table) {
        LatestWhenDistinct(table, slot, ts, row.value);
      }
    }
  }

  class HalfSpreadLinearImpact {
    ghost const table: seq<CostRow>
    ghost const runs: seq<seq<CostRow>>
    const rows: seq<CostRow>
    const begins: seq<nat>                  // by_instrument_: where each instrument's run begins,
    const lengths: seq<nat>                 // and how long it is

    ghost predicate Valid() {
      Indexed(table, |begins|, rows, begins, lengths, runs)
    }

    constructor (n: nat, table: seq<CostRow>)
      requires Within(table, n)
      ensures Valid() && this.table == table && |begins| == n
    {
      var counts := CountRows(table, n);
      var offsets := RunningTotals(counts, Groups(table, n));
      GroupsPermuteTable(table, n);
      var placed := Distribute(table, n, counts, offsets);
      var sorted, runs := SortRuns(Groups(table, n), counts, offsets, placed);
      this.table, this.runs, this.rows, begins, lengths := table, runs, sorted, offsets, counts;
    }

    /** Prices, above the reference for a buy and below it for a sell, with a row of the order's instrument with the
        greatest week not after ts, and with none
        exactly when a linear scan of the table finds none. With no week twice for an instrument it is
        the very row the scan finds. */
    method Price(o: Order, ref: real, ts: int) returns (pricing: Option<Pricing>)
      requires Valid() && o.slot < |begins|
      ensures pricing.None? <==> Latest(table, o.slot, ts).None?
      ensures pricing.Some? ==>
                exists row :: IsLatest(table, o.slot, ts, row) && pricing.value == PricingFrom(row, o, ref)
                              && Costs(row, o, ref, pricing.value)
      ensures pricing.Some? && ref >= 0.0 && o.qty >= 0.0 &&
              (forall row :: row in table ==> row.halfSpreadBps >= 0.0 && row.impactBps >= 0.0) ==>
                if o.side.Buy? then pricing.value.fillPrice >= ref else pricing.value.fillPrice <= ref
      ensures pricing.Some? && WeeksDistinct(table) ==>
                pricing.value == PricingFrom(Latest(table, o.slot, ts).value, o, ref)
    {
      assert InPlace(rows, begins[o.slot], runs[o.slot]);
      var row := Lookup(table, o.slot, rows[begins[o.slot]..begins[o.slot] + lengths[o.slot]], ts);
      if row.None? { return None; }
      pricing := Some(PricingFrom(row.value, o, ref));
      PricedFromRow(row.value, o, ref);
      hide PricingFrom, Costs;
      if ref >= 0.0 && o.qty >= 0.0 && row.value.halfSpreadBps >= 0.0 && row.value.impactBps >= 0.0 {
        NeverBetterThanRef(row.value, o, ref, pricing.value);
      }
    }
  }
}
