/** The row fields: fixed-width datetimes, epoch stamps in two units, and fixed-point decimals. */
module CsvField {
  import opened Calendar
  import opened Ring

  const INT64_MAX := 9_223_372_036_854_775_807
  const MICROSECOND_FLOOR := 100_000_000_000_000
  const STAMP_CEILING := 100_000_000_000_000_000
  const MAX_MANTISSA_DIGITS := 18

  predicate FitsInt64(v: int) {
    -INT64_MAX - 1 <= v <= INT64_MAX
  }

  // ------------------------------------------------------------------------------------------ digits

  predicate IsDigit(c: char) {
    '0' <= c <= '9'
  }

  function DigitOf(c: char): nat
    requires IsDigit(c)
  {
    (c - '0') as nat
  }

  predicate AllDigits(s: string) {
    forall k :: 0 <= k < |s| ==> IsDigit(s[k])
  }

  function Num(s: string): nat
    requires AllDigits(s)
  {
    if s == [] then 0 else Num(s[..|s| - 1]) * 10 + DigitOf(s[|s| - 1])
  }

  function Digits(s: string): Option<nat> {
    if AllDigits(s) then Some(Num(s)) else None
  }

  /** n in w digits, the leading ones zero. */
  function Pad(n: nat, w: nat): string {
    if w == 0 then "" else Pad(n / 10, w - 1) + ['0' + (n % 10) as char]
  }

  function Pow10(w: nat): (r: nat)
    ensures r > 0
  {
    if w == 0 then 1 else 10 * Pow10(w - 1)
  }

  lemma {:induction false} PadReadsBack(n: nat, w: nat)
    requires n < Pow10(w)
    ensures |Pad(n, w)| == w && AllDigits(Pad(n, w)) && Num(Pad(n, w)) == n
  {
    if w > 0 {
      PadReadsBack(n / 10, w - 1);
      var last := '0' + (n % 10) as char;
      assert IsDigit(last) && DigitOf(last) == n % 10;
      assert Pad(n, w)[..w - 1] == Pad(n / 10, w - 1);
    }
  }

  lemma {:induction false} ReadPadsBack(s: string)
    requires AllDigits(s)
    ensures Num(s) < Pow10(|s|) && Pad(Num(s), |s|) == s
  {
    if s != [] {
      var front, last := s[..|s| - 1], s[|s| - 1];
      ReadPadsBack(front);
      assert Num(s) / 10 == Num(front) && Num(s) % 10 == DigitOf(last);
      assert '0' + DigitOf(last) as char == last;
      assert s == front + [last];
    }
  }

  // ------------------------------------------------------------------------- order of equally long text

  predicate LexLess(a: string, b: string)
    requires |a| == |b|
  {
    a != [] && (a[0] < b[0] || (a[0] == b[0] && LexLess(a[1..], b[1..])))
  }

  lemma {:induction false} LexConcat(a: string, a': string, b: string, b': string)
    requires |a| == |b| && |a'| == |b'|
    ensures LexLess(a + a', b + b') <==> LexLess(a, b) || (a == b && LexLess(a', b'))
  {
    if a == [] {
      assert a + a' == a' && b + b' == b';
    } else {
      LexConcat(a[1..], a', b[1..], b');
      assert (a + a')[1..] == a[1..] + a' && (b + b')[1..] == b[1..] + b';
      assert a == b <==> a[0] == b[0] && a[1..] == b[1..];
    }
  }

  /** A separator both have does not decide. */
  lemma LexField(a: string, c: char, a': string, b: string, b': string)
    requires |a| == |b| && |a'| == |b'|
    ensures LexLess(a + [c] + a', b + [c] + b') <==> LexLess(a, b) || (a == b && LexLess(a', b'))
  {
    LexConcat(a + [c], a', b + [c], b');
    LexConcat(a, [c], b, [c]);
    assert a + [c] == b + [c] <==> a == b by {
      assert (a + [c])[..|a|] == a && (b + [c])[..|b|] == b;
    }
  }

  /** Digit strings of one length are in the order of their numbers. */
  lemma {:induction false} DigitsInOrder(a: string, b: string)
    requires |a| == |b| && AllDigits(a) && AllDigits(b)
    ensures LexLess(a, b) <==> Num(a) < Num(b)
    ensures a == b <==> Num(a) == Num(b)
  {
    if a != [] {
      var n := |a| - 1;
      DigitsInOrder(a[..n], b[..n]);
      LexConcat(a[..n], [a[n]], b[..n], [b[n]]);
      assert a == a[..n] + [a[n]] && b == b[..n] + [b[n]];
      assert LexLess([a[n]], [b[n]]) <==> a[n] < b[n];
    }
  }

  // ---------------------------------------------------------------------------------------- datetimes

  datatype Stamp = Stamp(date: Date, hour: nat, minute: nat, second: nat)

  predicate IsStamp(s: Stamp) {
    IsDate(s.date) && 0 <= s.date.year <= 9999 && s.hour <= 23 && s.minute <= 59 && s.second <= 59
  }

  function Instant(s: Stamp): int
    requires IsDate(s.date)
  {
    (DayNumber(s.date) * 86_400 + s.hour * 3_600 + s.minute * 60 + s.second) * 1_000_000_000
  }

  function Render(s: Stamp): string
    requires s.date.year >= 0 && s.date.month >= 0 && s.date.day >= 0
  {
    Text(Pad(s.date.year, 4), Pad(s.date.month, 2), Pad(s.date.day, 2), Pad(s.hour, 2), Pad(s.minute, 2),
        Pad(s.second, 2))
  }

  function Text(year: string, month: string, day: string, hour: string, minute: string, second: string): string {
    year + "-" + (month + "-" + (day + " " + (hour + ":" + (minute + ":" + second))))
  }

  /** The stamp of a 19 character field, when it has the shape and is a real instant. */
  function StampIn(field: string): (r: Option<Stamp>)
    requires |field| == 19
    ensures r.Some? ==> IsStamp(r.value)
  {
    if field[4] != '-' || field[7] != '-' || field[10] != ' ' || field[13] != ':' || field[16] != ':' then None
    else
      var year, month, day := Digits(field[0..4]), Digits(field[5..7]), Digits(field[8..10]);
      var hour, minute, second := Digits(field[11..13]), Digits(field[14..16]), Digits(field[17..19]);
      if year.None? || month.None? || day.None? || hour.None? || minute.None? || second.None? then None
      else if day.value < 1 || day.value > DaysInMonth(year.value, month.value) then None
      else if hour.value > 23 || minute.value > 59 || second.value > 59 then None
      else
        FourDigits(field[0..4]);
        Some(Stamp(Date(year.value, month.value, day.value), hour.value, minute.value, second.value))
  }

  lemma FourDigits(s: string)
    requires AllDigits(s) && |s| == 4
    ensures Num(s) <= 9999
  {
    ReadPadsBack(s);
    assert Pow10(4) == 10 * Pow10(3) == 100 * Pow10(2) == 1000 * Pow10(1);
  }

  /** take_datetime: the timestamp and what is left of the row. */
  function Datetime(row: string): Option<(int, string)> {
    if |row| < 19 || StampIn(row[..19]).None? || (|row| > 19 && row[19] != ',') then None
    else Some((Instant(StampIn(row[..19]).value), if |row| > 19 then row[20..] else []))
  }

  method FixedDigits(field: string, pos: nat, count: nat) returns (r: Option<nat>)
    requires pos + count <= |field|
    ensures r == Digits(field[pos..pos + count])
  {
    var value := 0;
    for i := 0 to count
      invariant AllDigits(field[pos..pos + i]) && value == Num(field[pos..pos + i])
    {
      var c := field[pos + i];
      if !IsDigit(c) {
        assert field[pos..pos + count][i] == c;
        return None;
      }
      assert field[pos..pos + i + 1] == field[pos..pos + i] + [c];
      value := value * 10 + DigitOf(c);
    }
    r := Some(value);
  }

  method TakeDatetime(row: string) returns (r: Option<(int, string)>)
    ensures r == Datetime(row)
  {
    hide DaysFromCivil, Digits;
    if |row| < 19 { return None; }
    var field := row[..19];
    if field[4] != '-' || field[7] != '-' || field[10] != ' ' || field[13] != ':' || field[16] != ':' {
      return None;
    }
    var year := FixedDigits(field, 0, 4);
    var month := FixedDigits(field, 5, 2);
    var day := FixedDigits(field, 8, 2);
    var hour := FixedDigits(field, 11, 2);
    var minute := FixedDigits(field, 14, 2);
    var second := FixedDigits(field, 17, 2);
    if year.None? || month.None? || day.None? || hour.None? || minute.None? || second.None? { return None; }
    if day.value < 1 || day.value > DaysInMonth(year.value, month.value) { return None; }
    if hour.value > 23 || minute.value > 59 || second.value > 59 { return None; }
    if |row| > 19 && row[19] != ',' { return None; }
    var days := DaysFromCivil(year.value, month.value, day.value);
    var secs := days * 86_400 + hour.value * 3_600 + minute.value * 60 + second.value;
    r := Some((secs * 1_000_000_000, if |row| > 19 then row[20..] else []));
  }

  lemma TextParts(year: string, month: string, day: string, hour: string, minute: string, second: string)
    requires |year| == 4 && |month| == 2 && |day| == 2 && |hour| == 2 && |minute| == 2 && |second| == 2
    ensures var f := Text(year, month, day, hour, minute, second);
            && |f| == 19 && f[4] == '-' && f[7] == '-' && f[10] == ' ' && f[13] == ':' && f[16] == ':'
            && f[0..4] == year && f[5..7] == month && f[8..10] == day
            && f[11..13] == hour && f[14..16] == minute && f[17..19] == second
  {
    var time := hour + (":" + (minute + (":" + second)));
    var f := Text(year, month, day, hour, minute, second);
    assert f == year + "-" + month + "-" + day + " " + time;
    assert |time| == 8 && time[2] == ':' && time[5] == ':';
    assert f[11..] == time && time[..2] == hour && time[3..5] == minute && time[6..] == second;
  }

  lemma PartsText(f: string)
    requires |f| == 19 && f[4] == '-' && f[7] == '-' && f[10] == ' ' && f[13] == ':' && f[16] == ':'
    ensures f == Text(f[0..4], f[5..7], f[8..10], f[11..13], f[14..16], f[17..19])
  {
  }

  lemma StampDigits(s: Stamp)
    requires IsStamp(s)
    ensures s.date.year < Pow10(4) && s.date.month < Pow10(2) && s.date.day < Pow10(2)
    ensures s.hour < Pow10(2) && s.minute < Pow10(2) && s.second < Pow10(2)
  {
    assert Pow10(4) == 10 * Pow10(3) == 100 * Pow10(2) == 1000 * Pow10(1);
    assert DaysInMonth(s.date.year, s.date.month) <= 31;
  }

  lemma RenderedStamp(s: Stamp)
    requires IsStamp(s)
    ensures |Render(s)| == 19 && StampIn(Render(s)) == Some(s)
  {
    StampDigits(s);
    PadReadsBack(s.date.year, 4);
    PadReadsBack(s.date.month, 2);
    PadReadsBack(s.date.day, 2);
    PadReadsBack(s.hour, 2);
    PadReadsBack(s.minute, 2);
    PadReadsBack(s.second, 2);
    TextParts(Pad(s.date.year, 4), Pad(s.date.month, 2), Pad(s.date.day, 2), Pad(s.hour, 2), Pad(s.minute, 2),
        Pad(s.second, 2));
  }

  /** What is written is read back: every real stamp is accepted in its rendering, alone or before a
      comma, as its own instant. */
  lemma RenderedIsAccepted(s: Stamp, rest: string)
    requires IsStamp(s) && (rest == [] || rest[0] == ',')
    ensures Datetime(Render(s) + rest) == Some((Instant(s), if rest == [] then [] else rest[1..]))
  {
    RenderedStamp(s);
    FieldAndRest(Render(s), rest);
  }

  lemma FieldAndRest(field: string, rest: string)
    requires |field| == 19
    ensures (field + rest)[..19] == field
    ensures rest != [] ==> (field + rest)[19] == rest[0] && (field + rest)[20..] == rest[1..]
  {
  }

  /** And nothing else is accepted: an accepted row begins with the rendering of the stamp it gave. */
  lemma AcceptedIsRendered(field: string)
    requires |field| == 19 && StampIn(field).Some?
    ensures field == Render(StampIn(field).value)
  {
    PartsText(field);
    ReadPadsBack(field[0..4]);
    ReadPadsBack(field[5..7]);
    ReadPadsBack(field[8..10]);
    ReadPadsBack(field[11..13]);
    ReadPadsBack(field[14..16]);
    ReadPadsBack(field[17..19]);
  }

  lemma TextOrder(y: string, mo: string, d: string, h: string, mi: string, s: string,
                  y': string, mo': string, d': string, h': string, mi': string, s': string)
    requires |y| == |y'| && |mo| == |mo'| && |d| == |d'| && |h| == |h'| && |mi| == |mi'| && |s| == |s'|
    ensures LexLess(Text(y, mo, d, h, mi, s), Text(y', mo', d', h', mi', s')) <==>
              || LexLess(y, y')
              || (y == y' && (LexLess(mo, mo') || (mo == mo' && (LexLess(d, d') || (d == d' && (LexLess(h, h')
                  || (h == h' && (LexLess(mi, mi') || (mi == mi' && LexLess(s, s'))))))))))
  {
    var fromMinute, fromMinute' := mi + ":" + s, mi' + ":" + s';
    var fromHour, fromHour' := h + ":" + fromMinute, h' + ":" + fromMinute';
    var fromDay, fromDay' := d + " " + fromHour, d' + " " + fromHour';
    var fromMonth, fromMonth' := mo + "-" + fromDay, mo' + "-" + fromDay';
    LexField(mi, ':', s, mi', s');
    LexField(h, ':', fromMinute, h', fromMinute');
    LexField(d, ' ', fromHour, d', fromHour');
    LexField(mo, '-', fromDay, mo', fromDay');
    LexField(y, '-', fromMonth, y', fromMonth');
    assert Text(y, mo, d, h, mi, s) == y + "-" + fromMonth;
    assert Text(y', mo', d', h', mi', s') == y' + "-" + fromMonth';
  }

  predicate Earlier(a: Stamp, b: Stamp) {
    || Before(a.date, b.date)
    || (a.date == b.date && (a.hour < b.hour || (a.hour == b.hour && (a.minute < b.minute
        || (a.minute == b.minute && a.second < b.second)))))
  }

  lemma FieldOrder(a: string, b: string)
    requires |a| == |b| == 19 && StampIn(a).Some? && StampIn(b).Some?
    ensures LexLess(a, b) <==> Earlier(StampIn(a).value, StampIn(b).value)
    ensures StampIn(a) == StampIn(b) <==> a == b
  {
    PartsText(a);
    PartsText(b);
    TextOrder(a[0..4], a[5..7], a[8..10], a[11..13], a[14..16], a[17..19],
              b[0..4], b[5..7], b[8..10], b[11..13], b[14..16], b[17..19]);
    DigitsInOrder(a[0..4], b[0..4]);
    DigitsInOrder(a[5..7], b[5..7]);
    DigitsInOrder(a[8..10], b[8..10]);
    DigitsInOrder(a[11..13], b[11..13]);
    DigitsInOrder(a[14..16], b[14..16]);
    DigitsInOrder(a[17..19], b[17..19]);
  }

  lemma SecondsInOrder(a: Stamp, b: Stamp)
    requires IsStamp(a) && IsStamp(b) && Earlier(a, b)
    ensures Instant(a) < Instant(b)
  {
    if Before(a.date, b.date) {
      NumbersAscend(a.date, b.date);
    }
    var na, nb := DayNumber(a.date), DayNumber(b.date);
    assert na <= nb;
  }

  /** Of two accepted rows, the one that reads earlier as text has the smaller timestamp, strictly, and
      the other way round. */
  lemma DatetimesKeepTextOrder(a: string, b: string)
    requires Datetime(a).Some? && Datetime(b).Some?
    ensures LexLess(a[..19], b[..19]) <==> Datetime(a).value.0 < Datetime(b).value.0
    ensures a[..19] == b[..19] <==> Datetime(a).value.0 == Datetime(b).value.0
  {
    hide StampIn, Instant, DaysFromCivil, LexLess;
    var s, t := StampIn(a[..19]).value, StampIn(b[..19]).value;
    FieldOrder(a[..19], b[..19]);
    FieldOrder(b[..19], a[..19]);
    if Earlier(s, t) {
      SecondsInOrder(s, t);
    } else if Earlier(t, s) {
      SecondsInOrder(t, s);
    }
  }

  lemma AgainstStamp(row: string, s: Stamp)
    requires Datetime(row).Some? && IsStamp(s)
    ensures |Render(s)| == 19
    ensures LexLess(row[..19], Render(s)) <==> Datetime(row).value.0 < Instant(s)
    ensures LexLess(Render(s), row[..19]) <==> Instant(s) < Datetime(row).value.0
  {
    RenderedStamp(s);
    RenderedIsAccepted(s, "");
    var field := Render(s);
    assert field + "" == field && field[..19] == field;
    DatetimesKeepTextOrder(row, field);
    DatetimesKeepTextOrder(field, row);
  }

  lemma WholeSecondsFit(secs: int)
    ensures FitsInt64(secs * 1_000_000_000) <==> -9_223_372_036 <= secs <= 9_223_372_036
  {
  }

  /** The timestamp fits its 64 bits exactly for the fields from 1677-09-21 00:12:44 to
      2262-04-11 23:47:16. */
  lemma DatetimeFitsExactly(row: string)
    requires Datetime(row).Some?
    ensures IsStamp(FIRST) && IsStamp(LAST) && |Render(FIRST)| == |Render(LAST)| == 19
    ensures FitsInt64(Datetime(row).value.0) <==>
              !LexLess(row[..19], Render(FIRST)) && !LexLess(Render(LAST), row[..19])
  {
    LimitInstants();
    AgainstStamp(row, FIRST);
    AgainstStamp(row, LAST);
    var secs := WholeSeconds(row);
    WholeSecondsFit(secs);
  }

  const FIRST := Stamp(Date(1677, 9, 21), 0, 12, 44)
  const LAST := Stamp(Date(2262, 4, 11), 23, 47, 16)

  lemma LimitInstants()
    ensures IsStamp(FIRST) && IsStamp(LAST)
    ensures Instant(FIRST) == -9_223_372_036_000_000_000
    ensures Instant(LAST) == 9_223_372_036_000_000_000
  {
    InClosedForm(1677, 9, 21);
    InClosedForm(2262, 4, 11);
  }

  lemma WholeSeconds(row: string) returns (secs: int)
    requires Datetime(row).Some?
    ensures Datetime(row).value.0 == secs * 1_000_000_000
  {
    var s := StampIn(row[..19]).value;
    secs := DayNumber(s.date) * 86_400 + s.hour * 3_600 + s.minute * 60 + s.second;
  }

  // ------------------------------------------------------------------------------------- epoch stamps

  /** Milliseconds or, from the floor on, microseconds, as nanoseconds. */
  function ToNanos(stamp: int): int {
    if stamp >= MICROSECOND_FLOOR then stamp * 1_000 else stamp * 1_000_000
  }

  /** The ceiling alone does not keep the scaled stamp in its 64 bits: of the stamps it lets through,
      exactly those up to these two limits fit. */
  lemma ScaledStampFitsExactly(stamp: int)
    requires 0 < stamp < STAMP_CEILING
    ensures FitsInt64(ToNanos(stamp)) <==>
              stamp <= 9_223_372_036_854 || MICROSECOND_FLOOR <= stamp <= 9_223_372_036_854_775
  {
  }

  /** One instant in the two units is one timestamp, exactly from 1973-03-03 09:46:40 on, when its
      microseconds reach the floor. */
  lemma UnitsAgreeExactly(millis: int)
    requires 0 < millis < MICROSECOND_FLOOR
    ensures ToNanos(millis * 1_000) == ToNanos(millis) <==> millis >= 100_000_000_000
  {
  }

  /** How many leading characters are digits. */
  function DigitRun(row: string): (n: nat)
    ensures n <= |row| && AllDigits(row[..n]) && (n < |row| ==> !IsDigit(row[n]))
  {
    if row == [] || !IsDigit(row[0]) then 0 else 1 + DigitRun(row[1..])
  }

  /** take_stamp: a run of 1 to 18 digits up to the comma or the end, above zero, below the ceiling. */
  function StampField(row: string): Option<(int, string)> {
    var n := DigitRun(row);
    if n == 0 || n > MAX_MANTISSA_DIGITS || (n < |row| && row[n] != ',') then None
    else if Num(row[..n]) == 0 || Num(row[..n]) >= STAMP_CEILING then None
    else Some((ToNanos(Num(row[..n])), if n < |row| then row[n + 1..] else []))
  }

  lemma {:induction false} RunEndsAt(row: string, n: nat)
    requires n <= |row| && AllDigits(row[..n]) && (n < |row| ==> !IsDigit(row[n]))
    ensures DigitRun(row) == n
  {
    if n > 0 {
      assert row[..n][0] == row[0];
      RunEndsAt(row[1..], n - 1) by { assert row[1..][..n - 1] == row[..n][1..]; }
    }
  }

  /** A mantissa with one more run of digits shifted in. */
  function Shifted(mantissa: nat, s: string): nat
    requires AllDigits(s)
  {
    if s == [] then mantissa else Shifted(mantissa, s[..|s| - 1]) * 10 + DigitOf(s[|s| - 1])
  }

  lemma {:induction false} ShiftedValue(mantissa: nat, s: string)
    requires AllDigits(s)
    ensures Shifted(mantissa, s) == mantissa * Pow10(|s|) + Num(s)
  {
    if s != [] {
      ShiftedValue(mantissa, s[..|s| - 1]);
      assert mantissa * Pow10(|s| - 1) * 10 == mantissa * Pow10(|s|);
    }
  }

  /** The loop over the digits, which stops adding them up after the eighteenth. */
  method ScanDigits(row: string, mantissa0: nat, digits0: nat) returns (n: nat, mantissa: nat, digits: nat)
    ensures n == DigitRun(row) && digits == digits0 + n
    ensures digits <= MAX_MANTISSA_DIGITS ==> mantissa == Shifted(mantissa0, row[..n])
  {
    n, mantissa, digits := 0, mantissa0, digits0;
    while n < |row| && IsDigit(row[n])
      invariant n <= |row| && AllDigits(row[..n]) && digits == digits0 + n
      invariant digits <= MAX_MANTISSA_DIGITS ==> mantissa == Shifted(mantissa0, row[..n])
    {
      assert row[..n + 1][..n] == row[..n];
      if digits < MAX_MANTISSA_DIGITS {
        mantissa := mantissa * 10 + DigitOf(row[n]);
      }
      n := n + 1;
      digits := digits + 1;
    }
    RunEndsAt(row, n);
  }

  method TakeStamp(row: string) returns (r: Option<(int, string)>)
    ensures r == StampField(row)
  {
    var p, raw, digits := ScanDigits(row, 0, 0);
    ShiftedValue(0, row[..p]);
    if digits == 0 || digits > MAX_MANTISSA_DIGITS || (p != |row| && row[p] != ',') { return None; }
    if raw <= 0 || raw >= STAMP_CEILING { return None; }
    r := Some((ToNanos(raw), if p == |row| then [] else row[p + 1..]));
  }

  /** Every stamp in range is accepted from its digits, alone or before a comma. */
  lemma WrittenStampIsAccepted(stamp: nat, width: nat, rest: string)
    requires 0 < stamp < STAMP_CEILING && stamp < Pow10(width) && width <= MAX_MANTISSA_DIGITS
    requires rest == [] || rest[0] == ','
    ensures StampField(Pad(stamp, width) + rest) == Some((ToNanos(stamp), if rest == [] then [] else rest[1..]))
  {
    hide Pad, Num, DigitRun, ToNanos;
    PadReadsBack(stamp, width);
    var row := Pad(stamp, width) + rest;
    assert row[..width] == Pad(stamp, width);
    RunEndsAt(row, width);
  }

  /** The thirteen digits of the first millisecond too many are accepted, and scaled it has left its 64 bits. */
  lemma AcceptedStampOverflows()
    ensures StampField(Pad(9_223_372_036_855, 13)) == Some((9_223_372_036_855_000_000, []))
    ensures !FitsInt64(9_223_372_036_855_000_000)
  {
    hide Pad, StampField;
    assert Pow10(13) == 10_000_000_000_000;
    WrittenStampIsAccepted(9_223_372_036_855, 13, []);
    assert Pad(9_223_372_036_855, 13) + [] == Pad(9_223_372_036_855, 13);
  }

  // ----------------------------------------------------------------------------------------- decimals

  /** The value of a sign, digits and optionally a point and more digits. */
  function DecimalValue(negative: bool, whole: string, fraction: string): real
    requires AllDigits(whole) && AllDigits(fraction)
  {
    var magnitude := Num(whole) as real + Num(fraction) as real / Pow10(|fraction|) as real;
    if negative then -magnitude else magnitude
  }

  lemma ShiftedUp(a: nat, power: nat, b: nat, digit: nat)
    ensures (a * power + b) * 10 + digit == a * (10 * power) + (b * 10 + digit)
  {
  }

  lemma {:induction false} NumConcat(a: string, b: string)
    requires AllDigits(a) && AllDigits(b)
    ensures AllDigits(a + b) && Num(a + b) == Num(a) * Pow10(|b|) + Num(b)
  {
    if b == [] {
      assert a + b == a;
    } else {
      var front, last := b[..|b| - 1], b[|b| - 1];
      NumConcat(a, front);
      assert (a + b)[..|a + b| - 1] == a + front && (a + b)[|a + b| - 1] == last;
      ShiftedUp(Num(a), Pow10(|front|), Num(front), DigitOf(last));
    }
  }

  function Negated(negative: bool, x: real): real {
    if negative then -x else x
  }

  /** The value of a decimal is that of all its digits, over ten for every one after the point, with its sign. */
  lemma DecimalIsItsDigits(negative: bool, whole: string, fraction: string)
    requires AllDigits(whole) && AllDigits(fraction)
    ensures AllDigits(whole + fraction)
    ensures DecimalValue(negative, whole, fraction)
            == Negated(negative, Num(whole + fraction) as real / Pow10(|fraction|) as real)
  {
    hide Num, Pow10, AllDigits;
    NumConcat(whole, fraction);
    OverScale(Num(whole), Num(fraction), Pow10(|fraction|));
  }

  predicate Signed(row: string) {
    row != [] && (row[0] == '-' || row[0] == '+')
  }

  /** The leading field and what follows its comma. */
  function Field(row: string): (string, string) {
    if row == [] then ([], [])
    else if row[0] == ',' then ([], row[1..])
    else var (field, rest) := Field(row[1..]); ([row[0]] + field, rest)
  }

  function Slow(row: string, slow: string -> Option<real>): Option<(real, string)> {
    var (field, rest) := Field(row);
    var value := slow(field);
    if value.Some? then Some((value.value, rest)) else None
  }

  /** A row's leading sign, digits, point and digits, and what follows them. */
  datatype Decimal = Decimal(negative: bool, whole: string, fraction: string, rest: string)

  function Split(row: string): (d: Decimal)
    ensures AllDigits(d.whole) && AllDigits(d.fraction)
  {
    SplitUnsigned(if Signed(row) then row[1..] else row, Signed(row) && row[0] == '-')
  }

  function SplitUnsigned(unsigned: string, negative: bool): (d: Decimal)
    ensures AllDigits(d.whole) && AllDigits(d.fraction)
  {
    var w := DigitRun(unsigned);
    var after := unsigned[w..];
    if after == [] || after[0] != '.' then Decimal(negative, unsigned[..w], [], after)
    else
      var f := DigitRun(after[1..]);
      Decimal(negative, unsigned[..w], after[1..][..f], after[1..][f..])
  }

  /** take_decimal: the exact value of a plain decimal of at most 18 digits, and the slow path's answer
      for anything else. */
  function DecimalField(row: string, slow: string -> Option<real>): Option<(real, string)> {
    var d := Split(row);
    var digits := |d.whole| + |d.fraction|;
    if digits == 0 || digits > MAX_MANTISSA_DIGITS || (d.rest != [] && d.rest[0] != ',') then Slow(row, slow)
    else Some((DecimalValue(d.negative, d.whole, d.fraction), if d.rest == [] then [] else d.rest[1..]))
  }

  lemma OverScale(whole: nat, fraction: nat, unit: nat)
    requires unit > 0
    ensures (whole * unit + fraction) as real / unit as real == whole as real + fraction as real / unit as real
  {
    var w, f, u := whole as real, fraction as real, unit as real;
    assert (whole * unit) as real == w * u;
    assert (w * u + f) / u == (w * u) / u + f / u;
    assert (w * u) / u == w;
  }

  lemma OnePassValue(whole: string, fraction: string)
    requires AllDigits(whole) && AllDigits(fraction)
    ensures Shifted(Shifted(0, whole), fraction) as real / Pow10(|fraction|) as real
            == DecimalValue(false, whole, fraction)
  {
    ShiftedValue(0, whole);
    ShiftedValue(Num(whole), fraction);
    OverScale(Num(whole), Num(fraction), Pow10(|fraction|));
  }

  /** The one pass over the characters after a decimal's sign. */
  method ScanDecimal(unsigned: string, ghost negative: bool)
      returns (mantissa: nat, scale: nat, digits: nat, rest: string)
    ensures var d := SplitUnsigned(unsigned, negative);
            && rest == d.rest && scale == |d.fraction| && digits == |d.whole| + scale
            && (digits <= MAX_MANTISSA_DIGITS ==> mantissa == Shifted(Shifted(0, d.whole), d.fraction))
  {
    var n;
    n, mantissa, digits := ScanDigits(unsigned, 0, 0);
    rest := unsigned[n..];
    scale := 0;
    if rest != [] && rest[0] == '.' {
      rest := rest[1..];
      scale, mantissa, digits := ScanDigits(rest, mantissa, digits);
      rest := rest[scale..];
    }
  }

  method Scale(mantissa: nat, scale: nat, negative: bool, ghost whole: string,
               ghost fraction: string) returns (out: real)
    requires AllDigits(whole) && AllDigits(fraction) && scale == |fraction|
    requires mantissa == Shifted(Shifted(0, whole), fraction)
    ensures out == DecimalValue(negative, whole, fraction)
  {
    OnePassValue(whole, fraction);
    out := mantissa as real / Pow10(scale) as real;
    if negative {
      out := -out;
    }
  }

  method TakeDecimal(row: string, slow: string -> Option<real>) returns (r: Option<(real, string)>)
    ensures r == DecimalField(row, slow)
  {
    var unsigned, negative := row, false;
    if row != [] && (row[0] == '-' || row[0] == '+') {
      negative := row[0] == '-';
      unsigned := row[1..];
    }
    var mantissa, scale, digits, rest := ScanDecimal(unsigned, negative);
    if digits == 0 || digits > MAX_MANTISSA_DIGITS || (rest != [] && rest[0] != ',') {
      return Slow(row, slow);
    }
    var out := Scale(mantissa, scale, negative, Split(row).whole, Split(row).fraction);
    r := Some((out, if rest == [] then [] else rest[1..]));
  }

  lemma SplitReads(sign: string, whole: string, fraction: string, rest: string)
    requires sign in {"", "-", "+"} && AllDigits(whole) && AllDigits(fraction) && |whole| + |fraction| > 0
    requires rest == [] || !IsDigit(rest[0])
    ensures Split(sign + (whole + ("." + (fraction + rest)))) == Decimal(sign == "-", whole, fraction, rest)
  {
    var unsigned := whole + ("." + (fraction + rest));
    SignReads(sign, unsigned);
    DigitsThen(whole, "." + (fraction + rest));
    assert ("." + (fraction + rest))[1..] == fraction + rest;
    DigitsThen(fraction, rest);
  }

  lemma SignReads(sign: string, unsigned: string)
    requires sign in {"", "-", "+"} && !Signed(unsigned)
    ensures var row := sign + unsigned;
            && (Signed(row) <==> sign != "") && (Signed(row) && row[0] == '-' <==> sign == "-")
            && (if Signed(row) then row[1..] else row) == unsigned
  {
    assert sign == "" ==> sign + unsigned == unsigned;
  }

  lemma DigitsThen(digits: string, rest: string)
    requires AllDigits(digits) && (rest == [] || !IsDigit(rest[0]))
    ensures var n := DigitRun(digits + rest);
            n == |digits| && (digits + rest)[..n] == digits && (digits + rest)[n..] == rest
  {
    assert (digits + rest)[..|digits|] == digits;
    RunEndsAt(digits + rest, |digits|);
  }

  lemma SplitReadsWhole(sign: string, whole: string, rest: string)
    requires sign in {"", "-", "+"} && AllDigits(whole) && whole != []
    requires rest == [] || (!IsDigit(rest[0]) && rest[0] != '.')
    ensures Split(sign + (whole + rest)) == Decimal(sign == "-", whole, [], rest)
  {
    SignReads(sign, whole + rest);
    DigitsThen(whole, rest);
  }

  /** A decimal without a point reads as the number it writes, whatever the sign. */
  lemma WholeReadsItsText(sign: string, whole: string, rest: string, slow: string -> Option<real>)
    requires sign in {"", "-", "+"} && AllDigits(whole)
    requires 0 < |whole| <= MAX_MANTISSA_DIGITS && (rest == [] || rest[0] == ',')
    ensures DecimalField(sign + (whole + rest), slow)
            == Some((DecimalValue(sign == "-", whole, []), if rest == [] then [] else rest[1..]))
  {
    SplitReadsWhole(sign, whole, rest);
  }

  /** The two ways to write a plain decimal, with a point and without. */
  ghost predicate PlainDecimal(row: string) {
    exists sign, whole, fraction, rest, point ::
      WritesPlain(row, sign, whole, fraction, rest, point)
  }

  ghost predicate WritesPlain(row: string, sign: string, whole: string, fraction: string, rest: string, point: bool) {
    && sign in {"", "-", "+"} && AllDigits(whole) && AllDigits(fraction) && (!point ==> fraction == [])
    && 0 < |whole| + |fraction| <= MAX_MANTISSA_DIGITS && (rest == [] || rest[0] == ',')
    && row == sign + (whole + ((if point then "." + fraction else []) + rest))
  }

  /** Whether a row is taken in the one pass. */
  predicate Fast(row: string) {
    var d := Split(row);
    0 < |d.whole| + |d.fraction| <= MAX_MANTISSA_DIGITS && (d.rest == [] || d.rest[0] == ',')
  }

  /** A row is taken in the one pass exactly when it begins with a plain decimal, up to its comma or its end;
      any other gets the slow path's answer. */
  lemma FastIsPlain(row: string, slow: string -> Option<real>)
    ensures Fast(row) <==> PlainDecimal(row)
    ensures !Fast(row) ==> DecimalField(row, slow) == Slow(row, slow)
  {
    hide Split;
    if sign, whole, fraction, rest, point :| WritesPlain(row, sign, whole, fraction, rest, point) {
      PlainIsFast(row, sign, whole, fraction, rest, point);
    }
    if Fast(row) {
      FastWrites(row);
    }
  }

  lemma PlainIsFast(row: string, sign: string, whole: string, fraction: string, rest: string, point: bool)
    requires WritesPlain(row, sign, whole, fraction, rest, point)
    ensures Fast(row)
  {
    hide Split;
    if point {
      assert row == sign + (whole + ("." + (fraction + rest))) by {
        assert "." + fraction + rest == "." + (fraction + rest);
      }
      SplitReads(sign, whole, fraction, rest);
    } else {
      assert [] + rest == rest;
      SplitReadsWhole(sign, whole, rest);
    }
  }

  lemma FastWrites(row: string)
    requires Fast(row)
    ensures PlainDecimal(row)
  {
    var d := Split(row);
    var sign := if Signed(row) then row[..1] else [];
    var unsigned := if Signed(row) then row[1..] else row;
    SignCut(row);
    var point := UnsignedParts(unsigned, d.negative);
    hide Split, SplitUnsigned, AllDigits;
    assert WritesPlain(row, sign, d.whole, d.fraction, d.rest, point);
  }

  lemma SignCut(row: string)
    ensures var sign := if Signed(row) then row[..1] else [];
            sign in {"", "-", "+"} && row == sign + if Signed(row) then row[1..] else row
  {
    if Signed(row) {
      assert row[..1] == [row[0]];
    }
  }

  lemma UnsignedParts(unsigned: string, negative: bool) returns (point: bool)
    ensures var d := SplitUnsigned(unsigned, negative);
            && unsigned == d.whole + ((if point then "." + d.fraction else []) + d.rest)
            && (!point ==> d.fraction == [])
  {
    hide DigitRun, AllDigits;
    var w := DigitRun(unsigned);
    var after := unsigned[w..];
    point := after != [] && after[0] == '.';
    CutAt(unsigned, w);
    if point {
      var f := DigitRun(after[1..]);
      PointCut(after, f);
    } else {
      assert [] + after == after;
    }
  }

  lemma CutAt(s: string, n: nat)
    requires n <= |s|
    ensures s == s[..n] + s[n..]
  {
  }

  lemma PointCut(after: string, f: nat)
    requires after != [] && after[0] == '.' && f <= |after[1..]|
    ensures after == "." + after[1..][..f] + after[1..][f..]
  {
    CutAt(after[1..], f);
    assert after == "." + after[1..];
  }

  /** A plain decimal reads as the number it writes, whatever the sign and the number of places. */
  lemma DecimalReadsItsText(sign: string, whole: string, fraction: string, rest: string, slow: string -> Option<real>)
    requires sign in {"", "-", "+"} && AllDigits(whole) && AllDigits(fraction)
    requires 0 < |whole| + |fraction| <= MAX_MANTISSA_DIGITS && (rest == [] || rest[0] == ',')
    ensures DecimalField(sign + (whole + ("." + (fraction + rest))), slow)
            == Some((DecimalValue(sign == "-", whole, fraction), if rest == [] then [] else rest[1..]))
  {
    SplitReads(sign, whole, fraction, rest);
  }
}
