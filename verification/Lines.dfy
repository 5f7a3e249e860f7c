/** Text cut into rows: at newlines, each row without one trailing carriage return. */
module Lines {

  /** Position of the first newline, or the length. */
  function LineEnd(text: string): (n: nat)
    ensures n <= |text| && '\n' !in text[..n] && (n < |text| ==> text[n] == '\n')
  {
    if text == [] || text[0] == '\n' then 0 else 1 + LineEnd(text[1..])
  }

  function Strip(row: string): string {
    if row != [] && row[|row| - 1] == '\r' then row[..|row| - 1] else row
  }

  function FirstRow(text: string): string {
    Strip(text[..LineEnd(text)])
  }

  function AfterRow(text: string): (rest: string)
    ensures text != [] ==> |rest| < |text|
  {
    if LineEnd(text) == |text| then [] else text[LineEnd(text) + 1..]
  }

  function Rows(text: string): seq<string>
    decreases |text|
  {
    if text == [] then [] else [FirstRow(text)] + Rows(AfterRow(text))
  }

  lemma {:induction false} EndsAt(row: string, rest: string)
    requires '\n' !in row && (rest == [] || rest[0] == '\n')
    ensures LineEnd(row + rest) == |row|
  {
    if row == [] {
      assert row + rest == rest;
    } else {
      EndsAt(row[1..], rest);
      assert (row + rest)[1..] == row[1..] + rest;
    }
  }

  /** A row with its newline in front of more text is one more row. */
  lemma RowThenRest(row: string, rest: string)
    requires '\n' !in row
    ensures Rows(row + "\n" + rest) == [Strip(row)] + Rows(rest)
  {
    var text := row + "\n" + rest;
    assert text == row + ("\n" + rest);
    EndsAt(row, "\n" + rest);
    assert text[..|row|] == row && text[|row| + 1..] == rest;
  }

  /** Both line ends are a row's end, and of a carriage return before the newline one is dropped. */
  lemma EitherLineEnd(row: string, rest: string)
    requires '\n' !in row
    ensures Rows(row + "\r\n" + rest) == [row] + Rows(rest)
    ensures row == [] || row[|row| - 1] != '\r' ==> Rows(row + "\n" + rest) == [row] + Rows(rest)
  {
    hide Rows, LineEnd;
    var returned := row + "\r";
    assert row + "\r\n" + rest == returned + "\n" + rest;
    assert returned[..|row|] == row;
    RowThenRest(returned, rest);
    RowThenRest(row, rest);
  }

  lemma LastRow(row: string)
    requires '\n' !in row && row != []
    ensures Rows(row) == [Strip(row)]
  {
    assert row + [] == row;
    EndsAt(row, []);
    assert row[..|row|] == row;
  }
}
