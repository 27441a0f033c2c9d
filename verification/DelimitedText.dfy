/**
 * Rows as delimited text and back (packages/rows/src/export.ts), quoted as in section 2 of RFC 4180 with
 * LF line ends. Texts are sequences of UTF-16 code units, as JavaScript strings are.
 */
module DelimitedText {
  import opened Options

  newtype Unit = u: int | 0 <= u < 0x1_0000
  type Text = seq<Unit>

  const Quote: Unit := 34
  const LF: Unit := 10
  const CR: Unit := 13
  const Apostrophe: Unit := 39

  type Cell = Option<Text>     // None: a PostgreSQL NULL
  type Row = seq<Cell>

  /** The choices that shape a delimited line. */
  datatype Choice = Choice(header: bool, nothing: Text, delimiter: Text, spreadsheetSafe: bool, finalNewline: bool)

  // ----- Writing -----------------------------------------------------------------------------------

  /** `=`, `+`, `-`, `@`, tab and CR start a formula in a spreadsheet. */
  predicate StartsFormula(value: Text) {
    value != [] && value[0] in {61, 43, 45, 64, 9, 13}
  }

  function Neutralised(value: Text, neutralise: bool): Text {
    if neutralise && StartsFormula(value) then [Apostrophe] + value else value
  }

  predicate Includes(text: Text, part: Text) {
    exists i | 0 <= i <= |text| :: part <= text[i..]
  }

  predicate NeedsQuotes(text: Text, delimiter: Text) {
    Includes(text, delimiter) || Quote in text || CR in text || LF in text
  }

  /** `text.replace(/"/g, '""')`. */
  function Doubled(text: Text): Text {
    if text == [] then [] else (if text[0] == Quote then [Quote, Quote] else [text[0]]) + Doubled(text[1..])
  }

  function Quoted(text: Text, delimiter: Text): Text {
    if NeedsQuotes(text, delimiter) then [Quote] + Doubled(text) + [Quote] else text
  }

  /** What a cell is written as, before quoting. */
  function CellText(cell: Cell, choice: Choice): Text {
    Neutralised(cell.GetOr(choice.nothing), choice.spreadsheetSafe)
  }

  function CellTexts(row: Row, choice: Choice): seq<Text> {
    seq(|row|, i requires 0 <= i < |row| => CellText(row[i], choice))
  }

  /** The fields of one line, joined by the delimiter. */
  function Joined(fields: seq<Text>, delimiter: Text): Text {
    if fields == [] then []
    else if |fields| == 1 then Quoted(fields[0], delimiter)
    else Quoted(fields[0], delimiter) + delimiter + Joined(fields[1..], delimiter)
  }

  function Line(fields: seq<Text>, delimiter: Text): Text {
    Joined(fields, delimiter) + [LF]
  }

  function Lines(rows: seq<seq<Text>>, delimiter: Text): Text {
    if rows == [] then [] else Line(rows[0], delimiter) + Lines(rows[1..], delimiter)
  }

  /** The rows as they are written: the header first when there is one, every NULL as its text. */
  function Written(columns: seq<Text>, rows: seq<Row>, choice: Choice): seq<seq<Text>> {
    (if choice.header then [seq(|columns|, i requires 0 <= i < |columns| => Neutralised(columns[i], choice.spreadsheetSafe))] else [])
    + seq(|rows|, i requires 0 <= i < |rows| => CellTexts(rows[i], choice))
  }

  // ----- Reading -----------------------------------------------------------------------------------

  datatype Reader = Reader(lines: seq<seq<Text>>, row: seq<Text>, value: Text, quoted: bool)

  function EndValue(r: Reader): Reader {
    r.(row := r.row + [r.value], value := [])
  }

  function EndRow(r: Reader): Reader {
    var ended := EndValue(r);
    ended.(lines := ended.lines + [ended.row], row := [])
  }

  /** One turn of the reader's loop: the new state, and how many units it consumed. */
  function Turn(text: Text, delimiter: Text, r: Reader): (Reader, nat)
    requires text != [] && delimiter != []
    ensures 0 < Turn(text, delimiter, r).1 <= |text|
  {
    var c := text[0];
    if r.quoted then
      if c == Quote then
        if |text| > 1 && text[1] == Quote then (r.(value := r.value + [Quote]), 2)
        else (r.(quoted := false), 1)
      else (r.(value := r.value + [c]), 1)
    else if c == Quote && r.value == [] then (r.(quoted := true), 1)
    else if delimiter <= text then (EndValue(r), |delimiter|)
    else if c == LF || c == CR then (EndRow(r), if c == CR && |text| > 1 && text[1] == LF then 2 else 1)
    else (r.(value := r.value + [c]), 1)
  }

  function Scan(text: Text, delimiter: Text, r: Reader): Reader
    requires delimiter != []
    decreases |text|
  {
    if text == [] then r
    else
      var turn := Turn(text, delimiter, r);
      Scan(text[turn.1..], delimiter, turn.0)
  }

  function Finish(r: Reader): seq<seq<Text>> {
    if r.value != [] || r.row != [] then EndRow(r).lines else r.lines
  }

  const Start := Reader([], [], [], false)

  function Parse(text: Text, delimiter: Text): seq<seq<Text>>
    requires delimiter != []
  {
    Finish(Scan(text, delimiter, Start))
  }

  lemma ScanTurns(text: Text, delimiter: Text, r: Reader)
    requires text != [] && delimiter != []
    ensures var turn := Turn(text, delimiter, r); Scan(text, delimiter, r) == Scan(text[turn.1..], delimiter, turn.0)
  {}

  lemma ScannedAll(delimiter: Text, r: Reader)
    requires delimiter != []
    ensures Scan([], delimiter, r) == r
  {}

  /** The scanner's loop. An empty delimiter would keep it from advancing. */
  method ParseDelimitedText(text: Text, delimiter: Text) returns (lines: seq<seq<Text>>)
    requires delimiter != []
    ensures lines == Parse(text, delimiter)
  {
    hide Scan;
    lines := [];
    var row: seq<Text> := [];
    var value: Text := [];
    var quoted := false;
    var at := 0;
    assert text[0..] == text;
    while at < |text|
      invariant 0 <= at <= |text|
      invariant Scan(text[at..], delimiter, Reader(lines, row, value, quoted)) == Scan(text, delimiter, Start)
    {
      ghost var before := Reader(lines, row, value, quoted);
      ghost var turn := Turn(text[at..], delimiter, before);
      ghost var from := at;
      ScanTurns(text[at..], delimiter, before);
      assert text[at..][turn.1..] == text[at + turn.1..];
      assert |text[at..]| > 1 ==> text[at..][1] == text[at + 1];
      var c := text[at];
      if quoted {
        if c == Quote {
          if at + 1 < |text| && text[at + 1] == Quote {
            value := value + [Quote];
            at := at + 2;
          } else {
            quoted := false;
            at := at + 1;
          }
        } else {
          value := value + [c];
          at := at + 1;
        }
      } else if c == Quote && value == [] {
        quoted := true;
        at := at + 1;
      } else if delimiter <= text[at..] {
        row, value := row + [value], [];
        at := at + |delimiter|;
      } else if c == LF || c == CR {
        lines, row, value := lines + [row + [value]], [], [];
        at := at + if c == CR && at + 1 < |text| && text[at + 1] == LF then 2 else 1;
      } else {
        value := value + [c];
        at := at + 1;
      }
      assert at == from + turn.1 && Reader(lines, row, value, quoted) == turn.0;
    }
    assert text[|text|..] == [];
    ScannedAll(delimiter, Reader(lines, row, value, quoted));
    if value != [] || row != [] {
      lines := lines + [row + [value]];
    }
  }

  // ----- Round trip ----------------------------------------------------------------------------------

  /** A delimiter of one code unit that is none of the characters with a meaning of their own. */
  predicate Usable(delimiter: Text) {
    |delimiter| == 1 && delimiter[0] != Quote && delimiter[0] != CR && delimiter[0] != LF
  }

  /** What may follow a field. */
  predicate Ends(rest: Text, delimiter: Text) {
    rest == [] || delimiter <= rest || rest[0] == LF
  }

  lemma {:induction false} ScanQuoted(text: Text, rest: Text, delimiter: Text, r: Reader)
    requires Usable(delimiter) && r.quoted && Ends(rest, delimiter)
    ensures Scan(Doubled(text) + [Quote] + rest, delimiter, r)
            == Scan(rest, delimiter, r.(value := r.value + text, quoted := false))
    decreases |text|
  {
    var all := Doubled(text) + [Quote] + rest;
    if text == [] {
      assert all[1..] == rest && (|all| > 1 ==> all[1] == rest[0]);
      assert r.value + text == r.value;
    } else {
      var head := if text[0] == Quote then [Quote, Quote] else [text[0]];
      assert all == head + (Doubled(text[1..]) + [Quote] + rest);
      assert all[|head|..] == Doubled(text[1..]) + [Quote] + rest;
      ScanQuoted(text[1..], rest, delimiter, r.(value := r.value + [text[0]]));
      assert r.value + text == r.value + [text[0]] + text[1..];
    }
  }

  predicate Plain(text: Text, delimiter: Text) {
    forall c | c in text :: [c] != delimiter && c != Quote && c != CR && c != LF
  }

  lemma {:induction false} ScanPlain(text: Text, rest: Text, delimiter: Text, r: Reader)
    requires Usable(delimiter) && !r.quoted && Plain(text, delimiter)
    ensures Scan(text + rest, delimiter, r) == Scan(rest, delimiter, r.(value := r.value + text))
    decreases |text|
  {
    if text == [] {
      assert text + rest == rest && r.value + text == r.value;
    } else {
      var all := text + rest;
      assert text[0] in text && all[0] == text[0];
      forall c | c in text[1..] ensures c in text {}
      assert all[1..] == text[1..] + rest;
      ScanPlain(text[1..], rest, delimiter, r.(value := r.value + [text[0]]));
      assert r.value + text == r.value + [text[0]] + text[1..];
    }
  }

  lemma PlainUnlessQuoted(text: Text, delimiter: Text)
    requires Usable(delimiter) && !NeedsQuotes(text, delimiter)
    ensures Plain(text, delimiter)
  {
    forall c | c in text ensures [c] != delimiter {
      var i :| 0 <= i < |text| && text[i] == c;
      assert text[i..][0] == c;
      assert !(delimiter <= text[i..]);
    }
  }

  /** Reading one written field back. */
  lemma ScanField(text: Text, rest: Text, delimiter: Text, r: Reader)
    requires Usable(delimiter) && !r.quoted && r.value == [] && Ends(rest, delimiter)
    ensures Scan(Quoted(text, delimiter) + rest, delimiter, r) == Scan(rest, delimiter, r.(value := text))
  {
    assert [] + text == text;
    if NeedsQuotes(text, delimiter) {
      QuoteOpens(Doubled(text) + [Quote] + rest, delimiter, r);
      Regrouped([Quote], Doubled(text), [Quote], rest);
      hide Scan, Doubled, Ends, NeedsQuotes;
      assert [Quote] + (Doubled(text) + ([Quote] + rest)) == [Quote] + (Doubled(text) + [Quote] + rest);
      ScanQuoted(text, rest, delimiter, r.(quoted := true));
    } else {
      PlainUnlessQuoted(text, delimiter);
      hide Scan;
      ScanPlain(text, rest, delimiter, r);
    }
  }

  lemma QuoteOpens(rest: Text, delimiter: Text, r: Reader)
    requires Usable(delimiter) && !r.quoted && r.value == []
    ensures Scan([Quote] + rest, delimiter, r) == Scan(rest, delimiter, r.(quoted := true))
  {
    var all := [Quote] + rest;
    assert all[0] == Quote && all[1..] == rest;
  }

  lemma ScanDelimiter(rest: Text, delimiter: Text, r: Reader)
    requires Usable(delimiter) && !r.quoted
    ensures Scan(delimiter + rest, delimiter, r) == Scan(rest, delimiter, EndValue(r))
  {
    var all := delimiter + rest;
    assert all[0] == delimiter[0] && all[1..] == rest;
  }

  lemma ScanLineEnd(rest: Text, delimiter: Text, r: Reader)
    requires Usable(delimiter) && !r.quoted
    ensures Scan([LF] + rest, delimiter, r) == Scan(rest, delimiter, EndRow(r))
  {
    var all := [LF] + rest;
    assert all[0] == LF && all[1..] == rest;
  }

  lemma Regrouped(a: Text, b: Text, c: Text, d: Text)
    ensures a + b + c + d == a + (b + (c + d))
  {}

  lemma Appended<T>(a: seq<T>, fields: seq<T>)
    requires |fields| > 1
    ensures a + [fields[0]] + fields[1..][..|fields| - 2] == a + fields[..|fields| - 1]
    ensures fields[1..][|fields| - 2] == fields[|fields| - 1]
  {}

  /** Reading the fields of a line up to its end: all but the last are in the row, the last is the value. */
  lemma {:induction false} ScanFields(fields: seq<Text>, rest: Text, delimiter: Text, r: Reader)
    requires Usable(delimiter) && !r.quoted && r.value == [] && fields != [] && (rest == [] || rest[0] == LF)
    ensures Scan(Joined(fields, delimiter) + rest, delimiter, r)
            == Scan(rest, delimiter, r.(row := r.row + fields[..|fields| - 1], value := fields[|fields| - 1]))
    decreases |fields|
  {
    hide Scan, Quoted;
    if |fields| == 1 {
      ScanField(fields[0], rest, delimiter, r);
      assert r.row + fields[..0] == r.row;
    } else {
      var others := Joined(fields[1..], delimiter) + rest;
      Regrouped(Quoted(fields[0], delimiter), delimiter, Joined(fields[1..], delimiter), rest);
      ScanField(fields[0], delimiter + others, delimiter, r);
      ScanDelimiter(others, delimiter, r.(value := fields[0]));
      ScanFields(fields[1..], rest, delimiter, r.(row := r.row + [fields[0]]));
      Appended(r.row, fields);
    }
  }

  lemma WholeRow(fields: seq<Text>)
    requires fields != []
    ensures [] + fields[..|fields| - 1] + [fields[|fields| - 1]] == fields
  {}

  lemma ScanLine(fields: seq<Text>, rest: Text, delimiter: Text, r: Reader)
    requires Usable(delimiter) && !r.quoted && r.value == [] && r.row == [] && fields != []
    ensures Scan(Line(fields, delimiter) + rest, delimiter, r) == Scan(rest, delimiter, r.(lines := r.lines + [fields]))
  {
    hide Scan, Joined;
    assert Line(fields, delimiter) + rest == Joined(fields, delimiter) + ([LF] + rest);
    ScanFields(fields, [LF] + rest, delimiter, r);
    ScanLineEnd(rest, delimiter, r.(row := r.row + fields[..|fields| - 1], value := fields[|fields| - 1]));
    WholeRow(fields);
  }

  lemma {:induction false} ScanLines(rows: seq<seq<Text>>, rest: Text, delimiter: Text, r: Reader)
    requires Usable(delimiter) && !r.quoted && r.value == [] && r.row == []
    requires forall row | row in rows :: row != []
    ensures Scan(Lines(rows, delimiter) + rest, delimiter, r) == Scan(rest, delimiter, r.(lines := r.lines + rows))
    decreases |rows|
  {
    hide Scan, Line;
    if rows == [] {
      assert Lines(rows, delimiter) + rest == rest && r.lines + rows == r.lines;
    } else {
      assert rows[0] in rows && forall row | row in rows[1..] :: row in rows;
      var more := Lines(rows[1..], delimiter) + rest;
      NothingBefore(Line(rows[0], delimiter), Lines(rows[1..], delimiter), rest);
      ScanLine(rows[0], more, delimiter, r);
      ScanLines(rows[1..], rest, delimiter, r.(lines := r.lines + [rows[0]]));
      assert r.lines + [rows[0]] + rows[1..] == r.lines + rows;
    }
  }

  lemma NothingBefore(a: Text, b: Text, c: Text)
    ensures a + b + c == a + (b + c)
  {}

  /** With the final newline reading returns the rows that were written. */
  lemma RoundTrip(rows: seq<seq<Text>>, delimiter: Text)
    requires Usable(delimiter) && forall row | row in rows :: row != []
    ensures Parse(Lines(rows, delimiter), delimiter) == rows
  {
    ScanLines(rows, [], delimiter, Start);
    assert Lines(rows, delimiter) + [] == Lines(rows, delimiter);
  }

  lemma {:induction false} LinesSnoc(rows: seq<seq<Text>>, row: seq<Text>, delimiter: Text)
    ensures Lines(rows + [row], delimiter) == Lines(rows, delimiter) + Line(row, delimiter)
  {
    hide Line;
    if rows == [] {
      assert [row][1..] == [] && [] + [row] == [row];
      assert Lines([row][1..], delimiter) == [];
    } else {
      assert (rows + [row])[1..] == rows[1..] + [row];
      LinesSnoc(rows[1..], row, delimiter);
    }
  }

  function WithoutFinalNewline(text: Text): Text {
    if text != [] && text[|text| - 1] == LF then text[..|text| - 1] else text
  }

  /**
   * Without the final newline reading returns the rows exactly when the last row is not a single empty
   * cell; that one row is lost, and no other.
   */
  lemma RoundTripWithoutNewline(rows: seq<seq<Text>>, delimiter: Text)
    requires Usable(delimiter) && forall row | row in rows :: row != []
    ensures var lost := rows != [] && rows[|rows| - 1] == [[]];
            && Parse(WithoutFinalNewline(Lines(rows, delimiter)), delimiter) == (if lost then rows[..|rows| - 1] else rows)
            && (Parse(WithoutFinalNewline(Lines(rows, delimiter)), delimiter) == rows <==> !lost)
  {
    if rows == [] {
      ScannedAll(delimiter, Start);
    } else {
      hide Lines, Parse, WithoutFinalNewline, Usable;
      var n := |rows| - 1;
      assert rows[n] in rows && forall row | row in rows[..n] :: row in rows;
      assert rows == rows[..n] + [rows[n]];
      LastLineRead(rows[..n], rows[n], delimiter);
    }
  }

  lemma LastLineRead(rows: seq<seq<Text>>, fields: seq<Text>, delimiter: Text)
    requires Usable(delimiter) && fields != [] && forall row | row in rows :: row != []
    ensures Parse(WithoutFinalNewline(Lines(rows + [fields], delimiter)), delimiter)
            == if fields == [[]] then rows else rows + [fields]
  {
    var last := Joined(fields, delimiter);
    var text := Lines(rows, delimiter) + last;
    LinesSnoc(rows, fields, delimiter);
    NothingBefore(Lines(rows, delimiter), last, [LF]);
    assert WithoutFinalNewline(text + [LF]) == text;
    hide Lines, Joined, Scan;
    ScanLines(rows, last, delimiter, Start);
    assert [] + rows == rows && last + [] == last;
    ScanFields(fields, [], delimiter, Start.(lines := rows));
    WholeRow(fields);
    var read := Start.(lines := rows, row := [] + fields[..|fields| - 1], value := fields[|fields| - 1]);
    assert Parse(text, delimiter) == Finish(Scan([], delimiter, read));
    ScannedAll(delimiter, read);
    assert fields == [[]] <==> fields[..|fields| - 1] == [] && fields[|fields| - 1] == [];
  }

  /** What the grid wrote comes back: every cell as its text, NULL as the chosen text, behind the header if any. */
  lemma WrittenRowsComeBack(columns: seq<Text>, rows: seq<Row>, choice: Choice)
    requires Usable(choice.delimiter) && (forall row | row in rows :: row != []) && (choice.header ==> columns != [])
    ensures Parse(Lines(Written(columns, rows, choice), choice.delimiter), choice.delimiter) == Written(columns, rows, choice)
    ensures var written := Written(columns, rows, choice);
            Parse(WithoutFinalNewline(Lines(written, choice.delimiter)), choice.delimiter) == written
            <==> written == [] || written[|written| - 1] != [[]]
  {
    var written := Written(columns, rows, choice);
    forall i | 0 <= i < |written| ensures written[i] != [] {
      if !choice.header || i > 0 {
        var k := if choice.header then i - 1 else i;
        assert rows[k] in rows && written[i] == CellTexts(rows[k], choice);
      }
    }
    hide Written;
    RoundTrip(Written(columns, rows, choice), choice.delimiter);
    RoundTripWithoutNewline(Written(columns, rows, choice), choice.delimiter);
  }
}
