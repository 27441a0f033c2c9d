/**
 * What the writer writes a cell as, and what the reader makes of any text, the writer's or not: fields in
 * quotes or without, quotes inside a plain field, text behind a closing quote, and the three line ends
 * (packages/rows/src/export.ts).
 */
module DelimitedSpellings {
  import opened Options
  import opened DelimitedText

  // ----- Writing -----------------------------------------------------------------------------------

  predicate Is(u: Unit, c: char) {
    u as int == c as int
  }

  /** `/^[=+\-@\t\r]/`. */
  predicate OpensFormula(value: Text) {
    && value != []
    && (Is(value[0], '=') || Is(value[0], '+') || Is(value[0], '-') || Is(value[0], '@') || Is(value[0], '\t') || Is(value[0], '\r'))
  }

  /** A value is written as it is, behind an apostrophe exactly when a spreadsheet would run it and may not. */
  predicate WrittenAs(text: Text, value: Text, spreadsheetSafe: bool) {
    if spreadsheetSafe && OpensFormula(value)
    then |text| == |value| + 1 && Is(text[0], '\'') && text[1..] == value
    else text == value
  }

  ghost predicate RowWrittenAs(texts: seq<Text>, row: Row, choice: Choice) {
    && |texts| == |row|
    && forall j | 0 <= j < |row| ::
         WrittenAs(texts[j], if row[j].Some? then row[j].value else choice.nothing, choice.spreadsheetSafe)
  }

  ghost predicate HeaderWrittenAs(texts: seq<Text>, columns: seq<Text>, choice: Choice) {
    |texts| == |columns| && forall j | 0 <= j < |columns| :: WrittenAs(texts[j], columns[j], choice.spreadsheetSafe)
  }

  /** Each cell of the result, a NULL as the chosen text, in its place behind the header if there is one. */
  lemma CellsAreWritten(columns: seq<Text>, rows: seq<Row>, choice: Choice)
    ensures var written := Written(columns, rows, choice);
            var first := if choice.header then 1 else 0;
            && |written| == first + |rows|
            && (choice.header ==> HeaderWrittenAs(written[0], columns, choice))
            && forall i | 0 <= i < |rows| :: RowWrittenAs(written[first + i], rows[i], choice)
  {
    var first := if choice.header then 1 else 0;
    forall i | 0 <= i < |rows| ensures RowWrittenAs(Written(columns, rows, choice)[first + i], rows[i], choice) {
      RowIsWritten(rows[i], choice);
      hide RowWrittenAs;
      assert Written(columns, rows, choice)[first + i] == CellTexts(rows[i], choice);
    }
    if choice.header {
      forall j | 0 <= j < |columns| ensures WrittenAs(Written(columns, rows, choice)[0][j], columns[j], choice.spreadsheetSafe) {
        NeutralisedIsWrittenAs(columns[j], choice.spreadsheetSafe);
      }
    }
  }

  lemma RowIsWritten(row: Row, choice: Choice)
    ensures RowWrittenAs(CellTexts(row, choice), row, choice)
  {
    forall j | 0 <= j < |row|
      ensures WrittenAs(CellText(row[j], choice), if row[j].Some? then row[j].value else choice.nothing, choice.spreadsheetSafe)
    {
      NeutralisedIsWrittenAs(if row[j].Some? then row[j].value else choice.nothing, choice.spreadsheetSafe);
    }
  }

  lemma NeutralisedIsWrittenAs(value: Text, spreadsheetSafe: bool)
    ensures WrittenAs(Neutralised(value, spreadsheetSafe), value, spreadsheetSafe)
  {}

  predicate OccursAt(part: Text, text: Text, i: nat) {
    i + |part| <= |text| && text[i..i + |part|] == part
  }

  /** A text is quoted exactly when it holds the delimiter, a quote or a line break; otherwise it stays as it is. */
  lemma QuotedExactlyWhen(text: Text, delimiter: Text)
    ensures Quoted(text, delimiter) == text
            <==> && (forall i: nat :: !OccursAt(delimiter, text, i))
                 && (forall u | u in text :: !Is(u, '"') && !Is(u, '\r') && !Is(u, '\n'))
  {
    DoublingKeepsLength(text);
    IncludesMeans(text, delimiter);
    assert forall u: Unit :: (Is(u, '"') <==> u == Quote) && (Is(u, '\r') <==> u == CR) && (Is(u, '\n') <==> u == LF);
    hide Includes, OccursAt, Doubled;
    assert NeedsQuotes(text, delimiter) ==> |Quoted(text, delimiter)| > |text|;
  }

  lemma IncludesMeans(text: Text, part: Text)
    ensures Includes(text, part) <==> exists i: nat :: OccursAt(part, text, i)
  {
    if Includes(text, part) {
      var i :| 0 <= i <= |text| && part <= text[i..];
      assert text[i..i + |part|] == text[i..][..|part|] == part;
      assert OccursAt(part, text, i);
    }
    if i: nat :| OccursAt(part, text, i) {
      assert text[i..][..|part|] == text[i..i + |part|] == part;
      assert part <= text[i..];
    }
  }

  lemma {:induction false} DoublingKeepsLength(text: Text)
    ensures |text| <= |Doubled(text)|
  {
    if text != [] {
      DoublingKeepsLength(text[1..]);
    }
  }

  // ----- Reading -----------------------------------------------------------------------------------

  /** How a field can stand in a text: plain, or in quotes with more text behind the closing one. */
  datatype Spelling = Plainly(text: Text) | InQuotes(inside: Text, behind: Text)

  function Source(s: Spelling): Text {
    match s
    case Plainly(text) => text
    case InQuotes(inside, behind) => [Quote] + Doubled(inside) + [Quote] + behind
  }

  function Value(s: Spelling): Text {
    match s
    case Plainly(text) => text
    case InQuotes(inside, behind) => inside + behind
  }

  /** Neither the delimiter nor a line break; a quote may stand anywhere but in front. */
  predicate Loose(text: Text, delimiter: Text) {
    && (text != [] ==> text[0] != Quote)
    && forall c | c in text :: [c] != delimiter && c != CR && c != LF
  }

  predicate Spelled(s: Spelling, delimiter: Text) {
    match s
    case Plainly(text) => Loose(text, delimiter)
    case InQuotes(_, behind) => Loose(behind, delimiter)
  }

  /** The fields of a line, the delimiter between them. */
  function Between(fields: seq<Spelling>, delimiter: Text): Text {
    if fields == [] then []
    else if |fields| == 1 then Source(fields[0])
    else Source(fields[0]) + delimiter + Between(fields[1..], delimiter)
  }

  function Values(fields: seq<Spelling>): seq<Text> {
    seq(|fields|, i requires 0 <= i < |fields| => Value(fields[i]))
  }

  datatype Ending = Lf | Cr | CrLf

  function EndText(e: Ending): Text {
    match e case Lf => [LF] case Cr => [CR] case CrLf => [CR, LF]
  }

  datatype SpelledLine = SpelledLine(fields: seq<Spelling>, ending: Ending)

  function TextOf(lines: seq<SpelledLine>, delimiter: Text): Text {
    if lines == [] then []
    else Between(lines[0].fields, delimiter) + EndText(lines[0].ending) + TextOf(lines[1..], delimiter)
  }

  function ValuesOf(lines: seq<SpelledLine>): seq<seq<Text>> {
    seq(|lines|, i requires 0 <= i < |lines| => Values(lines[i].fields))
  }

  ghost predicate WellSpelled(lines: seq<SpelledLine>, delimiter: Text) {
    forall line | line in lines :: line.fields != [] && forall f | f in line.fields :: Spelled(f, delimiter)
  }

  /** A lone CR in front of an empty line that starts with LF would be a single line end. */
  ghost predicate EndsApart(lines: seq<SpelledLine>, delimiter: Text) {
    forall i | 0 <= i < |lines| && lines[i].ending == Cr :: !([LF] <= TextOf(lines[i + 1..], delimiter))
  }

  lemma {:induction false} ScanLoose(text: Text, rest: Text, delimiter: Text, r: Reader)
    requires Usable(delimiter) && !r.quoted
    requires forall c | c in text :: [c] != delimiter && c != CR && c != LF
    requires text != [] && r.value == [] ==> text[0] != Quote
    ensures Scan(text + rest, delimiter, r) == Scan(rest, delimiter, r.(value := r.value + text))
    decreases |text|
  {
    if text == [] {
      assert text + rest == rest && r.value + text == r.value;
    } else {
      var all := text + rest;
      assert text[0] in text && all[0] == text[0] && forall c | c in text[1..] :: c in text;
      assert all[1..] == text[1..] + rest;
      ScanTurns(all, delimiter, r);
      assert Turn(all, delimiter, r) == (r.(value := r.value + [text[0]]), 1);
      ScanLoose(text[1..], rest, delimiter, r.(value := r.value + [text[0]]));
      assert r.value + text == r.value + [text[0]] + text[1..];
    }
  }

  /** In quotes everything is text, a doubled quote one quote, up to a quote that is not doubled. */
  lemma {:induction false} ScanInside(text: Text, rest: Text, delimiter: Text, r: Reader)
    requires delimiter != [] && r.quoted && (rest == [] || rest[0] != Quote)
    ensures Scan(Doubled(text) + ([Quote] + rest), delimiter, r)
            == Scan(rest, delimiter, r.(value := r.value + text, quoted := false))
    decreases |text|
  {
    hide Scan;
    if text == [] {
      ScanClosing(rest, delimiter, r);
      assert Doubled(text) + ([Quote] + rest) == [Quote] + rest;
      assert r.value + text == r.value;
    } else {
      var more := Doubled(text[1..]) + ([Quote] + rest);
      ScanOneInside(text[0], more, delimiter, r);
      NothingBefore(if text[0] == Quote then [Quote, Quote] else [text[0]], Doubled(text[1..]), [Quote] + rest);
      ScanInside(text[1..], rest, delimiter, r.(value := r.value + [text[0]]));
      hide Doubled;
      NothingBefore(r.value, [text[0]], text[1..]);
      assert [text[0]] + text[1..] == text;
    }
  }

  lemma ScanClosing(rest: Text, delimiter: Text, r: Reader)
    requires delimiter != [] && r.quoted && (rest == [] || rest[0] != Quote)
    ensures Scan([Quote] + rest, delimiter, r) == Scan(rest, delimiter, r.(quoted := false))
  {
    var all := [Quote] + rest;
    ScanTurns(all, delimiter, r);
    assert all[1..] == rest && (|all| > 1 ==> all[1] == rest[0]);
  }

  lemma ScanOneInside(c: Unit, rest: Text, delimiter: Text, r: Reader)
    requires delimiter != [] && r.quoted
    ensures Scan((if c == Quote then [Quote, Quote] else [c]) + rest, delimiter, r) == Scan(rest, delimiter, r.(value := r.value + [c]))
  {
    var head := if c == Quote then [Quote, Quote] else [c];
    ScanTurns(head + rest, delimiter, r);
    assert (head + rest)[|head|..] == rest;
  }

  /** What may stand behind a field: nothing, the delimiter or a line break, and so no quote. */
  predicate Follows(rest: Text, delimiter: Text) {
    rest == [] || delimiter <= rest || rest[0] == LF || rest[0] == CR
  }

  lemma ScanSpelled(s: Spelling, rest: Text, delimiter: Text, r: Reader)
    requires Usable(delimiter) && !r.quoted && r.value == [] && Spelled(s, delimiter) && Follows(rest, delimiter)
    ensures Scan(Source(s) + rest, delimiter, r) == Scan(rest, delimiter, r.(value := Value(s)))
  {
    match s {
      case Plainly(text) =>
        assert [] + text == text;
        ScanLoose(text, rest, delimiter, r);
      case InQuotes(inside, behind) =>
        var more := behind + rest;
        assert more != [] ==> more[0] != Quote by {
          if behind != [] {
            assert more[0] == behind[0];
          }
        }
        var quoted := Doubled(inside) + ([Quote] + more);
        assert Source(s) + rest == [Quote] + quoted;
        QuoteOpens(quoted, delimiter, r);
        ScanInside(inside, more, delimiter, r.(quoted := true));
        assert [] + inside == inside;
        ScanLoose(behind, rest, delimiter, r.(value := inside));
    }
  }

  lemma {:induction false} ScanBetween(fields: seq<Spelling>, rest: Text, delimiter: Text, r: Reader)
    requires Usable(delimiter) && !r.quoted && r.value == [] && fields != []
    requires (forall f | f in fields :: Spelled(f, delimiter)) && (rest == [] || rest[0] == LF || rest[0] == CR)
    ensures Scan(Between(fields, delimiter) + rest, delimiter, r)
            == Scan(rest, delimiter, r.(row := r.row + Values(fields)[..|fields| - 1], value := Values(fields)[|fields| - 1]))
    decreases |fields|
  {
    hide Scan, Source, Value, Spelled;
    assert fields[0] in fields;
    if |fields| == 1 {
      ScanSpelled(fields[0], rest, delimiter, r);
      assert r.row + Values(fields)[..0] == r.row;
    } else {
      assert forall f | f in fields[1..] :: f in fields;
      var others := Between(fields[1..], delimiter) + rest;
      assert Between(fields, delimiter) + rest == Source(fields[0]) + (delimiter + others);
      assert delimiter <= delimiter + others;
      ScanSpelled(fields[0], delimiter + others, delimiter, r);
      ScanDelimiter(others, delimiter, r.(value := Value(fields[0])));
      ScanBetween(fields[1..], rest, delimiter, r.(row := r.row + [Value(fields[0])]));
      assert Values(fields)[1..] == Values(fields[1..]);
      Appended(r.row, Values(fields));
    }
  }

  lemma ScanEnding(e: Ending, rest: Text, delimiter: Text, r: Reader)
    requires Usable(delimiter) && !r.quoted && (e == Cr ==> !([LF] <= rest))
    ensures Scan(EndText(e) + rest, delimiter, r) == Scan(rest, delimiter, EndRow(r))
  {
    var all := EndText(e) + rest;
    ScanTurns(all, delimiter, r);
    assert all[|EndText(e)|..] == rest;
    if e == Cr && |all| > 1 {
      assert rest[..1] == [rest[0]];
    }
  }

  lemma ScanSpelledLine(line: SpelledLine, rest: Text, delimiter: Text, r: Reader)
    requires Usable(delimiter) && !r.quoted && r.value == [] && r.row == [] && line.fields != []
    requires (forall f | f in line.fields :: Spelled(f, delimiter)) && (line.ending == Cr ==> !([LF] <= rest))
    ensures Scan(Between(line.fields, delimiter) + EndText(line.ending) + rest, delimiter, r)
            == Scan(rest, delimiter, r.(lines := r.lines + [Values(line.fields)]))
  {
    hide Scan, Between, Values, Spelled;
    var n := |line.fields| - 1;
    NothingBefore(Between(line.fields, delimiter), EndText(line.ending), rest);
    ScanBetween(line.fields, EndText(line.ending) + rest, delimiter, r);
    ValuesCount(line.fields);
    var values := Values(line.fields);
    ScanEnding(line.ending, rest, delimiter, r.(row := r.row + values[..n], value := values[n]));
    WholeRow(values);
  }

  lemma ValuesCount(fields: seq<Spelling>)
    ensures |Values(fields)| == |fields|
  {}

  lemma {:induction false} ScanSpelledLines(lines: seq<SpelledLine>, delimiter: Text, r: Reader)
    requires Usable(delimiter) && !r.quoted && r.value == [] && r.row == []
    requires WellSpelled(lines, delimiter) && EndsApart(lines, delimiter)
    ensures Scan(TextOf(lines, delimiter), delimiter, r) == r.(lines := r.lines + ValuesOf(lines))
    decreases |lines|
  {
    hide Scan, Between, Values, EndText, WellSpelled, EndsApart;
    if lines == [] {
      ScannedAll(delimiter, r);
      assert r.lines + ValuesOf(lines) == r.lines;
    } else {
      LinesBehindFirst(lines, delimiter);
      ScanSpelledLine(lines[0], TextOf(lines[1..], delimiter), delimiter, r);
      ScanSpelledLines(lines[1..], delimiter, r.(lines := r.lines + [Values(lines[0].fields)]));
      assert ValuesOf(lines) == [Values(lines[0].fields)] + ValuesOf(lines[1..]);
      assert r.lines + [Values(lines[0].fields)] + ValuesOf(lines[1..]) == r.lines + ValuesOf(lines);
    }
  }

  lemma LinesBehindFirst(lines: seq<SpelledLine>, delimiter: Text)
    requires lines != [] && WellSpelled(lines, delimiter) && EndsApart(lines, delimiter)
    ensures lines[0].fields != [] && forall f | f in lines[0].fields :: Spelled(f, delimiter)
    ensures lines[0].ending == Cr ==> !([LF] <= TextOf(lines[1..], delimiter))
    ensures WellSpelled(lines[1..], delimiter) && EndsApart(lines[1..], delimiter)
  {
    hide TextOf;
    assert lines[0] in lines && forall line | line in lines[1..] :: line in lines;
    assert lines[0 + 1..] == lines[1..];
    forall i | 0 <= i < |lines[1..]| ensures lines[1..][i + 1..] == lines[i + 2..] && lines[1..][i] == lines[i + 1] {}
  }

  /**
   * Any text of fields spelled in any of these ways, between delimiters and behind any of the line ends, is
   * read as their values, line by line. The writer's own text is one of them.
   */
  lemma AnySpellingIsRead(lines: seq<SpelledLine>, delimiter: Text)
    requires Usable(delimiter) && WellSpelled(lines, delimiter) && EndsApart(lines, delimiter)
    ensures Parse(TextOf(lines, delimiter), delimiter) == ValuesOf(lines)
  {
    ScanSpelledLines(lines, delimiter, Start);
  }

  /** A last line without a line end is read as well, unless it is a single empty field. */
  lemma LastLineNeedsNoEnd(fields: seq<Spelling>, delimiter: Text)
    requires Usable(delimiter) && fields != [] && forall f | f in fields :: Spelled(f, delimiter)
    ensures Parse(Between(fields, delimiter), delimiter) == if Values(fields) == [[]] then [] else [Values(fields)]
  {
    assert Between(fields, delimiter) + [] == Between(fields, delimiter);
    ScanBetween(fields, [], delimiter, Start);
    hide Between;
    var values := Values(fields);
    var read := Start.(row := [] + values[..|fields| - 1], value := values[|fields| - 1]);
    ScannedAll(delimiter, read);
    WholeRow(values);
    assert values == [[]] <==> values[..|fields| - 1] == [] && values[|fields| - 1] == [];
  }
}
