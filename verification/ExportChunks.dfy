/**
 * Writing a result a piece at a time: `dataViewExportChunks` (packages/rows/src/export.ts). No chunk ends
 * between the two code units of a surrogate pair (section 3.8 of the Unicode Standard).
 */
module ExportChunks {
  import opened Options
  import opened DelimitedText

  predicate High(u: Unit) {
    0xD800 <= u <= 0xDBFF
  }

  predicate Low(u: Unit) {
    0xDC00 <= u <= 0xDFFF
  }

  function Concat(texts: seq<Text>): Text {
    if texts == [] then [] else texts[0] + Concat(texts[1..])
  }

  /** Where the chunk that starts at `at` ends. */
  function ChunkEnd(piece: Text, at: nat, maximum: nat): (end: nat)
    requires at < |piece| && maximum >= 1
    ensures at <= end <= |piece| && end - at <= maximum
    ensures maximum >= 2 ==> at < end
    ensures at < end < |piece| ==> !(High(piece[end - 1]) && Low(piece[end]))
  {
    var end := if at + maximum < |piece| then at + maximum else |piece|;
    if end < |piece| && High(piece[end - 1]) then end - 1 else end
  }

  /** With a bound of one code unit the generator stands still before a pair; two is the least it needs. */
  lemma BoundOfOneStalls(piece: Text, at: nat)
    requires at + 1 < |piece|
    ensures ChunkEnd(piece, at, 1) == at <==> High(piece[at])
  {}

  /** The chunks of one piece, from `at` on. */
  function PieceChunks(piece: Text, at: nat, maximum: nat): seq<Text>
    requires at <= |piece| && maximum >= 2
    decreases |piece| - at
  {
    if at == |piece| then []
    else
      var end := ChunkEnd(piece, at, maximum);
      [piece[at..end]] + PieceChunks(piece, end, maximum)
  }

  function AllChunks(pieces: seq<Text>, maximum: nat): seq<Text>
    requires maximum >= 2
  {
    if pieces == [] then [] else PieceChunks(pieces[0], 0, maximum) + AllChunks(pieces[1..], maximum)
  }

  // ----- Lossless, bounded, never inside a pair ------------------------------------------------------

  lemma {:induction false} ConcatAppend(a: seq<Text>, b: seq<Text>)
    ensures Concat(a + b) == Concat(a) + Concat(b)
  {
    if a == [] {
      assert a + b == b;
    } else {
      assert (a + b)[1..] == a[1..] + b;
      ConcatAppend(a[1..], b);
    }
  }

  lemma {:induction false} PieceIsKept(piece: Text, at: nat, maximum: nat)
    requires at <= |piece| && maximum >= 2
    ensures Concat(PieceChunks(piece, at, maximum)) == piece[at..]
    decreases |piece| - at
  {
    if at < |piece| {
      var end := ChunkEnd(piece, at, maximum);
      PieceIsKept(piece, end, maximum);
      assert PieceChunks(piece, at, maximum)[1..] == PieceChunks(piece, end, maximum);
      assert piece[at..] == piece[at..end] + piece[end..];
    }
  }

  lemma {:induction false} ChunksKeepText(pieces: seq<Text>, maximum: nat)
    requires maximum >= 2
    ensures Concat(AllChunks(pieces, maximum)) == Concat(pieces)
  {
    if pieces != [] {
      ConcatAppend(PieceChunks(pieces[0], 0, maximum), AllChunks(pieces[1..], maximum));
      PieceIsKept(pieces[0], 0, maximum);
      ChunksKeepText(pieces[1..], maximum);
      assert pieces[0][0..] == pieces[0];
    }
  }

  /** A chunk is not empty and within the bound. */
  ghost predicate Bounded(chunks: seq<Text>, maximum: nat) {
    forall c | c in chunks :: 0 < |c| <= maximum
  }

  lemma {:induction false} PieceIsBounded(piece: Text, at: nat, maximum: nat)
    requires at <= |piece| && maximum >= 2
    ensures Bounded(PieceChunks(piece, at, maximum), maximum)
    decreases |piece| - at
  {
    if at < |piece| {
      PieceIsBounded(piece, ChunkEnd(piece, at, maximum), maximum);
    }
  }

  lemma {:induction false} ChunksAreBounded(pieces: seq<Text>, maximum: nat)
    requires maximum >= 2
    ensures Bounded(AllChunks(pieces, maximum), maximum)
  {
    if pieces != [] {
      PieceIsBounded(pieces[0], 0, maximum);
      ChunksAreBounded(pieces[1..], maximum);
    }
  }

  /**
   * No two neighbouring chunks of one piece split a surrogate pair between them. A chunk with another one
   * behind it is as long as it may be, or one unit shorter in front of the first half of a pair.
   */
  lemma {:induction false} PairsStayTogether(piece: Text, at: nat, maximum: nat, i: nat)
    requires at <= |piece| && maximum >= 2 && i + 1 < |PieceChunks(piece, at, maximum)|
    ensures var chunks := PieceChunks(piece, at, maximum);
            && chunks[i] != [] && chunks[i + 1] != []
            && !(High(chunks[i][|chunks[i]| - 1]) && Low(chunks[i + 1][0]))
            && (|chunks[i]| == maximum || (|chunks[i]| == maximum - 1 && High(chunks[i + 1][0])))
    decreases i
  {
    var end := ChunkEnd(piece, at, maximum);
    if i > 0 {
      PairsStayTogether(piece, end, maximum, i - 1);
    } else {
      assert PieceChunks(piece, at, maximum)[1..] == PieceChunks(piece, end, maximum);
    }
  }

  // ----- The generator -------------------------------------------------------------------------------

  /** What the generator yields when it has seen these chunks: the last one without its newline, if so chosen. */
  function Yielded(chunks: seq<Text>, finalNewline: bool): seq<Text> {
    if chunks == [] then []
    else chunks[..|chunks| - 1] + [if finalNewline then chunks[|chunks| - 1] else WithoutFinalNewline(chunks[|chunks| - 1])]
  }

  lemma {:induction false} YieldedText(chunks: seq<Text>, finalNewline: bool)
    requires forall c | c in chunks :: c != []
    ensures Concat(Yielded(chunks, finalNewline)) == if finalNewline then Concat(chunks) else WithoutFinalNewline(Concat(chunks))
  {
    if chunks != [] {
      var n := |chunks| - 1;
      var last := chunks[n];
      assert last in chunks;
      assert chunks == chunks[..n] + [last];
      ConcatAppend(chunks[..n], [last]);
      ConcatOne(last);
      ConcatAppend(chunks[..n], [WithoutFinalNewline(last)]);
      ConcatOne(WithoutFinalNewline(last));
      hide Concat;
      assert (Concat(chunks[..n]) + last)[|Concat(chunks[..n]) + last| - 1] == last[|last| - 1];
      assert WithoutFinalNewline(Concat(chunks[..n]) + last) == Concat(chunks[..n]) + WithoutFinalNewline(last);
    }
  }

  lemma ConcatOne(text: Text)
    ensures Concat([text]) == text
  {
    assert Concat([text][1..]) == [];
  }

  lemma {:induction false} AllChunksSnoc(pieces: seq<Text>, piece: Text, maximum: nat)
    requires maximum >= 2
    ensures AllChunks(pieces + [piece], maximum) == AllChunks(pieces, maximum) + PieceChunks(piece, 0, maximum)
  {
    if pieces == [] {
      assert [] + [piece] == [piece] && [piece][1..] == [];
      assert AllChunks([piece][1..], maximum) == [];
    } else {
      assert (pieces + [piece])[1..] == pieces[1..] + [piece];
      AllChunksSnoc(pieces[1..], piece, maximum);
    }
  }

  /**
   * The generator, with its yields in `yielded`. Its text is the writer's pieces, less one trailing newline
   * unless the choice keeps it; every chunk is within the bound.
   */
  method ExportedChunks(pieces: seq<Text>, finalNewline: bool, maximum: nat) returns (yielded: seq<Text>)
    requires maximum >= 2
    ensures yielded == Yielded(AllChunks(pieces, maximum), finalNewline)
    ensures Concat(yielded) == if finalNewline then Concat(pieces) else WithoutFinalNewline(Concat(pieces))
    ensures forall c | c in yielded :: |c| <= maximum
  {
    yielded := [];
    var pending: Option<Text> := None;
    for i := 0 to |pieces|
      invariant yielded + Held(pending) == AllChunks(pieces[..i], maximum)
      invariant pending.None? ==> yielded == []
    {
      yielded, pending := CutPiece(pieces[i], maximum, yielded, pending);
      assert pieces[..i + 1] == pieces[..i] + [pieces[i]];
      AllChunksSnoc(pieces[..i], pieces[i], maximum);
    }
    assert pieces[..|pieces|] == pieces;
    ChunksAreBounded(pieces, maximum);
    ChunksKeepText(pieces, maximum);
    YieldedText(AllChunks(pieces, maximum), finalNewline);
    if pending.Some? {
      var all := yielded + [pending.value];
      assert all[..|all| - 1] == yielded;
      assert forall c | c in yielded :: c in all;
      assert pending.value in all;
      yielded := yielded + [if finalNewline then pending.value else WithoutFinalNewline(pending.value)];
    }
  }

  function Held(pending: Option<Text>): seq<Text> {
    match pending case None => [] case Some(text) => [text]
  }

  lemma OneChunk(seen: seq<Text>, chunk: Text, rest: seq<Text>)
    ensures seen + ([chunk] + rest) == seen + [chunk] + rest
  {}

  /** The inner loop: every chunk waits in `pending` until the next one shows that it was not the last. */
  method CutPiece(piece: Text, maximum: nat, before: seq<Text>, held: Option<Text>) returns (yielded: seq<Text>, pending: Option<Text>)
    requires maximum >= 2 && (held.None? ==> before == [])
    ensures yielded + Held(pending) == before + Held(held) + PieceChunks(piece, 0, maximum)
    ensures pending.None? ==> yielded == []
  {
    yielded, pending := before, held;
    var at := 0;
    while at < |piece|
      invariant 0 <= at <= |piece| && (pending.None? ==> yielded == [])
      invariant yielded + Held(pending) + PieceChunks(piece, at, maximum) == before + Held(held) + PieceChunks(piece, 0, maximum)
    {
      var end := ChunkEnd(piece, at, maximum);
      var chunk := piece[at..end];
      ghost var seen := yielded + Held(pending);
      OneChunk(seen, chunk, PieceChunks(piece, end, maximum));
      if pending.Some? {
        yielded := yielded + [pending.value];
      }
      pending := Some(chunk);
      assert yielded + Held(pending) == seen + [chunk];
      at := end;
    }
  }

  // ----- The delimited writer ------------------------------------------------------------------------

  /** `opening`, each `row`, and `closing` of the delimited writer. */
  function DelimitedPieces(columns: seq<Text>, rows: seq<Row>, choice: Choice): seq<Text> {
    [if choice.header then Line(Written(columns, [], choice)[0], choice.delimiter) else []]
    + seq(|rows|, i requires 0 <= i < |rows| => Line(CellTexts(rows[i], choice), choice.delimiter))
    + [[]]
  }

  lemma {:induction false} LinesAreConcatenated(rows: seq<seq<Text>>, delimiter: Text)
    ensures Concat(seq(|rows|, i requires 0 <= i < |rows| => Line(rows[i], delimiter))) == Lines(rows, delimiter)
  {
    if rows != [] {
      LinesAreConcatenated(rows[1..], delimiter);
      var lines := seq(|rows|, i requires 0 <= i < |rows| => Line(rows[i], delimiter));
      assert lines[1..] == seq(|rows[1..]|, i requires 0 <= i < |rows[1..]| => Line(rows[1..][i], delimiter));
    }
  }

  lemma {:induction false} LinesAppend(a: seq<seq<Text>>, b: seq<seq<Text>>, delimiter: Text)
    ensures Lines(a + b, delimiter) == Lines(a, delimiter) + Lines(b, delimiter)
  {
    if a == [] {
      assert a + b == b;
    } else {
      assert (a + b)[1..] == a[1..] + b;
      LinesAppend(a[1..], b, delimiter);
    }
  }

  /** The writer's pieces are the lines of the rows it writes. */
  lemma PiecesAreLines(columns: seq<Text>, rows: seq<Row>, choice: Choice)
    ensures Concat(DelimitedPieces(columns, rows, choice)) == Lines(Written(columns, rows, choice), choice.delimiter)
  {
    var head := if choice.header then Written(columns, [], choice) else [];
    var body := seq(|rows|, i requires 0 <= i < |rows| => CellTexts(rows[i], choice));
    assert Written(columns, rows, choice) == head + body;
    LinesAppend(head, body, choice.delimiter);
    LinesAreConcatenated(body, choice.delimiter);
    var opening := if choice.header then Line(head[0], choice.delimiter) else [];
    var lines := seq(|rows|, i requires 0 <= i < |rows| => Line(CellTexts(rows[i], choice), choice.delimiter));
    assert lines == seq(|body|, i requires 0 <= i < |body| => Line(body[i], choice.delimiter));
    assert choice.header ==> head[1..] == [] && Lines(head[1..], choice.delimiter) == [];
    assert opening == Lines(head, choice.delimiter);
    ConcatAppend([opening] + lines, [[]]);
    ConcatAppend([opening], lines);
    ConcatOne(opening);
    ConcatOne([]);
    hide Concat, Lines, Line;
    assert Concat(DelimitedPieces(columns, rows, choice)) == opening + Concat(lines) + [];
  }

  /**
   * What is exported in chunks is read back: with the final newline always, without it exactly when the last
   * row written is not a single empty cell.
   */
  lemma ExportIsReadBack(columns: seq<Text>, rows: seq<Row>, choice: Choice, yielded: seq<Text>)
    requires Usable(choice.delimiter) && (forall row | row in rows :: row != []) && (choice.header ==> columns != [])
    requires var text := Concat(DelimitedPieces(columns, rows, choice));
             Concat(yielded) == if choice.finalNewline then text else WithoutFinalNewline(text)
    ensures var written := Written(columns, rows, choice);
            Parse(Concat(yielded), choice.delimiter) == written
            <==> choice.finalNewline || written == [] || written[|written| - 1] != [[]]
  {
    PiecesAreLines(columns, rows, choice);
    WrittenRowsComeBack(columns, rows, choice);
  }
}
