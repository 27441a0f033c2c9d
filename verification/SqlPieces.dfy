/**
 * The normal form of a signature told from its pieces (packages/catalog/src/postgresSchemaComparison.ts):
 * literals and quoted identifiers as they are, other text in lower case, and of the blanks between them one
 * wherever no parenthesis and no comma stands beside it.
 */
module SqlPieces {
  import opened Options
  import opened SqlNormaliser

  /** `Open` is a literal without a closing quote, which only the end of a text can have. */
  datatype Piece = Word(text: string) | Literal(quote: char, inside: string) | Open(quote: char, inside: string) | Blank(text: string)

  predicate IsMark(c: char) {
    c == '\'' || c == '"'
  }

  predicate IsTight(c: char) {
    c == '(' || c == ')' || c == ','
  }

  function Doubled(text: string, quote: char): string {
    if text == "" then "" else (if text[0] == quote then [quote, quote] else [text[0]]) + Doubled(text[1..], quote)
  }

  function Source(p: Piece): string {
    match p
    case Word(text) => text
    case Blank(text) => text
    case Open(quote, inside) => [quote] + Doubled(inside, quote)
    case Literal(quote, inside) => [quote] + (Doubled(inside, quote) + [quote])
  }

  predicate IsPiece(cs: Characters, p: Piece) {
    match p
    case Word(text) => text != "" && forall c | c in text :: !cs.isSpace(c) && !IsMark(c)
    case Blank(text) => text != "" && forall c | c in text :: cs.isSpace(c)
    case Open(quote, _) => IsMark(quote)
    case Literal(quote, _) => IsMark(quote)
  }

  /** Side by side without running into one another. */
  predicate Apart(a: Piece, b: Piece) {
    match a
    case Word(_) => !b.Word?
    case Blank(_) => !b.Blank?
    case Open(_, _) => false
    case Literal(quote, _) => (b.Literal? || b.Open?) ==> b.quote != quote
  }

  predicate ArePieces(cs: Characters, pieces: seq<Piece>) {
    && (forall p | p in pieces :: IsPiece(cs, p))
    && forall i {:trigger pieces[i]} | 0 < i < |pieces| :: Apart(pieces[i - 1], pieces[i])
  }

  function Sources(pieces: seq<Piece>): string {
    if pieces == [] then "" else Source(pieces[0]) + Sources(pieces[1..])
  }

  function Lowered(cs: Characters, text: string): string {
    if text == "" then "" else cs.lower(text[0]) + Lowered(cs, text[1..])
  }

  /** What blanks between two pieces become. */
  predicate BlankStays(before: Piece, after: Piece) {
    && !(before.Word? && before.text != "" && IsTight(before.text[|before.text| - 1]))
    && !(after.Word? && after.text != "" && IsTight(after.text[0]))
  }

  /** What the piece at `i` becomes: a blank stays, as one, only between two pieces. */
  function Shown(cs: Characters, pieces: seq<Piece>, i: nat): string
    requires i < |pieces|
  {
    match pieces[i]
    case Word(text) => Lowered(cs, text)
    case Blank(_) => if 0 < i < |pieces| - 1 && BlankStays(pieces[i - 1], pieces[i + 1]) then " " else ""
    case _ => Source(pieces[i])
  }

  function ShownFrom(cs: Characters, pieces: seq<Piece>, i: nat): string
    requires i <= |pieces|
    decreases |pieces| - i
  {
    if i == |pieces| then "" else Shown(cs, pieces, i) + ShownFrom(cs, pieces, i + 1)
  }

  // ----- One piece -----------------------------------------------------------------------------------

  /** A literal is copied up to its closing quote, or to the end. */
  lemma {:induction false} InsideIsCopied(cs: Characters, inside: string, q: char, rest: string, previous: Option<char>)
    requires rest == "" || rest[0] != q
    ensures Normal(cs, Doubled(inside, q) + ([q] + rest), Some(q), previous) == Doubled(inside, q) + ([q] + Normal(cs, rest, None, Some(q)))
    ensures Normal(cs, Doubled(inside, q), Some(q), previous) == Doubled(inside, q)
    decreases |inside|
  {
    if inside == "" {
      var tail := [q] + rest;
      assert tail[1..] == rest && "" + tail == tail;
    } else {
      var tail, more := [q] + rest, Doubled(inside[1..], q);
      var head := if inside[0] == q then [q, q] else [inside[0]];
      CopiesOne(cs, inside[0], q, more + tail, previous);
      CopiesOne(cs, inside[0], q, more, previous);
      InsideIsCopied(cs, inside[1..], q, rest, Some(inside[0]));
      assert Doubled(inside, q) == head + more;
      hide Normal, Doubled, KeepsBlank, NextVisible;
      Grouped(head, more, tail);
      Grouped(head, more, [q] + Normal(cs, rest, None, Some(q)));
    }
  }

  lemma Grouped(a: string, b: string, c: string)
    ensures a + b + c == a + (b + c)
  {}

  lemma CopiesOne(cs: Characters, c: char, q: char, rest: string, previous: Option<char>)
    ensures var head := if c == q then [q, q] else [c];
            Normal(cs, head + rest, Some(q), previous) == head + Normal(cs, rest, Some(q), Some(c))
  {
    var head := if c == q then [q, q] else [c];
    assert (head + rest)[|head|..] == rest;
  }

  lemma {:induction false} WordIsLowered(cs: Characters, text: string, rest: string, previous: Option<char>)
    requires Lawful(cs) && text != "" && forall c | c in text :: !cs.isSpace(c) && !IsQuote(c)
    ensures Lowered(cs, text) != ""
    ensures Normal(cs, text + rest, None, previous) == Lowered(cs, text) + Normal(cs, rest, None, Last(Lowered(cs, text)))
    ensures var last := Last(Lowered(cs, text)).value;
            last != ' ' && (IsPunctuation(last) <==> IsPunctuation(text[|text| - 1]))
    decreases |text|
  {
    var c, low := text[0], cs.lower(text[0]);
    assert c in text;
    OneIsLowered(cs, c, text[1..] + rest, previous);
    assert text == [c] + text[1..];
    Grouped([c], text[1..], rest);
    assert Lowered(cs, text) == low + Lowered(cs, text[1..]);
    if |text| == 1 {
      assert text[1..] + rest == rest && low + "" == low;
    } else {
      assert forall x | x in text[1..] :: x in text;
      WordIsLowered(cs, text[1..], rest, Last(low));
      hide Normal, Lawful, IsPunctuation, Lowered;
      var more := Lowered(cs, text[1..]);
      Appended(low, more, Normal(cs, rest, None, Last(more)));
      assert text[1..][|text| - 2] == text[|text| - 1];
    }
  }

  lemma OneIsLowered(cs: Characters, c: char, rest: string, previous: Option<char>)
    requires Lawful(cs) && !cs.isSpace(c) && !IsQuote(c)
    ensures Normal(cs, [c] + rest, None, previous) == cs.lower(c) + Normal(cs, rest, None, Last(cs.lower(c)))
    ensures cs.lower(c) != ""
    ensures var last := Last(cs.lower(c)).value; last != ' ' && (IsPunctuation(last) <==> IsPunctuation(c))
  {
    var low := cs.lower(c);
    assert low[|low| - 1] in low;
    assert ([c] + rest)[1..] == rest;
  }

  /** Of a run of blanks one stays or none. */
  lemma {:induction false} BlanksBecomeOne(cs: Characters, text: string, rest: string, previous: Option<char>)
    requires text != "" && (forall c | c in text :: cs.isSpace(c)) && (rest == "" || !cs.isSpace(rest[0]))
    requires forall c | c in text :: !IsQuote(c)
    ensures NextVisible(cs, text + rest) == if rest == "" then None else Some(rest[0])
    ensures Normal(cs, text + rest, None, previous)
            == if KeepsBlank(previous, if rest == "" then None else Some(rest[0])) then " " + Normal(cs, rest, None, Some(' '))
               else Normal(cs, rest, None, previous)
    decreases |text|
  {
    var all := text + rest;
    assert text[0] in text && all[0] == text[0] && all[1..] == text[1..] + rest;
    var kept := if KeepsBlank(previous, NextVisible(cs, all)) then Some(' ') else previous;
    if |text| == 1 {
      assert text[1..] + rest == rest;
      assert rest == "" ==> NextVisible(cs, rest) == None;
    } else {
      assert forall x | x in text[1..] :: x in text;
      BlanksBecomeOne(cs, text[1..], rest, kept);
      BlanksBecomeOne(cs, text[1..], rest, previous);
    }
  }

  // ----- All pieces ----------------------------------------------------------------------------------

  /** The character behind which the piece at `i` is read. */
  predicate ReadBehind(pieces: seq<Piece>, i: nat, previous: Option<char>)
    requires i <= |pieces|
  {
    if i == 0 then previous == None
    else
      pieces[i - 1].Blank? || (previous.Some? && previous.value != ' ' &&
      (IsPunctuation(previous.value) <==>
         pieces[i - 1].Word? && pieces[i - 1].text != "" && IsPunctuation(pieces[i - 1].text[|pieces[i - 1].text| - 1])))
  }

  lemma FirstCharacter(cs: Characters, pieces: seq<Piece>)
    requires ArePieces(cs, pieces) && pieces != []
    ensures Sources(pieces) != "" && Source(pieces[0]) != "" && Sources(pieces)[0] == Source(pieces[0])[0]
  {
    assert pieces[0] in pieces;
  }

  lemma PiecesFrom(cs: Characters, pieces: seq<Piece>, i: nat)
    requires ArePieces(cs, pieces) && i <= |pieces|
    ensures ArePieces(cs, pieces[i..])
  {
    forall k | 0 < k < |pieces[i..]| ensures Apart(pieces[i..][k - 1], pieces[i..][k]) {
      assert pieces[i..][k] == pieces[i + k];
    }
  }

  lemma {:induction false} PiecesAreShown(cs: Characters, pieces: seq<Piece>, i: nat, previous: Option<char>)
    requires Lawful(cs) && ArePieces(cs, pieces) && i <= |pieces| && ReadBehind(pieces, i, previous)
    ensures Normal(cs, Sources(pieces[i..]), None, previous) == ShownFrom(cs, pieces, i)
    decreases |pieces| - i
  {
    if i == |pieces| {
      NothingIsShown(cs, pieces, previous);
    } else if pieces[i].Open? {
      OpenIsShown(cs, pieces, i, previous);
    } else {
      hide Sources, Normal, ArePieces, Lawful, ReadBehind, Shown;
      var next := OneIsShown(cs, pieces, i, previous);
      PiecesAreShown(cs, pieces, i + 1, next);
    }
  }

  /** One piece, and the character behind which the next one is read. */
  lemma OneIsShown(cs: Characters, pieces: seq<Piece>, i: nat, previous: Option<char>) returns (next: Option<char>)
    requires Lawful(cs) && ArePieces(cs, pieces) && i < |pieces| && !pieces[i].Open? && ReadBehind(pieces, i, previous)
    ensures Normal(cs, Sources(pieces[i..]), None, previous)
            == Shown(cs, pieces, i) + Normal(cs, Sources(pieces[i + 1..]), None, next)
    ensures ReadBehind(pieces, i + 1, next)
  {
    hide Sources, Normal, ArePieces, Lawful;
    FirstPiece(cs, pieces, i);
    var p, rest := pieces[i], Sources(pieces[i + 1..]);
    match p {
      case Word(text) =>
        WordIsLowered(cs, text, rest, previous);
        next := Last(Lowered(cs, text));
      case Literal(q, _) =>
        NextPiece(cs, pieces, i);
        LiteralIsCopied(cs, p, rest, previous);
        next := Some(q);
      case Blank(_) =>
        next := if Shown(cs, pieces, i) == " " then Some(' ') else previous;
        BlankRun(cs, pieces, i, previous);
    }
  }

  lemma NothingIsShown(cs: Characters, pieces: seq<Piece>, previous: Option<char>)
    ensures Normal(cs, Sources(pieces[|pieces|..]), None, previous) == ""
  {
    assert pieces[|pieces|..] == [];
  }

  lemma FirstPiece(cs: Characters, pieces: seq<Piece>, i: nat)
    requires ArePieces(cs, pieces) && i < |pieces|
    ensures IsPiece(cs, pieces[i]) && Sources(pieces[i..]) == Source(pieces[i]) + Sources(pieces[i + 1..])
  {
    assert pieces[i] in pieces;
    assert pieces[i..][1..] == pieces[i + 1..];
  }

  lemma BlankRun(cs: Characters, pieces: seq<Piece>, i: nat, previous: Option<char>)
    requires Lawful(cs) && ArePieces(cs, pieces) && i < |pieces| && pieces[i].Blank? && ReadBehind(pieces, i, previous)
    ensures var shown, rest := Shown(cs, pieces, i), Sources(pieces[i + 1..]);
            var next := if shown == " " then Some(' ') else previous;
            && Normal(cs, pieces[i].text + rest, None, previous) == shown + Normal(cs, rest, None, next)
            && ReadBehind(pieces, i + 1, next)
  {
    var rest := Sources(pieces[i + 1..]);
    FirstPiece(cs, pieces, i);
    NextPiece(cs, pieces, i);
    BlankIsShown(cs, pieces, i, previous);
    hide Sources, Normal, ArePieces, Shown, ReadBehind;
    BlanksBecomeOne(cs, pieces[i].text, rest, previous);
    assert "" + Normal(cs, rest, None, previous) == Normal(cs, rest, None, previous);
  }

  lemma LiteralIsCopied(cs: Characters, p: Piece, rest: string, previous: Option<char>)
    requires p.Literal? && IsQuote(p.quote) && (rest == "" || rest[0] != p.quote)
    ensures Normal(cs, Source(p) + rest, None, previous) == Source(p) + Normal(cs, rest, None, Some(p.quote))
  {
    var q, inner := p.quote, Doubled(p.inside, p.quote);
    Grouped([q], inner + [q], rest);
    Grouped(inner, [q], rest);
    Behind([q], inner + ([q] + rest));
    InsideIsCopied(cs, p.inside, q, rest, Some(q));
    hide Normal;
    var after := Normal(cs, rest, None, Some(q));
    Grouped([q], inner + [q], after);
    Grouped(inner, [q], after);
  }

  lemma OpenIsShown(cs: Characters, pieces: seq<Piece>, i: nat, previous: Option<char>)
    requires ArePieces(cs, pieces) && i < |pieces| && pieces[i].Open?
    ensures Normal(cs, Sources(pieces[i..]), None, previous) == ShownFrom(cs, pieces, i)
  {
    var p := pieces[i];
    assert p in pieces && IsPiece(cs, p);
    assert i + 1 < |pieces| ==> Apart(pieces[i], pieces[i + 1]);
    assert pieces[i..] == [p] && pieces[i..][1..] == [] && Sources([p][1..]) == "";
    assert Sources(pieces[i..]) == Source(p) + "" == Source(p);
    Behind([p.quote], Doubled(p.inside, p.quote));
    InsideIsCopied(cs, p.inside, p.quote, "", Some(p.quote));
    assert ShownFrom(cs, pieces, i + 1) == "";
  }

  /** What stands behind a piece does not run into it. */
  lemma NextPiece(cs: Characters, pieces: seq<Piece>, i: nat)
    requires ArePieces(cs, pieces) && i < |pieces|
    ensures var p, rest := pieces[i], Sources(pieces[i + 1..]);
            && (i + 1 == |pieces| ==> rest == "")
            && (i + 1 < |pieces| ==> rest != "" && Source(pieces[i + 1]) != "" && rest[0] == Source(pieces[i + 1])[0] && IsPiece(cs, pieces[i + 1]))
            && (p.Literal? && i + 1 < |pieces| && Lawful(cs) ==> rest[0] != p.quote)
            && (p.Blank? && i + 1 < |pieces| && Lawful(cs) ==> !cs.isSpace(rest[0]))
  {
    assert pieces[i] in pieces && IsPiece(cs, pieces[i]);
    if i + 1 < |pieces| {
      PiecesFrom(cs, pieces, i + 1);
      FirstCharacter(cs, pieces[i + 1..]);
      var next := pieces[i + 1];
      assert next in pieces && IsPiece(cs, next) && Apart(pieces[i + 1 - 1], pieces[i + 1]);
      if next.Word? || next.Blank? {
        assert next.text[0] in next.text;
      }
    }
  }

  lemma BlankIsShown(cs: Characters, pieces: seq<Piece>, i: nat, previous: Option<char>)
    requires Lawful(cs) && ArePieces(cs, pieces) && i < |pieces| && pieces[i].Blank? && ReadBehind(pieces, i, previous)
    ensures var rest := Sources(pieces[i + 1..]);
            KeepsBlank(previous, if rest == "" then None else Some(rest[0])) <==> Shown(cs, pieces, i) == " "
    ensures Shown(cs, pieces, i) in {" ", ""}
    ensures ReadBehind(pieces, i + 1, Some(' ')) && ReadBehind(pieces, i + 1, previous)
  {
    NextPiece(cs, pieces, i);
    if i > 0 {
      assert Apart(pieces[i - 1], pieces[i]);
    }
    if i + 1 < |pieces| {
      var next := pieces[i + 1];
      assert next in pieces && IsPiece(cs, next) && Apart(pieces[i + 1 - 1], pieces[i + 1]);
    }
  }

  /** The normal form of any text made of such pieces. */
  lemma NormalFormIsTold(cs: Characters, pieces: seq<Piece>)
    requires Lawful(cs) && ArePieces(cs, pieces)
    ensures Normal(cs, Sources(pieces), None, None) == ShownFrom(cs, pieces, 0)
  {
    assert pieces[0..] == pieces;
    PiecesAreShown(cs, pieces, 0, None);
  }

  // ----- Every text is made of pieces ----------------------------------------------------------------

  lemma Consed(cs: Characters, p: Piece, pieces: seq<Piece>)
    requires ArePieces(cs, pieces) && IsPiece(cs, p) && (pieces != [] ==> Apart(p, pieces[0]))
    ensures ArePieces(cs, [p] + pieces) && Sources([p] + pieces) == Source(p) + Sources(pieces)
  {
    var all := [p] + pieces;
    assert all[1..] == pieces;
    forall i | 0 < i < |all| ensures Apart(all[i - 1], all[i]) {
      assert all[i] == pieces[i - 1];
      if i > 1 {
        assert all[i - 1] == pieces[i - 2];
        assert Apart(pieces[i - 1 - 1], pieces[i - 1]);
      }
    }
  }

  /** The pieces of a text, or of the text behind an opening quote, with that quote in front. */
  lemma {:induction false} PiecesOf(cs: Characters, text: string, quote: Option<char>) returns (pieces: seq<Piece>)
    requires Lawful(cs) && (quote.Some? ==> IsQuote(quote.value))
    ensures ArePieces(cs, pieces)
    ensures match quote
            case None => Sources(pieces) == text
            case Some(q) => pieces != [] && (pieces[0].Literal? || pieces[0].Open?) && pieces[0].quote == q && Sources(pieces) == [q] + text
    decreases |text|
  {
    hide ArePieces, Sources, Doubled;
    match quote {
      case Some(q) =>
        if text == "" {
          pieces := Opened(cs, q);
        } else if text[0] != q || (|text| > 1 && text[1] == q) {
          var head := if text[0] == q then [q, q] else [text[0]];
          var more := PiecesOf(cs, text[|head|..], quote);
          assert text == head + text[|head|..];
          assert ([q] + text[|head|..])[1..] == text[|head|..];
          pieces := Longer(cs, text[0], more);
          assert Sources(pieces) == [q] + text;
        } else {
          var more := PiecesOf(cs, text[1..], None);
          pieces := Closed(cs, q, more);
          assert text == [q] + text[1..];
        }
      case None =>
        if text == "" {
          pieces := NoPieces(cs);
        } else if IsQuote(text[0]) {
          pieces := PiecesOf(cs, text[1..], Some(text[0]));
        } else {
          var more := PiecesOf(cs, text[1..], None);
          pieces := Joined(cs, text[0], more);
          assert text == [text[0]] + text[1..];
        }
    }
  }

  lemma NoPieces(cs: Characters) returns (pieces: seq<Piece>)
    ensures ArePieces(cs, pieces) && Sources(pieces) == ""
  {
    pieces := [];
  }

  /** A quote that the end of the text leaves open. */
  lemma Opened(cs: Characters, q: char) returns (pieces: seq<Piece>)
    requires IsQuote(q)
    ensures ArePieces(cs, pieces) && pieces != [] && pieces[0].Open? && pieces[0].quote == q && Sources(pieces) == [q]
  {
    pieces := [Open(q, "")];
    Consed(cs, Open(q, ""), []);
    assert [Open(q, "")] + [] == pieces;
  }

  /** A closing quote in front of other pieces. */
  lemma Closed(cs: Characters, q: char, more: seq<Piece>) returns (pieces: seq<Piece>)
    requires IsQuote(q) && ArePieces(cs, more) && (Sources(more) != "" ==> Sources(more)[0] != q)
    ensures ArePieces(cs, pieces) && pieces != [] && pieces[0].Literal? && pieces[0].quote == q
    ensures Sources(pieces) == [q] + ([q] + Sources(more))
  {
    if more != [] {
      FirstCharacter(cs, more);
      assert more[0] in more && IsPiece(cs, more[0]);
    }
    Consed(cs, Literal(q, ""), more);
    pieces := [Literal(q, "")] + more;
    SourceIs(Literal(q, ""), [q]);
    assert "" + [q] == [q];
    hide ArePieces, Sources, Source;
    Grouped([q], [q], Sources(more));
  }

  /** One more character in the literal in front. */
  lemma Longer(cs: Characters, c: char, pieces: seq<Piece>) returns (r: seq<Piece>)
    requires ArePieces(cs, pieces) && pieces != [] && (pieces[0].Literal? || pieces[0].Open?)
    ensures ArePieces(cs, r) && r != [] && (r[0].Literal? || r[0].Open?) && r[0].quote == pieces[0].quote
    ensures Sources(pieces) != ""
    ensures Sources(r) == [r[0].quote] + (if c == r[0].quote then [c, c] else [c]) + Sources(pieces)[1..]
  {
    var p, rest := pieces[0], pieces[1..];
    var longer := if p.Literal? then Literal(p.quote, [c] + p.inside) else Open(p.quote, [c] + p.inside);
    assert p in pieces && IsPiece(cs, p);
    PiecesFrom(cs, pieces, 1);
    if |pieces| > 1 {
      assert Apart(pieces[1 - 1], pieces[1]);
    }
    LongerSource(p, longer, c);
    assert IsPiece(cs, longer) && (rest != [] ==> Apart(longer, rest[0]));
    assert Sources(pieces) == Source(p) + Sources(rest);
    hide ArePieces, Sources, IsPiece, Apart, Source;
    Consed(cs, longer, rest);
    r := [longer] + rest;
    var head := [p.quote] + (if c == p.quote then [c, c] else [c]);
    Grouped(head, Source(p)[1..], Sources(rest));
    TailOf(Source(p), Sources(rest));
  }

  lemma LongerSource(p: Piece, longer: Piece, c: char)
    requires p.Literal? || p.Open?
    requires longer == if p.Literal? then Literal(p.quote, [c] + p.inside) else Open(p.quote, [c] + p.inside)
    ensures Source(p) != "" && Source(longer) == [p.quote] + (if c == p.quote then [c, c] else [c]) + Source(p)[1..]
  {
    var q := p.quote;
    var end := if p.Literal? then [q] else "";
    SourceIs(p, end);
    SourceIs(longer, end);
    DoubledMore(c, p.inside, q);
    hide Doubled, Source;
    Regrouped([q], if c == q then [c, c] else [c], Doubled(p.inside, q), end);
    Behind([q], Doubled(p.inside, q) + end);
  }

  lemma SourceIs(p: Piece, end: string)
    requires (p.Literal? && end == [p.quote]) || (p.Open? && end == "")
    ensures Source(p) == [p.quote] + (Doubled(p.inside, p.quote) + end)
  {
    hide Doubled;
    if p.Open? {
      assert Doubled(p.inside, p.quote) + end == Doubled(p.inside, p.quote);
    }
  }

  lemma Regrouped(a: string, b: string, c: string, d: string)
    ensures a + (b + c + d) == a + b + (c + d)
  {}

  lemma TailOf(a: string, b: string)
    requires a != ""
    ensures (a + b)[1..] == a[1..] + b
  {}

  lemma DoubledMore(c: char, inside: string, q: char)
    ensures Doubled([c] + inside, q) == (if c == q then [c, c] else [c]) + Doubled(inside, q)
  {
    assert ([c] + inside)[1..] == inside;
  }

  /** One more character outside quotes. */
  lemma Joined(cs: Characters, c: char, pieces: seq<Piece>) returns (r: seq<Piece>)
    requires Lawful(cs) && ArePieces(cs, pieces) && !IsQuote(c)
    ensures ArePieces(cs, r) && Sources(r) == [c] + Sources(pieces)
  {
    var p := if cs.isSpace(c) then Blank([c]) else Word([c]);
    if pieces != [] && (if cs.isSpace(c) then pieces[0].Blank? else pieces[0].Word?) {
      r := Lengthened(cs, c, pieces);
    } else {
      hide Lawful, ArePieces, Sources;
      Consed(cs, p, pieces);
      r := [p] + pieces;
    }
  }

  /** One more character in the piece in front. */
  lemma Lengthened(cs: Characters, c: char, pieces: seq<Piece>) returns (r: seq<Piece>)
    requires ArePieces(cs, pieces) && pieces != [] && !IsQuote(c)
    requires if cs.isSpace(c) then pieces[0].Blank? else pieces[0].Word?
    ensures ArePieces(cs, r) && Sources(r) == [c] + Sources(pieces)
  {
    var p := pieces[0];
    var longer := if cs.isSpace(c) then Blank([c] + p.text) else Word([c] + p.text);
    assert p in pieces && IsPiece(cs, p) && IsPiece(cs, longer);
    PiecesFrom(cs, pieces, 1);
    if |pieces| > 1 {
      assert Apart(pieces[1 - 1], pieces[1]);
    }
    assert Sources(pieces) == p.text + Sources(pieces[1..]);
    hide ArePieces, Sources, IsPiece, Apart;
    Consed(cs, longer, pieces[1..]);
    r := [longer] + pieces[1..];
    Grouped([c], p.text, Sources(pieces[1..]));
  }

  /** So the normal form of every text is told from its pieces. */
  lemma EveryNormalForm(cs: Characters, source: string) returns (pieces: seq<Piece>)
    requires Lawful(cs)
    ensures ArePieces(cs, pieces) && Sources(pieces) == source
    ensures Normal(cs, source, None, None) == ShownFrom(cs, pieces, 0)
  {
    pieces := PiecesOf(cs, source, None);
    NormalFormIsTold(cs, pieces);
  }
}
