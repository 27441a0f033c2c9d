/** The text of a site key determines its path: the numbering of `siteKey` strings has no ambiguity. */
module SiteKeys {
  import opened Options
  import opened Decimals
  import opened SyntaxWalk
  import opened SyntaxSites

  type Word = string

  function SegmentWords(s: Segment): (r: seq<Word>)
    ensures r != []
  {
    match s
    case At(i) => [Decimal(i)]
    case InBlock => ["block"]
    case InException(i) => ["exception", Decimal(i)]
    case Then => ["if", "then"]
    case Elsif(i) => ["if", "elsif", Decimal(i)]
    case Else => ["if", "else"]
    case When(i) => ["case", Decimal(i)]
    case CaseElse => ["case", "else"]
    case InLoop => ["loop"]
  }

  function Words(path: Path): seq<Word> {
    if path == [] then [] else SegmentWords(path[0]) + Words(path[1..])
  }

  ghost predicate DotFree(words: seq<Word>) {
    forall w | w in words :: '.' !in w
  }

  lemma NumberIsNotAWord(n: nat)
    ensures '.' !in Decimal(n) && Decimal(n) !in ["block", "exception", "if", "then", "elsif", "else", "case", "loop"]
  {
    DecimalIsDigits(n);
    assert Decimal(n)[0] in Decimal(n);
  }

  lemma SegmentWordsDotFree(s: Segment)
    ensures DotFree(SegmentWords(s))
  {
    match s
    case At(i) => NumberIsNotAWord(i);
    case InException(i) => NumberIsNotAWord(i);
    case Elsif(i) => NumberIsNotAWord(i);
    case When(i) => NumberIsNotAWord(i);
    case _ =>
  }

  lemma {:induction false} WordsDotFree(path: Path)
    ensures DotFree(Words(path))
  {
    if path != [] {
      SegmentWordsDotFree(path[0]);
      WordsDotFree(path[1..]);
    }
  }

  /** The first segment can be told from the words, whatever follows. */
  lemma FirstSegment(a: Segment, b: Segment, ra: seq<Word>, rb: seq<Word>)
    requires SegmentWords(a) + ra == SegmentWords(b) + rb
    ensures a == b && ra == rb
  {
    var wa, wb := SegmentWords(a) + ra, SegmentWords(b) + rb;
    Numbers(a);
    Numbers(b);
    assert wa[0] == SegmentWords(a)[0] && wb[0] == SegmentWords(b)[0];
    if |SegmentWords(a)| > 1 && |SegmentWords(b)| > 1 {
      assert wa[1] == SegmentWords(a)[1] && wb[1] == SegmentWords(b)[1];
      if |SegmentWords(a)| > 2 && |SegmentWords(b)| > 2 {
        assert wa[2] == SegmentWords(a)[2] && wb[2] == SegmentWords(b)[2];
      }
    }
    SameNumber(a, b);
    assert a == b;
    assert wa[|SegmentWords(a)|..] == ra && wb[|SegmentWords(b)|..] == rb;
  }

  lemma Numbers(s: Segment)
    ensures s.At? || s.InException? || s.Elsif? || s.When? ==>
              Decimal(s.i) !in ["block", "exception", "if", "then", "elsif", "else", "case", "loop"]
  {
    if s.At? || s.InException? || s.Elsif? || s.When? {
      NumberIsNotAWord(s.i);
    }
  }

  predicate Numbered(s: Segment) {
    s.At? || s.InException? || s.Elsif? || s.When?
  }

  lemma SameNumber(a: Segment, b: Segment)
    ensures Numbered(a) && Numbered(b) && Decimal(a.i) == Decimal(b.i) ==> a.i == b.i
  {
    if Numbered(a) && Numbered(b) && Decimal(a.i) == Decimal(b.i) {
      DecimalIsInjective(a.i, b.i);
    }
  }

  lemma {:induction false} WordsAreInjective(a: Path, b: Path)
    requires Words(a) == Words(b)
    ensures a == b
  {
    if a != [] && b != [] {
      FirstSegment(a[0], b[0], Words(a[1..]), Words(b[1..]));
      WordsAreInjective(a[1..], b[1..]);
      assert a == [a[0]] + a[1..] && b == [b[0]] + b[1..];
    }
  }

  /** `root`, then each word behind a dot. */
  function Dotted(words: seq<Word>): string {
    if words == [] then "root" else Dotted(words[..|words| - 1]) + "." + words[|words| - 1]
  }

  lemma {:induction false} DottedAppend(a: seq<Word>, w: Word)
    ensures Dotted(a + [w]) == Dotted(a) + "." + w
  {
    assert (a + [w])[..|a|] == a;
  }

  lemma {:induction false} WordsSnoc(path: Path)
    requires path != []
    ensures Words(path) == Words(path[..|path| - 1]) + SegmentWords(path[|path| - 1])
  {
    var n := |path| - 1;
    if n == 0 {
      assert path[1..] == [];
    } else {
      WordsSnoc(path[1..]);
      assert path[1..][..n - 1] == path[..n][1..];
    }
  }

  lemma DottedAppendTwo(a: seq<Word>, v: Word, w: Word)
    ensures Dotted(a + [v, w]) == Dotted(a) + "." + (v + "." + w)
  {
    DottedAppend(a, v);
    DottedAppend(a + [v], w);
    assert a + [v, w] == a + [v] + [w];
  }

  lemma DottedAppendThree(a: seq<Word>, u: Word, v: Word, w: Word)
    ensures Dotted(a + [u, v, w]) == Dotted(a) + "." + (u + "." + v + "." + w)
  {
    DottedAppendTwo(a, u, v);
    DottedAppend(a + [u, v], w);
    assert a + [u, v, w] == a + [u, v] + [w];
  }

  lemma SegmentDotted(before: seq<Word>, s: Segment)
    ensures Dotted(before + SegmentWords(s)) == Dotted(before) + "." + SegmentText(s)
  {
    hide Dotted, Decimal;
    match s
    case At(i) => DottedAppend(before, Decimal(i));
    case InBlock => DottedAppend(before, "block");
    case InLoop => DottedAppend(before, "loop");
    case InException(i) =>
      DottedAppendTwo(before, "exception", Decimal(i));
      assert "exception" + "." + Decimal(i) == "exception." + Decimal(i);
    case Then =>
      DottedAppendTwo(before, "if", "then");
      assert "if" + "." + "then" == "if.then";
    case Elsif(i) =>
      DottedAppendThree(before, "if", "elsif", Decimal(i));
      assert "if" + "." + "elsif" + "." + Decimal(i) == "if.elsif." + Decimal(i);
    case Else =>
      DottedAppendTwo(before, "if", "else");
      assert "if" + "." + "else" == "if.else";
    case When(i) =>
      DottedAppendTwo(before, "case", Decimal(i));
      assert "case" + "." + Decimal(i) == "case." + Decimal(i);
    case CaseElse =>
      DottedAppendTwo(before, "case", "else");
      assert "case" + "." + "else" == "case.else";
  }

  lemma {:induction false} KeyIsDotted(path: Path)
    ensures KeyText(path) == Dotted(Words(path))
  {
    if path != [] {
      KeyIsDotted(path[..|path| - 1]);
      WordsSnoc(path);
      SegmentDotted(Words(path[..|path| - 1]), path[|path| - 1]);
    }
  }

  /** Behind its last dot a text is one word. */
  lemma LastWord(x: string, v: Word, y: string, w: Word)
    requires x + "." + v == y + "." + w && '.' !in v && '.' !in w
    ensures x == y && v == w
  {
    var s := x + "." + v;
    assert s[|x|] == '.' && s[|y|] == '.';
    NoDotBehind(x, v, |y|);
    NoDotBehind(y, w, |x|);
    assert s[..|x|] == x && s[..|y|] == y && s[|x| + 1..] == v && s[|y| + 1..] == w;
  }

  lemma NoDotBehind(x: string, v: Word, k: nat)
    requires '.' !in v && k < |x + "." + v| && (x + "." + v)[k] == '.'
    ensures k <= |x|
  {
    var s := x + "." + v;
    forall i | |x| < i < |s| ensures s[i] != '.' {
      assert s[i] == v[i - |x| - 1] && v[i - |x| - 1] in v;
    }
  }

  lemma {:induction false} DottedIsInjective(a: seq<Word>, b: seq<Word>)
    requires DotFree(a) && DotFree(b) && Dotted(a) == Dotted(b)
    ensures a == b
  {
    if a != [] && b != [] {
      LastWord(Dotted(a[..|a| - 1]), a[|a| - 1], Dotted(b[..|b| - 1]), b[|b| - 1]);
      DottedIsInjective(a[..|a| - 1], b[..|b| - 1]);
      assert a == a[..|a| - 1] + [a[|a| - 1]] && b == b[..|b| - 1] + [b[|b| - 1]];
    } else {
      HasDot(a);
      HasDot(b);
    }
  }

  lemma HasDot(a: seq<Word>)
    ensures '.' in Dotted(a) <==> a != []
  {}

  /** Different paths have different `siteKey` strings. */
  lemma KeyTextIsInjective(a: Path, b: Path)
    requires KeyText(a) == KeyText(b)
    ensures a == b
  {
    KeyIsDotted(a);
    KeyIsDotted(b);
    WordsDotFree(a);
    WordsDotFree(b);
    DottedIsInjective(Words(a), Words(b));
    WordsAreInjective(a, b);
  }

  /**
   * Site keys identify statements: in a routine any two probes have the same `siteKey` exactly when they
   * stand on the same statement, if and only if no `ELSIF` or `WHEN` clause behind one without statements
   * begins with a statement that has a probe of its own.
   */
  lemma SiteKeysIdentifyStatements(b: Block)
    ensures (forall d, e | d in BlockEntries(b) && e in BlockEntries(b) && HasSite(d) && HasSite(e)
               :: KeyText(d.place.key) == KeyText(e.place.key) <==> d.place.site == e.place.site)
            <==> Compact(b)
  {
    BlockIdentifies(b);
    var entries := BlockEntries(b);
    hide BlockEntries, Compact, KeyText;
    forall d, e | d in entries && e in entries && HasSite(d) && HasSite(e)
      ensures PairOf(d) in Pairs(entries) && PairOf(e) in Pairs(entries)
      ensures KeyText(d.place.key) == KeyText(e.place.key) <==> d.place.key == e.place.key
    {
      if KeyText(d.place.key) == KeyText(e.place.key) {
        KeyTextIsInjective(d.place.key, e.place.key);
      }
    }
  }

  const Assignment := Statement(3, 3, 40, "assignment", Simple)
  const ShiftedClause := Clause(3, Some(Section([Wrapper(3, 40, Held(Assignment))])))
  const ShiftedChoice := Statement(1, 4, 10, "if", If(None, [Clause(2, None), ShiftedClause], None, None))
  const ShiftedSection := Section([Wrapper(1, 10, Held(ShiftedChoice))])

  /** The condition can fail: `IF a THEN ELSIF b THEN ELSIF c THEN x := 1; END IF`. */
  lemma ShiftedClauseFails()
    ensures !Compact(Block(Some(ShiftedSection), []))
  {
    var clauses := [Clause(2, None), ShiftedClause];
    assert clauses[0].section.None? && StartsLabelled(clauses[1].section);
    assert !NoShift(clauses);
    assert !CompactStatement(ShiftedChoice);
    var w := Wrapper(1, 10, Held(ShiftedChoice));
    assert !CompactWrapper(w) && w in ShiftedSection.statements;
    assert !CompactSection(ShiftedSection);
  }
}
