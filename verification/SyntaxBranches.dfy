/**
 * Which branches a routine has, told from its tree alone: the branch points and the warnings of the walk of
 * packages/coverage/src/syntaxAnalyzer.ts are exactly these, in this order.
 */
module SyntaxBranches {
  import opened Options
  import opened Decimals
  import opened SyntaxWalk
  import opened Sequences

  /** A branch point without its site key, or a warning. `decision` and `last` are the point's lines. */
  datatype Branch =
    | Opens(decision: nat, last: nat, title: string, line: nat, offset: nat)
    | Falls(decision: nat, last: nat, title: string, decisionLine: nat, searchAfter: nat, terminator: Option<nat>)
    | Enters(decision: nat, last: nat, title: string, loopLine: nat, line: nat, searchAfter: nat, loopOffset: nat, offset: nat)
    | Leaves(decision: nat, last: nat, title: string, loopLine: nat, searchAfter: nat, offset: nat)
    | Unmatched(line: nat)      // CASE without ELSE
    | Unprobed(line: nat)       // a loop without a statement

  // ----- The branches of a tree --------------------------------------------------------------------

  /** A section that has a statement is opened at its first statement. */
  function Opening(decision: nat, title: string, section: Option<Section>): seq<Branch> {
    match section
    case None => []
    case Some(s) =>
      if |s.statements| == 0 then []
      else [Opens(decision, decision, title, s.statements[0].line, s.statements[0].offset)]
  }

  function OfBlock(b: Block): seq<Branch>
    decreases b, 0
  {
    OfOptional(b.body) + OfHandlers(b.handlers)
  }

  function OfHandlers(handlers: seq<Handler>): seq<Branch>
    decreases handlers, 1
  {
    if handlers == [] then [] else OfHandler(handlers[0]) + OfHandlers(handlers[1..])
  }

  /** The branch of a handler is told from its first statement. */
  function OfHandler(h: Handler): seq<Branch>
    decreases h, 0
  {
    if h.section.None? || |h.section.value.statements| == 0 then []
    else Opening(h.section.value.statements[0].line, "EXCEPTION " + h.conditions, h.section) + OfOptional(h.section)
  }

  function OfOptional(section: Option<Section>): seq<Branch>
    decreases section, 0
  {
    match section case None => [] case Some(s) => OfSection(s)
  }

  function OfSection(s: Section): seq<Branch>
    decreases s, 0
  {
    OfWrappers(s.statements)
  }

  function OfWrappers(ws: seq<Wrapper>): seq<Branch>
    decreases ws, 1
  {
    if ws == [] then [] else OfWrapper(ws[0]) + OfWrappers(ws[1..])
  }

  function OfWrapper(w: Wrapper): seq<Branch>
    decreases w, 0
  {
    match w.step
    case NoStep => []
    case Nested(b) => OfBlock(b)
    case Held(st) => OfStatement(st)
  }

  function Openings(title: string, clauses: seq<Clause>): seq<Branch>
    decreases |clauses|
  {
    if clauses == [] then []
    else Opening(clauses[0].line, title + Decimal(clauses[0].line), clauses[0].section) + Openings(title, clauses[1..])
  }

  function OfClauses(clauses: seq<Clause>): seq<Branch>
    decreases clauses, 1
  {
    if clauses == [] then [] else OfClause(clauses[0]) + OfClauses(clauses[1..])
  }

  function OfClause(clause: Clause): seq<Branch>
    decreases clause, 0
  {
    OfOptional(clause.section)
  }

  /** The last of the sections `earlier` and those of the clauses. */
  function LastOf(earlier: Option<Section>, clauses: seq<Clause>): Option<Section>
    decreases |clauses|
  {
    if clauses == [] then earlier
    else LastOf(if clauses[0].section.Some? then clauses[0].section else earlier, clauses[1..])
  }

  /** An IF without an ELSE section falls through behind its last section, if that has a statement. */
  function FallingThrough(line: nat, last: Option<Section>, terminator: Option<nat>): seq<Branch> {
    match last
    case None => []
    case Some(s) =>
      if |s.statements| == 0 then []
      else [Falls(line, line, "IF false @" + Decimal(line), line, s.statements[|s.statements| - 1].line, terminator)]
  }

  /** A loop is entered before its first statement, and left behind its body unless nothing but EXIT ends it. */
  function Repeating(st: Statement, section: Option<Section>, bodyEnd: nat, plain: bool): seq<Branch> {
    if section.None? || |section.value.statements| == 0 then [Unprobed(st.line)]
    else
      var ws := section.value.statements;
      var last := ws[|ws| - 1].line;
      [Enters(st.line, st.line, "loop enter @" + Decimal(st.line), st.line, ws[0].line, last, st.offset, ws[0].offset)]
      + if plain then [] else [Leaves(st.line, st.line, "loop exit @" + Decimal(st.line), st.line, last, bodyEnd)]
  }

  function OfStatement(st: Statement): seq<Branch>
    decreases st, 0
  {
    match st.shape
    case Simple => []
    case If(then_, elsifs, else_, terminator) =>
      Opening(st.line, "IF true @" + Decimal(st.line), then_) + Openings("ELSIF true @", elsifs)
      + Opening(st.line, "ELSE @" + Decimal(st.line), else_)
      + OfOptional(then_) + OfClauses(elsifs) + OfOptional(else_)
      + if else_.Some? then [] else FallingThrough(st.line, LastOf(then_, elsifs), terminator)
    case Case(whens, hasElse, else_) =>
      Openings("WHEN @", whens)
      + (if hasElse then Opening(st.line, "CASE ELSE @" + Decimal(st.line), else_) else [Unmatched(st.line)])
      + OfClauses(whens) + if hasElse then OfOptional(else_) else []
    case Loop(_, bodyEnd, section, plain) => Repeating(st, section, bodyEnd, plain) + OfOptional(section)
  }

  predicate IsWarning(b: Branch) {
    b.Unmatched? || b.Unprobed?
  }

  function PointsOf(branches: seq<Branch>): seq<Branch> {
    if branches == [] then []
    else (if IsWarning(branches[0]) then [] else [branches[0]]) + PointsOf(branches[1..])
  }

  // ----- The branches of a walk --------------------------------------------------------------------

  function Told(e: Entry): seq<Branch> {
    match e
    case CaseWithoutElse(line) => [Unmatched(line)]
    case EmptyLoop(line) => [Unprobed(line)]
    case Probe(decision, last, branch, title, place) =>
      if !branch then []
      else match place
        case Before(line, _, _, offset) => [Opens(decision, last, title, line, offset)]
        case InjectElse(decisionLine, searchAfter, terminator) => [Falls(decision, last, title, decisionLine, searchAfter, terminator)]
        case LoopEnter(loopLine, line, searchAfter, _, _, loopOffset, offset) =>
          [Enters(decision, last, title, loopLine, line, searchAfter, loopOffset, offset)]
        case LoopExit(loopLine, searchAfter, offset) => [Leaves(decision, last, title, loopLine, searchAfter, offset)]
  }

  function ToldAll(entries: seq<Entry>): seq<Branch> {
    if entries == [] then [] else Told(entries[0]) + ToldAll(entries[1..])
  }

  lemma {:induction false} ToldAppend(a: seq<Entry>, b: seq<Entry>)
    ensures ToldAll(a + b) == ToldAll(a) + ToldAll(b)
  {
    hide Told;
    if a == [] {
      assert a + b == b;
    } else {
      assert (a + b)[1..] == a[1..] + b;
      ToldAppend(a[1..], b);
    }
  }

  lemma ToldOne(e: Entry)
    ensures ToldAll([e]) == Told(e)
  {
    assert [e][1..] == [];
    assert ToldAll([e][1..]) == [];
  }

  lemma {:induction false} ToldUnder(key: Segment, site: Segment, entries: seq<Entry>)
    ensures ToldAll(Under(key, site, entries)) == ToldAll(entries)
  {
    if entries != [] {
      assert Under(key, site, entries)[1..] == Under(key, site, entries[1..]);
      ToldUnder(key, site, entries[1..]);
    }
  }

  lemma BranchTold(line: nat, title: string, section: Option<Section>, inside: Segment)
    ensures ToldAll(BranchProbe(line, title, section, inside)) == Opening(line, title, section)
  {
    var probe := BranchProbe(line, title, section, inside);
    if probe != [] {
      ToldOne(probe[0]);
    }
  }

  lemma {:induction false} ClauseBranchesTold(clauses: seq<Clause>, elsif: bool, from: nat)
    ensures ToldAll(ClauseBranches(clauses, elsif, from)) == Openings(if elsif then "ELSIF true @" else "WHEN @", clauses)
    decreases |clauses|
  {
    if clauses != [] {
      var line := clauses[0].line;
      var title := AtLine(if elsif then "ELSIF true" else "WHEN", line);
      assert title == (if elsif then "ELSIF true @" else "WHEN @") + Decimal(line);
      ToldAppend(BranchProbe(line, title, clauses[0].section, ClauseSegment(elsif, from)), ClauseBranches(clauses[1..], elsif, from + 1));
      BranchTold(line, title, clauses[0].section, ClauseSegment(elsif, from));
      ClauseBranchesTold(clauses[1..], elsif, from + 1);
      hide BranchProbe, Opening, ToldAll;
    }
  }

  lemma {:induction false} LastSectionIs(clauses: seq<Clause>, then_: Option<Section>)
    ensures LastSection(clauses, then_) == LastOf(then_, clauses)
    decreases |clauses|
  {
    if clauses != [] {
      LastOfSnoc(then_, clauses);
      LastSectionIs(clauses[..|clauses| - 1], then_);
    }
  }

  lemma {:induction false} LastOfSnoc(earlier: Option<Section>, clauses: seq<Clause>)
    requires clauses != []
    ensures LastOf(earlier, clauses) == if clauses[|clauses| - 1].section.Some? then clauses[|clauses| - 1].section
                                        else LastOf(earlier, clauses[..|clauses| - 1])
    decreases |clauses|
  {
    if |clauses| == 1 {
      assert clauses[1..] == [] && clauses[..0] == [];
    } else {
      var earlier' := if clauses[0].section.Some? then clauses[0].section else earlier;
      LastOfSnoc(earlier', clauses[1..]);
      assert clauses[1..][..|clauses| - 2] == clauses[..|clauses| - 1][1..];
      assert clauses[1..][|clauses| - 2] == clauses[|clauses| - 1];
    }
  }

  lemma IfFalseTold(st: Statement)
    requires st.shape.If?
    ensures ToldAll(IfFalse(st))
            == if st.shape.else_.Some? then [] else FallingThrough(st.line, LastOf(st.shape.then_, st.shape.elsifs), st.shape.terminator)
  {
    LastSectionIs(st.shape.elsifs, st.shape.then_);
    assert AtLine("IF false", st.line) == "IF false @" + Decimal(st.line);
    var probe := IfFalse(st);
    if probe != [] {
      ToldOne(probe[0]);
    }
  }

  /** The walk tells exactly the branches of the tree, in order. */
  lemma {:induction false} BranchesAreTold(b: Block)
    ensures ToldAll(BlockEntries(b)) == OfBlock(b)
    decreases b, 0
  {
    ToldAppend(match b.body case None => [] case Some(s) => SectionEntries(s), HandlerEntries(b.handlers, 0));
    match b.body {
      case None =>
      case Some(s) => SectionTold(s);
    }
    HandlersTold(b.handlers, 0);
  }

  lemma {:induction false} HandlersTold(handlers: seq<Handler>, from: nat)
    ensures ToldAll(HandlerEntries(handlers, from)) == OfHandlers(handlers)
    decreases handlers, 1
  {
    if handlers != [] {
      ToldAppend(OneHandler(handlers[0], from), HandlerEntries(handlers[1..], from + 1));
      HandlerTold(handlers[0], from);
      HandlersTold(handlers[1..], from + 1);
      hide OneHandler, OfHandler, ToldAll;
    }
  }

  lemma {:induction false} HandlerTold(h: Handler, i: nat)
    ensures ToldAll(OneHandler(h, i)) == OfHandler(h)
    decreases h, 0
  {
    var first := FirstOf(h.section);
    if first.Some? {
      var w := first.value;
      var title := "EXCEPTION " + h.conditions;
      var under := Under(InException(i), InException(i), SectionEntries(h.section.value));
      assert OneHandler(h, i) == BranchProbe(w.line, title, h.section, InException(i)) + under;
      ToldAppend(BranchProbe(w.line, title, h.section, InException(i)), under);
      BranchTold(w.line, title, h.section, InException(i));
      ToldUnder(InException(i), InException(i), SectionEntries(h.section.value));
      SectionTold(h.section.value);
    }
  }

  lemma {:induction false} OptionalTold(section: Option<Section>, key: Segment, site: Segment)
    ensures ToldAll(OptionalSection(section, key, site)) == OfOptional(section)
    decreases section, 0
  {
    match section
    case None =>
    case Some(s) =>
      ToldUnder(key, site, SectionEntries(s));
      SectionTold(s);
  }

  lemma {:induction false} SectionTold(s: Section)
    ensures ToldAll(SectionEntries(s)) == OfSection(s)
    decreases s, 0
  {
    WrappersTold(s.statements, 0);
  }

  lemma {:induction false} WrappersTold(ws: seq<Wrapper>, from: nat)
    ensures ToldAll(StatementEntries(ws, from)) == OfWrappers(ws)
    decreases ws, 1
  {
    if ws != [] {
      ToldAppend(Under(At(from), At(from), WrapperEntries(ws[0])), StatementEntries(ws[1..], from + 1));
      ToldUnder(At(from), At(from), WrapperEntries(ws[0]));
      WrapperTold(ws[0]);
      WrappersTold(ws[1..], from + 1);
      hide WrapperEntries, OfWrapper, ToldAll, Under;
    }
  }

  lemma {:induction false} WrapperTold(w: Wrapper)
    ensures ToldAll(WrapperEntries(w)) == OfWrapper(w)
    decreases w, 0
  {
    match w.step
    case NoStep =>
    case Nested(b) =>
      ToldUnder(InBlock, InBlock, BlockEntries(b));
      BranchesAreTold(b);
    case Held(st) =>
      ToldAppend(OwnProbe(st), ShapeEntries(st));
      OwnTellsNothing(st);
      StatementTold(st);
      hide OwnProbe, ShapeEntries, OfStatement, ToldAll;
  }

  lemma OwnTellsNothing(st: Statement)
    ensures ToldAll(OwnProbe(st)) == []
  {
    var own := OwnProbe(st);
    if own != [] {
      ToldOne(own[0]);
    }
  }

  lemma {:induction false} ClausesTold(clauses: seq<Clause>, elsif: bool, withSection: nat, from: nat)
    ensures ToldAll(ClauseSections(clauses, elsif, withSection, from)) == OfClauses(clauses)
    decreases clauses, 1
  {
    if clauses != [] {
      var next := withSection + if clauses[0].section.Some? then 1 else 0;
      ToldAppend(OneClause(clauses[0], ClauseSegment(elsif, withSection), ClauseSegment(elsif, from)),
                 ClauseSections(clauses[1..], elsif, next, from + 1));
      ClauseTold(clauses[0], ClauseSegment(elsif, withSection), ClauseSegment(elsif, from));
      ClausesTold(clauses[1..], elsif, next, from + 1);
      hide OneClause, OfClause, ToldAll;
    }
  }

  lemma {:induction false} ClauseTold(clause: Clause, key: Segment, site: Segment)
    ensures ToldAll(OneClause(clause, key, site)) == OfClause(clause)
    decreases clause, 0
  {
    OptionalTold(clause.section, key, site);
  }

  lemma {:induction false} StatementTold(st: Statement)
    ensures ToldAll(ShapeEntries(st)) == OfStatement(st)
    decreases st, 0
  {
    match st.shape
    case Simple =>
    case If(then_, elsifs, else_, _) =>
      OptionalTold(then_, Then, Then);
      OptionalTold(else_, Else, Else);
      ClausesTold(elsifs, true, 0, 0);
      IfTold(st);
    case Case(whens, _, else_) =>
      OptionalTold(else_, CaseElse, CaseElse);
      ClausesTold(whens, false, 0, 0);
      CaseTold(st);
    case Loop(_, _, section, _) =>
      OptionalTold(section, InLoop, InLoop);
      LoopTold(st);
  }

  lemma IfTold(st: Statement)
    requires st.shape.If?
    requires ToldAll(OptionalSection(st.shape.then_, Then, Then)) == OfOptional(st.shape.then_)
    requires ToldAll(ClauseSections(st.shape.elsifs, true, 0, 0)) == OfClauses(st.shape.elsifs)
    requires ToldAll(OptionalSection(st.shape.else_, Else, Else)) == OfOptional(st.shape.else_)
    ensures ToldAll(IfEntries(st)) == OfStatement(st)
  {
    var shape := st.shape;
    var b1 := BranchProbe(st.line, AtLine("IF true", st.line), shape.then_, Then);
    var b2 := ClauseBranches(shape.elsifs, true, 0);
    var b3 := BranchProbe(st.line, AtLine("ELSE", st.line), shape.else_, Else);
    var s1, s2, s3 := OptionalSection(shape.then_, Then, Then), ClauseSections(shape.elsifs, true, 0, 0), OptionalSection(shape.else_, Else, Else);
    assert IfEntries(st) == b1 + b2 + b3 + s1 + s2 + s3 + IfFalse(st);
    assert AtLine("IF true", st.line) == "IF true @" + Decimal(st.line) && AtLine("ELSE", st.line) == "ELSE @" + Decimal(st.line);
    BranchTold(st.line, AtLine("IF true", st.line), shape.then_, Then);
    ClauseBranchesTold(shape.elsifs, true, 0);
    BranchTold(st.line, AtLine("ELSE", st.line), shape.else_, Else);
    IfFalseTold(st);
    SevenTold(b1, b2, b3, s1, s2, s3, IfFalse(st));
    hide ToldAll, BranchProbe, ClauseBranches, OptionalSection, ClauseSections, IfFalse, Opening, Openings, OfOptional, OfClauses,
         FallingThrough, LastOf;
  }

  lemma SevenTold(a: seq<Entry>, b: seq<Entry>, c: seq<Entry>, d: seq<Entry>, e: seq<Entry>, f: seq<Entry>, g: seq<Entry>)
    ensures ToldAll(a + b + c + d + e + f + g) == ToldAll(a) + ToldAll(b) + ToldAll(c) + ToldAll(d) + ToldAll(e) + ToldAll(f) + ToldAll(g)
  {
    hide *;
    ToldAppend(a + b + c + d + e + f, g);
    ToldAppend(a + b + c + d + e, f);
    ToldAppend(a + b + c + d, e);
    ToldAppend(a + b + c, d);
    ToldAppend(a + b, c);
    ToldAppend(a, b);
  }

  lemma CaseTold(st: Statement)
    requires st.shape.Case?
    requires ToldAll(ClauseSections(st.shape.whens, false, 0, 0)) == OfClauses(st.shape.whens)
    requires ToldAll(OptionalSection(st.shape.else_, CaseElse, CaseElse)) == OfOptional(st.shape.else_)
    ensures ToldAll(CaseEntries(st)) == OfStatement(st)
  {
    var shape := st.shape;
    var b1 := ClauseBranches(shape.whens, false, 0);
    var b2 := BranchProbe(st.line, AtLine("CASE ELSE", st.line), CaseElseSection(shape), CaseElse);
    var warning := if shape.hasElse then [] else [CaseWithoutElse(st.line)];
    var s1 := ClauseSections(shape.whens, false, 0, 0);
    var s2 := if shape.hasElse then OptionalSection(shape.else_, CaseElse, CaseElse) else [];
    assert CaseEntries(st) == b1 + b2 + warning + s1 + s2;
    assert AtLine("CASE ELSE", st.line) == "CASE ELSE @" + Decimal(st.line);
    ClauseBranchesTold(shape.whens, false, 0);
    BranchTold(st.line, AtLine("CASE ELSE", st.line), CaseElseSection(shape), CaseElse);
    ToldOne(CaseWithoutElse(st.line));
    assert ToldAll([]) == [];
    FiveTold(b1, b2, warning, s1, s2);
    hide ToldAll, BranchProbe, ClauseBranches, OptionalSection, ClauseSections, Openings, OfOptional, OfClauses, CaseEntries;
    if shape.hasElse {
      WithoutNothing(ToldAll(b1) + ToldAll(b2));
    } else {
      WithoutNothing(ToldAll(b1));
      WithoutNothing(ToldAll(b1) + ToldAll(warning) + ToldAll(s1));
    }
  }

  lemma FiveTold(a: seq<Entry>, b: seq<Entry>, c: seq<Entry>, d: seq<Entry>, e: seq<Entry>)
    ensures ToldAll(a + b + c + d + e) == ToldAll(a) + ToldAll(b) + ToldAll(c) + ToldAll(d) + ToldAll(e)
  {
    hide *;
    ToldAppend(a + b + c + d, e);
    ToldAppend(a + b + c, d);
    ToldAppend(a + b, c);
    ToldAppend(a, b);
  }

  lemma LoopTold(st: Statement)
    requires st.shape.Loop?
    requires ToldAll(OptionalSection(st.shape.section, InLoop, InLoop)) == OfOptional(st.shape.section)
    ensures ToldAll(LoopEntries(st)) == OfStatement(st)
  {
    var section := st.shape.section;
    match FirstOf(section)
    case None =>
      ToldOne(EmptyLoop(st.line));
      if section.Some? {
        assert OfWrappers(section.value.statements) == [];
      }
    case Some(w) =>
      ProbesTold(st, w);
      ToldAppend(LoopProbes(st, w), OptionalSection(section, InLoop, InLoop));
      hide OptionalSection, OfOptional, ToldAll, LoopProbes;
  }

  lemma ProbesTold(st: Statement, w: Wrapper)
    requires st.shape.Loop? && FirstOf(st.shape.section) == Some(w)
    ensures ToldAll(LoopProbes(st, w)) == Repeating(st, st.shape.section, st.shape.bodyEnd, st.shape.plain)
  {
    var probes := LoopProbes(st, w);
    assert AtLine("loop enter", st.line) == "loop enter @" + Decimal(st.line) && AtLine("loop exit", st.line) == "loop exit @" + Decimal(st.line);
    ToldAppend(probes[..1], probes[1..]);
    assert probes == probes[..1] + probes[1..] && probes[..1] == [probes[0]];
    ToldOne(probes[0]);
    if st.shape.plain {
      assert probes[1..] == [] && ToldAll([]) == [];
    } else {
      assert probes[1..] == [probes[1]];
      ToldOne(probes[1]);
    }
    hide ToldAll;
  }
}
