/**
 * The analyzer that collects coverage points (packages/coverage/src/syntaxAnalyzer.ts): the walk pushes to
 * `points` and `diagnostics` and counts `nextPoint`, as `SyntaxWalk` says; then ambiguous lines are found.
 */
module SyntaxAnalyzer {
  import opened Options
  import opened Decimals
  import opened SyntaxWalk
  import opened Sequences
  import SiteKeys
  import SyntaxClashes
  import SyntaxSites
  import SyntaxBranches

  datatype Placement =
    | Before(line: nat, siteKey: string, offset: nat)
    | InjectElse(decisionLine: nat, searchAfter: nat, terminator: Option<nat>)
    | LoopEnter(loopLine: nat, line: nat, searchAfter: nat, siteKey: string, loopOffset: nat, offset: nat)
    | LoopExit(loopLine: nat, searchAfter: nat, offset: nat)

  datatype Point = Point(id: string, line: nat, endLine: nat, branch: bool, title: string, placement: Placement)
  datatype Diagnostic = NoElseWarning(line: nat) | EmptyLoopWarning(line: nat) | AmbiguousLine(line: nat) | Unusable

  /** The analyzer's state. */
  datatype Analysis = Analysis(points: seq<Point>, diagnostics: seq<Diagnostic>, nextPoint: nat)

  // ----- The state after a walk --------------------------------------------------------------------

  function Tail(path: Path): string {
    if path == [] then "" else "." + SegmentText(path[0]) + Tail(path[1..])
  }

  function Placed(place: Place, base: string): Placement {
    match place
    case Before(line, key, _, offset) => Placement.Before(line, base + Tail(key), offset)
    case InjectElse(decisionLine, searchAfter, terminator) => Placement.InjectElse(decisionLine, searchAfter, terminator)
    case LoopEnter(loopLine, line, searchAfter, key, _, loopOffset, offset) =>
      Placement.LoopEnter(loopLine, line, searchAfter, base + Tail(key), loopOffset, offset)
    case LoopExit(loopLine, searchAfter, offset) => Placement.LoopExit(loopLine, searchAfter, offset)
  }

  function Pushed(a: Analysis, e: Entry, base: string): Analysis {
    match e
    case Probe(line, endLine, branch, title, place) =>
      a.(points := a.points + [Point("p" + Decimal(a.nextPoint), line, endLine, branch, title, Placed(place, base))],
         nextPoint := a.nextPoint + 1)
    case CaseWithoutElse(line) => a.(diagnostics := a.diagnostics + [NoElseWarning(line)])
    case EmptyLoop(line) => a.(diagnostics := a.diagnostics + [EmptyLoopWarning(line)])
  }

  /** What a walk from the path `base` leaves. */
  function Walked(a: Analysis, entries: seq<Entry>, base: string): Analysis
    decreases |entries|
  {
    if entries == [] then a else Walked(Pushed(a, entries[0], base), entries[1..], base)
  }

  lemma {:induction false} WalkedAppend(a: Analysis, x: seq<Entry>, y: seq<Entry>, base: string)
    ensures Walked(a, x + y, base) == Walked(Walked(a, x, base), y, base)
    decreases |x|
  {
    if x == [] {
      assert x + y == y;
    } else {
      assert (x + y)[1..] == x[1..] + y;
      WalkedAppend(Pushed(a, x[0], base), x[1..], y, base);
    }
  }

  lemma {:induction false} WalkedUnder(a: Analysis, key: Segment, site: Segment, entries: seq<Entry>, base: string)
    ensures Walked(a, Under(key, site, entries), base) == Walked(a, entries, base + "." + SegmentText(key))
    decreases |entries|
  {
    if entries != [] {
      var under := Under(key, site, entries);
      assert under[1..] == Under(key, site, entries[1..]);
      PushedUnder(a, key, site, entries[0], base);
      WalkedUnder(Pushed(a, entries[0], base + "." + SegmentText(key)), key, site, entries[1..], base);
    }
  }

  lemma PushedUnder(a: Analysis, key: Segment, site: Segment, e: Entry, base: string)
    ensures Pushed(a, Prefixed(key, site, e), base) == Pushed(a, e, base + "." + SegmentText(key))
  {
    if HasSite(e) {
      TailUnder(base, key, e.place.key);
    }
    hide Tail, SegmentText;
  }

  lemma TailUnder(base: string, key: Segment, path: Path)
    ensures base + Tail([key] + path) == base + "." + SegmentText(key) + Tail(path)
  {
    assert ([key] + path)[1..] == path;
    assert Tail([key] + path) == "." + SegmentText(key) + Tail(path);
  }

  lemma {:induction false} TailSnoc(path: Path, s: Segment)
    ensures Tail(path + [s]) == Tail(path) + "." + SegmentText(s)
  {
    if path == [] {
      assert [s][1..] == [] && [] + [s] == [s];
    } else {
      assert (path + [s])[1..] == path[1..] + [s];
      TailSnoc(path[1..], s);
    }
  }

  lemma Regrouped(a: string, b: string, c: string)
    ensures a + b + "." + c == a + (b + "." + c)
  {}

  lemma {:induction false} KeyIsRootTail(path: Path)
    ensures KeyText(path) == "root" + Tail(path)
    decreases |path|
  {
    hide Tail, SegmentText;
    if path == [] {
      assert Tail([]) == "" by { EmptyTail(); }
    } else {
      var n := |path| - 1;
      KeyIsRootTail(path[..n]);
      TailSnoc(path[..n], path[n]);
      assert path == path[..n] + [path[n]];
      Regrouped("root", Tail(path[..n]), SegmentText(path[n]));
    }
  }

  lemma EmptyTail()
    ensures Tail([]) == ""
  {}

  // ----- The walk, in place ------------------------------------------------------------------------

  class Analyzer {
    var points: seq<Point>
    var diagnostics: seq<Diagnostic>
    var nextPoint: nat

    ghost function View(): Analysis
      reads this
    {
      Analysis(points, diagnostics, nextPoint)
    }

    constructor ()
      ensures View() == Analysis([], [], 0)
    {
      points, diagnostics, nextPoint := [], [], 0;
    }

    method AddPoint(ghost e: Entry, ghost base: string, line: nat, endLine: nat, branch: bool, title: string, placement: Placement)
      requires e.Probe? && e == Probe(line, endLine, branch, title, e.place) && placement == Placed(e.place, base)
      modifies this
      ensures View() == Pushed(old(View()), e, base)
    {
      points := points + [Point("p" + Decimal(nextPoint), line, endLine, branch, title, placement)];
      nextPoint := nextPoint + 1;
    }

    /** The probe before the first statement of a branch. */
    method AddBranch(line: nat, title: string, section: Option<Section>, inside: Segment, path: string)
      modifies this
      ensures View() == Walked(old(View()), BranchProbe(line, title, section, inside), path)
    {
      var first := FirstOf(section);
      if first.Some? {
        var w := first.value;
        ghost var probe := BranchProbe(line, title, section, inside);
        assert probe[1..] == [];
        TailOfFirst(inside);
        AddPoint(probe[0], path, line, line, true, title,
                 Placement.Before(w.line, path + "." + SegmentText(inside) + ".0", w.offset));
      }
    }

    method AnalyzeOptional(section: Option<Section>, inside: Segment, ghost site: Segment, path: string)
      modifies this
      ensures View() == Walked(old(View()), OptionalSection(section, inside, site), path)
      decreases section, 0
    {
      match section
      case None =>
      case Some(s) =>
        WalkedUnder(View(), inside, site, SectionEntries(s), path);
        AnalyzeSection(s, path + "." + SegmentText(inside));
    }

    method AnalyzeClause(clause: Clause, inside: Segment, ghost site: Segment, path: string)
      modifies this
      ensures View() == Walked(old(View()), OneClause(clause, inside, site), path)
      decreases clause, 0
    {
      AnalyzeOptional(clause.section, inside, site, path);
    }

    method AnalyzeSection(s: Section, path: string)
      modifies this
      ensures View() == Walked(old(View()), SectionEntries(s), path)
      decreases s, 0
    {
      AnalyzeStatements(s.statements, path);
    }

    method AnalyzeStatements(ws: seq<Wrapper>, path: string)
      modifies this
      ensures View() == Walked(old(View()), StatementEntries(ws, 0), path)
      decreases ws, 1
    {
      ghost var start := View();
      assert ws[0..] == ws;
      for i := 0 to |ws|
        invariant Walked(View(), StatementEntries(ws[i..], i), path) == Walked(start, StatementEntries(ws, 0), path)
      {
        assert ws[i..][1..] == ws[i + 1..];
        WalkedAppend(View(), Under(At(i), At(i), WrapperEntries(ws[i])), StatementEntries(ws[i + 1..], i + 1), path);
        WalkedUnder(View(), At(i), At(i), WrapperEntries(ws[i]), path);
        AnalyzeStatement(ws[i], path + "." + SegmentText(At(i)));
      }
      assert StatementEntries(ws[|ws|..], |ws|) == [];
    }

    method AnalyzeStatement(w: Wrapper, path: string)
      modifies this
      ensures View() == Walked(old(View()), WrapperEntries(w), path)
      decreases w, 0
    {
      match w.step
      case NoStep =>
      case Nested(b) =>
        WalkedUnder(View(), InBlock, InBlock, BlockEntries(b), path);
        AnalyzeBlock(b, path + "." + SegmentText(InBlock));
      case Held(st) =>
        WalkedAppend(View(), OwnProbe(st), ShapeEntries(st), path);
        AddOwn(st, path);
        AnalyzeShape(st, path);
    }

    method AddOwn(st: Statement, path: string)
      modifies this
      ensures View() == Walked(old(View()), OwnProbe(st), path)
    {
      if Labelled(st) {
        ghost var own := OwnProbe(st);
        assert own[1..] == [] && Tail([]) == "" && path + "" == path;
        var endLine := if st.shape.Loop? then HeadEnd(st.line, st.shape.headEnds) else st.endLine;
        AddPoint(own[0], path, st.line, endLine, false, st.name, Placement.Before(st.line, path, st.offset));
      }
    }

    method AnalyzeShape(st: Statement, path: string)
      modifies this
      ensures View() == Walked(old(View()), ShapeEntries(st), path)
      decreases st, 0
    {
      match st.shape
      case Simple =>
      case If(_, _, _, _) => AnalyzeIf(st, path);
      case Case(_, _, _) => AnalyzeCase(st, path);
      case Loop(_, _, _, _) => AnalyzeLoop(st, path);
    }

    method AddClauseBranches(clauses: seq<Clause>, elsif: bool, path: string)
      modifies this
      ensures View() == Walked(old(View()), ClauseBranches(clauses, elsif, 0), path)
    {
      ghost var start := View();
      assert clauses[0..] == clauses;
      for i := 0 to |clauses|
        invariant Walked(View(), ClauseBranches(clauses[i..], elsif, i), path) == Walked(start, ClauseBranches(clauses, elsif, 0), path)
      {
        assert clauses[i..][1..] == clauses[i + 1..];
        var title := AtLine(if elsif then "ELSIF true" else "WHEN", clauses[i].line);
        WalkedAppend(View(), BranchProbe(clauses[i].line, title, clauses[i].section, ClauseSegment(elsif, i)),
                     ClauseBranches(clauses[i + 1..], elsif, i + 1), path);
        AddBranch(clauses[i].line, title, clauses[i].section, ClauseSegment(elsif, i), path);
      }
      assert ClauseBranches(clauses[|clauses|..], elsif, |clauses|) == [];
    }

    /** `for (...) analyzeSection(elsifSections[index], ...)`: the index counts the sections pushed, not the clauses. */
    method AnalyzeClauses(clauses: seq<Clause>, elsif: bool, path: string)
      modifies this
      ensures View() == Walked(old(View()), ClauseSections(clauses, elsif, 0, 0), path)
      decreases clauses, 1
    {
      ghost var start := View();
      var withSection := 0;
      assert clauses[0..] == clauses;
      for i := 0 to |clauses|
        invariant Walked(View(), ClauseSections(clauses[i..], elsif, withSection, i), path)
                  == Walked(start, ClauseSections(clauses, elsif, 0, 0), path)
      {
        assert clauses[i..][1..] == clauses[i + 1..];
        ghost var next := withSection + if clauses[i].section.Some? then 1 else 0;
        WalkedAppend(View(), OneClause(clauses[i], ClauseSegment(elsif, withSection), ClauseSegment(elsif, i)),
                     ClauseSections(clauses[i + 1..], elsif, next, i + 1), path);
        AnalyzeClause(clauses[i], ClauseSegment(elsif, withSection), ClauseSegment(elsif, i), path);
        if clauses[i].section.Some? {
          withSection := withSection + 1;
        }
      }
      assert ClauseSections(clauses[|clauses|..], elsif, withSection, |clauses|) == [];
    }

    method AnalyzeIf(st: Statement, path: string)
      requires st.shape.If?
      modifies this
      ensures View() == Walked(old(View()), IfEntries(st), path)
      decreases st.shape, 2
    {
      var shape := st.shape;
      WalkedIf(View(), st, path);
      AddBranch(st.line, AtLine("IF true", st.line), shape.then_, Then, path);
      AddClauseBranches(shape.elsifs, true, path);
      AddBranch(st.line, AtLine("ELSE", st.line), shape.else_, Else, path);
      AnalyzeOptional(shape.then_, Then, Then, path);
      AnalyzeClauses(shape.elsifs, true, path);
      AnalyzeOptional(shape.else_, Else, Else, path);
      if shape.else_.Some? {
        return;
      }
      var last := LastLine(LastSection(shape.elsifs, shape.then_));
      if last.Some? {
        ghost var probe := IfFalse(st);
        assert probe[1..] == [];
        AddPoint(probe[0], path, st.line, st.line, true, AtLine("IF false", st.line),
                 Placement.InjectElse(st.line, last.value, shape.terminator));
      }
    }

    method AnalyzeCase(st: Statement, path: string)
      requires st.shape.Case?
      modifies this
      ensures View() == Walked(old(View()), CaseEntries(st), path)
      decreases st.shape, 2
    {
      var shape := st.shape;
      WalkedCase(View(), st, path);
      AddClauseBranches(shape.whens, false, path);
      AddBranch(st.line, AtLine("CASE ELSE", st.line), CaseElseSection(shape), CaseElse, path);
      if !shape.hasElse {
        diagnostics := diagnostics + [NoElseWarning(st.line)];
      }
      AnalyzeClauses(shape.whens, false, path);
      if shape.hasElse {
        AnalyzeOptional(shape.else_, CaseElse, CaseElse, path);
      }
    }

    method AnalyzeLoop(st: Statement, path: string)
      requires st.shape.Loop?
      modifies this
      ensures View() == Walked(old(View()), LoopEntries(st), path)
      decreases st.shape, 2
    {
      var first := FirstOf(st.shape.section);
      match first
      case None =>
        ghost var warning := LoopEntries(st);
        assert warning[1..] == [];
        diagnostics := diagnostics + [EmptyLoopWarning(st.line)];
      case Some(w) =>
        WalkedAppend(View(), LoopProbes(st, w), OptionalSection(st.shape.section, InLoop, InLoop), path);
        AddLoop(st, w, path);
        AnalyzeOptional(st.shape.section, InLoop, InLoop, path);
    }

    method AddLoop(st: Statement, w: Wrapper, path: string)
      requires st.shape.Loop?
      modifies this
      ensures View() == Walked(old(View()), LoopProbes(st, w), path)
    {
      ghost var probes := LoopProbes(st, w);
      var last := LastLine(st.shape.section).GetOr(w.line);
      TailOfFirst(InLoop);
      WalkedAppend(View(), probes[..1], probes[1..], path);
      assert probes == probes[..1] + probes[1..] && probes[..1][1..] == [];
      AddPoint(probes[0], path, st.line, st.line, true, AtLine("loop enter", st.line),
               Placement.LoopEnter(st.line, w.line, last, path + "." + SegmentText(InLoop) + ".0", st.offset, w.offset));
      if !st.shape.plain {
        assert probes[1..][1..] == [];
        AddPoint(probes[1], path, st.line, st.line, true, AtLine("loop exit", st.line),
                 Placement.LoopExit(st.line, last, st.shape.bodyEnd));
      }
    }

    method AnalyzeHandler(h: Handler, i: nat, path: string)
      modifies this
      ensures View() == Walked(old(View()), OneHandler(h, i), path)
      decreases h, 0
    {
      var first := FirstOf(h.section);
      if first.Some? {
        var w, title := first.value, "EXCEPTION " + h.conditions;
        ghost var under := Under(InException(i), InException(i), SectionEntries(h.section.value));
        assert OneHandler(h, i) == BranchProbe(w.line, title, h.section, InException(i)) + under;
        WalkedAppend(View(), BranchProbe(w.line, title, h.section, InException(i)), under, path);
        AddBranch(w.line, title, h.section, InException(i), path);
        AnalyzeOptional(h.section, InException(i), InException(i), path);
      }
    }

    method AnalyzeHandlers(handlers: seq<Handler>, path: string)
      modifies this
      ensures View() == Walked(old(View()), HandlerEntries(handlers, 0), path)
      decreases handlers, 1
    {
      ghost var start := View();
      assert handlers[0..] == handlers;
      for i := 0 to |handlers|
        invariant Walked(View(), HandlerEntries(handlers[i..], i), path) == Walked(start, HandlerEntries(handlers, 0), path)
      {
        assert handlers[i..][1..] == handlers[i + 1..];
        WalkedAppend(View(), OneHandler(handlers[i], i), HandlerEntries(handlers[i + 1..], i + 1), path);
        AnalyzeHandler(handlers[i], i, path);
      }
      assert HandlerEntries(handlers[|handlers|..], |handlers|) == [];
    }

    method AnalyzeBody(body: Option<Section>, path: string)
      modifies this
      ensures View() == Walked(old(View()), match body case None => [] case Some(s) => SectionEntries(s), path)
      decreases body, 0
    {
      match body
      case None =>
      case Some(s) => AnalyzeSection(s, path);
    }

    method AnalyzeBlock(b: Block, path: string)
      modifies this
      ensures View() == Walked(old(View()), BlockEntries(b), path)
      decreases b, 0
    {
      WalkedAppend(View(), match b.body case None => [] case Some(s) => SectionEntries(s), HandlerEntries(b.handlers, 0), path);
      AnalyzeBody(b.body, path);
      AnalyzeHandlers(b.handlers, path);
    }
  }

  lemma TailOfFirst(inside: Segment)
    ensures Tail([inside, At(0)]) == "." + SegmentText(inside) + ".0"
  {
    assert [inside, At(0)][1..] == [At(0)] && [At(0)][1..] == [];
    assert Tail([At(0)]) == ".0" + "";
  }

  lemma WalkedIf(a: Analysis, st: Statement, path: string)
    requires st.shape.If?
    ensures var shape := st.shape;
            var a1 := Walked(a, BranchProbe(st.line, AtLine("IF true", st.line), shape.then_, Then), path);
            var a2 := Walked(a1, ClauseBranches(shape.elsifs, true, 0), path);
            var a3 := Walked(a2, BranchProbe(st.line, AtLine("ELSE", st.line), shape.else_, Else), path);
            var a4 := Walked(a3, OptionalSection(shape.then_, Then, Then), path);
            var a5 := Walked(a4, ClauseSections(shape.elsifs, true, 0, 0), path);
            var a6 := Walked(a5, OptionalSection(shape.else_, Else, Else), path);
            Walked(a, IfEntries(st), path) == Walked(a6, IfFalse(st), path)
  {
    var shape := st.shape;
    var b1 := BranchProbe(st.line, AtLine("IF true", st.line), shape.then_, Then);
    var b2 := ClauseBranches(shape.elsifs, true, 0);
    var b3 := BranchProbe(st.line, AtLine("ELSE", st.line), shape.else_, Else);
    var s1, s2, s3 := OptionalSection(shape.then_, Then, Then), ClauseSections(shape.elsifs, true, 0, 0), OptionalSection(shape.else_, Else, Else);
    assert IfEntries(st) == b1 + b2 + b3 + s1 + s2 + s3 + IfFalse(st);
    hide *;
    WalkedAppend(a, b1 + b2 + b3 + s1 + s2 + s3, IfFalse(st), path);
    WalkedAppend(a, b1 + b2 + b3 + s1 + s2, s3, path);
    WalkedAppend(a, b1 + b2 + b3 + s1, s2, path);
    WalkedAppend(a, b1 + b2 + b3, s1, path);
    WalkedAppend(a, b1 + b2, b3, path);
    WalkedAppend(a, b1, b2, path);
  }

  lemma WalkedCase(a: Analysis, st: Statement, path: string)
    requires st.shape.Case?
    ensures var shape := st.shape;
            var a1 := Walked(a, ClauseBranches(shape.whens, false, 0), path);
            var a2 := Walked(a1, BranchProbe(st.line, AtLine("CASE ELSE", st.line), CaseElseSection(shape), CaseElse), path);
            var a3 := if shape.hasElse then a2 else a2.(diagnostics := a2.diagnostics + [NoElseWarning(st.line)]);
            var a4 := Walked(a3, ClauseSections(shape.whens, false, 0, 0), path);
            Walked(a, CaseEntries(st), path)
            == if shape.hasElse then Walked(a4, OptionalSection(shape.else_, CaseElse, CaseElse), path) else a4
  {
    var shape := st.shape;
    var b1 := ClauseBranches(shape.whens, false, 0);
    var b2 := BranchProbe(st.line, AtLine("CASE ELSE", st.line), CaseElseSection(shape), CaseElse);
    var warning := if shape.hasElse then [] else [CaseWithoutElse(st.line)];
    var s1 := ClauseSections(shape.whens, false, 0, 0);
    var s2 := if shape.hasElse then OptionalSection(shape.else_, CaseElse, CaseElse) else [];
    assert CaseEntries(st) == b1 + b2 + warning + s1 + s2;
    assert warning != [] ==> warning[1..] == [];
    WalkedAppend(a, b1 + b2 + warning + s1, s2, path);
    WalkedAppend(a, b1 + b2 + warning, s1, path);
    WalkedAppend(a, b1 + b2, warning, path);
    WalkedAppend(a, b1, b2, path);
    hide ClauseBranches, BranchProbe, ClauseSections, OptionalSection;
  }

  // ----- Ids and labelled statements ---------------------------------------------------------------

  /** Ids are dense: the point at index `i` is `p<i>`. */
  ghost predicate Dense(a: Analysis) {
    a.nextPoint == |a.points| && forall i :: 0 <= i < |a.points| ==> a.points[i].id == "p" + Decimal(i)
  }

  lemma {:induction false} WalkStaysDense(a: Analysis, entries: seq<Entry>, base: string)
    requires Dense(a)
    ensures Dense(Walked(a, entries, base))
    decreases |entries|
  {
    if entries != [] {
      WalkStaysDense(Pushed(a, entries[0], base), entries[1..], base);
    }
  }

  lemma IdsAreDistinct(a: Analysis, i: nat, j: nat)
    requires Dense(a) && i < j < |a.points|
    ensures a.points[i].id != a.points[j].id
  {
    if a.points[i].id == a.points[j].id {
      assert a.points[i].id[1..] == Decimal(i) && a.points[j].id[1..] == Decimal(j);
      DecimalIsInjective(i, j);
    }
  }

  /** What a statement point shows of its statement. */
  datatype Row = Row(line: nat, endLine: nat, name: string, probeLine: nat, offset: nat)

  /** The head of a loop ends where the last of its parts does. */
  function RowOf(st: Statement): Row {
    Row(st.line, if st.shape.Loop? then HeadEnd(st.line, st.shape.headEnds) else st.endLine, st.name, st.line, st.offset)
  }

  function Rows(statements: seq<Statement>): seq<Row> {
    if statements == [] then [] else [RowOf(statements[0])] + Rows(statements[1..])
  }

  predicate StatementProbe(e: Entry) {
    e.Probe? && !e.branch && e.place.Before?
  }

  function Shown(entries: seq<Entry>): seq<Row> {
    if entries == [] then []
    else
      (if StatementProbe(entries[0]) then [Row(entries[0].line, entries[0].endLine, entries[0].title, entries[0].place.line, entries[0].place.offset)] else [])
      + Shown(entries[1..])
  }

  /** The labelled statements of a routine, each followed by those inside it: then, branches, else; and handlers last. */
  function InBlockOrder(b: Block): seq<Statement>
    decreases b, 0
  {
    InOptional(b.body) + InHandlers(b.handlers)
  }

  function InHandlers(handlers: seq<Handler>): seq<Statement>
    decreases handlers, 1
  {
    if handlers == [] then [] else InHandler(handlers[0]) + InHandlers(handlers[1..])
  }

  function InHandler(h: Handler): seq<Statement>
    decreases h, 0
  {
    InOptional(h.section)
  }

  function InOptional(section: Option<Section>): seq<Statement>
    decreases section, 0
  {
    match section case None => [] case Some(s) => InSection(s)
  }

  function InSection(s: Section): seq<Statement>
    decreases s, 0
  {
    InWrappers(s.statements)
  }

  function InWrappers(ws: seq<Wrapper>): seq<Statement>
    decreases ws, 1
  {
    if ws == [] then [] else InWrapper(ws[0]) + InWrappers(ws[1..])
  }

  function InWrapper(w: Wrapper): seq<Statement>
    decreases w, 0
  {
    match w.step
    case NoStep => []
    case Nested(b) => InBlockOrder(b)
    case Held(st) => Itself(st) + InStatement(st)
  }

  /** Everything but IF and CASE is an action of its own. */
  function Itself(st: Statement): seq<Statement> {
    match st.shape
    case If(_, _, _, _) => []
    case Case(_, _, _) => []
    case Loop(_, _, _, _) => [st]
    case Simple => [st]
  }

  function InClauses(clauses: seq<Clause>): seq<Statement>
    decreases clauses, 1
  {
    if clauses == [] then [] else InClause(clauses[0]) + InClauses(clauses[1..])
  }

  function InClause(clause: Clause): seq<Statement>
    decreases clause, 0
  {
    InOptional(clause.section)
  }

  function InStatement(st: Statement): seq<Statement>
    decreases st, 0
  {
    match st.shape
    case Simple => []
    case If(then_, elsifs, else_, _) => InOptional(then_) + InClauses(elsifs) + InOptional(else_)
    case Case(whens, hasElse, else_) => InClauses(whens) + (if hasElse then InOptional(else_) else [])
    case Loop(_, _, section, _) => InOptional(section)
  }

  lemma {:induction false} ShownAppend(a: seq<Entry>, b: seq<Entry>)
    ensures Shown(a + b) == Shown(a) + Shown(b)
  {
    if a == [] {
      assert a + b == b;
    } else {
      assert (a + b)[1..] == a[1..] + b;
      ShownAppend(a[1..], b);
    }
  }

  lemma {:induction false} RowsAppend(a: seq<Statement>, b: seq<Statement>)
    ensures Rows(a + b) == Rows(a) + Rows(b)
  {
    if a == [] {
      assert a + b == b;
    } else {
      assert (a + b)[1..] == a[1..] + b;
      RowsAppend(a[1..], b);
    }
  }

  lemma {:induction false} ShownUnder(key: Segment, site: Segment, entries: seq<Entry>)
    ensures Shown(Under(key, site, entries)) == Shown(entries)
  {
    if entries != [] {
      assert Under(key, site, entries)[1..] == Under(key, site, entries[1..]);
      ShownUnder(key, site, entries[1..]);
    }
  }

  lemma BranchesShowNothing(line: nat, title: string, section: Option<Section>, inside: Segment)
    ensures Shown(BranchProbe(line, title, section, inside)) == []
  {
    var probe := BranchProbe(line, title, section, inside);
    if probe != [] {
      assert Shown(probe[1..]) == [];
    }
  }

  lemma {:induction false} ClauseBranchesShowNothing(clauses: seq<Clause>, elsif: bool, from: nat)
    ensures Shown(ClauseBranches(clauses, elsif, from)) == []
    decreases |clauses|
  {
    if clauses != [] {
      var title := AtLine(if elsif then "ELSIF true" else "WHEN", clauses[0].line);
      ShownAppend(BranchProbe(clauses[0].line, title, clauses[0].section, ClauseSegment(elsif, from)),
                  ClauseBranches(clauses[1..], elsif, from + 1));
      BranchesShowNothing(clauses[0].line, title, clauses[0].section, ClauseSegment(elsif, from));
      ClauseBranchesShowNothing(clauses[1..], elsif, from + 1);
    }
  }

  /** Statement points are exactly the labelled statements, in walk order. */
  lemma {:induction false} StatementPointsAreStatements(b: Block)
    ensures Shown(BlockEntries(b)) == Rows(InBlockOrder(b))
    decreases b, 0
  {
    ShownAppend(match b.body case None => [] case Some(s) => SectionEntries(s), HandlerEntries(b.handlers, 0));
    RowsAppend(InOptional(b.body), InHandlers(b.handlers));
    OptionalShows(b.body, Then, Then);
    HandlersShow(b.handlers, 0);
    match b.body
    case None =>
    case Some(s) => ShownUnder(Then, Then, SectionEntries(s));
  }

  lemma {:induction false} HandlersShow(handlers: seq<Handler>, from: nat)
    ensures Shown(HandlerEntries(handlers, from)) == Rows(InHandlers(handlers))
    decreases handlers, 1
  {
    if handlers != [] {
      ShownAppend(OneHandler(handlers[0], from), HandlerEntries(handlers[1..], from + 1));
      RowsAppend(InHandler(handlers[0]), InHandlers(handlers[1..]));
      HandlerShows(handlers[0], from);
      HandlersShow(handlers[1..], from + 1);
    }
  }

  lemma {:induction false} HandlerShows(h: Handler, i: nat)
    ensures Shown(OneHandler(h, i)) == Rows(InHandler(h))
    decreases h, 0
  {
    OptionalShows(h.section, InException(i), InException(i));
    var first := FirstOf(h.section);
    if first.Some? {
      var under := Under(InException(i), InException(i), SectionEntries(h.section.value));
      var probe := OneHandler(h, i)[..1];
      ShownAppend(probe, under);
      assert Shown(probe[1..]) == [];
    } else if h.section.Some? {
      assert InWrappers(h.section.value.statements) == [];
    }
  }

  lemma {:induction false} OptionalShows(section: Option<Section>, key: Segment, site: Segment)
    ensures Shown(OptionalSection(section, key, site)) == Rows(InOptional(section))
    decreases section, 0
  {
    match section
    case None =>
    case Some(s) =>
      ShownUnder(key, site, SectionEntries(s));
      SectionShows(s);
  }

  lemma {:induction false} SectionShows(s: Section)
    ensures Shown(SectionEntries(s)) == Rows(InSection(s))
    decreases s, 0
  {
    WrappersShow(s.statements, 0);
  }

  lemma {:induction false} WrappersShow(ws: seq<Wrapper>, from: nat)
    ensures Shown(StatementEntries(ws, from)) == Rows(InWrappers(ws))
    decreases ws, 1
  {
    if ws != [] {
      ShownAppend(Under(At(from), At(from), WrapperEntries(ws[0])), StatementEntries(ws[1..], from + 1));
      RowsAppend(InWrapper(ws[0]), InWrappers(ws[1..]));
      ShownUnder(At(from), At(from), WrapperEntries(ws[0]));
      WrapperShows(ws[0]);
      WrappersShow(ws[1..], from + 1);
    }
  }

  lemma {:induction false} WrapperShows(w: Wrapper)
    ensures Shown(WrapperEntries(w)) == Rows(InWrapper(w))
    decreases w, 0
  {
    match w.step
    case NoStep =>
    case Nested(b) =>
      ShownUnder(InBlock, InBlock, BlockEntries(b));
      StatementPointsAreStatements(b);
    case Held(st) =>
      ShownAppend(OwnProbe(st), ShapeEntries(st));
      RowsAppend(Itself(st), InStatement(st));
      OwnShows(st);
      StatementShows(st);
  }

  lemma OwnShows(st: Statement)
    ensures Shown(OwnProbe(st)) == Rows(Itself(st))
  {
    if Labelled(st) {
      var own := OwnProbe(st);
      assert Shown(own[1..]) == [] && [st][1..] == [];
      assert Rows([st][1..]) == [];
    }
  }

  lemma {:induction false} ClausesShow(clauses: seq<Clause>, elsif: bool, withSection: nat, from: nat)
    ensures Shown(ClauseSections(clauses, elsif, withSection, from)) == Rows(InClauses(clauses))
    decreases clauses, 1
  {
    if clauses != [] {
      var next := withSection + if clauses[0].section.Some? then 1 else 0;
      ShownAppend(OneClause(clauses[0], ClauseSegment(elsif, withSection), ClauseSegment(elsif, from)),
                  ClauseSections(clauses[1..], elsif, next, from + 1));
      RowsAppend(InClause(clauses[0]), InClauses(clauses[1..]));
      ClauseShows(clauses[0], ClauseSegment(elsif, withSection), ClauseSegment(elsif, from));
      ClausesShow(clauses[1..], elsif, next, from + 1);
    }
  }

  lemma {:induction false} ClauseShows(clause: Clause, key: Segment, site: Segment)
    ensures Shown(OneClause(clause, key, site)) == Rows(InClause(clause))
    decreases clause, 0
  {
    OptionalShows(clause.section, key, site);
  }

  lemma {:induction false} StatementShows(st: Statement)
    ensures Shown(ShapeEntries(st)) == Rows(InStatement(st))
    decreases st, 0
  {
    match st.shape
    case Simple =>
    case If(then_, elsifs, else_, _) =>
      OptionalShows(then_, Then, Then);
      OptionalShows(else_, Else, Else);
      ClausesShow(elsifs, true, 0, 0);
      IfShows(st);
      RowsAppend(InOptional(then_) + InClauses(elsifs), InOptional(else_));
      RowsAppend(InOptional(then_), InClauses(elsifs));
    case Case(whens, hasElse, else_) =>
      OptionalShows(else_, CaseElse, CaseElse);
      ClausesShow(whens, false, 0, 0);
      CaseShows(st);
      RowsAppend(InClauses(whens), if hasElse then InOptional(else_) else []);
    case Loop(_, _, section, _) =>
      OptionalShows(section, InLoop, InLoop);
      LoopShows(st);
  }

  lemma IfFalseShowsNothing(st: Statement)
    requires st.shape.If?
    ensures Shown(IfFalse(st)) == []
  {
    var last := IfFalse(st);
    assert last != [] ==> Shown(last[1..]) == [];
  }

  lemma IfUnfolds(st: Statement)
    requires st.shape.If?
    ensures var shape := st.shape;
            IfEntries(st) == BranchProbe(st.line, AtLine("IF true", st.line), shape.then_, Then)
                             + ClauseBranches(shape.elsifs, true, 0)
                             + BranchProbe(st.line, AtLine("ELSE", st.line), shape.else_, Else)
                             + OptionalSection(shape.then_, Then, Then) + ClauseSections(shape.elsifs, true, 0, 0)
                             + OptionalSection(shape.else_, Else, Else) + IfFalse(st)
  {}

  lemma IfShows(st: Statement)
    requires st.shape.If?
    ensures Shown(IfEntries(st)) == Shown(OptionalSection(st.shape.then_, Then, Then))
                                    + Shown(ClauseSections(st.shape.elsifs, true, 0, 0)) + Shown(OptionalSection(st.shape.else_, Else, Else))
  {
    hide *;
    var shape := st.shape;
    BranchesShowNothing(st.line, AtLine("IF true", st.line), shape.then_, Then);
    ClauseBranchesShowNothing(shape.elsifs, true, 0);
    BranchesShowNothing(st.line, AtLine("ELSE", st.line), shape.else_, Else);
    IfFalseShowsNothing(st);
    IfUnfolds(st);
    var a, b, c := OptionalSection(shape.then_, Then, Then), ClauseSections(shape.elsifs, true, 0, 0), OptionalSection(shape.else_, Else, Else);
    SevenShown(BranchProbe(st.line, AtLine("IF true", st.line), shape.then_, Then), ClauseBranches(shape.elsifs, true, 0),
               BranchProbe(st.line, AtLine("ELSE", st.line), shape.else_, Else), a, b, c, IfFalse(st));
    OnlySections(Shown(a), Shown(b), Shown(c));
  }

  lemma OnlySections(a: seq<Row>, b: seq<Row>, c: seq<Row>)
    ensures [] + [] + [] + a + b + c + [] == a + b + c
  {}

  lemma SevenShown(a: seq<Entry>, b: seq<Entry>, c: seq<Entry>, d: seq<Entry>, e: seq<Entry>, f: seq<Entry>, g: seq<Entry>)
    ensures Shown(a + b + c + d + e + f + g) == Shown(a) + Shown(b) + Shown(c) + Shown(d) + Shown(e) + Shown(f) + Shown(g)
  {
    hide *;
    ShownAppend(a + b + c + d + e + f, g);
    ShownAppend(a + b + c + d + e, f);
    ShownAppend(a + b + c + d, e);
    ShownAppend(a + b + c, d);
    ShownAppend(a + b, c);
    ShownAppend(a, b);
  }

  lemma CaseShows(st: Statement)
    requires st.shape.Case?
    ensures Shown(CaseEntries(st)) == Shown(ClauseSections(st.shape.whens, false, 0, 0))
                                      + if st.shape.hasElse then Shown(OptionalSection(st.shape.else_, CaseElse, CaseElse)) else []
  {
    var shape := st.shape;
    var b1 := ClauseBranches(shape.whens, false, 0);
    var b2 := BranchProbe(st.line, AtLine("CASE ELSE", st.line), CaseElseSection(shape), CaseElse);
    var warning := if shape.hasElse then [] else [CaseWithoutElse(st.line)];
    var s1 := ClauseSections(shape.whens, false, 0, 0);
    var s2 := if shape.hasElse then OptionalSection(shape.else_, CaseElse, CaseElse) else [];
    ClauseBranchesShowNothing(shape.whens, false, 0);
    BranchesShowNothing(st.line, AtLine("CASE ELSE", st.line), CaseElseSection(shape), CaseElse);
    assert warning != [] ==> Shown(warning[1..]) == [];
    assert Shown(warning) == [] && Shown([]) == [];
    assert CaseEntries(st) == b1 + b2 + warning + s1 + s2;
    hide *;
    ShownAppend(b1 + b2 + warning + s1, s2);
    ShownAppend(b1 + b2 + warning, s1);
    ShownAppend(b1 + b2, warning);
    ShownAppend(b1, b2);
  }

  lemma LoopShows(st: Statement)
    requires st.shape.Loop?
    ensures Shown(LoopEntries(st)) == Shown(OptionalSection(st.shape.section, InLoop, InLoop))
  {
    var first := FirstOf(st.shape.section);
    match first
    case None =>
      var warning := LoopEntries(st);
      assert Shown(warning[1..]) == [];
      if st.shape.section.Some? {
        assert SectionEntries(st.shape.section.value) == [];
      }
    case Some(w) =>
      var probes := LoopProbes(st, w);
      ShownAppend(probes, OptionalSection(st.shape.section, InLoop, InLoop));
      ShownAppend(probes[..1], probes[1..]);
      assert probes == probes[..1] + probes[1..] && Shown(probes[..1][1..]) == [];
      assert |probes| == 2 ==> Shown(probes[1..][1..]) == [];
  }

  // ----- What the points of a walk show ------------------------------------------------------------

  function StatementShown(p: Point): seq<Row> {
    if p.branch || !p.placement.Before? then [] else [Row(p.line, p.endLine, p.title, p.placement.line, p.placement.offset)]
  }

  function StatementsShown(points: seq<Point>): seq<Row> {
    if points == [] then [] else StatementsShown(points[..|points| - 1]) + StatementShown(points[|points| - 1])
  }

  function BranchShown(p: Point): seq<SyntaxBranches.Branch> {
    if !p.branch then []
    else match p.placement
      case Before(line, _, offset) => [SyntaxBranches.Opens(p.line, p.endLine, p.title, line, offset)]
      case InjectElse(decisionLine, searchAfter, terminator) =>
        [SyntaxBranches.Falls(p.line, p.endLine, p.title, decisionLine, searchAfter, terminator)]
      case LoopEnter(loopLine, line, searchAfter, _, loopOffset, offset) =>
        [SyntaxBranches.Enters(p.line, p.endLine, p.title, loopLine, line, searchAfter, loopOffset, offset)]
      case LoopExit(loopLine, searchAfter, offset) =>
        [SyntaxBranches.Leaves(p.line, p.endLine, p.title, loopLine, searchAfter, offset)]
  }

  function BranchesShown(points: seq<Point>): seq<SyntaxBranches.Branch> {
    if points == [] then [] else BranchesShown(points[..|points| - 1]) + BranchShown(points[|points| - 1])
  }

  function WarningFor(b: SyntaxBranches.Branch): seq<Diagnostic> {
    match b
    case Unmatched(line) => [NoElseWarning(line)]
    case Unprobed(line) => [EmptyLoopWarning(line)]
    case _ => []
  }

  function WarningsFor(branches: seq<SyntaxBranches.Branch>): seq<Diagnostic> {
    if branches == [] then [] else WarningFor(branches[0]) + WarningsFor(branches[1..])
  }

  lemma OnePointMore(points: seq<Point>, p: Point)
    ensures StatementsShown(points + [p]) == StatementsShown(points) + StatementShown(p)
    ensures BranchesShown(points + [p]) == BranchesShown(points) + BranchShown(p)
  {
    assert (points + [p])[..|points|] == points;
    hide StatementShown, BranchShown;
  }

  lemma OneTold(told: seq<SyntaxBranches.Branch>)
    requires |told| == 1
    ensures SyntaxBranches.PointsOf(told) == if SyntaxBranches.IsWarning(told[0]) then [] else told
    ensures WarningsFor(told) == WarningFor(told[0])
  {
    assert told == [told[0]] && told[1..] == [];
    assert SyntaxBranches.PointsOf(told[1..]) == [] && WarningsFor(told[1..]) == [];
  }

  lemma OneShown(e: Entry)
    ensures Shown([e]) == if StatementProbe(e) then [Row(e.line, e.endLine, e.title, e.place.line, e.place.offset)] else []
  {
    assert [e][1..] == [] && Shown([e][1..]) == [];
  }

  lemma PushedShows(a: Analysis, e: Entry, base: string)
    ensures StatementsShown(Pushed(a, e, base).points) == StatementsShown(a.points) + Shown([e])
    ensures BranchesShown(Pushed(a, e, base).points) == BranchesShown(a.points) + SyntaxBranches.PointsOf(SyntaxBranches.Told(e))
    ensures Pushed(a, e, base).diagnostics == a.diagnostics + WarningsFor(SyntaxBranches.Told(e))
  {
    if e.Probe? {
      ProbeShows(a, e, base);
    } else {
      WarningShows(a, e, base);
    }
    hide *;
  }

  lemma ProbeShows(a: Analysis, e: Entry, base: string)
    requires e.Probe?
    ensures StatementsShown(Pushed(a, e, base).points) == StatementsShown(a.points) + Shown([e])
    ensures BranchesShown(Pushed(a, e, base).points) == BranchesShown(a.points) + SyntaxBranches.PointsOf(SyntaxBranches.Told(e))
    ensures Pushed(a, e, base).diagnostics == a.diagnostics + WarningsFor(SyntaxBranches.Told(e))
  {
    var p := Point("p" + Decimal(a.nextPoint), e.line, e.endLine, e.branch, e.title, Placed(e.place, base));
    OneShown(e);
    ProbeShown(p, e, base);
    OnePointMore(a.points, p);
    assert Pushed(a, e, base).points == a.points + [p] && Pushed(a, e, base).diagnostics == a.diagnostics;
    hide *;
    WithoutNothing(a.diagnostics);
  }

  lemma ProbeShown(p: Point, e: Entry, base: string)
    requires e.Probe? && p.line == e.line && p.endLine == e.endLine && p.branch == e.branch && p.title == e.title
    requires p.placement == Placed(e.place, base)
    ensures StatementShown(p) == Shown([e])
    ensures BranchShown(p) == SyntaxBranches.PointsOf(SyntaxBranches.Told(e)) && WarningsFor(SyntaxBranches.Told(e)) == []
  {
    var told := SyntaxBranches.Told(e);
    OneShown(e);
    if |told| == 1 {
      OneTold(told);
    }
    hide Shown, Tail;
  }

  lemma WarningShows(a: Analysis, e: Entry, base: string)
    requires !e.Probe?
    ensures Pushed(a, e, base).points == a.points && Shown([e]) == [] && SyntaxBranches.PointsOf(SyntaxBranches.Told(e)) == []
    ensures Pushed(a, e, base).diagnostics == a.diagnostics + WarningsFor(SyntaxBranches.Told(e))
    ensures StatementsShown(a.points) + Shown([e]) == StatementsShown(a.points)
    ensures BranchesShown(a.points) + SyntaxBranches.PointsOf(SyntaxBranches.Told(e)) == BranchesShown(a.points)
  {
    OneShown(e);
    OneTold(SyntaxBranches.Told(e));
    hide StatementsShown, BranchesShown, Shown;
  }

  lemma {:induction false} ToldSplits(a: seq<SyntaxBranches.Branch>, b: seq<SyntaxBranches.Branch>)
    ensures SyntaxBranches.PointsOf(a + b) == SyntaxBranches.PointsOf(a) + SyntaxBranches.PointsOf(b)
  {
    if a == [] {
      assert a + b == b;
    } else {
      assert (a + b)[0] == a[0] && (a + b)[1..] == a[1..] + b;
      ToldSplits(a[1..], b);
      var head := if SyntaxBranches.IsWarning(a[0]) then [] else [a[0]];
      assert SyntaxBranches.PointsOf(a) == head + SyntaxBranches.PointsOf(a[1..]);
      assert SyntaxBranches.PointsOf(a + b) == head + SyntaxBranches.PointsOf(a[1..] + b);
      hide *;
      Associative(head, SyntaxBranches.PointsOf(a[1..]), SyntaxBranches.PointsOf(b));
    }
  }

  lemma {:induction false} WarningsSplit(a: seq<SyntaxBranches.Branch>, b: seq<SyntaxBranches.Branch>)
    ensures WarningsFor(a + b) == WarningsFor(a) + WarningsFor(b)
  {
    if a == [] {
      assert a + b == b;
    } else {
      assert (a + b)[0] == a[0] && (a + b)[1..] == a[1..] + b;
      WarningsSplit(a[1..], b);
      assert WarningsFor(a) == WarningFor(a[0]) + WarningsFor(a[1..]);
      assert WarningsFor(a + b) == WarningFor(a[0]) + WarningsFor(a[1..] + b);
      hide *;
      Associative(WarningFor(a[0]), WarningsFor(a[1..]), WarningsFor(b));
    }
  }

  lemma NothingShows(a: Analysis)
    ensures StatementsShown(a.points) == StatementsShown(a.points) + Shown([])
    ensures BranchesShown(a.points) == BranchesShown(a.points) + SyntaxBranches.PointsOf(SyntaxBranches.ToldAll([]))
    ensures a.diagnostics == a.diagnostics + WarningsFor(SyntaxBranches.ToldAll([]))
  {
    hide StatementsShown, BranchesShown;
  }

  lemma {:induction false} WalkShows(a: Analysis, entries: seq<Entry>, base: string)
    ensures var w, told := Walked(a, entries, base), SyntaxBranches.ToldAll(entries);
            && StatementsShown(w.points) == StatementsShown(a.points) + Shown(entries)
            && BranchesShown(w.points) == BranchesShown(a.points) + SyntaxBranches.PointsOf(told)
            && w.diagnostics == a.diagnostics + WarningsFor(told)
    decreases |entries|
  {
    if entries == [] {
      NothingShows(a);
    } else {
      var e, rest := entries[0], entries[1..];
      var first, others := SyntaxBranches.Told(e), SyntaxBranches.ToldAll(rest);
      PushedShows(a, e, base);
      WalkShows(Pushed(a, e, base), rest, base);
      ToldSplits(first, others);
      WarningsSplit(first, others);
      assert entries == [e] + rest;
      ShownAppend([e], rest);
      assert Walked(a, entries, base) == Walked(Pushed(a, e, base), rest, base);
      assert SyntaxBranches.ToldAll(entries) == first + others;
      hide *;
      Associative(StatementsShown(a.points), Shown([e]), Shown(rest));
      Associative(BranchesShown(a.points), SyntaxBranches.PointsOf(first), SyntaxBranches.PointsOf(others));
      Associative(a.diagnostics, WarningsFor(first), WarningsFor(others));
    }
  }

  /** The points and warnings of a routine, told from its tree: its statements and its branches, each once and in order. */
  lemma PointsAreTheRoutines(b: Block)
    ensures var w := Walked(Nothing, BlockEntries(b), "root");
            && StatementsShown(w.points) == Rows(InBlockOrder(b))
            && BranchesShown(w.points) == SyntaxBranches.PointsOf(SyntaxBranches.OfBlock(b))
            && w.diagnostics == WarningsFor(SyntaxBranches.OfBlock(b))
  {
    WalkShows(Nothing, BlockEntries(b), "root");
    StatementPointsAreStatements(b);
    SyntaxBranches.BranchesAreTold(b);
    assert StatementsShown([]) == [] && BranchesShown([]) == [];
    hide Walked, BlockEntries, Shown, SyntaxBranches.ToldAll, SyntaxBranches.PointsOf, WarningsFor;
  }

  // ----- Ambiguous lines ---------------------------------------------------------------------------

  predicate OnLine(p: Point) {
    p.placement.Before? || p.placement.LoopEnter?
  }

  /** The line holds two statements that are probed on their own. */
  ghost predicate Ambiguous(points: seq<Point>, line: nat) {
    exists p, q | p in points && q in points && OnLine(p) && OnLine(q) && p.placement.line == line && q.placement.line == line ::
      p.placement.siteKey != q.placement.siteKey
  }

  ghost predicate SitesOf(points: seq<Point>, line: nat, sites: set<string>) {
    forall key :: key in sites <==> exists p | p in points && OnLine(p) && p.placement.line == line :: p.placement.siteKey == key
  }

  ghost predicate Indexed(points: seq<Point>, sitesByLine: map<nat, set<string>>, lines: seq<nat>) {
    && (forall line :: line in lines <==> line in sitesByLine)
    && (forall line | line in sitesByLine :: SitesOf(points, line, sitesByLine[line]))
    && (forall p | p in points && OnLine(p) :: p.placement.line in sitesByLine)
  }

  lemma OneMorePoint(points: seq<Point>, p: Point, sitesByLine: map<nat, set<string>>, lines: seq<nat>)
    requires Indexed(points, sitesByLine, lines)
    ensures !OnLine(p) ==> Indexed(points + [p], sitesByLine, lines)
    ensures OnLine(p) ==>
              var line := p.placement.line;
              var sites := (if line in sitesByLine then sitesByLine[line] else {}) + {p.placement.siteKey};
              Indexed(points + [p], sitesByLine[line := sites], if line in sitesByLine then lines else lines + [line])
  {
    var more := points + [p];
    forall line, sites | SitesOf(points, line, sites) && !(OnLine(p) && p.placement.line == line)
      ensures SitesOf(more, line, sites)
    {}
    if OnLine(p) {
      var line := p.placement.line;
      var sites := if line in sitesByLine then sitesByLine[line] else {};
      assert SitesOf(points, line, sites);
      assert SitesOf(more, line, sites + {p.placement.siteKey}) by {
        forall key | key in sites + {p.placement.siteKey}
          ensures exists q | q in more && OnLine(q) && q.placement.line == line :: q.placement.siteKey == key
        {
          if key == p.placement.siteKey {
            assert p in more;
          } else {
            var q :| q in points && OnLine(q) && q.placement.line == line && q.placement.siteKey == key;
            assert q in more;
          }
        }
      }
    }
  }

  lemma AmbiguousIff(points: seq<Point>, line: nat, sites: set<string>)
    requires SitesOf(points, line, sites)
    ensures |sites| >= 2 <==> Ambiguous(points, line)
  {
    if |sites| >= 2 {
      var a :| a in sites;
      var rest := sites - {a};
      assert |rest| == |sites| - 1 && |rest| > 0;
      var b :| b in rest;
      var p :| p in points && OnLine(p) && p.placement.line == line && p.placement.siteKey == a;
      var q :| q in points && OnLine(q) && q.placement.line == line && q.placement.siteKey == b;
    }
    if Ambiguous(points, line) {
      var p, q :| p in points && q in points && OnLine(p) && OnLine(q) && p.placement.line == line && q.placement.line == line
                  && p.placement.siteKey != q.placement.siteKey;
      assert {p.placement.siteKey, q.placement.siteKey} <= sites;
      SubsetSize({p.placement.siteKey, q.placement.siteKey}, sites);
    }
  }

  /** `detectAmbiguousLineSites`: one error for each line that holds two sites, and for no other line. */
  method DetectAmbiguousLineSites(points: seq<Point>) returns (errors: seq<Diagnostic>)
    ensures forall d | d in errors :: d.AmbiguousLine?
    ensures forall line :: AmbiguousLine(line) in errors <==> Ambiguous(points, line)
  {
    var sitesByLine: map<nat, set<string>> := map[];
    var lines: seq<nat> := [];
    for i := 0 to |points|
      invariant Indexed(points[..i], sitesByLine, lines)
    {
      var p := points[i];
      assert points[..i + 1] == points[..i] + [p];
      OneMorePoint(points[..i], p, sitesByLine, lines);
      if p.placement.Before? || p.placement.LoopEnter? {
        var line := p.placement.line;
        var sites := if line in sitesByLine then sitesByLine[line] else {};
        if line !in sitesByLine {
          lines := lines + [line];
        }
        sitesByLine := sitesByLine[line := sites + {p.placement.siteKey}];
      }
    }
    assert points[..|points|] == points;
    errors := [];
    for i := 0 to |lines|
      invariant forall d | d in errors :: d.AmbiguousLine? && d.line in lines[..i]
      invariant forall line | line in lines[..i] :: AmbiguousLine(line) in errors <==> Ambiguous(points, line)
    {
      var line := lines[i];
      assert lines[..i + 1] == lines[..i] + [line];
      AmbiguousIff(points, line, sitesByLine[line]);
      if |sitesByLine[line]| >= 2 {
        errors := errors + [AmbiguousLine(line)];
      }
    }
    assert lines[..|lines|] == lines;
    forall line | Ambiguous(points, line) ensures line in lines {}
  }

  // ----- The analysis --------------------------------------------------------------------------------

  datatype Syntax = Syntax(truncated: bool, hasError: bool, block: Option<Block>)

  predicate IsError(d: Diagnostic) {
    d.AmbiguousLine? || d.Unusable?
  }

  ghost predicate ErrorFree(diagnostics: seq<Diagnostic>) {
    forall d | d in diagnostics :: !IsError(d)
  }

  lemma {:induction false} WalksWarnOnly(a: Analysis, entries: seq<Entry>, base: string)
    requires ErrorFree(a.diagnostics)
    ensures ErrorFree(Walked(a, entries, base).diagnostics)
    decreases |entries|
  {
    if entries != [] {
      WalksWarnOnly(Pushed(a, entries[0], base), entries[1..], base);
    }
  }

  const Nothing := Analysis([], [], 0)

  /**
   * `analyzeCoverageSyntax`. The points are those of the walk from `root`, with dense ids; the analysis is
   * error-free exactly when the tree is usable and no line holds two sites.
   */
  method AnalyzeCoverage(syntax: Syntax) returns (points: seq<Point>, diagnostics: seq<Diagnostic>)
    ensures syntax.truncated || syntax.hasError || syntax.block.None? ==> points == [] && diagnostics == [Unusable]
    ensures !(syntax.truncated || syntax.hasError || syntax.block.None?) ==>
              && points == Walked(Nothing, BlockEntries(syntax.block.value), "root").points
              && (forall i :: 0 <= i < |points| ==> points[i].id == "p" + Decimal(i))
              && (ErrorFree(diagnostics) <==> forall line :: !Ambiguous(points, line))
              && StatementsShown(points) == Rows(InBlockOrder(syntax.block.value))
              && BranchesShown(points) == SyntaxBranches.PointsOf(SyntaxBranches.OfBlock(syntax.block.value))
              && (var warnings := WarningsFor(SyntaxBranches.OfBlock(syntax.block.value));
                  warnings <= diagnostics && forall d | d in diagnostics[|warnings|..] :: d.AmbiguousLine?)
    ensures syntax.block.Some? && ErrorFree(diagnostics) && SyntaxClashes.Aligned(syntax.block.value) ==> SyntaxSites.Compact(syntax.block.value)
  {
    if syntax.truncated || syntax.hasError || syntax.block.None? {
      assert IsError([Unusable][0]);
      return [], [Unusable];
    }
    var analyzer := new Analyzer();
    analyzer.AnalyzeBlock(syntax.block.value, "root");
    WalkStaysDense(Nothing, BlockEntries(syntax.block.value), "root");
    WalksWarnOnly(Nothing, BlockEntries(syntax.block.value), "root");
    PointsAreTheRoutines(syntax.block.value);
    hide StatementsShown, BranchesShown, WarningsFor, Rows, InBlockOrder, SyntaxBranches.PointsOf, SyntaxBranches.OfBlock;
    points := analyzer.points;
    var errors := DetectAmbiguousLineSites(points);
    diagnostics := analyzer.diagnostics + errors;
    hide Walked, Ambiguous;
    if ErrorFree(diagnostics) {
      forall line ensures !Ambiguous(points, line) {
        assert AmbiguousLine(line) in errors ==> AmbiguousLine(line) in diagnostics;
      }
      hide ErrorFree, BlockEntries;
      if SyntaxClashes.Aligned(syntax.block.value) && !SyntaxSites.Compact(syntax.block.value) {
        ShiftedRoutinesAreRefused(syntax.block.value);
      }
    }
  }

  /** Two probes on one line under different keys are two sites on that line. */
  lemma ClashIsAmbiguous(b: Block)
    requires SyntaxClashes.Clash(BlockEntries(b))
    ensures exists line :: Ambiguous(Walked(Nothing, BlockEntries(b), "root").points, line)
  {
    var points := Walked(Nothing, BlockEntries(b), "root").points;
    var d, e :| d in BlockEntries(b) && e in BlockEntries(b) && HasSite(d) && HasSite(e)
                && d.place.line == e.place.line && d.place.key != e.place.key;
    EntriesBecomePoints(Nothing, BlockEntries(b), "root", d);
    EntriesBecomePoints(Nothing, BlockEntries(b), "root", e);
    if KeyText(d.place.key) == KeyText(e.place.key) {
      SiteKeys.KeyTextIsInjective(d.place.key, e.place.key);
    }
    KeyIsRootTail(d.place.key);
    KeyIsRootTail(e.place.key);
    hide Walked, BlockEntries, KeyText, Tail;
    var p :| p in points && p.placement == Placed(d.place, "root");
    var q :| q in points && q.placement == Placed(e.place, "root");
    assert p.placement.siteKey != q.placement.siteKey && OnLine(p) && OnLine(q);
    assert Ambiguous(points, d.place.line);
  }

  /** A routine in which site keys fail to identify statements is refused: some line of it is ambiguous. */
  lemma ShiftedRoutinesAreRefused(b: Block)
    requires SyntaxClashes.Aligned(b) && !SyntaxSites.Compact(b)
    ensures exists line :: Ambiguous(Walked(Nothing, BlockEntries(b), "root").points, line)
  {
    SyntaxClashes.BlockClashes(b);
    ClashIsAmbiguous(b);
  }

  /**
   * At most one statement per line: in an error-free analysis two probes have the same site key exactly when
   * they stand on the same statement, and two probes on one line do.
   */
  lemma OneSitePerLine(b: Block, d: Entry, e: Entry)
    requires var points := Walked(Nothing, BlockEntries(b), "root").points;
             forall line :: !Ambiguous(points, line)
    requires SyntaxClashes.Aligned(b)
    requires d in BlockEntries(b) && e in BlockEntries(b) && HasSite(d) && HasSite(e)
    ensures KeyText(d.place.key) == KeyText(e.place.key) <==> d.place.site == e.place.site
    ensures d.place.line == e.place.line ==> d.place.site == e.place.site
  {
    if !SyntaxSites.Compact(b) {
      ShiftedRoutinesAreRefused(b);
    }
    SiteKeys.SiteKeysIdentifyStatements(b);
    hide Walked, BlockEntries, SyntaxClashes.Aligned, SyntaxSites.Compact;
    if d.place.line == e.place.line {
      SameLineSameKey(b, d, e);
    }
  }

  lemma SameLineSameKey(b: Block, d: Entry, e: Entry)
    requires var points := Walked(Nothing, BlockEntries(b), "root").points;
             forall line :: !Ambiguous(points, line)
    requires d in BlockEntries(b) && e in BlockEntries(b) && HasSite(d) && HasSite(e) && d.place.line == e.place.line
    ensures d.place.key == e.place.key
  {
    if d.place.key != e.place.key {
      assert SyntaxClashes.Clash(BlockEntries(b));
      ClashIsAmbiguous(b);
    }
  }

  lemma {:induction false} EntriesBecomePoints(a: Analysis, entries: seq<Entry>, base: string, e: Entry)
    requires e in entries && e.Probe?
    ensures exists p | p in Walked(a, entries, base).points :: p.placement == Placed(e.place, base)
    decreases |entries|
  {
    var b := Pushed(a, entries[0], base);
    if e == entries[0] {
      var p := b.points[|b.points| - 1];
      PointsStay(b, entries[1..], base, p);
    } else {
      EntriesBecomePoints(b, entries[1..], base, e);
    }
  }

  lemma {:induction false} PointsStay(a: Analysis, entries: seq<Entry>, base: string, p: Point)
    requires p in a.points
    ensures p in Walked(a, entries, base).points
    decreases |entries|
  {
    if entries != [] {
      PointsStay(Pushed(a, entries[0], base), entries[1..], base, p);
    }
  }
}
