/**
 * Coverage points of a PL/pgSQL routine: the recursive walk of packages/coverage/src/syntaxAnalyzer.ts.
 * The trees hold what the walk's reads of the parser's tree (`directChild`, `plpgsqlStep`, ...) return;
 * a section, and the body of a clause, are absent where the parser found no statement.
 *
 * The walk numbers the sites of its probes with paths, the `siteKey`s. Beside each path the model keeps
 * the address of the statement it stands on, and `SyntaxSites` compares the two.
 */
module SyntaxWalk {
  import opened Options
  import opened Decimals

  // ----- Trees -----------------------------------------------------------------------------------

  datatype Block = Block(body: Option<Section>, handlers: seq<Handler>)
  datatype Handler = Handler(section: Option<Section>, conditions: string)
  /** The `proc_stmt` children of a `proc_sect`. */
  datatype Section = Section(statements: seq<Wrapper>)
  /** A `proc_stmt`. */
  datatype Wrapper = Wrapper(line: nat, offset: nat, step: Step)
  datatype Step = NoStep | Nested(block: Block) | Held(statement: Statement)
  datatype Statement = Statement(line: nat, endLine: nat, offset: nat, name: string, shape: Shape)
  datatype Shape =
    | Simple
    | If(then_: Option<Section>, elsifs: seq<Clause>, else_: Option<Section>, terminator: Option<nat>)
    | Case(whens: seq<Clause>, hasElse: bool, else_: Option<Section>)
    | Loop(headEnds: seq<nat>, bodyEnd: nat, section: Option<Section>, plain: bool)   // plain: LOOP without a condition
  datatype Clause = Clause(line: nat, section: Option<Section>)

  // ----- Paths -----------------------------------------------------------------------------------

  datatype Segment = At(i: nat) | InBlock | InException(i: nat) | Then | Elsif(i: nat) | Else | When(i: nat) | CaseElse | InLoop
  type Path = seq<Segment>

  function SegmentText(s: Segment): string {
    match s
    case At(i) => Decimal(i)
    case InBlock => "block"
    case InException(i) => "exception." + Decimal(i)
    case Then => "if.then"
    case Elsif(i) => "if.elsif." + Decimal(i)
    case Else => "if.else"
    case When(i) => "case." + Decimal(i)
    case CaseElse => "case.else"
    case InLoop => "loop"
  }

  function KeyText(path: Path): string {
    if path == [] then "root" else KeyText(path[..|path| - 1]) + "." + SegmentText(path[|path| - 1])
  }

  // ----- What the walk produces --------------------------------------------------------------------

  /** A placement; `key` is the path the source calls `siteKey`, `site` the address of the `proc_stmt`. */
  datatype Place =
    | Before(line: nat, key: Path, site: Path, offset: nat)
    | InjectElse(decisionLine: nat, searchAfter: nat, terminator: Option<nat>)
    | LoopEnter(loopLine: nat, line: nat, searchAfter: nat, key: Path, site: Path, loopOffset: nat, offset: nat)
    | LoopExit(loopLine: nat, searchAfter: nat, offset: nat)

  datatype Entry =
    | Probe(line: nat, endLine: nat, branch: bool, title: string, place: Place)
    | CaseWithoutElse(line: nat)
    | EmptyLoop(line: nat)

  predicate HasSite(e: Entry) {
    e.Probe? && (e.place.Before? || e.place.LoopEnter?)
  }

  function Prefixed(key: Segment, site: Segment, e: Entry): Entry {
    if HasSite(e) then e.(place := e.place.(key := [key] + e.place.key, site := [site] + e.place.site)) else e
  }

  function Under(key: Segment, site: Segment, entries: seq<Entry>): (r: seq<Entry>)
    ensures |r| == |entries|
  {
    seq(|entries|, i requires 0 <= i < |entries| => Prefixed(key, site, entries[i]))
  }

  function FirstOf(section: Option<Section>): Option<Wrapper> {
    if section.Some? && section.value.statements != [] then Some(section.value.statements[0]) else None
  }

  function LastLine(section: Option<Section>): Option<nat> {
    if section.Some? && section.value.statements != []
    then Some(section.value.statements[|section.value.statements| - 1].line) else None
  }

  /** The probe of a branch, before the first statement of its section; `inside` leads to the section. */
  function BranchProbe(line: nat, title: string, section: Option<Section>, inside: Segment): seq<Entry> {
    match FirstOf(section)
    case None => []
    case Some(w) => [Probe(line, line, true, title, Before(w.line, [inside, At(0)], [inside, At(0)], w.offset))]
  }

  function AtLine(text: string, line: nat): string {
    text + " @" + Decimal(line)
  }

  /** The greatest of the lines. */
  function HeadEnd(line: nat, ends: seq<nat>): (end: nat)
    ensures line <= end && (forall e | e in ends :: e <= end) && (end == line || end in ends)
  {
    if ends == [] then line
    else
      var before := HeadEnd(line, ends[..|ends| - 1]);
      assert ends == ends[..|ends| - 1] + [ends[|ends| - 1]];
      if before < ends[|ends| - 1] then ends[|ends| - 1] else before
  }

  predicate Labelled(st: Statement) {
    !st.shape.If? && !st.shape.Case?
  }

  function OwnProbe(st: Statement): seq<Entry> {
    if !Labelled(st) then []
    else
      var endLine := if st.shape.Loop? then HeadEnd(st.line, st.shape.headEnds) else st.endLine;
      [Probe(st.line, endLine, false, st.name, Before(st.line, [], [], st.offset))]
  }

  // ----- The walk --------------------------------------------------------------------------------

  function BlockEntries(b: Block): seq<Entry>
    decreases b, 0
  {
    (match b.body case None => [] case Some(s) => SectionEntries(s)) + HandlerEntries(b.handlers, 0)
  }

  function HandlerEntries(handlers: seq<Handler>, from: nat): seq<Entry>
    decreases handlers, 1
  {
    if handlers == [] then [] else OneHandler(handlers[0], from) + HandlerEntries(handlers[1..], from + 1)
  }

  function OneHandler(h: Handler, i: nat): seq<Entry>
    decreases h, 0
  {
    match FirstOf(h.section)
    case None => []
    case Some(w) =>
      [Probe(w.line, w.line, true, "EXCEPTION " + h.conditions, Before(w.line, [InException(i), At(0)], [InException(i), At(0)], w.offset))]
      + Under(InException(i), InException(i), SectionEntries(h.section.value))
  }

  function SectionEntries(s: Section): seq<Entry>
    decreases s, 0
  {
    StatementEntries(s.statements, 0)
  }

  function StatementEntries(ws: seq<Wrapper>, from: nat): seq<Entry>
    decreases ws, 1
  {
    if ws == [] then [] else Under(At(from), At(from), WrapperEntries(ws[0])) + StatementEntries(ws[1..], from + 1)
  }

  function WrapperEntries(w: Wrapper): seq<Entry>
    decreases w, 0
  {
    match w.step
    case NoStep => []
    case Nested(b) => Under(InBlock, InBlock, BlockEntries(b))
    case Held(st) => OwnProbe(st) + ShapeEntries(st)
  }

  function ShapeEntries(st: Statement): seq<Entry>
    decreases st, 0
  {
    match st.shape
    case Simple => []
    case If(_, _, _, _) => IfEntries(st)
    case Case(_, _, _) => CaseEntries(st)
    case Loop(_, _, _, _) => LoopEntries(st)
  }

  function OptionalSection(section: Option<Section>, key: Segment, site: Segment): seq<Entry>
    decreases section, 0
  {
    match section case None => [] case Some(s) => Under(key, site, SectionEntries(s))
  }

  function ClauseSegment(elsif: bool, i: nat): Segment {
    if elsif then Elsif(i) else When(i)
  }

  /** The branch probes of `ELSIF` or `WHEN` clauses: paths by the position of the clause. */
  function ClauseBranches(clauses: seq<Clause>, elsif: bool, from: nat): seq<Entry>
    decreases |clauses|
  {
    if clauses == [] then []
    else
      BranchProbe(clauses[0].line, AtLine(if elsif then "ELSIF true" else "WHEN", clauses[0].line),
                  clauses[0].section, ClauseSegment(elsif, from))
      + ClauseBranches(clauses[1..], elsif, from + 1)
  }

  /** Their sections: paths by the position among the clauses that have a section, which is what the source counts. */
  function ClauseSections(clauses: seq<Clause>, elsif: bool, withSection: nat, from: nat): seq<Entry>
    decreases clauses, 1
  {
    if clauses == [] then []
    else
      OneClause(clauses[0], ClauseSegment(elsif, withSection), ClauseSegment(elsif, from))
      + ClauseSections(clauses[1..], elsif, withSection + (if clauses[0].section.Some? then 1 else 0), from + 1)
  }

  function OneClause(clause: Clause, key: Segment, site: Segment): seq<Entry>
    decreases clause, 0
  {
    OptionalSection(clause.section, key, site)
  }

  /** The last clause section, or `then`: where an `IF` without `ELSE` ends. */
  function LastSection(clauses: seq<Clause>, then_: Option<Section>): Option<Section> {
    if clauses == [] then then_
    else if clauses[|clauses| - 1].section.Some? then clauses[|clauses| - 1].section
    else LastSection(clauses[..|clauses| - 1], then_)
  }

  function IfEntries(st: Statement): seq<Entry>
    requires st.shape.If?
    decreases st.shape, 2
  {
    var shape := st.shape;
    BranchProbe(st.line, AtLine("IF true", st.line), shape.then_, Then)
    + ClauseBranches(shape.elsifs, true, 0)
    + BranchProbe(st.line, AtLine("ELSE", st.line), shape.else_, Else)
    + OptionalSection(shape.then_, Then, Then)
    + ClauseSections(shape.elsifs, true, 0, 0)
    + OptionalSection(shape.else_, Else, Else)
    + IfFalse(st)
  }

  function IfFalse(st: Statement): seq<Entry>
    requires st.shape.If?
  {
    var last := LastLine(LastSection(st.shape.elsifs, st.shape.then_));
    if st.shape.else_.Some? || last.None? then []
    else [Probe(st.line, st.line, true, AtLine("IF false", st.line), InjectElse(st.line, last.value, st.shape.terminator))]
  }

  function CaseElseSection(shape: Shape): Option<Section>
    requires shape.Case?
  {
    if shape.hasElse then shape.else_ else None
  }

  function CaseEntries(st: Statement): seq<Entry>
    requires st.shape.Case?
    decreases st.shape, 2
  {
    var shape := st.shape;
    ClauseBranches(shape.whens, false, 0)
    + BranchProbe(st.line, AtLine("CASE ELSE", st.line), CaseElseSection(shape), CaseElse)
    + (if shape.hasElse then [] else [CaseWithoutElse(st.line)])
    + ClauseSections(shape.whens, false, 0, 0)
    + (if shape.hasElse then OptionalSection(shape.else_, CaseElse, CaseElse) else [])
  }

  function LoopProbes(st: Statement, w: Wrapper): seq<Entry>
    requires st.shape.Loop?
  {
    var last := LastLine(st.shape.section).GetOr(w.line);
    [Probe(st.line, st.line, true, AtLine("loop enter", st.line),
           LoopEnter(st.line, w.line, last, [InLoop, At(0)], [InLoop, At(0)], st.offset, w.offset))]
    + if st.shape.plain then []
      else [Probe(st.line, st.line, true, AtLine("loop exit", st.line), LoopExit(st.line, last, st.shape.bodyEnd))]
  }

  function LoopEntries(st: Statement): seq<Entry>
    requires st.shape.Loop?
    decreases st.shape, 2
  {
    match FirstOf(st.shape.section)
    case None => [EmptyLoop(st.line)]
    case Some(w) => LoopProbes(st, w) + OptionalSection(st.shape.section, InLoop, InLoop)
  }
}
