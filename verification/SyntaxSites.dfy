/**
 * Site keys identify statements: when two probes of a routine have the same `siteKey`, and when they
 * stand on the same `proc_stmt`.
 */
module SyntaxSites {
  import opened Options
  import opened SyntaxWalk

  /** The site of a probe: the key the walk gave it, and the statement it stands on. */
  datatype Pair = Pair(key: Path, site: Path)

  function PairOf(e: Entry): Pair
    requires HasSite(e)
  {
    Pair(e.place.key, e.place.site)
  }

  ghost function Pairs(entries: seq<Entry>): set<Pair> {
    set e | e in entries && HasSite(e) :: PairOf(e)
  }

  /** Two probes have the same key exactly when they stand on the same statement. */
  ghost predicate Identify(pairs: set<Pair>) {
    forall p, q | p in pairs && q in pairs :: p.key == q.key <==> p.site == q.site
  }

  ghost function Push(key: Segment, site: Segment, pairs: set<Pair>): set<Pair> {
    set p | p in pairs :: Pair([key] + p.key, [site] + p.site)
  }

  // ----- The condition ---------------------------------------------------------------------------

  predicate StartsLabelled(section: Option<Section>) {
    var first := FirstOf(section);
    first.Some? && first.value.step.Held? && Labelled(first.value.step.statement)
  }

  /** No clause behind one without a section starts with a statement that gets a probe of its own. */
  predicate NoShift(clauses: seq<Clause>) {
    forall i, j :: 0 <= i < j < |clauses| && clauses[i].section.None? ==> !StartsLabelled(clauses[j].section)
  }

  predicate Compact(b: Block)
    decreases b, 0
  {
    (b.body.Some? ==> CompactSection(b.body.value)) && forall h | h in b.handlers :: CompactHandler(h)
  }

  predicate CompactHandler(h: Handler)
    decreases h, 0
  {
    h.section.Some? ==> CompactSection(h.section.value)
  }

  predicate CompactSection(s: Section)
    decreases s, 0
  {
    forall w | w in s.statements :: CompactWrapper(w)
  }

  predicate CompactWrapper(w: Wrapper)
    decreases w, 0
  {
    match w.step
    case NoStep => true
    case Nested(b) => Compact(b)
    case Held(st) => CompactStatement(st)
  }

  predicate CompactOptional(section: Option<Section>)
    decreases section, 0
  {
    match section case None => true case Some(s) => CompactSection(s)
  }

  predicate CompactClause(clause: Clause)
    decreases clause, 0
  {
    CompactOptional(clause.section)
  }

  predicate CompactStatement(st: Statement)
    decreases st, 0
  {
    match st.shape
    case Simple => true
    case If(then_, elsifs, else_, _) =>
      CompactOptional(then_) && CompactOptional(else_) && NoShift(elsifs) && forall c | c in elsifs :: CompactClause(c)
    case Case(whens, hasElse, else_) =>
      (hasElse ==> CompactOptional(else_)) && NoShift(whens) && forall c | c in whens :: CompactClause(c)
    case Loop(_, _, section, _) => CompactOptional(section)
  }

  // ----- Sets of pairs ---------------------------------------------------------------------------

  lemma PairsAppend(a: seq<Entry>, b: seq<Entry>)
    ensures Pairs(a + b) == Pairs(a) + Pairs(b)
  {}

  lemma PairsUnder(key: Segment, site: Segment, entries: seq<Entry>)
    ensures Pairs(Under(key, site, entries)) == Push(key, site, Pairs(entries))
  {
    var under := Under(key, site, entries);
    forall p | p in Push(key, site, Pairs(entries)) ensures p in Pairs(under) {
      var e :| e in entries && HasSite(e) && p == Pair([key] + PairOf(e).key, [site] + PairOf(e).site);
      var i :| 0 <= i < |entries| && entries[i] == e;
      assert under[i] in under && PairOf(under[i]) == p;
    }
    forall p | p in Pairs(under) ensures p in Push(key, site, Pairs(entries)) {
      var e :| e in under && HasSite(e) && PairOf(e) == p;
      var i :| 0 <= i < |under| && under[i] == e;
      assert PairOf(entries[i]) in Pairs(entries);
    }
  }

  lemma PushIdentifies(key: Segment, site: Segment, pairs: set<Pair>)
    ensures Identify(Push(key, site, pairs)) <==> Identify(pairs)
  {
    forall p, q | p in pairs && q in pairs
      ensures Pair([key] + p.key, [site] + p.site) in Push(key, site, pairs)
      ensures [key] + p.key == [key] + q.key <==> p.key == q.key
      ensures [site] + p.site == [site] + q.site <==> p.site == q.site
    {
      assert ([key] + p.key)[1..] == p.key && ([key] + q.key)[1..] == q.key;
      assert ([site] + p.site)[1..] == p.site && ([site] + q.site)[1..] == q.site;
    }
    if Identify(Push(key, site, pairs)) {
      forall p, q | p in pairs && q in pairs ensures p.key == q.key <==> p.site == q.site {
        assert Pair([key] + p.key, [site] + p.site) in Push(key, site, pairs);
        assert Pair([key] + q.key, [site] + q.site) in Push(key, site, pairs);
      }
    }
  }

  ghost predicate Separate(a: set<Pair>, b: set<Pair>) {
    forall p, q | p in a && q in b :: p.key != q.key && p.site != q.site
  }

  lemma UnionIdentifies(a: set<Pair>, b: set<Pair>)
    requires Separate(a, b)
    ensures Identify(a + b) <==> Identify(a) && Identify(b)
  {
    if Identify(a + b) {
      assert forall p | p in a :: p in a + b;
      assert forall p | p in b :: p in a + b;
    }
  }

  // ----- Where the keys of a set begin -------------------------------------------------------------

  function Class(s: Segment): nat {
    match s
    case At(_) => 0 case InBlock => 1 case InException(_) => 2 case Then => 3 case Elsif(_) => 4
    case Else => 5 case When(_) => 6 case CaseElse => 7 case InLoop => 8
  }

  ghost predicate Classed(pairs: set<Pair>, class_: nat) {
    forall p | p in pairs :: p.key != [] && p.site != [] && Class(p.key[0]) == class_ && Class(p.site[0]) == class_
  }

  lemma PushIsClassed(key: Segment, site: Segment, pairs: set<Pair>)
    requires Class(key) == Class(site)
    ensures Classed(Push(key, site, pairs), Class(key))
  {}

  /** Keys and addresses of the statements of a section: one segment names the statement, the rest lies within. */
  ghost predicate InSection(pairs: set<Pair>, from: nat) {
    forall p | p in pairs :: p.key != [] && p.site != [] && p.key[0] == p.site[0] && p.key[0].At? && from <= p.key[0].i && |p.key| == |p.site|
  }

  ghost predicate SameLengths(pairs: set<Pair>) {
    forall p | p in pairs :: |p.key| == |p.site|
  }

  lemma PushLengths(key: Segment, site: Segment, pairs: set<Pair>)
    requires SameLengths(pairs)
    ensures SameLengths(Push(key, site, pairs))
  {}

  // ----- Lengths agree -----------------------------------------------------------------------------

  lemma {:induction false} BlockLengths(b: Block)
    ensures SameLengths(Pairs(BlockEntries(b)))
    decreases b, 0
  {
    PairsAppend(if b.body.Some? then SectionEntries(b.body.value) else [], HandlerEntries(b.handlers, 0));
    if b.body.Some? {
      SectionPairs(b.body.value);
    }
    HandlerLengths(b.handlers, 0);
  }

  lemma {:induction false} HandlerLengths(handlers: seq<Handler>, from: nat)
    ensures SameLengths(Pairs(HandlerEntries(handlers, from)))
    decreases handlers, 1
  {
    if handlers != [] {
      PairsAppend(OneHandler(handlers[0], from), HandlerEntries(handlers[1..], from + 1));
      OneHandlerLengths(handlers[0], from);
      HandlerLengths(handlers[1..], from + 1);
    }
  }

  lemma {:induction false} OneHandlerLengths(h: Handler, i: nat)
    ensures SameLengths(Pairs(OneHandler(h, i)))
    decreases h, 0
  {
    var first := FirstOf(h.section);
    if first.Some? {
      var under := Under(InException(i), InException(i), SectionEntries(h.section.value));
      PairsAppend(OneHandler(h, i)[..1], under);
      PairsUnder(InException(i), InException(i), SectionEntries(h.section.value));
      SectionPairs(h.section.value);
      PushLengths(InException(i), InException(i), Pairs(SectionEntries(h.section.value)));
    }
  }

  lemma {:induction false} SectionPairs(s: Section)
    ensures InSection(Pairs(SectionEntries(s)), 0) && SameLengths(Pairs(SectionEntries(s)))
    decreases s, 0
  {
    StatementPairs(s.statements, 0);
  }

  lemma {:induction false} StatementPairs(ws: seq<Wrapper>, from: nat)
    ensures InSection(Pairs(StatementEntries(ws, from)), from)
    decreases ws, 1
  {
    if ws != [] {
      PairsAppend(Under(At(from), At(from), WrapperEntries(ws[0])), StatementEntries(ws[1..], from + 1));
      PairsUnder(At(from), At(from), WrapperEntries(ws[0]));
      WrapperLengths(ws[0]);
      StatementPairs(ws[1..], from + 1);
    }
  }

  lemma {:induction false} WrapperLengths(w: Wrapper)
    ensures SameLengths(Pairs(WrapperEntries(w)))
    decreases w, 0
  {
    match w.step
    case NoStep =>
    case Nested(b) =>
      BlockLengths(b);
      PairsUnder(InBlock, InBlock, BlockEntries(b));
      PushLengths(InBlock, InBlock, Pairs(BlockEntries(b)));
    case Held(st) =>
      PairsAppend(OwnProbe(st), ShapeEntries(st));
      ShapeLengths(st);
  }

  lemma {:induction false} OptionalLengths(section: Option<Section>, key: Segment, site: Segment)
    ensures SameLengths(Pairs(OptionalSection(section, key, site)))
    decreases section, 0
  {
    match section
    case None =>
    case Some(s) =>
      SectionPairs(s);
      PairsUnder(key, site, SectionEntries(s));
      PushLengths(key, site, Pairs(SectionEntries(s)));
  }

  lemma {:induction false} OneClauseLengths(clause: Clause, key: Segment, site: Segment)
    ensures SameLengths(Pairs(OneClause(clause, key, site)))
    decreases clause, 0
  {
    OptionalLengths(clause.section, key, site);
  }

  lemma {:induction false} ClauseLengths(clauses: seq<Clause>, elsif: bool, withSection: nat, from: nat)
    ensures SameLengths(Pairs(ClauseSections(clauses, elsif, withSection, from)))
    decreases clauses, 1
  {
    if clauses != [] {
      var next := withSection + if clauses[0].section.Some? then 1 else 0;
      PairsAppend(OneClause(clauses[0], ClauseSegment(elsif, withSection), ClauseSegment(elsif, from)),
                  ClauseSections(clauses[1..], elsif, next, from + 1));
      OneClauseLengths(clauses[0], ClauseSegment(elsif, withSection), ClauseSegment(elsif, from));
      ClauseLengths(clauses[1..], elsif, next, from + 1);
    }
  }

  lemma {:induction false} BranchLengths(clauses: seq<Clause>, elsif: bool, from: nat)
    ensures SameLengths(Pairs(ClauseBranches(clauses, elsif, from)))
    decreases |clauses|
  {
    if clauses != [] {
      PairsAppend(BranchProbe(clauses[0].line, AtLine(if elsif then "ELSIF true" else "WHEN", clauses[0].line),
                              clauses[0].section, ClauseSegment(elsif, from)),
                  ClauseBranches(clauses[1..], elsif, from + 1));
      BranchLengths(clauses[1..], elsif, from + 1);
    }
  }

  lemma {:induction false} ShapeLengths(st: Statement)
    ensures SameLengths(Pairs(ShapeEntries(st)))
    decreases st, 0
  {
    match st.shape
    case Simple =>
    case If(_, _, _, _) =>
      IfPairs(st);
      OptionalLengths(st.shape.then_, Then, Then);
      OptionalLengths(st.shape.else_, Else, Else);
      ClauseLengths(st.shape.elsifs, true, 0, 0);
      BranchLengths(st.shape.elsifs, true, 0);
    case Case(_, _, _) =>
      CasePairs(st);
      OptionalLengths(st.shape.else_, CaseElse, CaseElse);
      ClauseLengths(st.shape.whens, false, 0, 0);
      BranchLengths(st.shape.whens, false, 0);
    case Loop(_, _, _, _) =>
      LoopPairs(st);
      OptionalLengths(st.shape.section, InLoop, InLoop);
  }

  // ----- The pairs of a statement's parts ------------------------------------------------------------

  /** A section's branch probe and the section itself. */
  ghost function Part(section: Option<Section>, inside: Segment): set<Pair> {
    match section
    case None => {}
    case Some(s) =>
      Push(inside, inside, (if s.statements == [] then {} else {Pair([At(0)], [At(0)])}) + Pairs(SectionEntries(s)))
  }

  lemma PartIs(line: nat, title: string, section: Option<Section>, inside: Segment)
    ensures Pairs(BranchProbe(line, title, section, inside)) + Pairs(OptionalSection(section, inside, inside)) == Part(section, inside)
  {
    match section
    case None =>
    case Some(s) =>
      PairsUnder(inside, inside, SectionEntries(s));
      hide SectionEntries;
      if s.statements != [] {
        var probe := BranchProbe(line, title, section, inside);
        assert probe[0] in probe && PairOf(probe[0]) == Pair([inside] + [At(0)], [inside] + [At(0)]);
      }
  }

  ghost function ClausePart(clauses: seq<Clause>, elsif: bool): set<Pair> {
    Pairs(ClauseBranches(clauses, elsif, 0)) + Pairs(ClauseSections(clauses, elsif, 0, 0))
  }

  lemma IfPairs(st: Statement)
    requires st.shape.If?
    ensures Pairs(IfEntries(st)) == Part(st.shape.then_, Then) + ClausePart(st.shape.elsifs, true) + Part(st.shape.else_, Else)
  {
    var shape := st.shape;
    var b1 := BranchProbe(st.line, AtLine("IF true", st.line), shape.then_, Then);
    var b2 := ClauseBranches(shape.elsifs, true, 0);
    var b3 := BranchProbe(st.line, AtLine("ELSE", st.line), shape.else_, Else);
    var s1, s2, s3 := OptionalSection(shape.then_, Then, Then), ClauseSections(shape.elsifs, true, 0, 0), OptionalSection(shape.else_, Else, Else);
    PartIs(st.line, AtLine("IF true", st.line), shape.then_, Then);
    PartIs(st.line, AtLine("ELSE", st.line), shape.else_, Else);
    assert Pairs(IfFalse(st)) == {};
    assert IfEntries(st) == b1 + b2 + b3 + s1 + s2 + s3 + IfFalse(st);
    ClausePartIs(shape.elsifs, true);
    hide *;
    SixPairs(b1, b2, b3, s1, s2, s3, IfFalse(st));
    Regrouped(Pairs(b1), Pairs(b2), Pairs(b3), Pairs(s1), Pairs(s2), Pairs(s3));
  }

  lemma SixPairs(b1: seq<Entry>, b2: seq<Entry>, b3: seq<Entry>, s1: seq<Entry>, s2: seq<Entry>, s3: seq<Entry>, last: seq<Entry>)
    requires Pairs(last) == {}
    ensures Pairs(b1 + b2 + b3 + s1 + s2 + s3 + last) == Pairs(b1) + Pairs(b2) + Pairs(b3) + Pairs(s1) + Pairs(s2) + Pairs(s3)
  {
    hide *;
    PairsAppend(b1 + b2 + b3 + s1 + s2 + s3, last);
    PairsAppend(b1 + b2 + b3 + s1 + s2, s3);
    PairsAppend(b1 + b2 + b3 + s1, s2);
    PairsAppend(b1 + b2 + b3, s1);
    PairsAppend(b1 + b2, b3);
    PairsAppend(b1, b2);
  }

  lemma Regrouped(b1: set<Pair>, b2: set<Pair>, b3: set<Pair>, s1: set<Pair>, s2: set<Pair>, s3: set<Pair>)
    ensures b1 + b2 + b3 + s1 + s2 + s3 == (b1 + s1) + (b2 + s2) + (b3 + s3)
  {}

  lemma ClausePartIs(clauses: seq<Clause>, elsif: bool)
    ensures ClausePart(clauses, elsif) == Pairs(ClauseBranches(clauses, elsif, 0)) + Pairs(ClauseSections(clauses, elsif, 0, 0))
  {}

  lemma CasePairs(st: Statement)
    requires st.shape.Case?
    ensures Pairs(CaseEntries(st)) == ClausePart(st.shape.whens, false) + Part(CaseElseSection(st.shape), CaseElse)
  {
    var shape := st.shape;
    var b1 := ClauseBranches(shape.whens, false, 0);
    var b2 := BranchProbe(st.line, AtLine("CASE ELSE", st.line), CaseElseSection(shape), CaseElse);
    var warning := if shape.hasElse then [] else [CaseWithoutElse(st.line)];
    var s1, s2 := ClauseSections(shape.whens, false, 0, 0), OptionalSection(CaseElseSection(shape), CaseElse, CaseElse);
    PartIs(st.line, AtLine("CASE ELSE", st.line), CaseElseSection(shape), CaseElse);
    assert Pairs(warning) == {};
    assert CaseEntries(st) == b1 + b2 + warning + s1 + s2;
    hide *;
    PairsAppend(b1 + b2 + warning + s1, s2);
    PairsAppend(b1 + b2 + warning, s1);
    PairsAppend(b1 + b2, warning);
    PairsAppend(b1, b2);
    ClausePartIs(shape.whens, false);
  }

  lemma LoopPairs(st: Statement)
    requires st.shape.Loop?
    ensures Pairs(LoopEntries(st)) == Part(st.shape.section, InLoop)
  {
    var first := FirstOf(st.shape.section);
    match first
    case None => EmptyPart(st.shape.section, InLoop);
    case Some(w) =>
      var probes := LoopProbes(st, w);
      PairsAppend(probes, OptionalSection(st.shape.section, InLoop, InLoop));
      PartIs(0, "", st.shape.section, InLoop);
      hide OptionalSection, Part;
      var branch := BranchProbe(0, "", st.shape.section, InLoop);
      assert probes[0] in probes && branch[0] in branch;
      assert Pairs(probes) == {Pair([InLoop, At(0)], [InLoop, At(0)])};
      assert Pairs(branch) == {Pair([InLoop, At(0)], [InLoop, At(0)])};
  }

  lemma EmptyPart(section: Option<Section>, inside: Segment)
    requires FirstOf(section).None?
    ensures Part(section, inside) == {}
  {
    if section.Some? {
      assert StatementEntries(section.value.statements, 0) == [];
    }
  }

  // ----- Parts that identify -------------------------------------------------------------------------

  /** Within a section only the probe of the first statement itself, or of the branch to it, has the path of length one. */
  lemma FirstStatementKey(s: Section, p: Pair)
    requires p in Pairs(SectionEntries(s))
    ensures p.key == [At(0)] <==> p.site == [At(0)]
    ensures p.key == [At(0)] ==> StartsLabelled(Some(s))
    decreases s, 0
  {
    SectionPairs(s);
    var ws := s.statements;
    if ws != [] {
      PairsAppend(Under(At(0), At(0), WrapperEntries(ws[0])), StatementEntries(ws[1..], 1));
      PairsUnder(At(0), At(0), WrapperEntries(ws[0]));
      StatementPairs(ws[1..], 1);
      if p.key == [At(0)] {
        assert p in Push(At(0), At(0), Pairs(WrapperEntries(ws[0])));
        var q :| q in Pairs(WrapperEntries(ws[0])) && p == Pair([At(0)] + q.key, [At(0)] + q.site);
        assert |p.key| == 1 + |q.key|;
        EmptyKeyIsLabelled(ws[0], q);
      }
    }
  }

  lemma EmptyKeyIsLabelled(w: Wrapper, q: Pair)
    requires q in Pairs(WrapperEntries(w)) && q.key == []
    ensures w.step.Held? && Labelled(w.step.statement)
  {
    match w.step
    case NoStep =>
    case Nested(b) => PairsUnder(InBlock, InBlock, BlockEntries(b));
    case Held(st) =>
      PairsAppend(OwnProbe(st), ShapeEntries(st));
      ShapeIsClassed(st);
  }

  lemma LabelledHasEmptyKey(s: Section)
    requires StartsLabelled(Some(s))
    ensures Pair([At(0)], [At(0)]) in Pairs(SectionEntries(s))
  {
    var w := s.statements[0];
    OwnKeyIsEmpty(w);
    PairsAppend(Under(At(0), At(0), WrapperEntries(w)), StatementEntries(s.statements[1..], 1));
    PairsUnder(At(0), At(0), WrapperEntries(w));
    hide WrapperEntries, Pairs, Under;
    var inner := Pairs(WrapperEntries(w));
    assert SectionEntries(s) == StatementEntries(s.statements, 0);
    assert StatementEntries(s.statements, 0) == Under(At(0), At(0), WrapperEntries(w)) + StatementEntries(s.statements[1..], 1);
    assert Pair([], []) in inner;
    var p := Pair([], []);
    assert Pair([At(0)] + p.key, [At(0)] + p.site) in Push(At(0), At(0), inner);
    assert [At(0)] + p.key == [At(0)];
  }

  lemma OwnKeyIsEmpty(w: Wrapper)
    requires w.step.Held? && Labelled(w.step.statement)
    ensures Pair([], []) in Pairs(WrapperEntries(w))
  {
    var own := OwnProbe(w.step.statement);
    assert own[0] in own && PairOf(own[0]) == Pair([], []);
    PairsAppend(own, ShapeEntries(w.step.statement));
  }

  /** No path of a statement's branches and sections is empty. */
  lemma ShapeIsClassed(st: Statement)
    ensures forall p | p in Pairs(ShapeEntries(st)) :: p.key != [] && p.site != []
  {
    var pairs := Pairs(ShapeEntries(st));
    match st.shape
    case Simple =>
      assert pairs == {};
    case If(then_, elsifs, else_, _) =>
      IfPairs(st);
      assert pairs == Part(then_, Then) + ClausePart(elsifs, true) + Part(else_, Else);
      ClausePartIsClassed(elsifs, true);
      PartIsClassed(then_, Then);
      PartIsClassed(else_, Else);
      hide Part, ClausePart;
      assert forall p | p in pairs :: p.key != [] && p.site != [];
    case Case(whens, _, _) =>
      CasePairs(st);
      assert pairs == ClausePart(whens, false) + Part(CaseElseSection(st.shape), CaseElse);
      ClausePartIsClassed(whens, false);
      PartIsClassed(CaseElseSection(st.shape), CaseElse);
      hide Part, ClausePart;
      assert forall p | p in pairs :: p.key != [] && p.site != [];
    case Loop(_, _, section, _) =>
      LoopPairs(st);
      assert pairs == Part(section, InLoop);
      PartIsClassed(section, InLoop);
      hide Part;
      assert forall p | p in pairs :: p.key != [] && p.site != [];
  }

  lemma ClausePartIsClassed(clauses: seq<Clause>, elsif: bool)
    ensures Classed(ClausePart(clauses, elsif), if elsif then 4 else 6)
  {
    BranchesAreClassed(clauses, elsif, 0);
    SectionsAreClassed(clauses, elsif, 0, 0);
  }

  lemma {:induction false} BranchesAreClassed(clauses: seq<Clause>, elsif: bool, from: nat)
    ensures Classed(Pairs(ClauseBranches(clauses, elsif, from)), if elsif then 4 else 6)
    decreases |clauses|
  {
    if clauses != [] {
      PairsAppend(BranchProbe(clauses[0].line, AtLine(if elsif then "ELSIF true" else "WHEN", clauses[0].line),
                              clauses[0].section, ClauseSegment(elsif, from)),
                  ClauseBranches(clauses[1..], elsif, from + 1));
      BranchesAreClassed(clauses[1..], elsif, from + 1);
    }
  }

  lemma {:induction false} SectionsAreClassed(clauses: seq<Clause>, elsif: bool, withSection: nat, from: nat)
    ensures Classed(Pairs(ClauseSections(clauses, elsif, withSection, from)), if elsif then 4 else 6)
    decreases |clauses|
  {
    if clauses != [] {
      var key, site := ClauseSegment(elsif, withSection), ClauseSegment(elsif, from);
      var next := withSection + if clauses[0].section.Some? then 1 else 0;
      PairsAppend(OneClause(clauses[0], key, site), ClauseSections(clauses[1..], elsif, next, from + 1));
      SectionsAreClassed(clauses[1..], elsif, next, from + 1);
      OneClauseIsClassed(clauses[0], key, site);
      hide OneClause;
    }
  }

  lemma OneClauseIsClassed(clause: Clause, key: Segment, site: Segment)
    requires Class(key) == Class(site)
    ensures Classed(Pairs(OneClause(clause, key, site)), Class(key))
  {
    if clause.section.Some? {
      PairsUnder(key, site, SectionEntries(clause.section.value));
      PushIsClassed(key, site, Pairs(SectionEntries(clause.section.value)));
    }
  }

  lemma PartIsClassed(section: Option<Section>, inside: Segment)
    ensures Classed(Part(section, inside), Class(inside))
  {}

  lemma PartIdentifies(section: Option<Section>, inside: Segment)
    ensures Identify(Part(section, inside)) <==> (section.Some? ==> Identify(Pairs(SectionEntries(section.value))))
  {
    if section.Some? {
      var s := section.value;
      var branch := if s.statements == [] then {} else {Pair([At(0)], [At(0)])};
      var all := branch + Pairs(SectionEntries(s));
      PushIdentifies(inside, inside, all);
      forall p | p in Pairs(SectionEntries(s)) ensures p.key == [At(0)] <==> p.site == [At(0)] {
        FirstStatementKey(s, p);
      }
      hide SectionEntries;
      if Identify(all) {
        assert forall p | p in Pairs(SectionEntries(s)) :: p in all;
      }
    }
  }

  // ----- Clauses -------------------------------------------------------------------------------------

  /** How many of the first `j` clauses have a section. */
  function Counted(clauses: seq<Clause>, j: nat): (c: nat)
    requires j <= |clauses|
    ensures c <= j
  {
    if j == 0 then 0 else Counted(clauses, j - 1) + if clauses[j - 1].section.Some? then 1 else 0
  }

  lemma {:induction false} CountedIsStrict(clauses: seq<Clause>, i: nat, j: nat)
    requires i < j <= |clauses| && clauses[i].section.Some?
    ensures Counted(clauses, i) < Counted(clauses, j)
    decreases j
  {
    if i < j - 1 {
      CountedIsStrict(clauses, i, j - 1);
    }
  }

  /** A clause is counted short of its position exactly when one before it has no section. */
  lemma {:induction false} ShiftedIff(clauses: seq<Clause>, j: nat)
    requires j <= |clauses|
    ensures Counted(clauses, j) < j <==> exists i :: 0 <= i < j && clauses[i].section.None?
  {
    if j > 0 {
      ShiftedIff(clauses, j - 1);
      if i :| 0 <= i < j - 1 && clauses[i].section.None? {
        assert 0 <= i < j && clauses[i].section.None?;
      }
    }
  }

  ghost predicate BranchOf(clauses: seq<Clause>, elsif: bool, from: nat, p: Pair, j: nat) {
    j < |clauses| && FirstOf(clauses[j].section).Some?
    && p == Pair([ClauseSegment(elsif, from + j), At(0)], [ClauseSegment(elsif, from + j), At(0)])
  }

  lemma {:induction false} BranchMembers(clauses: seq<Clause>, elsif: bool, from: nat, p: Pair)
    ensures p in Pairs(ClauseBranches(clauses, elsif, from)) <==> exists j: nat :: BranchOf(clauses, elsif, from, p, j)
    decreases |clauses|
  {
    if clauses != [] {
      var first := BranchProbe(clauses[0].line, AtLine(if elsif then "ELSIF true" else "WHEN", clauses[0].line),
                               clauses[0].section, ClauseSegment(elsif, from));
      PairsAppend(first, ClauseBranches(clauses[1..], elsif, from + 1));
      BranchMembers(clauses[1..], elsif, from + 1, p);
      if p in Pairs(first) {
        assert BranchOf(clauses, elsif, from, p, 0);
      }
      var rest, second := clauses[1..], from + 1;
      if j: nat :| BranchOf(rest, elsif, second, p, j) {
        assert BranchOf(clauses, elsif, from, p, j + 1);
      }
      if j: nat :| BranchOf(clauses, elsif, from, p, j) {
        if j == 0 {
          assert first[0] in first && PairOf(first[0]) == p;
        } else {
          assert BranchOf(clauses[1..], elsif, from + 1, p, j - 1);
        }
      }
    }
  }

  ghost predicate InnerOf(clauses: seq<Clause>, elsif: bool, withSection: nat, from: nat, p: Pair, j: nat, q: Pair) {
    && j < |clauses| && clauses[j].section.Some? && q in Pairs(SectionEntries(clauses[j].section.value))
    && p == Pair([ClauseSegment(elsif, withSection + Counted(clauses, j))] + q.key, [ClauseSegment(elsif, from + j)] + q.site)
  }

  lemma {:induction false} CountedFromSecond(clauses: seq<Clause>, j: nat)
    requires clauses != [] && j < |clauses|
    ensures Counted(clauses, j + 1) == (if clauses[0].section.Some? then 1 else 0) + Counted(clauses[1..], j)
  {
    if j > 0 {
      CountedFromSecond(clauses, j - 1);
    }
  }

  lemma OneClausePairs(clause: Clause, key: Segment, site: Segment)
    ensures Pairs(OneClause(clause, key, site))
            == if clause.section.None? then {} else Push(key, site, Pairs(SectionEntries(clause.section.value)))
  {
    if clause.section.Some? {
      PairsUnder(key, site, SectionEntries(clause.section.value));
    }
  }

  lemma {:induction false} InnerMembers(clauses: seq<Clause>, elsif: bool, withSection: nat, from: nat, p: Pair)
    ensures p in Pairs(ClauseSections(clauses, elsif, withSection, from))
            <==> exists j: nat, q :: InnerOf(clauses, elsif, withSection, from, p, j, q)
    decreases |clauses|
  {
    if clauses != [] {
      var key, site := ClauseSegment(elsif, withSection), ClauseSegment(elsif, from);
      var next := withSection + if clauses[0].section.Some? then 1 else 0;
      PairsAppend(OneClause(clauses[0], key, site), ClauseSections(clauses[1..], elsif, next, from + 1));
      OneClausePairs(clauses[0], key, site);
      InnerMembers(clauses[1..], elsif, next, from + 1, p);
      InnerStep(clauses, elsif, withSection, from, p);
      hide SectionEntries, OneClause, ClauseSegment, Push, InnerOf, Pairs;
    } else {
      assert forall j: nat, q :: !InnerOf(clauses, elsif, withSection, from, p, j, q);
    }
  }

  lemma InnerStep(clauses: seq<Clause>, elsif: bool, withSection: nat, from: nat, p: Pair)
    requires clauses != []
    ensures var next, second := withSection + (if clauses[0].section.Some? then 1 else 0), from + 1;
            (exists j: nat, q :: InnerOf(clauses, elsif, withSection, from, p, j, q))
            <==> || (clauses[0].section.Some?
                     && p in Push(ClauseSegment(elsif, withSection), ClauseSegment(elsif, from), Pairs(SectionEntries(clauses[0].section.value))))
                 || exists j: nat, q :: InnerOf(clauses[1..], elsif, next, second, p, j, q)
  {
    hide SectionEntries, Pairs;
    var key, site := ClauseSegment(elsif, withSection), ClauseSegment(elsif, from);
    var next, second := withSection + (if clauses[0].section.Some? then 1 else 0), from + 1;
    var rest := clauses[1..];
    if clauses[0].section.Some? && p in Push(key, site, Pairs(SectionEntries(clauses[0].section.value))) {
      var q :| q in Pairs(SectionEntries(clauses[0].section.value)) && p == Pair([key] + q.key, [site] + q.site);
      assert InnerOf(clauses, elsif, withSection, from, p, 0, q);
    }
    if j: nat, q :| InnerOf(rest, elsif, next, second, p, j, q) {
      CountedFromSecond(clauses, j);
      assert InnerOf(clauses, elsif, withSection, from, p, j + 1, q);
    }
    if j: nat, q :| InnerOf(clauses, elsif, withSection, from, p, j, q) {
      if j > 0 {
        CountedFromSecond(clauses, j - 1);
        assert InnerOf(rest, elsif, next, second, p, j - 1, q);
      }
    }
  }

  /** Two sections' probes: their keys agree exactly when their addresses do. */
  lemma InnersAgree(clauses: seq<Clause>, elsif: bool, p: Pair, j: nat, pq: Pair, q: Pair, k: nat, qq: Pair)
    requires InnerOf(clauses, elsif, 0, 0, p, j, pq) && InnerOf(clauses, elsif, 0, 0, q, k, qq)
    requires Identify(Pairs(SectionEntries(clauses[j].section.value)))
    ensures p.key == q.key <==> p.site == q.site
  {
    assert p.key[1..] == pq.key && q.key[1..] == qq.key && p.site[1..] == pq.site && q.site[1..] == qq.site;
    if j < k {
      CountedIsStrict(clauses, j, k);
    } else if k < j {
      CountedIsStrict(clauses, k, j);
    }
    hide SectionEntries;
    assert p.key[0] == q.key[0] <==> j == k;
    assert p.site[0] == q.site[0] <==> j == k;
    assert p.key == q.key <==> j == k && pq.key == qq.key;
    assert p.site == q.site <==> j == k && pq.site == qq.site;
  }

  /** A branch probe against a section's probe. */
  lemma BranchAgrees(clauses: seq<Clause>, elsif: bool, p: Pair, j: nat, q: Pair, k: nat, qq: Pair)
    requires BranchOf(clauses, elsif, 0, p, j) && InnerOf(clauses, elsif, 0, 0, q, k, qq) && NoShift(clauses)
    ensures p.key == q.key <==> p.site == q.site
  {
    FirstStatementKey(clauses[k].section.value, qq);
    ShiftedIff(clauses, k);
    hide SectionEntries;
    assert q.key[1..] == qq.key && q.site[1..] == qq.site && p.key[1..] == [At(0)] && p.site[1..] == [At(0)];
    if qq.key == [At(0)] {
      assert StartsLabelled(clauses[k].section);
      assert Counted(clauses, k) == k;
    }
    assert q.key == [q.key[0]] + qq.key && q.site == [q.site[0]] + qq.site;
  }

  lemma ClausesIdentify(clauses: seq<Clause>, elsif: bool)
    requires forall j :: 0 <= j < |clauses| && clauses[j].section.Some? ==> Identify(Pairs(SectionEntries(clauses[j].section.value)))
    requires NoShift(clauses)
    ensures Identify(ClausePart(clauses, elsif))
  {
    forall p, q | p in ClausePart(clauses, elsif) && q in ClausePart(clauses, elsif) ensures p.key == q.key <==> p.site == q.site {
      BranchMembers(clauses, elsif, 0, p);
      BranchMembers(clauses, elsif, 0, q);
      InnerMembers(clauses, elsif, 0, 0, p);
      InnerMembers(clauses, elsif, 0, 0, q);
      hide ClauseBranches, ClauseSections, SectionEntries, NoShift;
      if j: nat :| BranchOf(clauses, elsif, 0, p, j) {
        if k: nat :| BranchOf(clauses, elsif, 0, q, k) {
        } else {
          var k: nat, qq :| InnerOf(clauses, elsif, 0, 0, q, k, qq);
          BranchAgrees(clauses, elsif, p, j, q, k, qq);
        }
      } else {
        var j: nat, pq :| InnerOf(clauses, elsif, 0, 0, p, j, pq);
        if k: nat :| BranchOf(clauses, elsif, 0, q, k) {
          BranchAgrees(clauses, elsif, q, k, p, j, pq);
        } else {
          var k: nat, qq :| InnerOf(clauses, elsif, 0, 0, q, k, qq);
          InnersAgree(clauses, elsif, p, j, pq, q, k, qq);
        }
      }
    }
  }

  /** A shifted clause's branch probe and its first statement's probe stand together, under two keys. */
  lemma ShiftedPair(clauses: seq<Clause>, elsif: bool, i: nat, j: nat) returns (branch: Pair, inner: Pair)
    requires i < j < |clauses| && clauses[i].section.None? && StartsLabelled(clauses[j].section)
    ensures branch in ClausePart(clauses, elsif) && inner in ClausePart(clauses, elsif)
    ensures branch.site == inner.site && branch.key != inner.key
  {
    LabelledHasEmptyKey(clauses[j].section.value);
    branch := Pair([ClauseSegment(elsif, j), At(0)], [ClauseSegment(elsif, j), At(0)]);
    inner := Pair([ClauseSegment(elsif, Counted(clauses, j))] + [At(0)], [ClauseSegment(elsif, j)] + [At(0)]);
    BranchMembers(clauses, elsif, 0, branch);
    InnerMembers(clauses, elsif, 0, 0, inner);
    hide SectionEntries, ClauseBranches, ClauseSections;
    assert BranchOf(clauses, elsif, 0, branch, j);
    assert InnerOf(clauses, elsif, 0, 0, inner, j, Pair([At(0)], [At(0)]));
    ShiftedIff(clauses, j);
    assert branch.key[0] != inner.key[0];
  }

  lemma ShiftBreaks(clauses: seq<Clause>, elsif: bool)
    requires Identify(ClausePart(clauses, elsif))
    ensures NoShift(clauses)
  {
    forall i, j | 0 <= i < j < |clauses| && clauses[i].section.None? ensures !StartsLabelled(clauses[j].section) {
      if StartsLabelled(clauses[j].section) {
        var branch, inner := ShiftedPair(clauses, elsif, i, j);
      }
    }
  }

  lemma PartsIdentifyInside(clauses: seq<Clause>, elsif: bool, j: nat)
    requires Identify(ClausePart(clauses, elsif)) && j < |clauses| && clauses[j].section.Some?
    ensures Identify(Pairs(SectionEntries(clauses[j].section.value)))
  {
    var inside := Pairs(SectionEntries(clauses[j].section.value));
    var key, site := ClauseSegment(elsif, Counted(clauses, j)), ClauseSegment(elsif, j);
    PushIdentifies(key, site, inside);
    hide SectionEntries, ClauseBranches, ClauseSections;
    forall p | p in Push(key, site, inside) ensures p in ClausePart(clauses, elsif) {
      var q :| q in inside && p == Pair([key] + q.key, [site] + q.site);
      assert InnerOf(clauses, elsif, 0, 0, p, j, q);
      InnerMembers(clauses, elsif, 0, 0, p);
    }
  }

  // ----- The theorem -----------------------------------------------------------------------------------

  lemma {:induction false} SectionIdentifies(s: Section)
    ensures Identify(Pairs(SectionEntries(s))) <==> CompactSection(s)
    decreases s, 0
  {
    StatementsIdentify(s.statements, 0);
  }

  lemma StatementStep(ws: seq<Wrapper>, from: nat)
    requires ws != []
    ensures Identify(Pairs(StatementEntries(ws, from)))
            <==> Identify(Pairs(WrapperEntries(ws[0]))) && Identify(Pairs(StatementEntries(ws[1..], from + 1)))
  {
    hide Identify;
    var first, rest := Pairs(WrapperEntries(ws[0])), Pairs(StatementEntries(ws[1..], from + 1));
    PairsAppend(Under(At(from), At(from), WrapperEntries(ws[0])), StatementEntries(ws[1..], from + 1));
    PairsUnder(At(from), At(from), WrapperEntries(ws[0]));
    StatementPairs(ws[1..], from + 1);
    PushIdentifies(At(from), At(from), first);
    hide WrapperEntries, Pairs;
    SectionsApart(first, rest, from);
    UnionIdentifies(Push(At(from), At(from), first), rest);
  }

  lemma SectionsApart(first: set<Pair>, rest: set<Pair>, from: nat)
    requires InSection(rest, from + 1)
    ensures Separate(Push(At(from), At(from), first), rest)
  {}

  lemma {:induction false} StatementsIdentify(ws: seq<Wrapper>, from: nat)
    ensures Identify(Pairs(StatementEntries(ws, from))) <==> forall w | w in ws :: CompactWrapper(w)
    decreases ws, 1
  {
    if ws != [] {
      StatementStep(ws, from);
      WrapperIdentifies(ws[0]);
      StatementsIdentify(ws[1..], from + 1);
      hide Identify, Pairs, StatementEntries, WrapperEntries, CompactWrapper;
      assert ws == [ws[0]] + ws[1..];
    }
  }

  lemma {:induction false} WrapperIdentifies(w: Wrapper)
    ensures Identify(Pairs(WrapperEntries(w))) <==> CompactWrapper(w)
    decreases w, 0
  {
    match w.step
    case NoStep =>
    case Nested(b) =>
      BlockIdentifies(b);
      PairsUnder(InBlock, InBlock, BlockEntries(b));
      PushIdentifies(InBlock, InBlock, Pairs(BlockEntries(b)));
    case Held(st) =>
      PairsAppend(OwnProbe(st), ShapeEntries(st));
      ShapeIsClassed(st);
      StatementIdentifies(st);
      hide ShapeEntries, CompactStatement;
      assert Pairs(OwnProbe(st)) <= {Pair([], [])};
      UnionIdentifies(Pairs(OwnProbe(st)), Pairs(ShapeEntries(st)));
  }

  lemma {:induction false} OptionalIdentifies(section: Option<Section>, inside: Segment)
    ensures Identify(Part(section, inside)) <==> CompactOptional(section)
    decreases section, 0
  {
    PartIdentifies(section, inside);
    match section
    case None =>
    case Some(s) => SectionIdentifies(s);
  }

  lemma {:induction false} OneClauseIdentifies(clause: Clause)
    ensures CompactClause(clause) <==> (clause.section.Some? ==> Identify(Pairs(SectionEntries(clause.section.value))))
    decreases clause, 0
  {
    OptionalIdentifies(clause.section, Then);
    PartIdentifies(clause.section, Then);
  }

  lemma {:induction false} EachClauseIdentifies(clauses: seq<Clause>)
    ensures (forall c | c in clauses :: CompactClause(c))
            <==> forall j :: 0 <= j < |clauses| && clauses[j].section.Some? ==> Identify(Pairs(SectionEntries(clauses[j].section.value)))
    decreases clauses, 1
  {
    forall j | 0 <= j < |clauses|
      ensures CompactClause(clauses[j]) <==> (clauses[j].section.Some? ==> Identify(Pairs(SectionEntries(clauses[j].section.value))))
    {
      OneClauseIdentifies(clauses[j]);
    }
    hide CompactClause, Identify;
    if forall c | c in clauses :: CompactClause(c) {
      assert forall j :: 0 <= j < |clauses| ==> clauses[j] in clauses;
    }
  }

  lemma {:induction false} ClausesIdentifyIff(clauses: seq<Clause>, elsif: bool)
    ensures Identify(ClausePart(clauses, elsif)) <==> NoShift(clauses) && forall c | c in clauses :: CompactClause(c)
    decreases clauses, 2
  {
    EachClauseIdentifies(clauses);
    if Identify(ClausePart(clauses, elsif)) {
      ShiftBreaks(clauses, elsif);
      forall j | 0 <= j < |clauses| && clauses[j].section.Some? ensures Identify(Pairs(SectionEntries(clauses[j].section.value))) {
        PartsIdentifyInside(clauses, elsif, j);
      }
    }
    if NoShift(clauses) && forall c | c in clauses :: CompactClause(c) {
      ClausesIdentify(clauses, elsif);
    }
  }

  lemma {:induction false} StatementIdentifies(st: Statement)
    ensures Identify(Pairs(ShapeEntries(st))) <==> CompactStatement(st)
    decreases st, 0
  {
    match st.shape
    case Simple =>
    case If(then_, elsifs, else_, _) =>
      IfPairs(st);
      assert Pairs(ShapeEntries(st)) == Part(then_, Then) + ClausePart(elsifs, true) + Part(else_, Else);
      OptionalIdentifies(then_, Then);
      OptionalIdentifies(else_, Else);
      ClausesIdentifyIff(elsifs, true);
      IfSeparates(then_, elsifs, else_);
    case Case(whens, hasElse, else_) =>
      CasePairs(st);
      assert Pairs(ShapeEntries(st)) == ClausePart(whens, false) + Part(CaseElseSection(st.shape), CaseElse);
      OptionalIdentifies(else_, CaseElse);
      ClausesIdentifyIff(whens, false);
      CaseSeparates(whens, CaseElseSection(st.shape));
    case Loop(_, _, section, _) =>
      LoopPairs(st);
      assert Pairs(ShapeEntries(st)) == Part(section, InLoop);
      OptionalIdentifies(section, InLoop);
  }

  lemma IfSeparates(then_: Option<Section>, elsifs: seq<Clause>, else_: Option<Section>)
    ensures Identify(Part(then_, Then) + ClausePart(elsifs, true) + Part(else_, Else))
            <==> Identify(Part(then_, Then)) && Identify(ClausePart(elsifs, true)) && Identify(Part(else_, Else))
  {
    PartIsClassed(then_, Then);
    PartIsClassed(else_, Else);
    ClausePartIsClassed(elsifs, true);
    var a, b, c := Part(then_, Then), ClausePart(elsifs, true), Part(else_, Else);
    hide Part, ClausePart;
    UnionIdentifies(a, b);
    assert Separate(a + b, c);
    UnionIdentifies(a + b, c);
  }

  lemma CaseSeparates(whens: seq<Clause>, else_: Option<Section>)
    ensures Identify(ClausePart(whens, false) + Part(else_, CaseElse))
            <==> Identify(ClausePart(whens, false)) && Identify(Part(else_, CaseElse))
  {
    PartIsClassed(else_, CaseElse);
    ClausePartIsClassed(whens, false);
    var a, b := ClausePart(whens, false), Part(else_, CaseElse);
    hide Part, ClausePart;
    UnionIdentifies(a, b);
  }

  lemma OneHandlerPairs(h: Handler, i: nat)
    ensures Pairs(OneHandler(h, i)) == Part(h.section, InException(i))
  {
    var first := FirstOf(h.section);
    if first.None? {
      EmptyPart(h.section, InException(i));
    } else {
      var under := Under(InException(i), InException(i), SectionEntries(h.section.value));
      var branch := BranchProbe(first.value.line, "EXCEPTION " + h.conditions, h.section, InException(i));
      assert OneHandler(h, i) == branch + under;
      PairsAppend(branch, under);
      PartIs(first.value.line, "EXCEPTION " + h.conditions, h.section, InException(i));
    }
  }

  ghost predicate InHandlers(pairs: set<Pair>, from: nat) {
    forall p | p in pairs :: p.key != [] && p.site != [] && p.key[0].InException? && p.site[0].InException?
                             && from <= p.key[0].i && from <= p.site[0].i
  }

  lemma PartInHandler(section: Option<Section>, i: nat)
    ensures forall p | p in Part(section, InException(i)) :: p.key != [] && p.site != [] && p.key[0] == InException(i) && p.site[0] == InException(i)
  {}

  lemma {:induction false} HandlersInRange(handlers: seq<Handler>, from: nat)
    ensures InHandlers(Pairs(HandlerEntries(handlers, from)), from)
    decreases |handlers|
  {
    if handlers != [] {
      PairsAppend(OneHandler(handlers[0], from), HandlerEntries(handlers[1..], from + 1));
      OneHandlerPairs(handlers[0], from);
      HandlersInRange(handlers[1..], from + 1);
      PartInHandler(handlers[0].section, from);
      hide OneHandler, Part;
    }
  }

  lemma HandlerStep(handlers: seq<Handler>, from: nat)
    requires handlers != []
    ensures Identify(Pairs(HandlerEntries(handlers, from)))
            <==> Identify(Part(handlers[0].section, InException(from))) && Identify(Pairs(HandlerEntries(handlers[1..], from + 1)))
  {
    hide Identify;
    var first, rest := Part(handlers[0].section, InException(from)), Pairs(HandlerEntries(handlers[1..], from + 1));
    PairsAppend(OneHandler(handlers[0], from), HandlerEntries(handlers[1..], from + 1));
    OneHandlerPairs(handlers[0], from);
    HandlersInRange(handlers[1..], from + 1);
    PartInHandler(handlers[0].section, from);
    hide OneHandler, Part, Pairs;
    HandlersApart(first, rest, from);
    UnionIdentifies(first, rest);
  }

  lemma HandlersApart(first: set<Pair>, rest: set<Pair>, from: nat)
    requires InHandlers(rest, from + 1)
    requires forall p | p in first :: p.key != [] && p.site != [] && p.key[0] == InException(from) && p.site[0] == InException(from)
    ensures Separate(first, rest)
  {}

  lemma {:induction false} HandlersIdentify(handlers: seq<Handler>, from: nat)
    ensures Identify(Pairs(HandlerEntries(handlers, from))) <==> forall h | h in handlers :: CompactHandler(h)
    decreases handlers, 1
  {
    if handlers != [] {
      HandlerStep(handlers, from);
      HandlerIdentifies(handlers[0], from);
      HandlersIdentify(handlers[1..], from + 1);
      hide Identify, Pairs, HandlerEntries, Part, CompactHandler;
      assert handlers == [handlers[0]] + handlers[1..];
    }
  }

  lemma {:induction false} HandlerIdentifies(h: Handler, i: nat)
    ensures Identify(Part(h.section, InException(i))) <==> CompactHandler(h)
    decreases h, 0
  {
    OptionalIdentifies(h.section, InException(i));
  }

  lemma {:induction false} BodyIdentifies(section: Option<Section>)
    ensures var entries := match section case None => [] case Some(s) => SectionEntries(s);
            && InSection(Pairs(entries), 0)
            && (Identify(Pairs(entries)) <==> (section.Some? ==> CompactSection(section.value)))
    decreases section, 0
  {
    match section
    case None =>
    case Some(s) =>
      SectionIdentifies(s);
      SectionPairs(s);
  }

  /**
   * Site keys identify statements: in a routine any two probes have the same key exactly when they stand
   * on the same statement, if and only if no `ELSIF` or `WHEN` clause behind one without statements
   * begins with a statement that has a probe of its own.
   */
  lemma {:induction false} BlockIdentifies(b: Block)
    ensures Identify(Pairs(BlockEntries(b))) <==> Compact(b)
    decreases b, 0
  {
    var body := match b.body case None => [] case Some(s) => SectionEntries(s);
    PairsAppend(body, HandlerEntries(b.handlers, 0));
    BodyIdentifies(b.body);
    HandlersIdentify(b.handlers, 0);
    HandlersInRange(b.handlers, 0);
    hide SectionEntries, HandlerEntries;
    UnionIdentifies(Pairs(body), Pairs(HandlerEntries(b.handlers, 0)));
  }
}
