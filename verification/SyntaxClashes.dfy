/**
 * A shifted clause never goes unnoticed: where the site keys of a routine fail to identify its statements,
 * two of its probes stand on one line under two keys, which `detectAmbiguousLineSites` reports.
 */
module SyntaxClashes {
  import opened Options
  import opened SyntaxWalk
  import opened SyntaxSites

  // ----- Trees the parser returns --------------------------------------------------------------------

  /** A `proc_stmt` starts on the line of the statement it holds, its first child. */
  predicate Aligned(b: Block)
    decreases b, 0
  {
    (b.body.Some? ==> AlignedSection(b.body.value)) && forall h | h in b.handlers :: AlignedHandler(h)
  }

  predicate AlignedHandler(h: Handler)
    decreases h, 0
  {
    AlignedOptional(h.section)
  }

  predicate AlignedOptional(section: Option<Section>)
    decreases section, 0
  {
    match section case None => true case Some(s) => AlignedSection(s)
  }

  predicate AlignedSection(s: Section)
    decreases s, 0
  {
    forall w | w in s.statements :: AlignedWrapper(w)
  }

  predicate AlignedWrapper(w: Wrapper)
    decreases w, 0
  {
    match w.step
    case NoStep => true
    case Nested(b) => Aligned(b)
    case Held(st) => st.line == w.line && AlignedStatement(st)
  }

  predicate AlignedClause(clause: Clause)
    decreases clause, 0
  {
    AlignedOptional(clause.section)
  }

  predicate AlignedStatement(st: Statement)
    decreases st, 0
  {
    match st.shape
    case Simple => true
    case If(then_, elsifs, else_, _) =>
      AlignedOptional(then_) && AlignedOptional(else_) && forall c | c in elsifs :: AlignedClause(c)
    case Case(whens, _, else_) => AlignedOptional(else_) && forall c | c in whens :: AlignedClause(c)
    case Loop(_, _, section, _) => AlignedOptional(section)
  }

  // ----- Two keys on one line ------------------------------------------------------------------------

  ghost predicate Clash(entries: seq<Entry>) {
    exists d, e | d in entries && e in entries && HasSite(d) && HasSite(e) && d.place.line == e.place.line :: d.place.key != e.place.key
  }

  lemma ClashWithin(part: seq<Entry>, whole: seq<Entry>)
    requires Clash(part) && forall e | e in part :: e in whole
    ensures Clash(whole)
  {}

  lemma ClashUnder(key: Segment, site: Segment, entries: seq<Entry>)
    requires Clash(entries)
    ensures Clash(Under(key, site, entries))
  {
    var d, e :| d in entries && e in entries && HasSite(d) && HasSite(e) && d.place.line == e.place.line && d.place.key != e.place.key;
    UnderHolds(key, site, entries, d);
    UnderHolds(key, site, entries, e);
    assert ([key] + d.place.key)[1..] == d.place.key && ([key] + e.place.key)[1..] == e.place.key;
  }

  lemma UnderHolds(key: Segment, site: Segment, entries: seq<Entry>, e: Entry)
    requires e in entries
    ensures Prefixed(key, site, e) in Under(key, site, entries)
  {
    var i :| 0 <= i < |entries| && entries[i] == e;
    assert Under(key, site, entries)[i] in Under(key, site, entries);
  }

  // ----- A shifted clause ----------------------------------------------------------------------------

  lemma {:induction false} BranchEntry(clauses: seq<Clause>, elsif: bool, from: nat, j: nat) returns (e: Entry)
    requires j < |clauses| && FirstOf(clauses[j].section).Some?
    ensures e in ClauseBranches(clauses, elsif, from) && e.Probe? && e.place.Before?
    ensures e.place.line == FirstOf(clauses[j].section).value.line && e.place.key == [ClauseSegment(elsif, from + j), At(0)]
    decreases j
  {
    if j == 0 {
      e := ClauseBranches(clauses, elsif, from)[0];
    } else {
      e := BranchEntry(clauses[1..], elsif, from + 1, j - 1);
    }
  }

  lemma {:induction false} InnerEntry(clauses: seq<Clause>, elsif: bool, withSection: nat, from: nat, j: nat, e: Entry)
    requires j < |clauses| && clauses[j].section.Some? && e in SectionEntries(clauses[j].section.value)
    ensures Prefixed(ClauseSegment(elsif, withSection + Counted(clauses, j)), ClauseSegment(elsif, from + j), e)
            in ClauseSections(clauses, elsif, withSection, from)
    decreases j
  {
    if j == 0 {
      FirstInnerEntry(clauses[0], ClauseSegment(elsif, withSection), ClauseSegment(elsif, from), e);
    } else {
      CountedFromSecond(clauses, j - 1);
      hide SectionEntries, OneClause, Prefixed;
      InnerEntry(clauses[1..], elsif, withSection + (if clauses[0].section.Some? then 1 else 0), from + 1, j - 1, e);
    }
  }

  lemma FirstInnerEntry(clause: Clause, key: Segment, site: Segment, e: Entry)
    requires clause.section.Some? && e in SectionEntries(clause.section.value)
    ensures Prefixed(key, site, e) in OneClause(clause, key, site)
  {
    UnderHolds(key, site, SectionEntries(clause.section.value), e);
    hide SectionEntries;
  }

  /** The probe of a labelled first statement. */
  lemma FirstEntry(s: Section) returns (e: Entry)
    requires StartsLabelled(Some(s)) && AlignedSection(s)
    ensures e in SectionEntries(s) && e.Probe? && e.place.Before?
    ensures e.place.line == s.statements[0].line && e.place.key == [At(0)]
  {
    var w := s.statements[0];
    assert AlignedWrapper(w);
    var own := OwnProbe(w.step.statement)[0];
    assert own in WrapperEntries(w);
    UnderHolds(At(0), At(0), WrapperEntries(w), own);
    e := Prefixed(At(0), At(0), own);
    assert [At(0)] + [] == [At(0)];
  }

  ghost function ClauseEntries(clauses: seq<Clause>, elsif: bool): seq<Entry> {
    ClauseBranches(clauses, elsif, 0) + ClauseSections(clauses, elsif, 0, 0)
  }

  /** The branch's probe and the statement's own probe stand on one line, under the two numbers of the clause. */
  lemma ShiftClashes(clauses: seq<Clause>, elsif: bool)
    requires !NoShift(clauses) && forall c | c in clauses :: AlignedClause(c)
    ensures Clash(ClauseEntries(clauses, elsif))
  {
    hide SectionEntries, ClauseBranches, ClauseSections;
    var i, j :| 0 <= i < j < |clauses| && clauses[i].section.None? && StartsLabelled(clauses[j].section);
    var section := clauses[j].section.value;
    assert AlignedClause(clauses[j]) && AlignedOptional(clauses[j].section);
    var first := FirstEntry(section);
    var branch := BranchEntry(clauses, elsif, 0, j);
    InnerEntry(clauses, elsif, 0, 0, j, first);
    ShiftedIff(clauses, j);
    var inner := Prefixed(ClauseSegment(elsif, Counted(clauses, j)), ClauseSegment(elsif, j), first);
    assert inner.place.key[0] != branch.place.key[0];
    assert branch in ClauseEntries(clauses, elsif) && inner in ClauseEntries(clauses, elsif);
  }

  // ----- Every tree ----------------------------------------------------------------------------------

  lemma {:induction false} BlockClashes(b: Block)
    requires Aligned(b) && !Compact(b)
    ensures Clash(BlockEntries(b))
    decreases b, 0
  {
    if b.body.Some? && !CompactSection(b.body.value) {
      SectionClashes(b.body.value);
      ClashWithin(SectionEntries(b.body.value), BlockEntries(b));
    } else {
      HandlersClash(b.handlers, 0);
      ClashWithin(HandlerEntries(b.handlers, 0), BlockEntries(b));
    }
  }

  lemma {:induction false} HandlersClash(handlers: seq<Handler>, from: nat)
    requires forall h | h in handlers :: AlignedHandler(h)
    requires exists h | h in handlers :: !CompactHandler(h)
    ensures Clash(HandlerEntries(handlers, from))
    decreases handlers, 1
  {
    if !CompactHandler(handlers[0]) {
      HandlerClashes(handlers[0], from);
      ClashWithin(OneHandler(handlers[0], from), HandlerEntries(handlers, from));
    } else {
      assert handlers == [handlers[0]] + handlers[1..];
      HandlersClash(handlers[1..], from + 1);
      ClashWithin(HandlerEntries(handlers[1..], from + 1), HandlerEntries(handlers, from));
    }
  }

  lemma {:induction false} HandlerClashes(h: Handler, i: nat)
    requires AlignedHandler(h) && !CompactHandler(h)
    ensures Clash(OneHandler(h, i))
    decreases h, 0
  {
    var s := h.section.value;
    SectionClashes(s);
    assert s.statements != [];
    ClashUnder(InException(i), InException(i), SectionEntries(s));
    ClashWithin(Under(InException(i), InException(i), SectionEntries(s)), OneHandler(h, i));
  }

  lemma {:induction false} SectionClashes(s: Section)
    requires AlignedSection(s) && !CompactSection(s)
    ensures Clash(SectionEntries(s))
    decreases s, 0
  {
    StatementsClash(s.statements, 0);
  }

  lemma {:induction false} StatementsClash(ws: seq<Wrapper>, from: nat)
    requires forall w | w in ws :: AlignedWrapper(w)
    requires exists w | w in ws :: !CompactWrapper(w)
    ensures Clash(StatementEntries(ws, from))
    decreases ws, 1
  {
    if !CompactWrapper(ws[0]) {
      WrapperClashes(ws[0]);
      ClashUnder(At(from), At(from), WrapperEntries(ws[0]));
      ClashWithin(Under(At(from), At(from), WrapperEntries(ws[0])), StatementEntries(ws, from));
    } else {
      assert ws == [ws[0]] + ws[1..];
      StatementsClash(ws[1..], from + 1);
      ClashWithin(StatementEntries(ws[1..], from + 1), StatementEntries(ws, from));
    }
  }

  lemma {:induction false} WrapperClashes(w: Wrapper)
    requires AlignedWrapper(w) && !CompactWrapper(w)
    ensures Clash(WrapperEntries(w))
    decreases w, 0
  {
    match w.step
    case Nested(b) =>
      BlockClashes(b);
      ClashUnder(InBlock, InBlock, BlockEntries(b));
    case Held(st) =>
      StatementClashes(st);
      ClashWithin(ShapeEntries(st), WrapperEntries(w));
  }

  lemma {:induction false} OptionalClashes(section: Option<Section>, key: Segment, site: Segment)
    requires AlignedOptional(section) && !CompactOptional(section)
    ensures Clash(OptionalSection(section, key, site))
    decreases section, 0
  {
    SectionClashes(section.value);
    ClashUnder(key, site, SectionEntries(section.value));
  }

  lemma {:induction false} OneClauseClashes(clause: Clause, key: Segment, site: Segment)
    requires AlignedClause(clause) && !CompactClause(clause)
    ensures Clash(OneClause(clause, key, site))
    decreases clause, 0
  {
    OptionalClashes(clause.section, key, site);
  }

  lemma {:induction false} SectionsClash(clauses: seq<Clause>, elsif: bool, withSection: nat, from: nat)
    requires forall c | c in clauses :: AlignedClause(c)
    requires exists c | c in clauses :: !CompactClause(c)
    ensures Clash(ClauseSections(clauses, elsif, withSection, from))
    decreases clauses, 1
  {
    var key, site := ClauseSegment(elsif, withSection), ClauseSegment(elsif, from);
    var next := withSection + if clauses[0].section.Some? then 1 else 0;
    if !CompactClause(clauses[0]) {
      OneClauseClashes(clauses[0], key, site);
      ClashWithin(OneClause(clauses[0], key, site), ClauseSections(clauses, elsif, withSection, from));
    } else {
      assert clauses == [clauses[0]] + clauses[1..];
      SectionsClash(clauses[1..], elsif, next, from + 1);
      ClashWithin(ClauseSections(clauses[1..], elsif, next, from + 1), ClauseSections(clauses, elsif, withSection, from));
    }
  }

  lemma {:induction false} ClausesClash(clauses: seq<Clause>, elsif: bool)
    requires forall c | c in clauses :: AlignedClause(c)
    requires !NoShift(clauses) || exists c | c in clauses :: !CompactClause(c)
    ensures Clash(ClauseEntries(clauses, elsif))
    decreases clauses, 2
  {
    if !NoShift(clauses) {
      ShiftClashes(clauses, elsif);
    } else {
      SectionsClash(clauses, elsif, 0, 0);
      hide NoShift, Clash, ClauseSections, ClauseBranches;
      ClashWithin(ClauseSections(clauses, elsif, 0, 0), ClauseEntries(clauses, elsif));
    }
  }

  lemma {:induction false} StatementClashes(st: Statement)
    requires AlignedStatement(st) && !CompactStatement(st)
    ensures Clash(ShapeEntries(st))
    decreases st, 0
  {
    match st.shape
    case If(then_, elsifs, else_, _) =>
      if !CompactOptional(then_) {
        OptionalClashes(then_, Then, Then);
        ClashWithin(OptionalSection(then_, Then, Then), IfEntries(st));
      } else if !CompactOptional(else_) {
        OptionalClashes(else_, Else, Else);
        ClashWithin(OptionalSection(else_, Else, Else), IfEntries(st));
      } else {
        ClausesClash(elsifs, true);
        ClashWithin(ClauseEntries(elsifs, true), IfEntries(st));
      }
    case Case(whens, hasElse, else_) =>
      if hasElse && !CompactOptional(else_) {
        OptionalClashes(else_, CaseElse, CaseElse);
        ClashWithin(OptionalSection(else_, CaseElse, CaseElse), CaseEntries(st));
      } else {
        ClausesClash(whens, false);
        ClashWithin(ClauseEntries(whens, false), CaseEntries(st));
      }
    case Loop(_, _, section, _) =>
      OptionalClashes(section, InLoop, InLoop);
      assert FirstOf(section).Some?;
      ClashWithin(OptionalSection(section, InLoop, InLoop), LoopEntries(st));
  }
}
