/**
 * From a routine's tree to its instrumented body: the points of the analysis are what the instrumenter probes
 * (packages/coverage/src/syntaxAnalyzer.ts, packages/coverage/src/syntaxInstrumenter.ts).
 */
module CoverageProbes {
  import opened Options
  import opened Decimals
  import opened Markers
  import opened ByteSplices
  import W = SyntaxWalk
  import A = SyntaxAnalyzer
  import B = SyntaxBranches
  import I = Instrumenter

  /** What the instrumenter reads of a point: its number, the kind of its placement and the byte offset, if there is one. */
  function ProbeOf(p: A.Point, number: nat): I.Point {
    match p.placement
    case Before(_, _, offset) => I.Point(number, I.Before, Some(offset))
    case InjectElse(_, _, terminator) => I.Point(number, I.InjectElse, terminator)
    case LoopEnter(_, _, _, _, _, offset) => I.Point(number, I.LoopEnter, Some(offset))
    case LoopExit(_, _, offset) => I.Point(number, I.LoopExit, Some(offset))
  }

  function Probes(points: seq<A.Point>): (r: seq<I.Point>)
    ensures |r| == |points| && forall i :: 0 <= i < |r| ==> r[i] == ProbeOf(points[i], i)
  {
    seq(|points|, i requires 0 <= i < |points| => ProbeOf(points[i], i))
  }

  ghost function PointsOf(b: W.Block): seq<A.Point> {
    A.Walked(A.Nothing, W.BlockEntries(b), "root").points
  }

  /** The instrumenter numbers a point as its id does. */
  lemma NumberIsId(b: W.Block, i: nat)
    requires i < |PointsOf(b)|
    ensures I.PointId(Probes(PointsOf(b))[i]) == PointsOf(b)[i].id
  {
    A.WalkStaysDense(A.Nothing, W.BlockEntries(b), "root");
  }

  /** The point at `i` raises, at this offset and in this form, the message that is counted for its id. */
  ghost predicate Raised(source: Bytes, b: W.Block, runId: string, i: nat, kind: I.PlacementKind, offset: nat) {
    && i < |PointsOf(b)| && offset <= |source|
    && var p := Probes(PointsOf(b))[i];
       && p.kind == kind && p.offset == Some(offset)
       && exists message: string, before: Bytes, after: Bytes ::
            && I.IsProbe(source, p, runId, I.InjectionOf(source, p, runId), message, before, after)
            && ParseMarker(message, runId) == Parsed.Marker(PointsOf(b)[i].id)
  }

  lemma PointIsRaised(source: Bytes, b: W.Block, runId: string, i: nat)
    requires SafeToken(runId) && i < |PointsOf(b)|
    requires var offset := Probes(PointsOf(b))[i].offset; offset.Some? && offset.value <= |source|
    ensures Raised(source, b, runId, i, Probes(PointsOf(b))[i].kind, Probes(PointsOf(b))[i].offset.value)
  {
    var p := Probes(PointsOf(b))[i];
    NumberIsId(b, i);
    hide I.InjectionOf, I.Raises, PointsOf, I.PointId, ParseMarker;
    I.ProbeNamesItsPoint(source, p, runId);
    var message: string, before: Bytes, after: Bytes :| I.IsProbe(source, p, runId, I.InjectionOf(source, p, runId), message, before, after);
  }

  // ----- Every statement, every branch -----------------------------------------------------------------

  lemma {:induction false} StatementHasPoint(points: seq<A.Point>, k: nat) returns (i: nat)
    requires k < |A.StatementsShown(points)|
    ensures i < |points| && A.StatementShown(points[i]) == [A.StatementsShown(points)[k]]
    decreases |points|
  {
    var n := |points| - 1;
    if k < |A.StatementsShown(points[..n])| {
      i := StatementHasPoint(points[..n], k);
    } else {
      i := n;
    }
  }

  lemma {:induction false} BranchHasPoint(points: seq<A.Point>, k: nat) returns (i: nat)
    requires k < |A.BranchesShown(points)|
    ensures i < |points| && A.BranchShown(points[i]) == [A.BranchesShown(points)[k]]
    decreases |points|
  {
    var n := |points| - 1;
    if k < |A.BranchesShown(points[..n])| {
      i := BranchHasPoint(points[..n], k);
    } else {
      i := n;
    }
  }

  lemma {:induction false} RowAt(statements: seq<W.Statement>, k: nat)
    requires k < |statements|
    ensures |A.Rows(statements)| == |statements| && A.Rows(statements)[k] == A.RowOf(statements[k])
  {
    if |statements| > 1 {
      RowAt(statements[1..], if k > 0 then k - 1 else 0);
    }
  }

  /** Every labelled statement of the routine raises, in front of itself, the message of a point of its own. */
  lemma EveryStatementRaises(source: Bytes, b: W.Block, runId: string, k: nat)
    requires SafeToken(runId) && k < |A.InBlockOrder(b)| && A.InBlockOrder(b)[k].offset <= |source|
    ensures exists i: nat :: Raised(source, b, runId, i, I.Before, A.InBlockOrder(b)[k].offset)
                        && !PointsOf(b)[i].branch && PointsOf(b)[i].title == A.InBlockOrder(b)[k].name
  {
    A.PointsAreTheRoutines(b);
    RowAt(A.InBlockOrder(b), k);
    var i := StatementHasPoint(PointsOf(b), k);
    PointIsRaised(source, b, runId, i);
    hide PointsOf, Raised, A.InBlockOrder, A.StatementsShown;
    assert Raised(source, b, runId, i, I.Before, A.InBlockOrder(b)[k].offset);
  }

  /** How a branch is probed. */
  function FormOf(branch: B.Branch): I.PlacementKind {
    match branch
    case Opens(_, _, _, _, _) => I.Before
    case Falls(_, _, _, _, _, _) => I.InjectElse
    case Enters(_, _, _, _, _, _, _, _) => I.LoopEnter
    case _ => I.LoopExit
  }

  function OffsetOf(branch: B.Branch): Option<nat> {
    match branch
    case Opens(_, _, _, _, offset) => Some(offset)
    case Falls(_, _, _, _, _, terminator) => terminator
    case Enters(_, _, _, _, _, _, _, offset) => Some(offset)
    case Leaves(_, _, _, _, _, offset) => Some(offset)
    case _ => None
  }

  /** So does every branch, in its own form: before its first statement, as an ELSE, at the entry or behind the loop. */
  lemma EveryBranchRaises(source: Bytes, b: W.Block, runId: string, k: nat)
    requires SafeToken(runId) && k < |B.PointsOf(B.OfBlock(b))|
    requires var branch := B.PointsOf(B.OfBlock(b))[k]; OffsetOf(branch).Some? && OffsetOf(branch).value <= |source|
    ensures var branch := B.PointsOf(B.OfBlock(b))[k];
            exists i: nat :: Raised(source, b, runId, i, FormOf(branch), OffsetOf(branch).value)
                        && PointsOf(b)[i].branch && PointsOf(b)[i].title == branch.title && PointsOf(b)[i].line == branch.decision
  {
    A.PointsAreTheRoutines(b);
    var branch := B.PointsOf(B.OfBlock(b))[k];
    var i := BranchHasPoint(PointsOf(b), k);
    assert Probes(PointsOf(b))[i].kind == FormOf(branch) && Probes(PointsOf(b))[i].offset == OffsetOf(branch);
    PointIsRaised(source, b, runId, i);
    hide PointsOf, Raised, B.OfBlock, B.PointsOf, A.BranchesShown;
    assert Raised(source, b, runId, i, FormOf(branch), OffsetOf(branch).value);
  }

  /** `analyzeCoverageSyntax`, then `instrumentCoverageSyntaxBody`: one probe for each point of the walk, or nothing at all. */
  method InstrumentRoutine(source: Bytes, syntax: A.Syntax, runId: string) returns (result: I.Result<Bytes>)
    ensures result.Ok? ==>
              && syntax.block.Some? && !syntax.truncated && !syntax.hasError && SafeToken(runId)
              && (forall line :: !A.Ambiguous(PointsOf(syntax.block.value), line))
              && I.Placed(Probes(PointsOf(syntax.block.value)))
              && (forall p | p in Probes(PointsOf(syntax.block.value)) :: p.offset.value <= |source|)
              && result.value == Woven(source, I.InjectionsOf(source, Probes(PointsOf(syntax.block.value)), runId))
    ensures result.Err? && syntax.block.Some? && !syntax.truncated && !syntax.hasError && SafeToken(runId)
            && (forall p | p in Probes(PointsOf(syntax.block.value)) :: p.offset.Some? && p.offset.value <= |source|) ==>
              exists line :: A.Ambiguous(PointsOf(syntax.block.value), line)
  {
    var points, diagnostics := A.AnalyzeCoverage(syntax);
    var errors := exists d | d in diagnostics :: A.IsError(d);
    assert errors <==> !A.ErrorFree(diagnostics);
    assert A.Unusable in diagnostics ==> errors;
    hide A.Ambiguous, A.ErrorFree, A.Walked, W.BlockEntries, Woven;
    result := I.InstrumentBody(source, Probes(points), errors, runId);
  }
}
