/**
 * Probes for coverage points: `instrumentCoverageSyntaxBody` (packages/coverage/src/syntaxInstrumenter.ts)
 * and the generated routine DDL of the syntax service (packages/coverage/src/syntaxService.ts).
 */
module Instrumenter {
  import opened Options
  import opened Sequences
  import opened ByteSplices
  import opened Markers
  import opened Decimals
  import opened SyntaxTrees

  // ----- Probes ----------------------------------------------------------------------------------

  datatype PlacementKind = Before | InjectElse | LoopEnter | LoopExit
  /** The point with id `p<number>`; the offset is missing where the tree lacked the node it comes from. */
  datatype Point = Point(number: nat, kind: PlacementKind, offset: Option<nat>)

  function PointId(p: Point): string {
    "p" + Decimal(p.number)
  }

  lemma PointIdIsSafe(p: Point)
    ensures SafeToken(PointId(p))
  {
    DecimalIsSafe(p.number);
  }

  /** The bytes of an ASCII text. */
  function Ascii(text: string): Bytes {
    Map((c: char) => (c as int % 256) as bv8, text)
  }

  const Newline: bv8 := 10

  predicate IsBlankByte(b: bv8) {
    b == 9 || b == 10 || b == 11 || b == 12 || b == 13 || b == 32
  }

  /** One past the last newline at or before `at - 1`: `buffer.lastIndexOf(10, at - 1) + 1`. */
  function LineStart(source: Bytes, at: nat): (start: nat)
    requires at <= |source|
    ensures start <= at && (forall k :: start <= k < at ==> source[k] != Newline)
    ensures start == 0 || source[start - 1] == Newline
  {
    if at == 0 then 0 else if source[at - 1] == Newline then at else LineStart(source, at - 1)
  }

  function Blanks(bytes: Bytes): (r: Bytes)
    ensures forall b | b in r :: IsBlankByte(b)
  {
    if bytes == [] || !IsBlankByte(bytes[0]) then [] else [bytes[0]] + Blanks(bytes[1..])
  }

  /** `indentationAt`; an offset past the end is rejected later, whatever its indentation. */
  function Indentation(source: Bytes, offset: nat): (r: Bytes)
    ensures forall b | b in r :: IsBlankByte(b)
  {
    var at := Min(offset, |source|);
    Blanks(source[LineStart(source, at)..at])
  }

  function Marker(runId: string, p: Point): Bytes {
    Ascii("RAISE WARNING '" + FormatMarker(runId, PointId(p)).GetOr("") + "';")
  }

  /** `addPointInjections`. */
  function InjectionOf(source: Bytes, p: Point, runId: string): Injection
    requires p.offset.Some?
  {
    var offset := p.offset.value;
    var indent := Indentation(source, offset);
    var marker := Marker(runId, p);
    match p.kind
    case Before => Injection(offset, p.number, marker + [Newline] + indent)
    case InjectElse => Injection(offset, p.number, Ascii("ELSE\n") + indent + Ascii("  ") + marker + [Newline] + indent)
    case LoopEnter => Injection(offset, -1, marker + [Newline] + indent)
    case LoopExit => Injection(offset, p.number, [Newline] + indent + marker)
  }

  ghost predicate Placed(points: seq<Point>) {
    forall p | p in points :: p.offset.Some?
  }

  function InjectionsOf(source: Bytes, points: seq<Point>, runId: string): (r: seq<Injection>)
    requires forall p | p in points :: p.offset.Some?
    ensures |r| == |points| && forall i :: 0 <= i < |r| ==> r[i] == InjectionOf(source, points[i], runId)
  {
    seq(|points|, i requires 0 <= i < |points| => InjectionOf(source, points[i], runId))
  }

  datatype Failure = AnalysisErrors | PlacementMissing | UnsafeRun | InvalidOffset
  datatype Result<T> = Ok(value: T) | Err(failure: Failure)

  /** Instruments exactly when the analysis is usable, and then the body is the simultaneous insertion of one probe a point. */
  method InstrumentBody(source: Bytes, points: seq<Point>, analysisErrors: bool, runId: string) returns (result: Result<Bytes>)
    ensures result.Ok? <==> !analysisErrors && Placed(points) && SafeToken(runId)
                            && forall p | p in points :: p.offset.value <= |source|
    ensures result.Ok? ==> result.value == Woven(source, InjectionsOf(source, points, runId))
    ensures result.Err? && result.failure.AnalysisErrors? <==> analysisErrors
  {
    if analysisErrors {
      return Err(AnalysisErrors);
    }
    var injections: seq<Injection> := [];
    for i := 0 to |points|
      invariant Placed(points[..i]) && (i > 0 ==> SafeToken(runId))
      invariant injections == InjectionsOf(source, points[..i], runId)
    {
      var p := points[i];
      assert points[..i + 1] == points[..i] + [p];
      if p.offset.None? {
        return Err(PlacementMissing);
      }
      if !SafeToken(runId) {
        return Err(UnsafeRun);
      }
      injections := injections + [InjectionOf(source, p, runId)];
    }
    assert points[..|points|] == points;
    InRangeMeans(source, points, runId);
    var body := ApplyByteInjections(source, injections);
    if body.None? {
      return Err(InvalidOffset);
    }
    if !SafeToken(runId) {
      return Err(UnsafeRun);
    }
    return Ok(body.value);
  }

  lemma InRangeMeans(source: Bytes, points: seq<Point>, runId: string)
    requires Placed(points)
    ensures InRange(source, InjectionsOf(source, points, runId)) <==> forall p | p in points :: p.offset.value <= |source|
  {
    var injections := InjectionsOf(source, points, runId);
    forall i | 0 <= i < |points| ensures injections[i].offset == points[i].offset.value {}
    if InRange(source, injections) {
      forall p | p in points ensures p.offset.value <= |source| {
        var i :| 0 <= i < |points| && points[i] == p;
        assert injections[i] in injections;
      }
    }
  }

  // ----- What the instrumentation promises ---------------------------------------------------------

  predicate AllBlank(bytes: Bytes) {
    forall b | b in bytes :: IsBlankByte(b)
  }

  /** A line break and the blanks with which the line of the offset begins, all of them. */
  ghost predicate NextLine(source: Bytes, offset: nat, bytes: Bytes)
    requires offset <= |source|
  {
    && bytes != [] && bytes[0] == Newline && AllBlank(bytes[1..])
    && exists start | 0 <= start <= offset ::
         && (start == 0 || source[start - 1] == Newline) && (forall k :: start <= k < offset ==> source[k] != Newline)
         && bytes[1..] <= source[start..offset]
         && (start + |bytes| - 1 < offset ==> !IsBlankByte(source[start + |bytes| - 1]))
  }

  /** The statement that raises the message, between two texts. */
  ghost predicate Raises(text: Bytes, before: Bytes, message: string, after: Bytes) {
    text == before + Ascii("RAISE WARNING '" + message + "';") + after
  }

  /**
   * A probe raises its own point's message once, at the point's offset: in front of a statement or a loop,
   * as a new ELSE branch, or behind a loop; whatever follows keeps its indentation.
   */
  ghost predicate IsProbe(source: Bytes, p: Point, runId: string, i: Injection, message: string, before: Bytes, after: Bytes)
    requires p.offset.Some? && p.offset.value <= |source|
  {
    && i.offset == p.offset.value && Raises(i.text, before, message, after)
    && ParseMarker(message, runId) == Parsed.Marker("p" + Decimal(p.number))
    && match p.kind
       case Before => before == [] && NextLine(source, i.offset, after)
       case LoopEnter => before == [] && NextLine(source, i.offset, after)
       case LoopExit => NextLine(source, i.offset, before) && after == []
       case InjectElse =>
         && Ascii("ELSE") <= before && |before| >= 6 && before[|before| - 2..] == Ascii("  ")
         && NextLine(source, i.offset, before[4..|before| - 2]) && NextLine(source, i.offset, after)
  }

  lemma IndentsLine(source: Bytes, offset: nat)
    requires offset <= |source|
    ensures NextLine(source, offset, [Newline] + Indentation(source, offset))
  {
    var start := LineStart(source, offset);
    var bytes := [Newline] + Indentation(source, offset);
    BlanksAreAll(source[start..offset]);
    assert bytes[1..] == Indentation(source, offset);
    assert start + |bytes| - 1 < offset ==> source[start..offset][|bytes| - 1] == source[start + |bytes| - 1];
  }

  lemma {:induction false} BlanksAreAll(bytes: Bytes)
    ensures Blanks(bytes) <= bytes && (|Blanks(bytes)| < |bytes| ==> !IsBlankByte(bytes[|Blanks(bytes)|]))
  {
    if bytes != [] && IsBlankByte(bytes[0]) {
      BlanksAreAll(bytes[1..]);
    }
  }

  /** Each probe raises the message that is read back as its own point. */
  lemma ProbeNamesItsPoint(source: Bytes, p: Point, runId: string)
    requires p.offset.Some? && p.offset.value <= |source| && SafeToken(runId)
    ensures exists message: string, before: Bytes, after: Bytes ::
              IsProbe(source, p, runId, InjectionOf(source, p, runId), message, before, after)
  {
    var i, indent := InjectionOf(source, p, runId), Indentation(source, p.offset.value);
    var message := FormatMarker(runId, PointId(p)).GetOr("");
    PointIdIsSafe(p);
    ParseIsExact(message, runId, PointId(p));
    IndentsLine(source, p.offset.value);
    var next := [Newline] + indent;
    var lead := Ascii("ELSE\n") + indent + Ascii("  ");
    LeadParts(indent);
    var before := match p.kind case Before => [] case LoopEnter => [] case LoopExit => next case InjectElse => lead;
    var after := if p.kind.LoopExit? then [] else next;
    MessageIsRaised(source, p, runId, message, before, after);
    hide Indentation, Ascii, NextLine, ParseMarker, FormatMarker, InjectionOf, Raises, Marker;
    assert IsProbe(source, p, runId, i, message, before, after);
  }

  lemma MessageIsRaised(source: Bytes, p: Point, runId: string, message: string, before: Bytes, after: Bytes)
    requires p.offset.Some? && message == FormatMarker(runId, PointId(p)).GetOr("")
    requires var indent := Indentation(source, p.offset.value);
             var next := [Newline] + indent;
             match p.kind
             case Before => before == [] && after == next
             case LoopEnter => before == [] && after == next
             case LoopExit => before == next && after == []
             case InjectElse => before == Ascii("ELSE\n") + indent + Ascii("  ") && after == next
    ensures InjectionOf(source, p, runId).offset == p.offset.value
    ensures Raises(InjectionOf(source, p, runId).text, before, message, after)
  {
    var indent, marker := Indentation(source, p.offset.value), Marker(runId, p);
    assert marker == Ascii("RAISE WARNING '" + message + "';");
    hide Indentation, Ascii, Marker, FormatMarker;
    if p.kind.LoopExit? {
      WithoutNothing(before + marker);
    } else {
      Associative(marker, [Newline], indent);
      Associative(before + marker, [Newline], indent);
      assert [] + marker == marker;
    }
  }

  lemma LeadParts(indent: Bytes)
    ensures var lead := Ascii("ELSE\n") + indent + Ascii("  ");
            && Ascii("ELSE") <= lead && |lead| >= 6 && lead[|lead| - 2..] == Ascii("  ")
            && lead[4..|lead| - 2] == [Newline] + indent
  {}

  /** Messages tell points apart: the same message means the same point, and no message belongs to another run. */
  lemma MessagesTellPoints(runId: string, p: Point, q: Point, m: string, n: string, other: string)
    requires SafeToken(runId) && ParseMarker(m, runId) == Parsed.Marker(PointId(p)) && ParseMarker(n, runId) == Parsed.Marker(PointId(q))
    ensures m == n <==> p.number == q.number
    ensures SafeToken(other) && other != runId ==> ParseMarker(m, other) == NoMarker
  {
    ParseIsExact(m, runId, PointId(p));
    ParseIsExact(n, runId, PointId(q));
    if PointId(p) == PointId(q) {
      assert PointId(p)[1..] == Decimal(p.number) && PointId(q)[1..] == Decimal(q.number);
      DecimalIsInjective(p.number, q.number);
    }
    PointIdIsSafe(p);
    if SafeToken(other) && other != runId {
      NeverMatchesAnotherRun(runId, PointId(p), other);
    }
  }

  /** Every point contributes exactly one probe to the body, and nothing else is inserted. */
  lemma EveryPointProbedOnce(source: Bytes, points: seq<Point>, runId: string)
    requires Placed(points) && forall p | p in points :: p.offset.value <= |source|
    ensures multiset(Insertions(Weave(source, InjectionsOf(source, points, runId), 0))) == multiset(InjectionsOf(source, points, runId))
  {
    InRangeMeans(source, points, runId);
    WeaveInsertsEachOnce(source, InjectionsOf(source, points, runId));
  }

  /** Loop entries come first, the others in the order of their points. */
  predicate ComesFirst(p: Point, q: Point) {
    p.kind.LoopEnter? || (!q.kind.LoopEnter? && p.number <= q.number)
  }

  /** Where several probes meet, each is a point's, and they stand in that order. */
  lemma ProbesMeetInOrder(source: Bytes, points: seq<Point>, runId: string, offset: nat, i: nat, j: nat)
    requires Placed(points) && i < j < |TextsAt(InjectionsOf(source, points, runId), offset)|
    ensures var here := TextsAt(InjectionsOf(source, points, runId), offset);
            exists p, q | p in points && q in points ::
              && p.offset.value == offset && here[i] == InjectionOf(source, p, runId)
              && q.offset.value == offset && here[j] == InjectionOf(source, q, runId)
              && ComesFirst(p, q)
  {
    var here := TextsAt(InjectionsOf(source, points, runId), offset);
    TextsHaveOffset(InjectionsOf(source, points, runId), offset);
    var p := PointOfProbe(source, points, runId, offset, i);
    var q := PointOfProbe(source, points, runId, offset, j);
    assert here[i].order <= here[j].order;
    hide TextsAt, Indentation, Marker, Ascii;
    assert ComesFirst(p, q);
  }

  lemma TextIsOfGroup(all: seq<Injection>, offset: int, k: nat)
    requires k < |TextsAt(all, offset)|
    ensures TextsAt(all, offset)[k] in all
  {
    var here, group := TextsAt(all, offset), OffsetGroup(all, offset);
    SortIsStable(group);
    assert forall x | x in group :: x in all;
    hide SortByOrder, OffsetGroup;
    assert here[k] in multiset(here);
    assert here[k] in multiset(group);
    assert here[k] in group;
  }

  lemma PointOfProbe(source: Bytes, points: seq<Point>, runId: string, offset: nat, k: nat) returns (p: Point)
    requires Placed(points) && k < |TextsAt(InjectionsOf(source, points, runId), offset)|
    ensures p in points && TextsAt(InjectionsOf(source, points, runId), offset)[k] == InjectionOf(source, p, runId)
    ensures p.offset.value == offset
  {
    var all := InjectionsOf(source, points, runId);
    var here := TextsAt(all, offset);
    TextsHaveOffset(all, offset);
    TextIsOfGroup(all, offset, k);
    hide TextsAt, InjectionOf;
    var i :| 0 <= i < |all| && all[i] == here[k];
    p := points[i];
  }

  // ----- The generated DDL -------------------------------------------------------------------------

  predicate OccursAt(container: Bytes, part: Bytes, at: nat) {
    at + |part| <= |container| && container[at..at + |part|] == part
  }

  /** `container.indexOf(part, from)`. */
  function IndexOf(container: Bytes, part: Bytes, from: nat): (r: Option<nat>)
    ensures r.None? ==> forall k :: from <= k ==> !OccursAt(container, part, k)
    ensures r.Some? ==> from <= r.value && OccursAt(container, part, r.value) && forall k :: from <= k < r.value ==> !OccursAt(container, part, k)
    decreases |container| + 1 - from
  {
    if from > |container| then None
    else if OccursAt(container, part, from) then Some(from)
    else IndexOf(container, part, from + 1)
  }

  /** The dollar-quoted strings of the DDL that hold one PL/pgSQL body. */
  function BodyContainers(root: Node): seq<Node> {
    FindNodes(root, (n: Node) => n.kind == "dollar_quoted_string"
                                 && |FindNodes(n, (c: Node) => c.kind == "source_file" && c.language == Some("plpgsql"))| == 1)
  }

  datatype EmbeddedBody = EmbeddedBody(start: nat, end: nat, startLine: nat)

  function Newlines(bytes: Bytes): nat {
    if bytes == [] then 0 else Newlines(bytes[..|bytes| - 1]) + if bytes[|bytes| - 1] == Newline then 1 else 0
  }

  method CountNewlinesBefore(source: Bytes, end: nat) returns (count: nat)
    requires end <= |source|
    ensures count == Newlines(source[..end])
  {
    count := 0;
    for index := 0 to end
      invariant count == Newlines(source[..index])
    {
      assert source[..index + 1][..index] == source[..index];
      if source[index] == Newline {
        count := count + 1;
      }
    }
  }

  /** The one place of the one container where the source stands. */
  ghost predicate IsTheBody(ddl: Bytes, root: Node, source: Bytes, start: nat) {
    var containers := BodyContainers(root);
    && |containers| == 1 && containers[0].start <= start && start + |source| <= containers[0].end <= |ddl|
    && ddl[start..start + |source|] == source
    && forall k :: OccursAt(ddl[containers[0].start..containers[0].end], source, k) ==> k == start - containers[0].start
  }

  /** The tree's ranges lie within the DDL; an empty source never identifies its place. */
  method EmbeddedPlpgsqlBody(ddl: Bytes, root: Node, source: Bytes) returns (body: Option<EmbeddedBody>)
    requires forall n | n in BodyContainers(root) :: n.start < n.end <= |ddl|
    ensures body.Some? ==> IsTheBody(ddl, root, source, body.value.start) && body.value.end == body.value.start + |source|
                           && body.value.startLine == Newlines(ddl[..body.value.start])
    ensures body.None? ==> forall start :: !IsTheBody(ddl, root, source, start)
  {
    var containers := BodyContainers(root);
    if |containers| != 1 {
      return None;
    }
    var container := ddl[containers[0].start..containers[0].end];
    var relativeStart := IndexOf(container, source, 0);
    if relativeStart.None? {
      forall start ensures !IsTheBody(ddl, root, source, start) {
        if IsTheBody(ddl, root, source, start) {
          BodyOccurs(ddl, containers[0], source, start);
        }
      }
      return None;
    }
    var again := IndexOf(container, source, relativeStart.value + 1);
    if again.Some? {
      forall start ensures !IsTheBody(ddl, root, source, start) {
        assert relativeStart.value != again.value;
      }
      return None;
    }
    var start := containers[0].start + relativeStart.value;
    var startLine := CountNewlinesBefore(ddl, start);
    BodyFound(ddl, containers[0], source, relativeStart.value);
    return Some(EmbeddedBody(start, start + |source|, startLine));
  }

  lemma BodyOccurs(ddl: Bytes, container: Node, source: Bytes, start: nat)
    requires container.start <= start && start + |source| <= container.end <= |ddl|
    requires ddl[start..start + |source|] == source
    ensures OccursAt(ddl[container.start..container.end], source, start - container.start)
  {
    var at := start - container.start;
    assert ddl[container.start..container.end][at..at + |source|] == ddl[start..start + |source|];
  }

  lemma BodyFound(ddl: Bytes, container: Node, source: Bytes, at: nat)
    requires container.start <= container.end <= |ddl|
    requires OccursAt(ddl[container.start..container.end], source, at)
    ensures ddl[container.start + at..container.start + at + |source|] == source
  {
    assert ddl[container.start..container.end][at..at + |source|] == ddl[container.start + at..container.start + at + |source|];
  }

  datatype Generated = Generated(ddl: Bytes, start: nat, startLine: nat)

  /**
   * The DDL the service creates: exactly when the source's place is unique and its points can be probed, the
   * DDL with the woven body in that place. Cutting the probes out of it returns the original DDL byte for
   * byte, so the instrumented routine differs from the original by its probes alone. (Parsing is not modelled.)
   */
  method Instrument(ddl: Bytes, root: Node, source: Bytes, points: seq<Point>, analysisErrors: bool, runId: string)
    returns (result: Option<Generated>)
    requires forall n | n in BodyContainers(root) :: n.start < n.end <= |ddl|
    ensures result.Some? <==>
              && (exists start :: IsTheBody(ddl, root, source, start))
              && !analysisErrors && Placed(points) && SafeToken(runId)
              && (forall p | p in points :: p.offset.value <= |source|)
    ensures result.Some? ==>
              var start, injections := result.value.start, InjectionsOf(source, points, runId);
              && IsTheBody(ddl, root, source, start)
              && result.value.ddl == ReplaceRange(ddl, start, start + |source|, Woven(source, injections))
              && result.value.startLine == Newlines(ddl[..start])
              && Ascending(SpansFrom(start, source, injections), 0, |result.value.ddl|)
              && Cut(result.value.ddl, SpansFrom(start, source, injections), 0) == ddl
  {
    hide BodyContainers, Ascending, Cut, SpansFrom, Woven;
    var body := EmbeddedPlpgsqlBody(ddl, root, source);
    if body.None? {
      return None;
    }
    var instrumented := InstrumentBody(source, points, analysisErrors, runId);
    if instrumented.Err? {
      return None;
    }
    var start, end := body.value.start, body.value.end;
    RangeErasure(ddl, start, end, InjectionsOf(source, points, runId));
    return Some(Generated(ReplaceRange(ddl, start, end, instrumented.value), start, body.value.startLine));
  }
}
