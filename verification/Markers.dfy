/** Coverage markers, as text in warnings (packages/coverage/src/markers.ts). */
module Markers {
  import opened Options

  const Namespace := "postgresql-workbench-cov"

  predicate SafeChar(c: char) {
    'a' <= c <= 'z' || 'A' <= c <= 'Z' || '0' <= c <= '9' || c == '_' || c == '-'
  }

  predicate SafeToken(value: string) {
    value != "" && forall c | c in value :: SafeChar(c)
  }

  function Prefix(runId: string): string {
    Namespace + ":" + runId + ":"
  }

  /** `None` where the source throws. */
  function FormatMarker(runId: string, pointId: string): Option<string> {
    if SafeToken(pointId) && SafeToken(runId) then Some(Prefix(runId) + pointId) else None
  }

  datatype Parsed = InvalidRun | NoMarker | Marker(pointId: string)

  function ParseMarker(message: string, runId: string): Parsed {
    if !SafeToken(runId) then InvalidRun
    else
      var prefix := Prefix(runId);
      if !(prefix <= message) then NoMarker
      else if SafeToken(message[|prefix|..]) then Marker(message[|prefix|..])
      else NoMarker
  }

  /** Parsing finds a point exactly in the message that formatting gives for it. */
  lemma ParseIsExact(message: string, runId: string, pointId: string)
    requires SafeToken(runId)
    ensures ParseMarker(message, runId) == Marker(pointId) <==> FormatMarker(runId, pointId) == Some(message)
    ensures ParseMarker(message, runId) == Marker(pointId)
            <==> SafeToken(pointId) && message == "postgresql-workbench-cov:" + runId + ":" + pointId
  {
    var prefix := Prefix(runId);
    if FormatMarker(runId, pointId) == Some(message) {
      assert message[|prefix|..] == pointId;
    }
    if ParseMarker(message, runId) == Marker(pointId) {
      assert message == prefix + message[|prefix|..];
    }
  }

  /** The first colon after the namespace ends the run id, so a message belongs to one run at most. */
  lemma OneRunPerMessage(message: string, a: string, b: string)
    requires SafeToken(a) && SafeToken(b)
    requires ParseMarker(message, a).Marker? && ParseMarker(message, b).Marker?
    ensures a == b
  {
    NoColonWithin(message, a, b);
    NoColonWithin(message, b, a);
    assert Prefix(a)[|Namespace| + 1..|Namespace| + 1 + |a|] == a && Prefix(b)[|Namespace| + 1..|Namespace| + 1 + |b|] == b;
    assert message[|Namespace| + 1..|Namespace| + 1 + |a|] == a && message[|Namespace| + 1..|Namespace| + 1 + |b|] == b;
  }

  lemma NoColonWithin(message: string, a: string, b: string)
    requires SafeToken(b) && Prefix(a) <= message && Prefix(b) <= message
    ensures |b| <= |a|
  {
    var start := |Namespace| + 1;
    var rest := message[start..];
    assert Prefix(a)[start + |a|] == ':';
    assert rest[|a|] == ':';
    forall k | 0 <= k < |b| ensures rest[k] != ':' {
      assert Prefix(b)[start + k] == b[k] && b[k] in b;
      assert rest[k] == message[start + k];
    }
  }

  /** Another run's marker is never mistaken for one's own. */
  lemma NeverMatchesAnotherRun(runId: string, pointId: string, other: string)
    requires SafeToken(runId) && SafeToken(pointId) && SafeToken(other) && other != runId
    ensures ParseMarker(FormatMarker(runId, pointId).value, other) == NoMarker
  {
    var message := FormatMarker(runId, pointId).value;
    ParseIsExact(message, runId, pointId);
    if ParseMarker(message, other).Marker? {
      OneRunPerMessage(message, runId, other);
    }
  }
}
