/**
 * Counting executions from marker notices (`createSuiteNoticeListener`, packages/coverage/src/runner.ts)
 * and the differences between successive snapshots of the counters (packages/coverage/src/delta.ts).
 */
module NoticeCounting {
  import opened Options
  import opened Markers

  type Executions = map<string, nat>

  function CountOf(executions: Executions, pointId: string): nat {
    if pointId in executions then executions[pointId] else 0
  }

  /** Run ids are random and checked, hence safe and distinct. */
  ghost predicate ValidRuns(runIds: seq<string>) {
    && (forall i :: 0 <= i < |runIds| ==> SafeToken(runIds[i]))
    && (forall i, j :: 0 <= i < j < |runIds| ==> runIds[i] != runIds[j])
  }

  /** How many of the notices are the marker of this point of this run. */
  function Markings(notices: seq<Option<string>>, runId: string, pointId: string): nat {
    if notices == [] then 0
    else
      Markings(notices[..|notices| - 1], runId, pointId)
      + if notices[|notices| - 1].Some? && FormatMarker(runId, pointId) == notices[|notices| - 1] then 1 else 0
  }

  ghost predicate CountsExactly(executions: seq<Executions>, runIds: seq<string>, notices: seq<Option<string>>) {
    && |executions| == |runIds|
    && (forall i, p :: 0 <= i < |runIds| ==> CountOf(executions[i], p) == Markings(notices, runIds[i], p))
  }

  /** The counters of the prepared routines, and the notices the connection has delivered. */
  class SuiteListener {
    const runIds: seq<string>
    var executions: seq<Executions>
    ghost var notices: seq<Option<string>>

    ghost predicate Valid()
      reads this
    {
      ValidRuns(runIds) && CountsExactly(executions, runIds, notices)
    }

    constructor (runIds: seq<string>)
      requires ValidRuns(runIds)
      ensures Valid() && this.runIds == runIds && notices == []
    {
      this.runIds := runIds;
      executions := seq(|runIds|, i => map[]);
      notices := [];
    }

    /** A message is `None` when the notice has none. */
    method OnNotice(message: Option<string>)
      requires Valid()
      modifies this
      ensures Valid() && notices == old(notices) + [message]
    {
      notices := notices + [message];
      assert notices[..|notices| - 1] == old(notices);
      if message.None? || message.value == "" {
        return;
      }
      for i := 0 to |runIds|
        invariant executions == old(executions) && notices == old(notices) + [message]
        invariant forall j, p :: 0 <= j < i ==> FormatMarker(runIds[j], p) != message
      {
        var parsed := ParseMarker(message.value, runIds[i]);
        forall p ensures parsed == Marker(p) <==> FormatMarker(runIds[i], p) == message {
          ParseIsExact(message.value, runIds[i], p);
        }
        if parsed.Marker? {
          var counts := executions[i];
          executions := executions[i := counts[parsed.pointId := CountOf(counts, parsed.pointId) + 1]];
          forall j, p | 0 <= j < |runIds| && j != i ensures FormatMarker(runIds[j], p) != message {
            ParseIsExact(message.value, runIds[j], p);
            if FormatMarker(runIds[j], p) == message {
              OneRunPerMessage(message.value, runIds[i], runIds[j]);
            }
          }
          return;
        }
      }
    }
  }

  // ----- Snapshots and deltas --------------------------------------------------------------------

  type Snapshot = map<nat, Executions>

  function ExecutedIn(s: Snapshot, routine: nat, pointId: string): nat {
    if routine in s then CountOf(s[routine], pointId) else 0
  }

  function Difference(before: Executions, after: Executions): Executions {
    map p | p in after :: if after[p] <= CountOf(before, p) then 0 else after[p] - CountOf(before, p)
  }

  /** `coverageDelta`. */
  function Delta(previous: Snapshot, current: Snapshot): Snapshot {
    map r | r in current :: Difference(if r in previous then previous[r] else map[], current[r])
  }

  /** Exactly the increase of each counter; a counter that is gone or fell counts nothing. */
  lemma DeltaIsIncrease(previous: Snapshot, current: Snapshot, routine: nat, pointId: string)
    ensures ExecutedIn(Delta(previous, current), routine, pointId)
            == if ExecutedIn(current, routine, pointId) <= ExecutedIn(previous, routine, pointId) then 0
               else ExecutedIn(current, routine, pointId) - ExecutedIn(previous, routine, pointId)
  {}

  ghost predicate Growing(snapshots: seq<Snapshot>, routine: nat, pointId: string) {
    forall i :: 0 <= i < |snapshots| - 1 ==>
      ExecutedIn(snapshots[i], routine, pointId) <= ExecutedIn(snapshots[i + 1], routine, pointId)
  }

  function SumOfDeltas(snapshots: seq<Snapshot>, routine: nat, pointId: string): nat {
    if |snapshots| < 2 then 0
    else
      ExecutedIn(Delta(snapshots[|snapshots| - 2], snapshots[|snapshots| - 1]), routine, pointId)
      + SumOfDeltas(snapshots[..|snapshots| - 1], routine, pointId)
  }

  /** Over growing counters the successive deltas add up to the last snapshot minus the first. */
  lemma {:induction false} DeltasTelescope(snapshots: seq<Snapshot>, routine: nat, pointId: string)
    requires snapshots != [] && Growing(snapshots, routine, pointId)
    ensures ExecutedIn(snapshots[0], routine, pointId) + SumOfDeltas(snapshots, routine, pointId)
            == ExecutedIn(snapshots[|snapshots| - 1], routine, pointId)
  {
    var n := |snapshots| - 1;
    if n > 0 {
      DeltaIsIncrease(snapshots[n - 1], snapshots[n], routine, pointId);
      DeltasTelescope(snapshots[..n], routine, pointId);
    }
  }

  // ----- From notices to deltas ------------------------------------------------------------------

  lemma {:induction false} MarkingsGrow(notices: seq<Option<string>>, more: seq<Option<string>>, runId: string, pointId: string)
    ensures Markings(notices, runId, pointId) + Markings(more, runId, pointId) == Markings(notices + more, runId, pointId)
  {
    if more == [] {
      assert notices + more == notices;
    } else {
      var n := |more| - 1;
      assert (notices + more)[..|notices + more| - 1] == notices + more[..n];
      MarkingsGrow(notices, more[..n], runId, pointId);
    }
  }

  /** `indexCoverageSnapshot`: the counters by routine oid; a later entry of one oid replaces an earlier one. */
  function IndexSnapshot(oids: seq<nat>, executions: seq<Executions>): Snapshot
    requires |oids| == |executions|
  {
    if oids == [] then map[]
    else
      var n := |oids| - 1;
      IndexSnapshot(oids[..n], executions[..n])[oids[n] := executions[n]]
  }

  lemma {:induction false} IndexSnapshotAt(oids: seq<nat>, executions: seq<Executions>, i: nat)
    requires |oids| == |executions| && i < |oids|
    requires forall j, k :: 0 <= j < k < |oids| ==> oids[j] != oids[k]
    ensures oids[i] in IndexSnapshot(oids, executions) && IndexSnapshot(oids, executions)[oids[i]] == executions[i]
  {
    var n := |oids| - 1;
    if i < n {
      IndexSnapshotAt(oids[..n], executions[..n], i);
    }
  }

  /** Between two readings of the counters, the delta of a point is the number of its markers received in between. */
  lemma DeltaCountsMarkers(oids: seq<nat>, runIds: seq<string>, before: seq<Executions>, after: seq<Executions>,
                           notices: seq<Option<string>>, more: seq<Option<string>>, i: nat, pointId: string)
    requires |oids| == |runIds| && i < |oids|
    requires forall j, k :: 0 <= j < k < |oids| ==> oids[j] != oids[k]
    requires CountsExactly(before, runIds, notices) && CountsExactly(after, runIds, notices + more)
    ensures ExecutedIn(Delta(IndexSnapshot(oids, before), IndexSnapshot(oids, after)), oids[i], pointId)
            == Markings(more, runIds[i], pointId)
  {
    IndexSnapshotAt(oids, before, i);
    IndexSnapshotAt(oids, after, i);
    DeltaIsIncrease(IndexSnapshot(oids, before), IndexSnapshot(oids, after), oids[i], pointId);
    MarkingsGrow(notices, more, runIds[i], pointId);
  }
}
