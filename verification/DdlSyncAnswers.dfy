/**
 * What the refreshes of the schema synchronisation answer (packages/catalog/src/ddlSync.ts): a received
 * notification leaves the observer's list only in a refresh that is full, or that re-reads every object the
 * notification names and was not asked to be full; and a refresh that starts with a debt pays it.
 */
module DdlSyncAnswers {
  import opened Options
  import opened DdlSyncSpec
  import opened DdlSyncProofs
  import opened DdlSyncTheorems
  import N = DdlNotifications

  // ----- What is held for a notification -----------------------------------------------------------

  /** A refresh asked for with these parameters serves the notification: full if it has to be, and with all its objects. */
  predicate Serves(fallback: bool, objects: seq<N.DdlObject>, n: N.Notification) {
    && (n.fallback ==> fallback)
    && (forall o | o in n.objects :: N.IdentityOf(o) in N.Identities(objects))
  }

  predicate NoteBears(x: Note, t: nat, n: N.Notification) {
    x.at == t ==> x.payload == Usable(n)
  }

  predicate BatchBears(b: Batch, t: nat, n: N.Notification) {
    t in b.stamps ==> Serves(b.group.fallback, b.group.objects, n)
  }

  predicate RefreshBears(q: Refresh, t: nat, n: N.Notification) {
    t in q.stamps ==> Serves(q.fallback, q.objects, n)
  }

  ghost predicate RuntimeBears(rt: Runtime, t: nat, n: N.Notification) {
    && (forall x | x in rt.startup :: NoteBears(x, t, n))
    && (forall x | x in rt.notes :: NoteBears(x, t, n))
    && (forall b | b in rt.batch :: BatchBears(b, t, n))
  }

  ghost predicate AllBear(runtimes: seq<Runtime>, refreshes: seq<Refresh>, t: nat, n: N.Notification) {
    && (forall rt | rt in runtimes :: RuntimeBears(rt, t, n))
    && (forall q | q in refreshes :: RefreshBears(q, t, n))
  }

  /** Wherever the stamp is held, it is held for this notification. */
  ghost predicate Bears(s: State, t: nat, n: N.Notification) {
    AllBear(s.runtimes, s.refreshes, t, n)
  }

  lemma ReplacingBears(runtimes: seq<Runtime>, refreshes: seq<Refresh>, r: nat, rt: Runtime, t: nat, n: N.Notification)
    requires AllBear(runtimes, refreshes, t, n) && r < |runtimes| && RuntimeBears(rt, t, n)
    ensures AllBear(runtimes[r := rt], refreshes, t, n)
  {
    hide RuntimeBears, RefreshBears;
  }

  lemma RuntimeAt(runtimes: seq<Runtime>, refreshes: seq<Refresh>, r: nat, t: nat, n: N.Notification)
    requires AllBear(runtimes, refreshes, t, n) && r < |runtimes|
    ensures RuntimeBears(runtimes[r], t, n)
  {
    hide RuntimeBears, RefreshBears;
  }

  /** The runtime holds the same, or less. */
  predicate HoldsNoMore(rt: Runtime, rt': Runtime) {
    rt'.startup == rt.startup && rt'.notes == rt.notes && (rt'.batch == rt.batch || rt'.batch == [])
  }

  /** At most one runtime changed, and it holds no more; refreshes joined the queue only without stamps. */
  ghost predicate Quietly(s: State, s': State) {
    && (s'.runtimes == s.runtimes
        || exists r, rt | 0 <= r < |s.runtimes| && HoldsNoMore(s.runtimes[r], rt) :: s'.runtimes == s.runtimes[r := rt])
    && s.refreshes <= s'.refreshes && forall q | q in s'.refreshes[|s.refreshes|..] :: q.stamps == {}
  }

  lemma QuietlyBears(s: State, s': State, t: nat, n: N.Notification)
    requires Quietly(s, s') && Bears(s, t, n)
    ensures Bears(s', t, n)
  {
    if s'.runtimes != s.runtimes {
      var r, rt :| 0 <= r < |s.runtimes| && HoldsNoMore(s.runtimes[r], rt) && s'.runtimes == s.runtimes[r := rt];
      RuntimeAt(s.runtimes, s.refreshes, r, t, n);
      assert RuntimeBears(rt, t, n);
      ReplacingBears(s.runtimes, s.refreshes, r, rt, t, n);
    }
    hide RuntimeBears;
    assert s'.refreshes == s.refreshes + s'.refreshes[|s.refreshes|..];
  }

  lemma SameQuietly(s: State, s': State)
    requires s'.runtimes == s.runtimes && s'.refreshes == s.refreshes
    ensures Quietly(s, s')
  {}

  lemma OneQuietly(s: State, s': State, r: nat, rt: Runtime)
    requires r < |s.runtimes| && HoldsNoMore(s.runtimes[r], rt)
    requires s'.runtimes == s.runtimes[r := rt] && s'.refreshes == s.refreshes
    ensures Quietly(s, s')
  {}

  // ----- Steps that hold no more -------------------------------------------------------------------

  lemma ClosedQuietly(s: State, r: nat)
    requires r < |s.runtimes|
    ensures Quietly(s, OnListenerClosed(s, r))
  {
    if s.runtimes[r].closed || s.disposed {
      SameQuietly(s, OnListenerClosed(s, r));
    } else {
      OneQuietly(s, OnListenerClosed(s, r), r, s.runtimes[r].(closed := true, timer := false));
    }
  }

  lemma StoppedQuietly(s: State, recordDebt: bool)
    requires ListenerExists(s)
    ensures Quietly(s, StopListener(s, recordDebt))
  {
    if s.listener.Some? {
      var r := s.listener.value;
      OneQuietly(s, StopListener(s, recordDebt), r, s.runtimes[r].(closed := true, timer := false));
    } else {
      SameQuietly(s, StopListener(s, recordDebt));
    }
  }

  lemma SameCoreQuietly(s: State, t: State, s': State)
    requires Quietly(s, t) && SameCore(t, s')
    ensures Quietly(s, s')
  {}

  lemma RecordedQuietly(s: State)
    ensures Quietly(s, RequireFullRefresh(s))
  {
    SameQuietly(s, RequireFullRefresh(s));
  }

  lemma ItselfQuietly(s: State)
    ensures Quietly(s, s)
  {
    SameQuietly(s, s);
  }

  lemma PausedQuietly(s: State, t: State)
    requires Quietly(s, t)
    ensures Quietly(s, Finished(t)) && forall at :: Quietly(s, Suspended(t, at))
  {}

  lemma ReconcileListenerQuietly(s: State, config: Config, epoch: nat)
    ensures Quietly(s, ReconcileListener(s, config, epoch))
  {
    hide StartStillRequired;
    var s' := ReconcileListener(s, config, epoch);
    assert s'.runtimes == s.runtimes;
    if s'.refreshes != s.refreshes {
      assert s'.refreshes[|s.refreshes|..] == [Refresh(OfReactivation(s.listener.value), true, [], {}, Waiting)];
    }
  }

  lemma ReconciledQuietly(s: State, epoch: nat, restart: bool, requested: bool)
    requires ListenerExists(s)
    ensures Quietly(s, ReconcileConnection(s, epoch, restart, requested))
  {
    if s.store.None? {
      RemovedQuietly(s, epoch, restart, requested);
    } else {
      SavedQuietly(s, epoch, restart, requested);
    }
  }

  lemma RemovedQuietly(s: State, epoch: nat, restart: bool, requested: bool)
    requires ListenerExists(s) && s.store.None?
    ensures Quietly(s, ReconcileConnection(s, epoch, restart, requested))
  {
    hide StopListener, ReconcileListener, CurrentConfig, Quietly, Suspended, Finished;
    var told := if s.known then MarkStale(s) else s;
    ItselfQuietly(s);
    PausedQuietly(s, s);
    StoppedQuietly(told, false);
    QuietlyKnown(s, told, StopListener(told, false));
    PausedQuietly(s, StopListener(told, false));
  }

  lemma SavedQuietly(s: State, epoch: nat, restart: bool, requested: bool)
    requires ListenerExists(s) && s.store.Some?
    ensures Quietly(s, ReconcileConnection(s, epoch, restart, requested))
  {
    var told, off := s.(known := true), s.(known := true).(reconnect := false);
    assert ListenerExists(told);
    StoppedQuietly(told, true);
    SameQuietly(s, off);
    QuietlyKnown(s, told, StopListener(told, true));
    ItselfQuietly(s);
    hide StopListener, ReconcileListener, CurrentConfig, Quietly, Suspended, Finished, Intent;
    PausedQuietly(s, s);
    PausedQuietly(s, off);
    PausedQuietly(s, StopListener(told, true));
    if CurrentConfig(told).Some? {
      ReconcileListenerQuietly(told, CurrentConfig(told).value, epoch);
      QuietlyKnown(s, told, ReconcileListener(told, CurrentConfig(told).value, epoch));
    }
  }

  lemma QuietlyKnown(s: State, t: State, s': State)
    requires t.runtimes == s.runtimes && t.refreshes == s.refreshes && Quietly(t, s')
    ensures Quietly(s, s')
  {}

  lemma StartedQuietly(s: State, operation: Operation)
    requires ListenerExists(s)
    ensures Quietly(s, StartOperation(s, operation))
  {
    var s' := StartOperation(s, operation);
    StoppedQuietly(s, true);
    StoppedQuietly(s, false);
    RecordedQuietly(s);
    ItselfQuietly(s);
    hide StopListener, CurrentConfig, Configuration, ReconcileConnection, StartSetEnabled, StartSetSchema, Quietly, Suspended, Finished,
         SameCore;
    PausedQuietly(s, s);
    PausedQuietly(s, StopListener(s, true));
    PausedQuietly(s, StopListener(s, false));
    match operation
    case SetEnabled(enabled) => SetEnabledQuietly(s, enabled);
    case SetSchema(schema) => SetSchemaQuietly(s, schema);
    case Reconcile(epoch, restart) => ReconciledQuietly(s, epoch, restart, true);
    case _ =>
  }

  lemma SetEnabledQuietly(s: State, enabled: Option<bool>)
    requires ListenerExists(s)
    ensures Quietly(s, StartSetEnabled(s, enabled))
  {
    var s' := StartSetEnabled(s, enabled);
    SetEnabledCases(s, enabled);
    StoppedQuietly(s, true);
    RecordedQuietly(s);
    ItselfQuietly(s);
    hide StartSetEnabled, StopListener, RequireFullRefresh, SameCore, Quietly;
    if SameCore(s, s') {
      SameCoreQuietly(s, s, s');
    } else if SameCore(StopListener(s, true), s') {
      SameCoreQuietly(s, StopListener(s, true), s');
    } else {
      SameCoreQuietly(s, RequireFullRefresh(s), s');
    }
  }

  lemma SetSchemaQuietly(s: State, schema: Option<string>)
    requires ListenerExists(s)
    ensures Quietly(s, StartSetSchema(s, schema))
  {
    var s' := StartSetSchema(s, schema);
    SetSchemaShape(s, schema);
    StoppedQuietly(s, true);
    ItselfQuietly(s);
    hide StartSetSchema, StopListener, SameCore, Quietly;
    if SameCore(s, s') {
      SameCoreQuietly(s, s, s');
    } else {
      SameCoreQuietly(s, StopListener(s, true), s');
    }
  }

  lemma ResumedStopQuietly(s: State, next: Then)
    requires ListenerExists(s)
    ensures Quietly(s, ResumeStopping(s, next))
  {
    hide CurrentConfig, ReconcileListener, Intent;
    if next.ThenReconfigured? && CurrentConfig(s).Some? {
      ReconcileListenerQuietly(s, CurrentConfig(s).value, next.epoch);
    }
    var s' := ResumeStopping(s, next);
    if s'.runtimes == s.runtimes && s'.refreshes == s.refreshes {
      SameQuietly(s, s');
    }
  }

  /** All ways of the lifecycle to go on but the end of a startup. */
  lemma ResumedQuietly(s: State, at: Suspension)
    requires ListenerExists(s) && Resumable(s, at) && !at.StartupRefresh?
    ensures Quietly(s, Resume(s, at))
  {
    hide ResumeStopping, OnListenerClosed, StartStillRequired, CurrentConfig, Quietly, Intent, ResumeAfterClose, ResumeFailedStart,
         ResumeUnprovisioned;
    match at
    case Stopping(next) => ResumedStopQuietly(s, next);
    case Reactivating(r, _) =>
      ClosedQuietly(s, r);
      ItselfQuietly(s);
      PausedQuietly(s, s);
      PausedQuietly(s, OnListenerClosed(s, r));
      hide Finished;
    case EndingClient(r, epoch) =>
      AfterCloseShape(s, r, epoch);
      ItselfQuietly(s);
      SameCoreQuietly(s, s, ResumeAfterClose(s, r, epoch));
    case ClosingFailed(_, _, _) => FailedStartQuietly(s, at);
    case ClosingUnprovisioned(_, _) => FailedStartQuietly(s, at);
    case AwaitingRefreshIdle(_) => SameQuietly(s, Resume(s, at));
    case ClosingSuperseded => SameQuietly(s, Resume(s, at));
  }

  lemma FailedStartQuietly(s: State, at: Suspension)
    ensures at.ClosingFailed? ==> Quietly(s, ResumeFailedStart(s, at))
    ensures at.ClosingUnprovisioned? ==> Quietly(s, ResumeUnprovisioned(s, at))
  {
    hide StartStillRequired, Quietly;
    if at.ClosingFailed? {
      SameQuietly(s, ResumeFailedStart(s, at));
    }
    if at.ClosingUnprovisioned? {
      SameQuietly(s, ResumeUnprovisioned(s, at));
    }
  }

  lemma RejectedQuietly(s: State)
    requires ListenerExists(s)
    ensures Quietly(s, RejectedReconcile(s))
  {
    hide OnListenerClosed, CurrentConfig, Quietly;
    if s.disposed || s.store.None? {
      ItselfQuietly(s);
    } else if s.listener.Some? {
      ClosedQuietly(s, s.listener.value);
    } else {
      SameQuietly(s, RejectedReconcile(s));
    }
  }

  // ----- Steps that hand notifications on ----------------------------------------------------------

  lemma NotifiedBears(s: State, r: nat, note: Note, t: nat, n: N.Notification)
    requires Bears(s, t, n) && r < |s.runtimes| && NoteBears(note, t, n)
    ensures Bears(OnNotification(s, r, note), t, n) && OnNotification(s, r, note).refreshes == s.refreshes
  {
    var rt := s.runtimes[r];
    RuntimeAt(s.runtimes, s.refreshes, r, t, n);
    var more := rt.(notes := rt.notes + [note], timer := true);
    assert RuntimeBears(more, t, n);
    ReplacingBears(s.runtimes, s.refreshes, r, more, t, n);
    hide AllBear, RuntimeBears;
  }

  lemma {:induction false} DrainedBears(s: State, r: nat, held: seq<Note>, t: nat, n: N.Notification)
    requires Bears(s, t, n) && r < |s.runtimes| && forall x | x in held :: NoteBears(x, t, n)
    ensures Bears(DrainStartup(s, r, held), t, n) && DrainStartup(s, r, held).refreshes == s.refreshes
    decreases |held|
  {
    hide OnNotification, Bears;
    if held != [] {
      NotifiedBears(s, r, held[0], t, n);
      assert |OnNotification(s, r, held[0]).runtimes| == |s.runtimes| by { NotifiedTakes(s, r, held[0]); }
      DrainedBears(OnNotification(s, r, held[0]), r, held[1..], t, n);
    }
  }

  lemma NotifiedTakes(s: State, r: nat, note: Note)
    requires r < |s.runtimes|
    ensures |OnNotification(s, r, note).runtimes| == |s.runtimes|
  {}

  lemma PublishedBears(s: State, r: nat, t: nat, n: N.Notification)
    requires Bears(s, t, n) && r < |s.runtimes|
    ensures Bears(PublishListener(s, r), t, n) && PublishListener(s, r).refreshes == s.refreshes
  {
    var rt := s.runtimes[r];
    RuntimeAt(s.runtimes, s.refreshes, r, t, n);
    var empty := rt.(published := true, startup := []);
    assert RuntimeBears(empty, t, n);
    ReplacingBears(s.runtimes, s.refreshes, r, empty, t, n);
    hide DrainStartup, AllBear, RuntimeBears;
    DrainedBears(With(s, r, empty), r, rt.startup, t, n);
  }

  /** A group carries all that its notifications ask for. */
  lemma BatchesBear(notes: seq<Note>, t: nat, n: N.Notification)
    requires forall x | x in notes :: NoteBears(x, t, n)
    ensures forall b | b in Batches(notes) :: BatchBears(b, t, n)
  {
    var groups := N.Coalesce(UsablePayloads(notes));
    forall b | b in Batches(notes) && t in b.stamps ensures BatchBears(b, t, n) {
      var i :| 0 <= i < |groups| && b == BatchOf(notes, groups[i]);
      var x :| x in notes && x.payload.Usable? && N.KeyOf(x.payload.notification) == N.GroupKey(groups[i]) && x.at == t;
      UsablePayloadsHold(notes, x);
      GroupServes(UsablePayloads(notes), i, n);
    }
  }

  lemma GroupServes(ns: seq<N.Notification>, i: nat, n: N.Notification)
    requires n in ns && i < |N.Coalesce(ns)| && N.GroupKey(N.Coalesce(ns)[i]) == N.KeyOf(n)
    ensures Serves(N.Coalesce(ns)[i].fallback, N.Coalesce(ns)[i].objects, n)
  {
    N.CoalesceIsGroupBy(ns);
    var g, members := N.Coalesce(ns)[i], N.Members(ns, N.KeyOf(n));
    N.MembersAre(ns, N.KeyOf(n));
    assert N.Summarises(g, members) && n in members;
    forall o | o in n.objects ensures N.IdentityOf(o) in N.Identities(g.objects) {
      N.ObjectsOfHolds(members, n, o);
      assert N.IdentityOf(o) in N.Identities(N.ObjectsOf(members));
    }
  }

  lemma AwaitedBears(s: State, r: nat, batch: seq<Batch>, t: nat, n: N.Notification)
    requires Bears(s, t, n) && r < |s.runtimes| && batch != [] && forall b | b in batch :: BatchBears(b, t, n)
    ensures Bears(AwaitBatch(s, r, batch), t, n) && s.refreshes <= AwaitBatch(s, r, batch).refreshes
  {
    var rt := s.runtimes[r].(batch := batch, outcome := Pending);
    RuntimeAt(s.runtimes, s.refreshes, r, t, n);
    assert RuntimeBears(rt, t, n);
    ReplacingBears(s.runtimes, s.refreshes, r, rt, t, n);
    assert batch[0] in batch && BatchBears(batch[0], t, n);
    hide RuntimeBears;
    assert AwaitBatch(s, r, batch).refreshes
           == s.refreshes + [Refresh(OfFlush(r), batch[0].group.fallback, batch[0].group.objects, batch[0].stamps, Waiting)];
  }

  lemma EndedBears(s: State, r: nat, t: nat, n: N.Notification)
    requires Bears(s, t, n) && r < |s.runtimes|
    ensures Bears(FlushEnds(s, r), t, n) && FlushEnds(s, r).refreshes == s.refreshes
  {
    var rt := s.runtimes[r];
    var over := rt.(flushing := false, batch := [], outcome := Pending, timer := rt.timer || (!rt.closed && rt.notes != []));
    OneQuietly(s, FlushEnds(s, r), r, over);
    QuietlyBears(s, FlushEnds(s, r), t, n);
    hide AllBear;
  }

  lemma LoopedBears(s: State, r: nat, t: nat, n: N.Notification)
    requires Bears(s, t, n) && r < |s.runtimes|
    ensures Bears(FlushLoops(s, r), t, n) && s.refreshes <= FlushLoops(s, r).refreshes
  {
    var rt := s.runtimes[r];
    RuntimeAt(s.runtimes, s.refreshes, r, t, n);
    BatchesBear(rt.notes, t, n);
    var spliced := rt.(notes := []);
    assert RuntimeBears(spliced, t, n);
    ReplacingBears(s.runtimes, s.refreshes, r, spliced, t, n);
    EndedBears(s, r, t, n);
    hide Batches, AwaitBatch, FlushEnds, AllBear, RuntimeBears, BatchBears;
    if !(rt.closed || rt.notes == [] || Batches(rt.notes) == []) {
      AwaitedBears(With(s, r, spliced), r, Batches(rt.notes), t, n);
    }
  }

  lemma WithBears(s: State, r: nat, rt: Runtime, t: nat, n: N.Notification)
    requires Bears(s, t, n) && r < |s.runtimes| && HoldsNoMore(s.runtimes[r], rt)
    ensures Bears(With(s, r, rt), t, n)
  {
    OneQuietly(s, With(s, r, rt), r, rt);
    QuietlyBears(s, With(s, r, rt), t, n);
  }

  lemma FlushStartedBears(s: State, r: nat, t: nat, n: N.Notification)
    requires Bears(s, t, n) && r < |s.runtimes|
    ensures Bears(FlushStarts(s, r), t, n) && s.refreshes <= FlushStarts(s, r).refreshes
  {
    var rt := s.runtimes[r].(timer := false);
    WithBears(s, r, rt, t, n);
    WithBears(s, r, rt.(flushing := true), t, n);
    LoopedBears(With(s, r, rt.(flushing := true)), r, t, n);
    hide FlushLoops, Bears;
  }

  lemma FlushContinuedBears(s: State, r: nat, t: nat, n: N.Notification)
    requires Bears(s, t, n) && r < |s.runtimes| && s.runtimes[r].batch != []
    ensures Bears(FlushContinues(s, r), t, n) && s.refreshes <= FlushContinues(s, r).refreshes
  {
    var rt := s.runtimes[r];
    RuntimeAt(s.runtimes, s.refreshes, r, t, n);
    assert forall b | b in rt.batch[1..] :: b in rt.batch;
    ClosedRuntimes(s, r);
    hide FlushLoops, FlushEnds, AwaitBatch, OnListenerClosed, Bears, RuntimeBears, BatchBears;
    if rt.outcome == Failed {
      ClosedQuietly(s, r);
      QuietlyBears(s, OnListenerClosed(s, r), t, n);
      EndedBears(OnListenerClosed(s, r), r, t, n);
    } else if rt.closed {
      EndedBears(s, r, t, n);
    } else if |rt.batch| > 1 {
      GroupsBear(rt, t, n);
      AwaitedBears(s, r, rt.batch[1..], t, n);
    } else {
      WithBears(s, r, rt.(batch := [], outcome := Pending), t, n);
      LoopedBears(With(s, r, rt.(batch := [], outcome := Pending)), r, t, n);
    }
  }

  lemma GroupsBear(rt: Runtime, t: nat, n: N.Notification)
    requires RuntimeBears(rt, t, n) && rt.batch != []
    ensures forall b | b in rt.batch[1..] :: BatchBears(b, t, n)
  {}

  lemma ClosedRuntimes(s: State, r: nat)
    requires r < |s.runtimes|
    ensures |OnListenerClosed(s, r).runtimes| == |s.runtimes| && OnListenerClosed(s, r).refreshes == s.refreshes
  {}

  lemma ReceivedBears(s: State, r: nat, payload: Payload, t: nat, n: N.Notification)
    requires Bears(s, t, n) && r < |s.runtimes| && (s.clock == t ==> payload == Usable(n))
    ensures Bears(Received(s, r, payload), t, n) && Received(s, r, payload).refreshes == s.refreshes
  {
    var rt, note := s.runtimes[r], Note(s.clock, payload);
    var tracked := s.(clock := s.clock + 1, uncovered := s.uncovered + {s.clock});
    RuntimeAt(s.runtimes, s.refreshes, r, t, n);
    var more := rt.(startup := rt.startup + [note]);
    assert RuntimeBears(more, t, n);
    ReplacingBears(s.runtimes, s.refreshes, r, more, t, n);
    hide OnNotification, AllBear, RuntimeBears;
    NotifiedBears(tracked, r, note, t, n);
  }

  lemma HeadBears(s: State, progress: Progress, t: nat, n: N.Notification)
    requires Bears(s, t, n) && s.refreshes != []
    ensures Bears(Head(s, progress), t, n)
  {
    hide RuntimeBears;
    assert s.refreshes[0] in s.refreshes;
  }

  lemma SettledBears(s: State, t: nat, n: N.Notification)
    requires Inv(s) && Bears(s, t, n) && Enabled(s, RefreshSettles)
    ensures Bears(Settle(s), t, n)
  {
    assert FlushOwned(s, s.refreshes[0]);
    SettledShape(s);
    var s' := Settle(s);
    hide Settle, Inv;
    forall rt | rt in s'.runtimes ensures RuntimeBears(rt, t, n) {
      var r :| 0 <= r < |s'.runtimes| && s'.runtimes[r] == rt;
      RuntimeAt(s.runtimes, s.refreshes, r, t, n);
    }
    assert forall q | q in s'.refreshes :: q in s.refreshes;
  }

  lemma RefreshStepBears(s: State, e: Event, t: nat, n: N.Notification)
    requires Inv(s) && ListenerExists(s) && Enabled(s, e) && Bears(s, t, n)
    requires e.RefreshStarts? || e.RefreshReads? || e.RefreshPublishes? || e.RefreshCompletes? || e.RefreshFails? || e.RefreshSettles?
    ensures Bears(Next(s, e), t, n)
  {
    hide Inv, Settle, Complete, Publish, Head, AllBear;
    match e
    case RefreshStarts => HeadBears(s, Reading(s.clock, s.debt, s.refreshes[0].fallback || s.debt.Some?), t, n);
    case RefreshReads =>
      var p := s.refreshes[0].progress;
      HeadBears(s, ReadCatalog(p.startedAt, p.captured, p.full, s.clock), t, n);
    case RefreshPublishes(clean) => PublishedStepBears(s, clean, t, n);
    case RefreshCompletes => CompletedBears(s, t, n);
    case RefreshFails => HeadBears(s, Ended(false), t, n);
    case RefreshSettles => SettledBears(s, t, n);
  }

  lemma PublishedStepBears(s: State, clean: bool, t: nat, n: N.Notification)
    requires Bears(s, t, n) && s.refreshes != [] && s.refreshes[0].progress.ReadCatalog?
    ensures Bears(Publish(s, clean), t, n)
  {
    var p := s.refreshes[0].progress;
    HeadBears(s, Published(p.startedAt, p.captured, p.full, p.at), t, n);
    hide AllBear, Remaining;
  }

  lemma CompletedBears(s: State, t: nat, n: N.Notification)
    requires Bears(s, t, n) && s.refreshes != [] && s.refreshes[0].progress.Published? && ListenerExists(s)
    ensures Bears(Complete(s), t, n)
  {
    CompleteShape(s);
    var p := s.refreshes[0].progress;
    var paid := s.(debt := if p.captured.Some? && s.debt == p.captured then None else s.debt);
    hide Complete, AllBear;
    HeadBears(paid, Ended(true), t, n);
  }

  lemma NewcomerBears(s: State, schema: string, held: seq<Note>, t: nat, n: N.Notification)
    requires Bears(s, t, n) && forall x | x in held :: NoteBears(x, t, n)
    ensures AllBear(s.runtimes + [Newcomer(schema, held)], s.refreshes, t, n)
  {
    assert RuntimeBears(Newcomer(schema, held), t, n);
    hide RuntimeBears;
  }

  lemma EnteredBears(s: State, at: Suspension, t: nat, n: N.Notification)
    requires at.Starting? && Bears(s, t, n) && forall x | x in Stamped(s.clock, at.buffer) :: NoteBears(x, t, n)
    ensures Bears(EnterListeners(s, at), t, n) && s.refreshes <= EnterListeners(s, at).refreshes
  {
    var entered, r := Entered(s, at.schema, at.buffer), |s.runtimes|;
    NewcomerBears(s, at.schema, Stamped(s.clock, at.buffer), t, n);
    hide AllBear, Stamped, Stamps, PublishListener;
    assert Bears(entered, t, n);
    if s.debt.Some? || s.stale {
      StartupBears(entered, EnterListeners(s, at), r, t, n);
    } else {
      PublishedBears(Reported(entered, Listening, at.schema), r, t, n);
    }
  }

  lemma StartupBears(s: State, s': State, r: nat, t: nat, n: N.Notification)
    requires Bears(s, t, n) && s'.runtimes == s.runtimes
    requires s'.refreshes == s.refreshes + [Refresh(OfStartup(r), true, [], {}, Waiting)]
    ensures Bears(s', t, n)
  {
    hide RuntimeBears;
  }

  lemma AnsweredBears(s: State, at: Suspension, answer: Answer, t: nat, n: N.Notification)
    requires ListenerExists(s) && Answerable(at) && Bears(s, t, n)
    requires at.Starting? ==> forall x | x in Stamped(s.clock, at.buffer) :: NoteBears(x, t, n)
    ensures Bears(AnswerOperation(s, at, answer), t, n) && s.refreshes <= AnswerOperation(s, at, answer).refreshes
  {
    hide AnswerStarting, ReconcileConnection, AllBear, Stamped;
    if at.Starting? {
      AnsweredStartBears(s, at, answer, t, n);
    } else if answer.Done? && at.Persisting? && s.store.Some? {
      var stored := s.(store := Some(at.override));
      ReconciledQuietly(stored, s.epoch, false, false);
      QuietlyBears(stored, ReconcileConnection(stored, s.epoch, false, false), t, n);
    } else if answer.Done? && at.Provisioning? {
      ReconciledQuietly(s.(report := None), s.epoch, false, false);
      QuietlyBears(s.(report := None), ReconcileConnection(s.(report := None), s.epoch, false, false), t, n);
    } else {
      AnsweredShape(s, at, answer);
    }
  }

  lemma AnsweredStartBears(s: State, at: Suspension, answer: Answer, t: nat, n: N.Notification)
    requires at.Starting? && Bears(s, t, n) && forall x | x in Stamped(s.clock, at.buffer) :: NoteBears(x, t, n)
    ensures Bears(AnswerStarting(s, at, answer), t, n) && s.refreshes <= AnswerStarting(s, at, answer).refreshes
  {
    EnteredBears(s, at, t, n);
    StartStaysQuiet(s, at, answer);
    hide EnterListeners, StartStillRequired, AllBear, Stamped, NoteBears, AnswerStarting;
  }

  /** A start that does not enter the listeners leaves them and the refreshes alone. */
  lemma StartStaysQuiet(s: State, at: Suspension, answer: Answer)
    requires at.Starting?
    ensures var t := AnswerStarting(s, at, answer);
            t == EnterListeners(s, at) || (t.runtimes == s.runtimes && t.refreshes == s.refreshes)
  {
    hide EnterListeners, StartStillRequired;
  }

  lemma ResumedStartupBears(s: State, at: Suspension, t: nat, n: N.Notification)
    requires at.StartupRefresh? && at.runtime < |s.runtimes| && Bears(s, t, n)
    ensures Bears(ResumeStartup(s, at), t, n) && s.refreshes <= ResumeStartup(s, at).refreshes
  {
    var r := at.runtime;
    var failed := With(s, r, s.runtimes[r].(published := true));
    PublishedBears(s, r, t, n);
    WithBears(s, r, s.runtimes[r].(published := true), t, n);
    ClosedQuietly(failed, r);
    QuietlyBears(failed, OnListenerClosed(failed, r), t, n);
    ClosedRuntimes(failed, r);
    hide PublishListener, OnListenerClosed, AllBear, Quietly;
  }

  // ----- Every step --------------------------------------------------------------------------------

  predicate OfRefresh(e: Event) {
    e.RefreshStarts? || e.RefreshReads? || e.RefreshPublishes? || e.RefreshCompletes? || e.RefreshFails? || e.RefreshSettles?
  }

  /** No notification gets the stamp in the next step. */
  predicate GivenOut(s: State, t: nat) {
    t < s.clock || t > s.clock + if s.active.Some? && s.active.value.Starting? then |s.active.value.buffer| else 0
  }

  /** Besides the running refresh itself nothing takes a refresh from the queue, and what was held is still held for the same notification. */
  lemma StepBears(s: State, e: Event, t: nat, n: N.Notification)
    requires Inv(s) && ListenerExists(s) && Enabled(s, e) && Bears(s, t, n) && GivenOut(s, t)
    ensures Bears(Next(s, e), t, n)
    ensures !OfRefresh(e) ==> s.refreshes <= Next(s, e).refreshes
  {
    if OfRefresh(e) {
      RefreshStepBears(s, e, t, n);
    } else if e.LifecycleStarts? || e.LifecycleResumes? || e.LifecycleAnswers? {
      LifecycleBears(s, e, t, n);
    } else if Peripheral(e) {
      PeripheralSame(s, e);
      hide Next, AllBear;
    } else {
      ListenerBears(s, e, t, n);
    }
  }

  lemma ListenerBears(s: State, e: Event, t: nat, n: N.Notification)
    requires ListenerExists(s) && Enabled(s, e) && Bears(s, t, n) && GivenOut(s, t)
    requires e.Commit? || e.IndexedElsewhere? || e.ReconcileRejected? || e.Receive? || e.ClientFails? || e.TimerFires? || e.FlushResumes?
    ensures Bears(Next(s, e), t, n) && s.refreshes <= Next(s, e).refreshes
  {
    hide Received, OnListenerClosed, FlushStarts, FlushContinues, RejectedReconcile, AllBear;
    match e
    case Commit =>
    case IndexedElsewhere(_, _) =>
    case ReconcileRejected =>
      var less := s.(failedReconciles := s.failedReconciles - 1);
      RejectedQuietly(less);
      QuietlyBears(less, RejectedReconcile(less), t, n);
    case Receive(r, payload) => ReceivedBears(s, r, payload, t, n);
    case ClientFails(r) =>
      ClosedQuietly(s, r);
      QuietlyBears(s, OnListenerClosed(s, r), t, n);
      WithBears(s, r, s.runtimes[r].(startupFailed := true), t, n);
    case TimerFires(r) => FlushStartedBears(s, r, t, n);
    case FlushResumes(r) => FlushContinuedBears(s, r, t, n);
  }

  lemma LifecycleBears(s: State, e: Event, t: nat, n: N.Notification)
    requires ListenerExists(s) && Enabled(s, e) && Bears(s, t, n) && GivenOut(s, t)
    requires e.LifecycleStarts? || e.LifecycleResumes? || e.LifecycleAnswers?
    ensures Bears(Next(s, e), t, n) && s.refreshes <= Next(s, e).refreshes
  {
    hide StartOperation, Resume, AnswerOperation, Resumable, AllBear;
    match e
    case LifecycleStarts =>
      var rest := s.(lifecycle := s.lifecycle[1..]);
      StartedQuietly(rest, s.lifecycle[0]);
      QuietlyBears(rest, StartOperation(rest, s.lifecycle[0]), t, n);
    case LifecycleResumes => ResumedBears(s, s.active.value, t, n);
    case LifecycleAnswers(answer) =>
      LaterStamps(s, s.active.value, t, n);
      AnsweredBears(s, s.active.value, answer, t, n);
  }

  lemma LaterStamps(s: State, at: Suspension, t: nat, n: N.Notification)
    requires GivenOut(s, t) && s.active == Some(at)
    ensures at.Starting? ==> forall x | x in Stamped(s.clock, at.buffer) :: NoteBears(x, t, n)
  {}

  lemma ResumedBears(s: State, at: Suspension, t: nat, n: N.Notification)
    requires ListenerExists(s) && Resumable(s, at) && Bears(s, t, n)
    ensures Bears(Resume(s, at), t, n) && s.refreshes <= Resume(s, at).refreshes
  {
    hide ResumeStartup, AllBear;
    if at.StartupRefresh? {
      ResumedStartupBears(s, at, t, n);
    } else {
      ResumedQuietly(s, at);
      QuietlyBears(s, Resume(s, at), t, n);
      hide Resume;
    }
  }

  // ----- What covers a receipt ---------------------------------------------------------------------

  /** A published refresh that started after the receipt and is full, or re-read all its objects and was not asked to be full. */
  ghost predicate AnswersReceipt(s: State, e: Event, t: nat, n: N.Notification) {
    && Covers(s, e, t)
    && (s.refreshes[0].progress.full
        || (t in s.refreshes[0].stamps && !n.fallback && Serves(false, s.refreshes[0].objects, n)))
  }

  /** A receipt leaves the observer's list only with such a refresh, by disposal or with its connection. */
  lemma OnlyAnswersCover(s: State, e: Event, t: nat, n: N.Notification)
    requires Inv(s) && Enabled(s, e) && !Excused(s, e) && t in s.uncovered && Bears(s, t, n)
    ensures ListenerExists(s) && (t in Next(s, e).uncovered || AnswersReceipt(s, e, t, n))
  {
    OnlyRefreshesCover(s, e, t);
    if t !in Next(s, e).uncovered {
      HeadIsRight(s);
      assert s.refreshes[0] in s.refreshes && RefreshBears(s.refreshes[0], t, n);
    }
  }

  /** The running refresh is full exactly when it was asked to be or has captured a debt. */
  lemma HeadIsRight(s: State)
    requires Inv(s) && s.refreshes != [] && (s.refreshes[0].progress.Reading? || s.refreshes[0].progress.ReadCatalog? || s.refreshes[0].progress.Published?)
    ensures s.refreshes[0].progress.full <==> s.refreshes[0].fallback || s.refreshes[0].progress.captured.Some?
  {
    assert ProgressOk(s, s.refreshes[0]);
  }

  ghost predicate AnsweredDuring(s: State, events: seq<Event>, t: nat, n: N.Notification)
    decreases |events|
  {
    && events != [] && ListenerExists(s) && Enabled(s, events[0])
    && (AnswersReceipt(s, events[0], t, n) || AnsweredDuring(Next(s, events[0]), events[1..], t, n))
  }

  /** What a listener receives is held, from then on, for just that notification. */
  lemma ReceiptIsBorne(s: State, r: nat, n: N.Notification)
    requires Inv(s) && r < |s.runtimes|
    ensures Bears(Received(s, r, Usable(n)), s.clock, n)
  {
    NothingHeldYet(s, s.clock, n);
    hide Inv;
    ReceivedBears(s, r, Usable(n), s.clock, n);
  }

  lemma NothingHeldYet(s: State, t: nat, n: N.Notification)
    requires Inv(s) && s.clock <= t
    ensures Bears(s, t, n)
  {
    forall rt | rt in s.runtimes ensures RuntimeBears(rt, t, n) {
      var r :| 0 <= r < |s.runtimes| && s.runtimes[r] == rt;
      assert !Holds(s.runtimes[r], t);
    }
    forall q | q in s.refreshes ensures RefreshBears(q, t, n) {
      var i :| 0 <= i < |s.refreshes| && s.refreshes[i] == q;
    }
  }

  /** So is what startup held back, under the stamp it gets when its runtime enters the listeners. */
  lemma HeldBackIsBorne(s: State, at: Suspension, i: nat, n: N.Notification)
    requires Inv(s) && at.Starting? && i < |at.buffer| && at.buffer[i] == Usable(n)
    ensures Bears(EnterListeners(s, at), s.clock + i, n)
  {
    NothingHeldYet(s, s.clock + i, n);
    hide Inv;
    EnteredBears(s, at, s.clock + i, n);
  }

  /**
   * Over whole runs: a received notification stays on the observer's list until a refresh that started after its
   * receipt is published that is full, or re-read every object the notification names and was not asked to be full.
   */
  lemma {:induction false} ReceiptsAreAnswered(s: State, events: seq<Event>, s': State, t: nat, n: N.Notification)
    requires Inv(s) && OwingRun(s, events, s') && t in s.uncovered && Bears(s, t, n)
    ensures (t in s'.uncovered && Bears(s', t, n)) || AnsweredDuring(s, events, t, n)
    decreases |events|
  {
    if events != [] {
      var e := events[0];
      OnlyAnswersCover(s, e, t, n);
      NextKeeps(s, e);
      UncoveredBefore(s, t);
      StepBears(s, e, t, n);
      hide Next, Enabled, Inv, Bears, AnswersReceipt;
      if t in Next(s, e).uncovered {
        ReceiptsAreAnswered(Next(s, e), events[1..], s', t, n);
      }
    }
  }

  lemma UncoveredBefore(s: State, t: nat)
    requires Inv(s) && t in s.uncovered
    ensures t < s.clock
  {}

  /** A published refresh covers exactly its own stamps and, if it is full, everything received before it started. */
  lemma PublishingCovers(s: State, clean: bool, t: nat)
    requires Inv(s) && ListenerExists(s) && Enabled(s, RefreshPublishes(clean))
    ensures t in Next(s, RefreshPublishes(clean)).uncovered
            <==> && t in s.uncovered && t !in s.refreshes[0].stamps
                 && !(s.refreshes[0].progress.full && t < s.refreshes[0].progress.startedAt)
    ensures Next(s, RefreshPublishes(clean)).reflects
            == if s.refreshes[0].progress.full && s.reflects < s.refreshes[0].progress.at then s.refreshes[0].progress.at else s.reflects
  {
    hide Inv;
  }

  // ----- A debt is paid ----------------------------------------------------------------------------

  /** The running refresh is full and has captured the debt. */
  predicate Carries(s: State, debt: nat) {
    && s.refreshes != []
    && match s.refreshes[0].progress
       case Reading(_, captured, full) => full && captured == Some(debt)
       case ReadCatalog(_, captured, full, _) => full && captured == Some(debt)
       case Published(_, captured, full, _) => full && captured == Some(debt)
       case _ => false
  }

  lemma CarriesStep(s: State, e: Event, debt: nat)
    requires Inv(s) && ListenerExists(s) && Enabled(s, e) && Carries(s, debt) && !e.RefreshFails? && !e.RefreshCompletes?
    ensures Carries(Next(s, e), debt)
  {
    if !OfRefresh(e) {
      QueueStays(s, e);
      hide Next, Inv;
    } else {
      hide Inv;
    }
  }

  /** Refreshes wait in order: whatever else happens, they stay where they are in the queue. */
  lemma QueueStays(s: State, e: Event)
    requires Inv(s) && ListenerExists(s) && Enabled(s, e) && !OfRefresh(e)
    ensures s.refreshes <= Next(s, e).refreshes
  {
    var n := N.Notification(0, "", [], false, None);
    var never := s.clock + 1 + if s.active.Some? && s.active.value.Starting? then |s.active.value.buffer| else 0;
    NothingHeldYet(s, never, n);
    StepBears(s, e, never, n);
  }

  ghost predicate RunsOn(s: State, events: seq<Event>, s': State)
    decreases |events|
  {
    if events == [] then s' == s
    else
      && ListenerExists(s) && Enabled(s, events[0]) && !events[0].RefreshFails? && !events[0].RefreshCompletes?
      && RunsOn(Next(s, events[0]), events[1..], s')
  }

  lemma {:induction false} CarriedOn(s: State, events: seq<Event>, s': State, debt: nat)
    requires Inv(s) && RunsOn(s, events, s') && Carries(s, debt)
    ensures Inv(s') && Carries(s', debt)
    decreases |events|
  {
    if events != [] {
      CarriesStep(s, events[0], debt);
      NextKeeps(s, events[0]);
      hide Next, Enabled, Inv, Carries;
      CarriedOn(Next(s, events[0]), events[1..], s', debt);
    }
  }

  /**
   * A refresh that starts while a debt is owed is full and pays it: whatever happens until it completes, the debt is
   * gone then unless a later one has taken its place, and a listener is told that it listens.
   */
  lemma OwedDebtIsPaid(s: State, events: seq<Event>, s': State, debt: nat)
    requires Inv(s) && ListenerExists(s) && Enabled(s, RefreshStarts) && s.debt == Some(debt)
    requires RunsOn(Next(s, RefreshStarts), events, s') && ListenerExists(s') && Enabled(s', RefreshCompletes)
    ensures s'.refreshes[0].progress.full
    ensures s'.debt == Some(debt) || s'.debt.None? ==> Next(s', RefreshCompletes).debt.None?
    ensures s'.debt == Some(debt) && s'.listener.Some? ==>
              Next(s', RefreshCompletes).report == Some(Report(Listening, s'.runtimes[s'.listener.value].schema))
  {
    NextKeeps(s, RefreshStarts);
    hide Inv;
    assert Carries(Next(s, RefreshStarts), debt);
    CarriedOn(Next(s, RefreshStarts), events, s', debt);
    hide Enabled, Carries, RunsOn;
    CarriedIsPaid(s', debt);
  }

  lemma CarriedIsPaid(s: State, debt: nat)
    requires Carries(s, debt) && ListenerExists(s) && Enabled(s, RefreshCompletes)
    ensures s.refreshes[0].progress.full
    ensures s.debt == Some(debt) || s.debt.None? ==> Next(s, RefreshCompletes).debt.None?
    ensures s.debt == Some(debt) && s.listener.Some? ==>
              Next(s, RefreshCompletes).report == Some(Report(Listening, s.runtimes[s.listener.value].schema))
  {}
}
