/**
 * What a status says of the index (packages/catalog/src/ddlSync.ts): whatever tells of a gap marks the index stale,
 * and what a listener receives marks it too.
 */
module DdlSyncStatus {
  import opened Options
  import opened DdlSyncSpec
  import opened DdlSyncProofs
  import opened DdlSyncTheorems
  import opened DdlSyncQueues
  import N = DdlNotifications

  predicate BadNews(status: Status) {
    !status.Listening? && !status.Disabled?
  }

  /** A new report of a gap comes with the stale mark. */
  ghost predicate Marked(s: State, s': State) {
    s'.report == s.report || s'.report.None? || !BadNews(s'.report.value.status) || s'.stale
  }

  lemma SameReport(s: State, s': State)
    requires s'.report == s.report
    ensures Marked(s, s')
  {}

  lemma MarkedThen(s: State, t: State, s': State)
    requires t.report == s.report && Marked(t, s')
    ensures Marked(s, s')
  {}

  lemma NotifiedMarked(s: State, r: nat, note: Note)
    requires r < |s.runtimes|
    ensures Marked(s, OnNotification(s, r, note)) && (s.stale ==> OnNotification(s, r, note).stale)
    ensures OnNotification(s, r, note) == s || OnNotification(s, r, note).stale
    ensures |OnNotification(s, r, note).runtimes| == |s.runtimes|
  {}

  lemma {:induction false} DrainedMarked(s: State, r: nat, held: seq<Note>)
    requires r < |s.runtimes|
    ensures DrainStartup(s, r, held) == s || DrainStartup(s, r, held).stale
    decreases |held|
  {
    hide OnNotification;
    if held != [] {
      NotifiedMarked(s, r, held[0]);
      DrainedMarked(OnNotification(s, r, held[0]), r, held[1..]);
    }
  }

  lemma ClosedReport(s: State, r: nat)
    requires r < |s.runtimes|
    ensures OnListenerClosed(s, r).report == s.report && |OnListenerClosed(s, r).runtimes| == |s.runtimes|
  {}

  lemma StoppedReport(s: State, recordDebt: bool)
    requires ListenerExists(s)
    ensures StopListener(s, recordDebt).report == s.report
  {}

  lemma FlushReport(s: State, r: nat)
    requires r < |s.runtimes|
    ensures FlushEnds(s, r).report == s.report && FlushLoops(s, r).report == s.report
  {
    hide Batches;
  }

  lemma FlushStartedReport(s: State, r: nat)
    requires r < |s.runtimes|
    ensures FlushStarts(s, r).report == s.report
  {
    FlushReport(With(s, r, s.runtimes[r].(timer := false, flushing := true)), r);
    hide FlushLoops;
  }

  lemma FlushContinuedReport(s: State, r: nat)
    requires r < |s.runtimes| && s.runtimes[r].batch != []
    ensures FlushContinues(s, r).report == s.report
  {
    hide FlushLoops, FlushEnds, OnListenerClosed;
    var rt := s.runtimes[r];
    ClosedReport(s, r);
    FlushReport(OnListenerClosed(s, r), r);
    FlushReport(s, r);
    FlushReport(With(s, r, rt.(batch := [], outcome := Pending)), r);
  }

  lemma ReceivedMarked(s: State, r: nat, payload: Payload)
    requires r < |s.runtimes|
    ensures Marked(s, Received(s, r, payload))
  {
    var tracked := s.(clock := s.clock + 1, uncovered := s.uncovered + {s.clock});
    NotifiedMarked(tracked, r, Note(s.clock, payload));
    MarkedThen(s, tracked, OnNotification(tracked, r, Note(s.clock, payload)));
    hide OnNotification;
  }

  lemma RejectedMarked(s: State)
    requires ListenerExists(s)
    ensures Marked(s, RejectedReconcile(s))
  {
    if s.listener.Some? {
      ClosedReport(s, s.listener.value);
    }
    hide OnListenerClosed, CurrentConfig;
  }

  lemma SettledReportStays(s: State)
    requires s.refreshes != [] && s.refreshes[0].progress.Ended?
    ensures Settle(s).report == s.report
  {
    match s.refreshes[0].owner
    case OfFlush(_) =>
    case OfStartup(_) =>
    case OfReactivation(_) =>
  }

  lemma CompletedMarked(s: State)
    requires s.refreshes != [] && s.refreshes[0].progress.Published? && ListenerExists(s)
    ensures Marked(s, Complete(s))
  {}

  lemma ReconcileListenerReport(s: State, config: Config, epoch: nat)
    ensures ReconcileListener(s, config, epoch).report == s.report
  {
    hide StartStillRequired;
  }

  lemma ReconciledReport(s: State, epoch: nat, restart: bool, requested: bool)
    requires ListenerExists(s)
    ensures ReconcileConnection(s, epoch, restart, requested).report == s.report
  {
    var told, known := if s.known then MarkStale(s) else s, s.(known := true);
    StoppedReport(told, false);
    StoppedReport(known, true);
    hide StopListener, CurrentConfig, ReconcileListener;
    if CurrentConfig(known).Some? {
      ReconcileListenerReport(known, CurrentConfig(known).value, epoch);
    }
  }

  lemma StartedReport(s: State, operation: Operation)
    requires ListenerExists(s)
    ensures StartOperation(s, operation).report == s.report
  {
    hide StopListener, CurrentConfig, ReconcileConnection, StartSetEnabled, StartSetSchema;
    StoppedReport(s, true);
    StoppedReport(s, false);
    match operation
    case Reconcile(epoch, restart) => ReconciledReport(s, epoch, restart, true);
    case SetEnabled(enabled) => SetEnabledReport(s, enabled);
    case SetSchema(schema) => SetSchemaReport(s, schema);
    case _ =>
  }

  lemma SetEnabledReport(s: State, enabled: Option<bool>)
    requires ListenerExists(s)
    ensures StartSetEnabled(s, enabled).report == s.report
  {
    StoppedReport(s, true);
    hide StopListener, Configuration, CurrentConfig;
  }

  lemma SetSchemaReport(s: State, schema: Option<string>)
    requires ListenerExists(s)
    ensures StartSetSchema(s, schema).report == s.report
  {
    StoppedReport(s, true);
    hide StopListener, Configuration, ValidateSupportSchema, RequireFullRefresh;
  }

  lemma ResumedStopMarked(s: State, next: Then)
    requires ListenerExists(s)
    ensures Marked(s, ResumeStopping(s, next))
  {
    hide CurrentConfig, ReconcileListener, Intent;
    if next.ThenReconfigured? && CurrentConfig(s).Some? {
      ReconcileListenerReport(s, CurrentConfig(s).value, next.epoch);
    }
  }

  lemma ResumedStartupMarked(s: State, at: Suspension)
    requires at.StartupRefresh? && at.runtime < |s.runtimes|
    ensures Marked(s, ResumeStartup(s, at))
  {
    var r := at.runtime;
    DrainedMarked(With(s, r, s.runtimes[r].(published := true, startup := [])), r, s.runtimes[r].startup);
    ClosedReport(With(s, r, s.runtimes[r].(published := true)), r);
    hide DrainStartup, OnListenerClosed;
  }

  lemma ResumedMarked(s: State, at: Suspension)
    requires ListenerExists(s) && Resumable(s, at)
    ensures Marked(s, Resume(s, at))
  {
    hide ResumeStopping, ResumeStartup, OnListenerClosed, ResumeAfterClose, ResumeFailedStart, ResumeUnprovisioned, CurrentConfig, Intent;
    match at
    case Stopping(next) => ResumedStopMarked(s, next);
    case StartupRefresh(_, _, _, _) => ResumedStartupMarked(s, at);
    case Reactivating(r, _) => ClosedReport(s, r);
    case EndingClient(r, epoch) => AfterCloseMarked(s, r, epoch);
    case ClosingFailed(_, _, _) => FailedStartMarked(s, at);
    case ClosingUnprovisioned(_, _) => FailedStartMarked(s, at);
    case _ =>
  }

  lemma AfterCloseMarked(s: State, r: nat, epoch: nat)
    ensures Marked(s, ResumeAfterClose(s, r, epoch))
  {
    hide CurrentConfig, Intent;
  }

  lemma FailedStartMarked(s: State, at: Suspension)
    ensures at.ClosingFailed? ==> Marked(s, ResumeFailedStart(s, at))
    ensures at.ClosingUnprovisioned? ==> Marked(s, ResumeUnprovisioned(s, at))
  {
    hide StartStillRequired;
  }

  lemma EnteredMarked(s: State, at: Suspension)
    requires at.Starting?
    ensures Marked(s, EnterListeners(s, at))
  {
    var told, r := Reported(Entered(s, at.schema, at.buffer), Listening, at.schema), |s.runtimes|;
    DrainedMarked(With(told, r, told.runtimes[r].(published := true, startup := [])), r, told.runtimes[r].startup);
    hide DrainStartup, Stamped, Stamps;
  }

  lemma AnsweredMarked(s: State, at: Suspension, answer: Answer)
    requires ListenerExists(s) && Answerable(at) && !at.Provisioning?
    ensures Marked(s, AnswerOperation(s, at, answer))
  {
    hide ReconcileConnection, EnterListeners, StartStillRequired;
    match at
    case Persisting(override) => ReconciledReport(s.(store := Some(override)), s.epoch, false, false);
    case RemovingProvisioning(_) =>
    case Starting(_, _, _, _, _) => EnteredMarked(s, at);
  }

  lemma PlainReport(s: State, e: Event)
    requires ListenerExists(s) && Enabled(s, e) && !OfLifecycle(e)
    requires !e.ReconcileRejected? && !e.Receive? && !e.TimerFires? && !e.FlushResumes? && !e.RefreshCompletes?
             && !e.RefreshSettles? && !e.ClientFails?
    ensures Next(s, e).report == s.report
  {
    hide Enabled, Received, OnListenerClosed, FlushStarts, FlushContinues, Complete, Settle, RejectedReconcile, StartOperation, Resume,
         AnswerOperation, ListenerExists, CurrentConfig, StopListener;
  }

  /**
   * Whatever status tells of a gap, or that nobody listens because of a failure, is announced with the stale mark;
   * only a provisioning that PostgreSQL refuses is reported without it.
   */
  lemma GapsAreMarked(s: State, e: Event)
    requires ListenerExists(s) && Enabled(s, e)
    requires e.LifecycleAnswers? ==> !s.active.value.Provisioning?
    ensures Marked(s, Next(s, e))
  {
    hide Received, OnListenerClosed, FlushStarts, FlushContinues, Complete, Settle, RejectedReconcile, StartOperation, Resume, AnswerOperation,
         Resumable, Marked;
    match e
    case ReconcileRejected => RejectionMarked(s);
    case Receive(r, payload) => ReceivedMarked(s, r, payload);
    case TimerFires(r) =>
      FlushStartedReport(s, r);
      SameReport(s, Next(s, e));
    case FlushResumes(r) =>
      FlushContinuedReport(s, r);
      SameReport(s, Next(s, e));
    case RefreshCompletes => CompletedMarked(s);
    case RefreshSettles =>
      SettledReportStays(s);
      SameReport(s, Next(s, e));
    case ClientFails(r) =>
      ClosedReport(s, r);
      SameReport(s, Next(s, e));
    case LifecycleStarts =>
      StartedReport(s.(lifecycle := s.lifecycle[1..]), s.lifecycle[0]);
      SameReport(s, Next(s, e));
    case LifecycleResumes => ResumedMarked(s, s.active.value);
    case LifecycleAnswers(answer) => AnsweredMarked(s, s.active.value, answer);
    case _ =>
      PlainReport(s, e);
      SameReport(s, Next(s, e));
  }

  lemma RejectionMarked(s: State)
    requires ListenerExists(s) && s.failedReconciles > 0
    ensures Marked(s, Next(s, ReconcileRejected))
  {
    var less := s.(failedReconciles := s.failedReconciles - 1);
    RejectedMarked(less);
    hide RejectedReconcile;
    MarkedThen(s, less, RejectedReconcile(less));
  }

  /** What the published listener receives marks the index; what it cannot use is owed and reported besides. */
  lemma ReceiptsAreMarked(s: State, r: nat, payload: Payload)
    requires Inv(s) && s.listener == Some(r) && r < |s.runtimes| && s.runtimes[r].published
    ensures var s' := Received(s, r, payload);
            && s'.stale && s'.runtimes[r].schema == s.runtimes[r].schema
            && (payload.Usable? ==> s'.runtimes[r].notes == s.runtimes[r].notes + [Note(s.clock, payload)] && s'.runtimes[r].timer
                                    && s'.debt == s.debt && s'.report == s.report)
            && (payload.Rejected? ==> s'.debt == Some(s.debtSequence + 1) && s'.runtimes == s.runtimes
                                      && s'.report == Some(Report(Desynchronized, s.runtimes[r].schema)))
  {
    assert !s.runtimes[r].closed;
    hide Inv;
  }
}
