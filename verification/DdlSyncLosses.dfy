/** For what a listener is lost, and that every loss is owed (packages/catalog/src/ddlSync.ts). */
module DdlSyncLosses {
  import opened Options
  import opened DdlSyncSpec
  import opened DdlSyncProofs
  import opened DdlSyncTheorems
  import opened DdlSyncQueues

  // ----- The reasons -------------------------------------------------------------------------------

  /** A current reconciliation finds the connection gone, its configuration invalid or off, a restart asked for, or another schema. */
  predicate Outdated(s: State, r: nat, restart: bool)
    requires r < |s.runtimes|
  {
    var config := CurrentConfig(s);
    s.store.None? || config.None? || !config.value.enabled || restart || s.runtimes[r].schema != config.value.schema
  }

  /** The operation stops listener `r` when it starts. */
  predicate StopsFor(s: State, r: nat, operation: Operation)
    requires r < |s.runtimes|
  {
    match operation
    case SetEnabled(enabled) =>
      CurrentConfig(s).Some? && Configuration(s.settings, s.store.value.(enabled := enabled)).Some?
      && !Configuration(s.settings, s.store.value.(enabled := enabled)).value.enabled
    case SetSchema(schema) =>
      && s.store.Some? && (schema.Some? ==> ValidateSupportSchema(schema.value).Some?)
      && var wanted := Configuration(s.settings, s.store.value.(schema := if schema.None? then None else ValidateSupportSchema(schema.value)));
         wanted.Some? && s.runtimes[r].schema != wanted.value.schema
    case Provision => CurrentConfig(s).Some? && CurrentConfig(s).value.enabled
    case RemoveProvisioning => CurrentConfig(s).Some?
    case Reconcile(epoch, restart) => s.epoch == epoch && !s.disposed && Outdated(s, r, restart)
    case ListenerClosed(_, _) => false
    case DisposeListener => true
  }

  /** A refresh it awaited failed, or its client did before it was published. */
  predicate FailsFor(s: State, r: nat)
    requires r < |s.runtimes|
  {
    match s.active
    case Some(StartupRefresh(q, _, _, outcome)) => q == r && (outcome != Succeeded || s.runtimes[r].startupFailed)
    case Some(Reactivating(q, outcome)) => q == r && outcome == Failed
    case _ => false
  }

  predicate AnswerEnds(s: State, r: nat, answer: Answer)
    requires r < |s.runtimes|
  {
    answer.Done? &&
    match s.active
    case Some(Persisting(override)) => s.store.Some? && !s.disposed && Outdated(s.(store := Some(override)), r, false)
    case Some(Provisioning(_)) => !s.disposed && Outdated(s, r, false)
    case _ => false
  }

  /** Why the listener is lost in this step. */
  predicate Ends(s: State, e: Event, r: nat)
    requires r < |s.runtimes|
  {
    match e
    case ClientFails(q) => q == r && s.runtimes[r].published && !s.disposed
    case ReconcileRejected => s.store.Some? && !s.disposed
    case FlushResumes(q) => q == r && s.runtimes[r].outcome == Failed && !s.disposed
    case LifecycleResumes => FailsFor(s, r) && !s.disposed
    case LifecycleStarts => s.lifecycle != [] && StopsFor(s, r, s.lifecycle[0])
    case LifecycleAnswers(answer) => AnswerEnds(s, r, answer)
    case _ => false
  }

  // ----- Step by step ------------------------------------------------------------------------------

  lemma ClosedListener(s: State, r: nat)
    requires r < |s.runtimes|
    ensures var t := OnListenerClosed(s, r);
            t.listener == if !s.runtimes[r].closed && !s.disposed && s.listener == Some(r) then None else s.listener
  {}

  lemma StoppedListener(s: State, recordDebt: bool)
    requires ListenerExists(s)
    ensures StopListener(s, recordDebt).listener.None?
  {}

  lemma FlushKeepsListener(s: State, r: nat)
    requires r < |s.runtimes|
    ensures FlushEnds(s, r).listener == s.listener && FlushLoops(s, r).listener == s.listener
  {
    hide Batches;
  }

  lemma FlushStartedListener(s: State, r: nat)
    requires r < |s.runtimes|
    ensures FlushStarts(s, r).listener == s.listener
  {
    FlushKeepsListener(With(s, r, s.runtimes[r].(timer := false, flushing := true)), r);
    hide FlushLoops;
  }

  lemma FlushContinuedListener(s: State, q: nat, r: nat)
    requires Inv(s) && s.listener == Some(r) && q < |s.runtimes| && s.runtimes[q].batch != []
    ensures FlushContinues(s, q).listener != Some(r) <==> q == r && s.runtimes[r].outcome == Failed && !s.disposed
  {
    OpenIsListener(s, q, r);
    ClosedListener(s, q);
    ClosedCount(s, q);
    hide Inv, FlushLoops, FlushEnds, OnListenerClosed;
    var rt := s.runtimes[q];
    if rt.outcome == Failed {
      FlushKeepsListener(OnListenerClosed(s, q), q);
    } else {
      FlushKeepsListener(s, q);
      FlushKeepsListener(With(s, q, rt.(batch := [], outcome := Pending)), q);
    }
  }

  lemma ClosedCount(s: State, r: nat)
    requires r < |s.runtimes|
    ensures |OnListenerClosed(s, r).runtimes| == |s.runtimes|
  {}

  lemma OpenIsListener(s: State, q: nat, r: nat)
    requires Inv(s) && s.listener == Some(r) && q < |s.runtimes|
    ensures r < |s.runtimes| && !s.runtimes[r].closed
    ensures !s.runtimes[q].closed <==> q == r
  {}

  /** The one open runtime is the listener. */
  lemma OnlyListenerIsOpen(s: State)
    requires Inv(s)
    ensures ListenerExists(s)
    ensures s.listener.Some? ==> !s.runtimes[s.listener.value].closed
    ensures forall q | 0 <= q < |s.runtimes| && s.listener != Some(q) :: s.runtimes[q].closed
  {
    hide RuntimesOk, FlushesOk, RefreshesOk, DebtOk, AllAccounted, HeldBefore, StartupOk;
  }

  lemma NotifiedListener(s: State, r: nat, note: Note)
    requires r < |s.runtimes|
    ensures OnNotification(s, r, note).listener == s.listener
  {}

  lemma {:induction false} DrainedListener(s: State, r: nat, held: seq<Note>)
    requires r < |s.runtimes|
    ensures DrainStartup(s, r, held).listener == s.listener
    decreases |held|
  {
    hide OnNotification;
    if held != [] {
      NotifiedListener(s, r, held[0]);
      NotifiedCount(s, r, held[0]);
      DrainedListener(OnNotification(s, r, held[0]), r, held[1..]);
    }
  }

  lemma NotifiedCount(s: State, r: nat, note: Note)
    requires r < |s.runtimes|
    ensures |OnNotification(s, r, note).runtimes| == |s.runtimes|
  {}

  lemma ReconcileListenerKeepsIt(s: State, config: Config, epoch: nat)
    ensures ReconcileListener(s, config, epoch).listener == s.listener
  {
    hide StartStillRequired;
  }

  lemma ReconciledListener(s: State, r: nat, epoch: nat, restart: bool, requested: bool)
    requires s.listener == Some(r) && r < |s.runtimes|
    ensures ReconcileConnection(s, epoch, restart, requested).listener != Some(r)
            <==> s.epoch == epoch && !s.disposed && Outdated(s, r, restart)
  {
    var told, known := if s.known then MarkStale(s) else s, s.(known := true);
    StoppedListener(told, false);
    StoppedListener(known, true);
    assert CurrentConfig(known) == CurrentConfig(s);
    hide StopListener, CurrentConfig, ReconcileListener;
    if s.store.Some? && CurrentConfig(known).Some? {
      ReconcileListenerKeepsIt(known, CurrentConfig(known).value, epoch);
    }
  }

  lemma StartedListener(s: State, r: nat, operation: Operation)
    requires s.listener == Some(r) && r < |s.runtimes|
    ensures StartOperation(s, operation).listener != Some(r) <==> StopsFor(s, r, operation)
  {
    StoppedListener(s, true);
    StoppedListener(s, false);
    hide StopListener, Configuration, ReconcileConnection, ValidateSupportSchema;
    match operation
    case Reconcile(epoch, restart) => ReconciledListener(s, r, epoch, restart, true);
    case SetEnabled(enabled) => SetEnabledListener(s, r, enabled);
    case SetSchema(schema) => SetSchemaListener(s, r, schema);
    case _ =>
  }

  lemma SetEnabledListener(s: State, r: nat, enabled: Option<bool>)
    requires s.listener == Some(r) && r < |s.runtimes|
    ensures StartSetEnabled(s, enabled).listener != Some(r) <==> StopsFor(s, r, SetEnabled(enabled))
  {
    StoppedListener(s, true);
    hide StopListener, Configuration;
  }

  lemma SetSchemaListener(s: State, r: nat, schema: Option<string>)
    requires s.listener == Some(r) && r < |s.runtimes|
    ensures StartSetSchema(s, schema).listener != Some(r) <==> StopsFor(s, r, SetSchema(schema))
  {
    StoppedListener(s, true);
    hide StopListener, Configuration, ValidateSupportSchema;
  }

  lemma ResumedStopListener(s: State, next: Then)
    requires ListenerExists(s)
    ensures ResumeStopping(s, next).listener == s.listener
  {
    hide CurrentConfig, ReconcileListener, Intent;
    if next.ThenReconfigured? && CurrentConfig(s).Some? {
      ReconcileListenerKeepsIt(s, CurrentConfig(s).value, next.epoch);
    }
  }

  lemma ResumedStartupListener(s: State, at: Suspension, r: nat)
    requires at.StartupRefresh? && at.runtime < |s.runtimes| && s.listener == Some(r) && r < |s.runtimes| && !s.runtimes[r].closed
    ensures ResumeStartup(s, at).listener != Some(r)
            <==> at.runtime == r && (at.outcome != Succeeded || s.runtimes[r].startupFailed) && !s.disposed
  {
    var q := at.runtime;
    DrainedListener(With(s, q, s.runtimes[q].(published := true, startup := [])), q, s.runtimes[q].startup);
    ClosedListener(With(s, q, s.runtimes[q].(published := true)), q);
    hide DrainStartup, OnListenerClosed;
  }

  lemma ResumedListener(s: State, at: Suspension, r: nat)
    requires ListenerExists(s) && Resumable(s, at) && s.active == Some(at)
    requires s.listener == Some(r) && r < |s.runtimes| && !s.runtimes[r].closed
    ensures Resume(s, at).listener != Some(r) <==> FailsFor(s, r) && !s.disposed
  {
    hide ResumeStopping, ResumeStartup, OnListenerClosed, StartStillRequired, CurrentConfig, Intent, ResumeAfterClose, ResumeFailedStart,
         ResumeUnprovisioned;
    match at
    case Stopping(next) => ResumedStopListener(s, next);
    case StartupRefresh(_, _, _, _) => ResumedStartupListener(s, at, r);
    case Reactivating(q, _) => ClosedListener(s, q);
    case EndingClient(q, epoch) => AfterCloseShape(s, q, epoch);
    case ClosingFailed(_, _, _) => FailedStartListener(s, at);
    case ClosingUnprovisioned(_, _) => FailedStartListener(s, at);
    case _ =>
  }

  lemma FailedStartListener(s: State, at: Suspension)
    ensures at.ClosingFailed? ==> ResumeFailedStart(s, at).listener == s.listener
    ensures at.ClosingUnprovisioned? ==> ResumeUnprovisioned(s, at).listener == s.listener
  {
    hide StartStillRequired;
  }

  lemma AnsweredListener(s: State, at: Suspension, answer: Answer, r: nat)
    requires Answerable(at) && s.active == Some(at) && s.listener == Some(r) && r < |s.runtimes|
    ensures AnswerOperation(s, at, answer).listener != Some(r) <==> AnswerEnds(s, r, answer)
  {
    hide AnswerStarting, ReconcileConnection, Outdated;
    if at.Starting? {
      AnsweredStartListener(s, at, answer, r);
    } else if answer.Done? && at.Persisting? && s.store.Some? {
      ReconciledListener(s.(store := Some(at.override)), r, s.epoch, false, false);
    } else if answer.Done? && at.Provisioning? {
      ReconciledListener(s.(report := None), r, s.epoch, false, false);
      SameOutdated(s, r);
    } else {
      AnsweredShape(s, at, answer);
    }
  }

  lemma SameOutdated(s: State, r: nat)
    requires r < |s.runtimes|
    ensures Outdated(s.(report := None), r, false) == Outdated(s, r, false)
  {
    assert CurrentConfig(s.(report := None)) == CurrentConfig(s);
  }

  lemma AnsweredStartListener(s: State, at: Suspension, answer: Answer, r: nat)
    requires at.Starting? && s.listener == Some(r)
    ensures AnswerStarting(s, at, answer).listener == Some(r)
  {
    hide EnterListeners;
  }

  lemma RejectedListener(s: State, r: nat)
    requires s.listener == Some(r) && r < |s.runtimes| && !s.runtimes[r].closed
    ensures RejectedReconcile(s).listener != Some(r) <==> s.store.Some? && !s.disposed
  {
    ClosedListener(s, r);
    hide OnListenerClosed, CurrentConfig;
  }

  lemma ReceivedListener(s: State, r: nat, payload: Payload)
    requires r < |s.runtimes|
    ensures Received(s, r, payload).listener == s.listener
  {
    NotifiedListener(s.(clock := s.clock + 1, uncovered := s.uncovered + {s.clock}), r, Note(s.clock, payload));
    hide OnNotification;
  }

  lemma SettledListener(s: State)
    requires s.refreshes != [] && s.refreshes[0].progress.Ended?
    ensures Settle(s).listener == s.listener
  {}

  lemma PlainListener(s: State, e: Event)
    requires ListenerExists(s) && Enabled(s, e)
    requires !e.ReconcileRejected? && !e.Receive? && !e.TimerFires? && !e.FlushResumes? && !e.RefreshCompletes? && !e.RefreshSettles?
             && !e.ClientFails? && !e.LifecycleStarts? && !e.LifecycleResumes? && !e.LifecycleAnswers?
    ensures Next(s, e).listener == s.listener
  {
    hide Enabled, Received, OnListenerClosed, FlushStarts, FlushContinues, Complete, Settle, RejectedReconcile, StartOperation, Resume,
         AnswerOperation, ListenerExists, CurrentConfig, StopListener;
  }

  /** What comes from the outside. */
  predicate FromOutside(e: Event) {
    e.ReconcileRejected? || e.Receive? || e.TimerFires? || e.FlushResumes? || e.ClientFails?
  }

  lemma OutsideStep(s: State, e: Event, r: nat)
    requires Inv(s) && ListenerExists(s) && Enabled(s, e) && s.listener == Some(r) && FromOutside(e)
    ensures Next(s, e).listener != Some(r) <==> Ends(s, e, r)
  {
    hide Inv, Received, OnListenerClosed, FlushStarts, FlushContinues, RejectedReconcile, StopsFor, FailsFor, AnswerEnds;
    OpenIsListener(s, r, r);
    match e
    case ReconcileRejected => RejectedListener(s.(failedReconciles := s.failedReconciles - 1), r);
    case Receive(q, payload) => ReceivedListener(s, q, payload);
    case TimerFires(q) => FlushStartedListener(s, q);
    case FlushResumes(q) => FlushContinuedListener(s, q, r);
    case ClientFails(q) => FailedClient(s, q, r);
  }

  lemma FailedClient(s: State, q: nat, r: nat)
    requires Inv(s) && ListenerExists(s) && Enabled(s, ClientFails(q)) && s.listener == Some(r)
    ensures Next(s, ClientFails(q)).listener != Some(r) <==> Ends(s, ClientFails(q), r)
  {
    hide Inv, OnListenerClosed;
    OpenIsListener(s, q, r);
    ClosedListener(s, q);
  }

  lemma LifecycleStep(s: State, e: Event, r: nat)
    requires Inv(s) && ListenerExists(s) && Enabled(s, e) && s.listener == Some(r) && OfLifecycle(e)
    ensures Next(s, e).listener != Some(r) <==> Ends(s, e, r)
  {
    OpenIsListener(s, r, r);
    hide Inv, StartOperation, Resume, AnswerOperation, Resumable, StopsFor, FailsFor, AnswerEnds;
    match e
    case LifecycleStarts => StartedStep(s, r);
    case LifecycleResumes => ResumedListener(s, s.active.value, r);
    case LifecycleAnswers(answer) => AnsweredListener(s, s.active.value, answer, r);
  }

  /** The listener is lost in a step exactly for one of these reasons. */
  lemma ListenerIsLostExactlyFor(s: State, e: Event, r: nat)
    requires Inv(s) && Enabled(s, e) && s.listener == Some(r)
    ensures ListenerExists(s) && (Next(s, e).listener != Some(r) <==> Ends(s, e, r))
  {
    ListenerThere(s);
    hide Inv, Received, OnListenerClosed, FlushStarts, FlushContinues, Complete, Settle, RejectedReconcile, StartOperation, Resume,
         AnswerOperation, Resumable, StopsFor, FailsFor, AnswerEnds;
    if FromOutside(e) {
      OutsideStep(s, e, r);
    } else if OfLifecycle(e) {
      LifecycleStep(s, e, r);
    } else if e.RefreshCompletes? {
      CompleteShape(s);
    } else if e.RefreshSettles? {
      SettledListener(s);
    } else {
      PlainListener(s, e);
    }
  }

  lemma StartedStep(s: State, r: nat)
    requires s.listener == Some(r) && r < |s.runtimes| && s.lifecycle != []
    ensures StartOperation(s.(lifecycle := s.lifecycle[1..]), s.lifecycle[0]).listener != Some(r) <==> StopsFor(s, r, s.lifecycle[0])
  {
    var rest := s.(lifecycle := s.lifecycle[1..]);
    StartedListener(rest, r, s.lifecycle[0]);
    assert CurrentConfig(rest) == CurrentConfig(s);
    hide StartOperation, CurrentConfig, Configuration;
  }

  // ----- Every loss is owed ------------------------------------------------------------------------

  /** A new debt has been recorded in this step. */
  predicate Owes(s: State, s': State) {
    s'.debt == Some(s.debtSequence + 1) && s'.debtSequence == s.debtSequence + 1 && s'.debtAt == s.clock
  }

  lemma ClosedOwes(s: State, r: nat)
    requires r < |s.runtimes| && !s.runtimes[r].closed && !s.disposed
    ensures Owes(s, OnListenerClosed(s, r))
  {}

  lemma StoppedOwes(s: State)
    requires ListenerExists(s)
    ensures Owes(s, StopListener(s, true))
  {}

  lemma FlushOwes(s: State, r: nat)
    requires r < |s.runtimes| && s.runtimes[r].batch != [] && s.runtimes[r].outcome == Failed && !s.runtimes[r].closed && !s.disposed
    ensures Owes(s, FlushContinues(s, r))
  {
    ClosedOwes(s, r);
    ClosedCount(s, r);
    hide OnListenerClosed;
  }

  lemma ReconciledOwes(s: State, r: nat, epoch: nat, restart: bool, requested: bool)
    requires s.listener == Some(r) && r < |s.runtimes| && s.epoch == epoch && !s.disposed && Outdated(s, r, restart) && s.store.Some?
    ensures Owes(s, ReconcileConnection(s, epoch, restart, requested))
  {
    var known := s.(known := true);
    StoppedOwes(known);
    assert CurrentConfig(known) == CurrentConfig(s);
    hide StopListener, CurrentConfig, ReconcileListener;
  }

  lemma StartedOwes(s: State, r: nat, operation: Operation)
    requires s.listener == Some(r) && r < |s.runtimes| && StopsFor(s, r, operation) && s.store.Some? && !operation.DisposeListener?
    ensures Owes(s, StartOperation(s, operation))
  {
    StoppedOwes(s);
    hide StopListener, Configuration, ReconcileConnection, ValidateSupportSchema, Owes, Outdated;
    match operation
    case Reconcile(epoch, restart) => ReconciledOwes(s, r, epoch, restart, true);
    case SetEnabled(enabled) => SetEnabledOwes(s, r, enabled);
    case SetSchema(schema) => SetSchemaOwes(s, r, schema);
    case Provision => PausedOwes(s, StopListener(s, true));
    case RemoveProvisioning => PausedOwes(s, StopListener(s, true));
  }

  lemma PausedOwes(s: State, t: State)
    requires Owes(s, t)
    ensures Owes(s, Finished(t)) && forall at :: Owes(s, Suspended(t, at))
  {}

  lemma SetEnabledOwes(s: State, r: nat, enabled: Option<bool>)
    requires s.listener == Some(r) && r < |s.runtimes| && StopsFor(s, r, SetEnabled(enabled)) && s.store.Some?
    ensures Owes(s, StartSetEnabled(s, enabled))
  {
    StoppedOwes(s);
    hide StopListener, Configuration;
  }

  lemma SetSchemaOwes(s: State, r: nat, schema: Option<string>)
    requires s.listener == Some(r) && r < |s.runtimes| && StopsFor(s, r, SetSchema(schema))
    ensures Owes(s, StartSetSchema(s, schema))
  {
    StoppedOwes(s);
    hide StopListener, Configuration, ValidateSupportSchema;
  }

  lemma ResumedOwes(s: State, at: Suspension, r: nat)
    requires ListenerExists(s) && Resumable(s, at) && s.active == Some(at)
    requires s.listener == Some(r) && r < |s.runtimes| && !s.runtimes[r].closed && FailsFor(s, r) && !s.disposed
    ensures Owes(s, Resume(s, at))
  {
    ClosedOwes(s, r);
    ClosedOwes(With(s, r, s.runtimes[r].(published := true)), r);
    hide OnListenerClosed;
  }

  lemma AnsweredOwes(s: State, at: Suspension, answer: Answer, r: nat)
    requires Answerable(at) && s.active == Some(at) && s.listener == Some(r) && r < |s.runtimes| && AnswerEnds(s, r, answer) && s.store.Some?
    ensures Owes(s, AnswerOperation(s, at, answer))
  {
    SameOutdated(s, r);
    hide AnswerStarting, ReconcileConnection, Outdated;
    if at.Persisting? {
      ReconciledOwes(s.(store := Some(at.override)), r, s.epoch, false, false);
    } else {
      ReconciledOwes(s.(report := None), r, s.epoch, false, false);
    }
  }

  lemma RejectedOwes(s: State, r: nat)
    requires s.listener == Some(r) && r < |s.runtimes| && !s.runtimes[r].closed && s.store.Some? && !s.disposed
    ensures Owes(s, RejectedReconcile(s))
  {
    ClosedOwes(s, r);
    hide OnListenerClosed, CurrentConfig;
  }

  /** Whenever a saved connection loses its listener, but for disposal, a new debt is recorded in the same step. */
  lemma EveryLossIsOwed(s: State, e: Event, r: nat)
    requires Inv(s) && Enabled(s, e) && s.listener == Some(r) && s.store.Some?
    requires e == LifecycleStarts ==> s.lifecycle != [] && !s.lifecycle[0].DisposeListener?
    ensures ListenerExists(s) && (Next(s, e).listener != Some(r) ==> Owes(s, Next(s, e)))
  {
    ListenerIsLostExactlyFor(s, e, r);
    OpenIsListener(s, r, r);
    if Next(s, e).listener != Some(r) {
      hide Inv;
      LossOwes(s, e, r);
    }
  }

  lemma LossOwes(s: State, e: Event, r: nat)
    requires Enabled(s, e) && s.listener == Some(r) && r < |s.runtimes| && !s.runtimes[r].closed && s.store.Some? && Ends(s, e, r)
    requires e == LifecycleStarts ==> !s.lifecycle[0].DisposeListener?
    ensures Owes(s, Next(s, e))
  {
    hide OnListenerClosed, FlushContinues, RejectedReconcile, StartOperation, Resume, AnswerOperation, Resumable, StopsFor, FailsFor, AnswerEnds;
    match e
    case ReconcileRejected => RejectedOwes(s.(failedReconciles := s.failedReconciles - 1), r);
    case FlushResumes(q) => FlushOwes(s, q);
    case ClientFails(q) => ClosedOwes(s, q);
    case LifecycleStarts => StartedOwesStep(s, r);
    case LifecycleResumes => ResumedOwes(s, s.active.value, r);
    case LifecycleAnswers(answer) => AnsweredOwes(s, s.active.value, answer, r);
  }

  lemma StartedOwesStep(s: State, r: nat)
    requires s.listener == Some(r) && r < |s.runtimes| && s.lifecycle != [] && s.store.Some?
    requires StopsFor(s, r, s.lifecycle[0]) && !s.lifecycle[0].DisposeListener?
    ensures Owes(s, StartOperation(s.(lifecycle := s.lifecycle[1..]), s.lifecycle[0]))
  {
    var rest := s.(lifecycle := s.lifecycle[1..]);
    assert CurrentConfig(rest) == CurrentConfig(s);
    assert StopsFor(rest, r, s.lifecycle[0]) by {
      hide CurrentConfig, Configuration;
    }
    hide StopsFor, StartOperation;
    StartedOwes(rest, r, s.lifecycle[0]);
  }
}
