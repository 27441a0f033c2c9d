/**
 * The properties of the schema-synchronisation protocol, over every step and every run
 * (packages/catalog/src/ddlSync.ts).
 */
module DdlSyncTheorems {
  import opened Options
  import opened DdlSyncSpec
  import opened DdlSyncProofs

  // ----- What a step cannot undo ---------------------------------------------------------------

  /** A debt stays, or is replaced by a later one; what the index reflects does not shrink. */
  ghost predicate DebtSteady(s: State, s': State) {
    && (s.debt.Some? ==> s'.debt.Some? && s.debtAt <= s'.debtAt)
    && s.reflects <= s'.reflects
    && s.clock <= s'.clock
  }

  /** A received notification stays on the observer's list. */
  ghost predicate TrackSteady(s: State, s': State) {
    s.uncovered <= s'.uncovered
  }

  /** The removed connection whose last refresh is over: everything about it is dropped. */
  predicate Forgets(s: State, e: Event) {
    e == LifecycleResumes && s.active.Some? && s.active.value.AwaitingRefreshIdle? && s.store.None?
  }

  /** The steps after which nothing is owed: disposal, and the removal of the connection. */
  predicate Excused(s: State, e: Event) {
    || Forgets(s, e)
    || (e == LifecycleStarts && s.lifecycle != [] && (s.lifecycle[0].DisposeListener? || s.store.None?))
    || (e.LifecycleAnswers? && s.store.None?)
  }

  /** What taking notifications may change besides the runtime's queue. */
  ghost predicate Takes(s: State, d: State) {
    && (s.debt.Some? ==> s.debtAt <= s.clock)
    && (d.debt.Some? ==> d.debtAt <= d.clock)
    && (s.debt.Some? ==> d.debt.Some? && s.debtAt <= d.debtAt)
    && (d.debt == s.debt || (d.report.Some? && d.report.value.status == Desynchronized))
    && (d.report == s.report || (d.report.Some? && d.report.value.status == Desynchronized))
    && d.reflects == s.reflects && d.clock == s.clock && d.uncovered == s.uncovered
    && |d.runtimes| == |s.runtimes| && d.listener == s.listener && d.epoch == s.epoch && d.disposed == s.disposed
    && d.store == s.store && d.settings == s.settings
    && (forall q | 0 <= q < |s.runtimes| :: d.runtimes[q].schema == s.runtimes[q].schema && d.runtimes[q].closed == s.runtimes[q].closed)
  }

  lemma RejectedTakes(s: State, schema: string)
    requires s.debt.Some? ==> s.debtAt <= s.clock
    ensures Takes(s, Reported(MarkStale(RequireFullRefresh(s)), Desynchronized, schema))
  {}

  lemma QueuedTakes(s: State, r: nat, note: Note)
    requires r < |s.runtimes| && (s.debt.Some? ==> s.debtAt <= s.clock)
    ensures Takes(s, With(MarkStale(s), r, Queued(s.runtimes[r], note)))
  {}

  lemma NotifyingTakes(s: State, r: nat, note: Note)
    requires r < |s.runtimes| && (s.debt.Some? ==> s.debtAt <= s.clock)
    ensures Takes(s, OnNotification(s, r, note))
  {
    if s.runtimes[r].closed || s.listener != Some(r) {
      assert OnNotification(s, r, note) == s;
    } else {
      hide Takes;
      RejectedTakes(s, s.runtimes[r].schema);
      QueuedTakes(s, r, note);
    }
  }

  lemma {:induction false} DrainTakes(s: State, r: nat, held: seq<Note>)
    requires r < |s.runtimes| && (s.debt.Some? ==> s.debtAt <= s.clock)
    ensures Takes(s, DrainStartup(s, r, held))
    decreases |held|
  {
    if held != [] {
      NotifyingTakes(s, r, held[0]);
      DrainTakes(OnNotification(s, r, held[0]), r, held[1..]);
      hide OnNotification;
    }
  }

  lemma RefreshStepsSteady(s: State, e: Event)
    requires Inv(s) && ListenerExists(s) && Enabled(s, e)
    requires e.RefreshStarts? || e.RefreshReads? || e.RefreshPublishes? || e.RefreshFails? || e.RefreshSettles?
    ensures DebtSteady(s, Next(s, e))
    ensures !e.RefreshPublishes? ==> TrackSteady(s, Next(s, e))
    ensures Next(s, e).report == s.report && |Next(s, e).runtimes| == |s.runtimes|
  {
    if e.RefreshSettles? {
      assert FlushOwned(s, s.refreshes[0]);
      SettledShape(s);
      SettledReport(s);
      hide Inv, Settle;
    }
  }

  lemma SettledReport(s: State)
    requires s.refreshes != [] && s.refreshes[0].progress.Ended?
    ensures Settle(s).report == s.report
  {
    match s.refreshes[0].owner
    case OfFlush(r) =>
    case OfStartup(r) =>
    case OfReactivation(r) =>
  }

  /** What the report may become: nothing new, or something other than `listening`. */
  ghost predicate NotAnnouncing(s: State, s': State) {
    s'.report == s.report || s'.report.None? || s'.report.value.status != Listening
  }

  /** A step that records, closes or stops, and publishes no listener. */
  ghost predicate Plain(s: State, s': State) {
    DebtSteady(s, s') && NotAnnouncing(s, s') && |s'.runtimes| == |s.runtimes|
  }

  lemma ClosedPlain(s: State, r: nat)
    requires r < |s.runtimes| && (s.debt.Some? ==> s.debtAt <= s.clock)
    ensures Plain(s, OnListenerClosed(s, r)) && OnListenerClosed(s, r).uncovered == s.uncovered
    ensures OnListenerClosed(s, r).report == s.report
  {
  }

  lemma StoppedPlain(s: State, recordDebt: bool)
    requires ListenerExists(s) && (s.debt.Some? ==> s.debtAt <= s.clock)
    ensures Plain(s, StopListener(s, recordDebt))
    ensures recordDebt ==> StopListener(s, recordDebt).uncovered == s.uncovered
    ensures StopListener(s, recordDebt).report == s.report && StopListener(s, recordDebt).store == s.store
  {
  }

  /** The fields these properties are about. */
  ghost predicate Untouched(s: State, s': State) {
    && s'.debt == s.debt && s'.debtAt == s.debtAt && s'.reflects == s.reflects && s'.clock == s.clock
    && s'.report == s.report && s'.uncovered == s.uncovered && |s'.runtimes| == |s.runtimes| && s'.disposed == s.disposed
  }

  lemma UntouchedIsPlain(s: State, s': State)
    requires Untouched(s, s')
    ensures Plain(s, s') && TrackSteady(s, s') && s'.uncovered == s.uncovered
  {}

  /** What follows a plain step and touches nothing leaves it plain. */
  lemma PlainThen(s: State, t: State, s': State)
    requires Plain(s, t) && Untouched(t, s')
    ensures Plain(s, s') && s'.uncovered == t.uncovered
    ensures TrackSteady(s, t) ==> TrackSteady(s, s')
  {}

  lemma LoopUntouched(s: State, r: nat)
    requires r < |s.runtimes|
    ensures Untouched(s, FlushLoops(s, r)) && Untouched(s, FlushEnds(s, r))
  {
    hide Batches;
  }

  lemma AwaitUntouched(s: State, r: nat, batch: seq<Batch>)
    requires r < |s.runtimes| && batch != []
    ensures Untouched(s, AwaitBatch(s, r, batch))
  {
  }

  lemma FlushStartsUntouched(s: State, r: nat)
    requires r < |s.runtimes|
    ensures Untouched(s, FlushStarts(s, r))
  {
    LoopUntouched(With(s, r, s.runtimes[r].(timer := false, flushing := true)), r);
    hide FlushLoops;
  }

  lemma FlushContinuesPlain(s: State, r: nat)
    requires r < |s.runtimes| && s.runtimes[r].batch != [] && (s.debt.Some? ==> s.debtAt <= s.clock)
    ensures Plain(s, FlushContinues(s, r)) && FlushContinues(s, r).uncovered == s.uncovered
  {
    var rt := s.runtimes[r];
    ClosedPlain(s, r);
    assert |OnListenerClosed(s, r).runtimes| == |s.runtimes|;
    hide FlushLoops, FlushEnds, OnListenerClosed, AwaitBatch, Untouched, Plain;
    if rt.outcome == Failed {
      LoopUntouched(OnListenerClosed(s, r), r);
      PlainThen(s, OnListenerClosed(s, r), FlushContinues(s, r));
    } else {
      FlushWorksOn(s, r);
      UntouchedIsPlain(s, FlushContinues(s, r));
    }
  }

  lemma FlushWorksOn(s: State, r: nat)
    requires r < |s.runtimes| && s.runtimes[r].batch != [] && s.runtimes[r].outcome != Failed
    ensures Untouched(s, FlushContinues(s, r))
  {
    hide FlushLoops, FlushEnds, AwaitBatch;
    var rt := s.runtimes[r];
    if rt.closed {
      LoopUntouched(s, r);
    } else if |rt.batch| > 1 {
      AwaitUntouched(s, r, rt.batch[1..]);
    } else {
      LoopUntouched(With(s, r, rt.(batch := [], outcome := Pending)), r);
    }
  }

  lemma RejectedPlain(s: State)
    requires ListenerExists(s) && (s.debt.Some? ==> s.debtAt <= s.clock)
    ensures Plain(s, RejectedReconcile(s)) && RejectedReconcile(s).uncovered == s.uncovered
  {
    if s.listener.Some? {
      ClosedPlain(s, s.listener.value);
    }
    hide OnListenerClosed, Configuration;
  }

  lemma TakenPlain(s: State, tracked: State, r: nat, note: Note)
    requires r < |s.runtimes| && tracked == s.(clock := s.clock + 1, uncovered := s.uncovered + {s.clock})
    requires s.debt.Some? ==> s.debtAt <= s.clock
    ensures Plain(s, OnNotification(tracked, r, note)) && TrackSteady(s, OnNotification(tracked, r, note))
  {
    NotifyingTakes(tracked, r, note);
    hide OnNotification;
  }

  lemma ReceivedPlain(s: State, r: nat, payload: Payload)
    requires r < |s.runtimes| && (s.debt.Some? ==> s.debtAt <= s.clock)
    ensures Plain(s, Received(s, r, payload)) && TrackSteady(s, Received(s, r, payload))
  {
    var tracked := s.(clock := s.clock + 1, uncovered := s.uncovered + {s.clock});
    if !s.runtimes[r].closed && s.listener == Some(r) {
      hide OnNotification, Takes;
      if s.runtimes[r].published {
        ReceivedIsTaken(s, r, payload);
        TakenPlain(s, tracked, r, Note(s.clock, payload));
        hide Received;
      } else {
        assert Untouched(tracked, Received(s, r, payload));
      }
    }
  }

  lemma ReceivedIsTaken(s: State, r: nat, payload: Payload)
    requires r < |s.runtimes| && !s.runtimes[r].closed && s.listener == Some(r) && s.runtimes[r].published
    ensures Received(s, r, payload)
            == OnNotification(s.(clock := s.clock + 1, uncovered := s.uncovered + {s.clock}), r, Note(s.clock, payload))
  {
    hide OnNotification;
  }

  lemma ReconcileListenerUntouched(s: State, config: Config, epoch: nat)
    ensures Untouched(s, ReconcileListener(s, config, epoch))
  {
    hide Configuration;
  }

  lemma ReconcilePlain(s: State, epoch: nat, restart: bool, requested: bool)
    requires ListenerExists(s) && (s.debt.Some? ==> s.debtAt <= s.clock)
    ensures Plain(s, ReconcileConnection(s, epoch, restart, requested))
    ensures s.store.Some? ==> TrackSteady(s, ReconcileConnection(s, epoch, restart, requested))
  {
    if s.store.None? {
      ReconcileRemovedPlain(s, epoch, restart, requested);
    } else {
      ReconcileSavedPlain(s, epoch, restart, requested);
    }
    hide Plain, TrackSteady, ReconcileConnection;
  }

  lemma ReconcileRemovedPlain(s: State, epoch: nat, restart: bool, requested: bool)
    requires ListenerExists(s) && (s.debt.Some? ==> s.debtAt <= s.clock) && s.store.None?
    ensures Plain(s, ReconcileConnection(s, epoch, restart, requested))
  {
    var told := if s.known then MarkStale(s) else s;
    StoppedPlain(told, false);
    hide StopListener, Configuration, ReconcileListener;
  }

  lemma ReconcileSavedPlain(s: State, epoch: nat, restart: bool, requested: bool)
    requires ListenerExists(s) && (s.debt.Some? ==> s.debtAt <= s.clock) && s.store.Some?
    ensures Plain(s, ReconcileConnection(s, epoch, restart, requested))
    ensures TrackSteady(s, ReconcileConnection(s, epoch, restart, requested))
  {
    var told := s.(known := true);
    ReconcileSavedShape(s, epoch, restart, requested);
    StoppedPlain(told, true);
    hide StopListener, ReconcileConnection;
  }

  lemma ReconcileSavedShape(s: State, epoch: nat, restart: bool, requested: bool)
    requires ListenerExists(s) && s.store.Some?
    ensures var told, s' := s.(known := true), ReconcileConnection(s, epoch, restart, requested);
            Untouched(told, s') || Untouched(StopListener(told, true), s')
  {
    hide StopListener, CurrentConfig, ReconcileListener;
    var told := s.(known := true);
    if Intent(s, epoch) {
      var config := CurrentConfig(told);
      if config.Some? && config.value.enabled && !restart
         && !(s.listener.Some? && s.runtimes[s.listener.value].schema != config.value.schema) {
        ReconcileListenerUntouched(told, config.value, epoch);
      }
    }
  }

  lemma RecordedPlain(s: State)
    requires s.debt.Some? ==> s.debtAt <= s.clock
    ensures Plain(s, RequireFullRefresh(s)) && RequireFullRefresh(s).report == s.report
    ensures RequireFullRefresh(s).uncovered == s.uncovered
  {
  }

  lemma SetEnabledShape(s: State, enabled: Option<bool>)
    requires ListenerExists(s)
    ensures var s' := StartSetEnabled(s, enabled);
            Untouched(s, s') || Untouched(StopListener(s, true), s') || Untouched(RequireFullRefresh(s), s')
  {
    hide StopListener, Configuration, RequireFullRefresh;
    if s.store.Some? && CurrentConfig(s).Some? {
      var desired := Configuration(s.settings, s.store.value.(enabled := enabled));
      if desired.Some? {
        if desired.value.enabled {
          if CurrentConfig(s).value.enabled {
            assert Untouched(s, StartSetEnabled(s, enabled));
          } else {
            assert Untouched(RequireFullRefresh(s), StartSetEnabled(s, enabled));
          }
        } else {
          assert Untouched(StopListener(s, true), StartSetEnabled(s, enabled));
        }
      }
    }
  }

  lemma SetEnabledPlain(s: State, enabled: Option<bool>)
    requires ListenerExists(s) && (s.debt.Some? ==> s.debtAt <= s.clock)
    ensures Plain(s, StartSetEnabled(s, enabled)) && TrackSteady(s, StartSetEnabled(s, enabled))
  {
    SetEnabledShape(s, enabled);
    StoppedPlain(s, true);
    RecordedPlain(s);
    hide StopListener, StartSetEnabled, RequireFullRefresh;
  }

  lemma SetSchemaPlain(s: State, schema: Option<string>)
    requires ListenerExists(s) && (s.debt.Some? ==> s.debtAt <= s.clock)
    ensures Plain(s, StartSetSchema(s, schema)) && TrackSteady(s, StartSetSchema(s, schema))
  {
    StoppedPlain(s, true);
    SetSchemaUntouched(s, schema);
    hide StopListener, StartSetSchema;
  }

  lemma SetSchemaUntouched(s: State, schema: Option<string>)
    requires ListenerExists(s)
    ensures Untouched(s, StartSetSchema(s, schema)) || Untouched(StopListener(s, true), StartSetSchema(s, schema))
  {
    hide StopListener, Configuration, ValidateSupportSchema;
    if s.store.Some? && !(schema.Some? && ValidateSupportSchema(schema.value).None?) {
      var override := s.store.value.(schema := if schema.None? then None else ValidateSupportSchema(schema.value));
      var desired := Configuration(s.settings, override);
      if desired.Some? && s.listener.Some? && s.runtimes[s.listener.value].schema != desired.value.schema {
        assert Untouched(StopListener(s, true), StartSetSchema(s, schema));
      } else {
        assert Untouched(s, StartSetSchema(s, schema));
      }
    }
  }

  lemma ProvisioningPlain(s: State, operation: Operation)
    requires ListenerExists(s) && (s.debt.Some? ==> s.debtAt <= s.clock)
    requires operation.Provision? || operation.RemoveProvisioning? || operation.ListenerClosed? || operation.DisposeListener?
    ensures Plain(s, StartOperation(s, operation))
    ensures !operation.DisposeListener? ==> TrackSteady(s, StartOperation(s, operation))
  {
    StoppedPlain(s, !operation.DisposeListener?);
    ProvisioningShape(s, operation);
    hide StopListener, StartOperation;
  }

  lemma ProvisioningShape(s: State, operation: Operation)
    requires ListenerExists(s)
    requires operation.Provision? || operation.RemoveProvisioning? || operation.ListenerClosed? || operation.DisposeListener?
    ensures var s' := StartOperation(s, operation);
            Untouched(s, s') || Untouched(StopListener(s, !operation.DisposeListener?), s')
  {
    hide StopListener, CurrentConfig, StartSetEnabled, StartSetSchema, ReconcileConnection;
    var s' := StartOperation(s, operation);
    match operation
    case Provision => assert Untouched(s, s') || Untouched(StopListener(s, true), s');
    case RemoveProvisioning => assert Untouched(s, s') || Untouched(StopListener(s, true), s');
    case ListenerClosed(_, _) => assert Untouched(s, s');
    case DisposeListener => assert Untouched(StopListener(s, false), s');
  }

  lemma StartingPlain(s: State, operation: Operation)
    requires ListenerExists(s) && (s.debt.Some? ==> s.debtAt <= s.clock)
    ensures Plain(s, StartOperation(s, operation))
    ensures s.store.Some? && !operation.DisposeListener? ==> TrackSteady(s, StartOperation(s, operation))
  {
    match operation
    case SetEnabled(enabled) =>
      SetEnabledPlain(s, enabled);
      assert StartOperation(s, operation) == StartSetEnabled(s, enabled);
      hide StartSetEnabled, StartOperation;
    case SetSchema(schema) =>
      SetSchemaPlain(s, schema);
      assert StartOperation(s, operation) == StartSetSchema(s, schema);
      hide StartSetSchema, StartOperation;
    case Reconcile(epoch, restart) =>
      ReconcilePlain(s, epoch, restart, true);
      hide ReconcileConnection;
    case _ =>
      ProvisioningPlain(s, operation);
      hide StartOperation;
  }

  lemma FinishedUntouched(s: State)
    ensures Untouched(s, Finished(s))
    ensures forall at :: Untouched(s, Suspended(s, at))
  {}

  lemma PublishedPlain(s: State, r: nat)
    requires r < |s.runtimes| && (s.debt.Some? ==> s.debtAt <= s.clock)
    ensures Plain(s, PublishListener(s, r)) && TrackSteady(s, PublishListener(s, r))
  {
    DrainTakes(With(s, r, s.runtimes[r].(published := true, startup := [])), r, s.runtimes[r].startup);
    hide DrainStartup;
  }

  lemma StartupFailedPlain(s: State, r: nat)
    requires r < |s.runtimes| && (s.debt.Some? ==> s.debtAt <= s.clock)
    ensures Plain(s, StartupFailsPublished(s, r)) && TrackSteady(s, StartupFailsPublished(s, r))
  {
    ClosedPlain(With(s, r, s.runtimes[r].(published := true)), r);
    hide OnListenerClosed;
  }

  lemma ResumedStartupPlain(s: State, at: Suspension)
    requires at.StartupRefresh? && at.runtime < |s.runtimes|
    requires s.debt.Some? ==> s.debtAt <= s.clock
    ensures Plain(s, ResumeStartup(s, at)) && TrackSteady(s, ResumeStartup(s, at))
  {
    hide PublishListener, StartupFailsPublished, Plain, Untouched, TrackSteady, Finished, Suspended;
    var r := at.runtime;
    var receiving, failed := PublishListener(s, r), StartupFailsPublished(s, r);
    PublishedPlain(s, r);
    StartupFailedPlain(s, r);
    FinishedUntouched(receiving);
    FinishedUntouched(failed);
    FinishedUntouched(s);
    PlainThen(s, receiving, Finished(receiving));
    PlainThen(s, failed, Finished(failed));
    UntouchedIsPlain(s, Suspended(s, ClosingFailed(at.epoch, at.schema, false)));
  }

  lemma InvalidPlain(s: State, status: Status, schema: string)
    requires status != Listening
    ensures Plain(s, Finished(Reported(MarkStale(s), status, schema))) && TrackSteady(s, Finished(Reported(MarkStale(s), status, schema)))
    ensures Plain(s, Finished(Reported(s, status, schema))) && TrackSteady(s, Finished(Reported(s, status, schema)))
  {}

  lemma ResumedConfiguredPlain(s: State, epoch: nat, requested: bool)
    requires ListenerExists(s)
    ensures var s' := ResumeStopping(s, ThenReconfigured(epoch, requested)); Plain(s, s') && TrackSteady(s, s')
  {
    hide CurrentConfig, ReconcileListener, Intent, Untouched;
    FinishedUntouched(s);
    UntouchedIsPlain(s, Finished(s));
    if CurrentConfig(s).Some? {
      var config := CurrentConfig(s).value;
      ReconcileListenerUntouched(s, config, epoch);
      UntouchedIsPlain(s, ReconcileListener(s, config, epoch));
      InvalidPlain(s, Disabled, config.schema);
    }
  }

  lemma ResumedStopPlain(s: State, next: Then)
    requires ListenerExists(s)
    ensures Plain(s, ResumeStopping(s, next)) && TrackSteady(s, ResumeStopping(s, next))
  {
    if next.ThenReconfigured? {
      ResumedConfiguredPlain(s, next.epoch, next.requested);
    } else {
      hide Plain, Untouched, TrackSteady, Finished, Suspended, Reported, MarkStale, Intent;
      FinishedUntouched(s);
      if next.ThenInvalid? {
        InvalidPlain(s, Unavailable, next.schema);
      }
      UntouchedIsPlain(s, Finished(s));
      forall at ensures Plain(s, Suspended(s, at)) && TrackSteady(s, Suspended(s, at)) {
        UntouchedIsPlain(s, Suspended(s, at));
      }
    }
  }

  lemma ResumedFailedPlain(s: State, at: Suspension)
    requires at.ClosingFailed? && (s.debt.Some? ==> s.debtAt <= s.clock)
    ensures Plain(s, ResumeFailedStart(s, at)) && TrackSteady(s, ResumeFailedStart(s, at))
  {
    RecordedPlain(s);
    hide Configuration, RequireFullRefresh;
  }

  lemma ResumedUnprovisionedPlain(s: State, at: Suspension)
    requires at.ClosingUnprovisioned? && (s.debt.Some? ==> s.debtAt <= s.clock)
    ensures Plain(s, ResumeUnprovisioned(s, at)) && TrackSteady(s, ResumeUnprovisioned(s, at))
  {
    RecordedPlain(s);
    hide Configuration, RequireFullRefresh;
  }

  lemma ResumedAfterClosePlain(s: State, r: nat, epoch: nat)
    ensures Plain(s, ResumeAfterClose(s, r, epoch)) && TrackSteady(s, ResumeAfterClose(s, r, epoch))
  {
    hide Configuration;
  }

  lemma ResumingPlain(s: State, at: Suspension)
    requires ListenerExists(s) && Resumable(s, at) && (s.debt.Some? ==> s.debtAt <= s.clock)
    requires !(at.AwaitingRefreshIdle? && s.store.None?)
    ensures Plain(s, Resume(s, at)) && TrackSteady(s, Resume(s, at))
  {
    hide Configuration, ResumeStartup, OnListenerClosed, ResumeStopping, ResumeFailedStart, ResumeUnprovisioned, ResumeAfterClose;
    match at
    case Stopping(next) => ResumedStopPlain(s, next);
    case AwaitingRefreshIdle(_) =>
    case ClosingUnprovisioned(_, _) => ResumedUnprovisionedPlain(s, at);
    case ClosingFailed(_, _, _) => ResumedFailedPlain(s, at);
    case ClosingSuperseded =>
    case StartupRefresh(r, _, _, _) => ResumedStartupPlain(s, at);
    case Reactivating(r, _) => ClosedPlain(s, r);
    case EndingClient(r, epoch) => ResumedAfterClosePlain(s, r, epoch);
  }

  /** What publishing a listener leaves behind. */
  ghost predicate EntersCleanly(s: State, s': State, at: Suspension)
    requires at.Starting?
  {
    && DebtSteady(s, s') && TrackSteady(s, s')
    && |s'.runtimes| == |s.runtimes| + 1 && s'.listener == Some(|s.runtimes|)
    && s'.runtimes[|s.runtimes|].schema == at.schema && !s'.runtimes[|s.runtimes|].closed
    && s'.epoch == s.epoch && s'.disposed == s.disposed && s'.store == s.store && s'.settings == s.settings
    && (s'.report.Some? && s'.report.value.status == Listening ==> s'.debt.None?)
  }

  lemma EnteredBehindRefresh(s: State, at: Suspension)
    requires at.Starting? && (s.debt.Some? ==> s.debtAt <= s.clock) && (s.debt.Some? || s.stale)
    ensures EntersCleanly(s, EnterListeners(s, at), at)
  {
    hide Stamped, Stamps;
  }

  lemma EnteredAtOnce(s: State, at: Suspension)
    requires at.Starting? && s.debt.None? && !s.stale
    ensures EntersCleanly(s, EnterListeners(s, at), at)
  {
    var r := |s.runtimes|;
    var told := Reported(Entered(s, at.schema, at.buffer), Listening, at.schema);
    var listening := With(told, r, told.runtimes[r].(published := true, startup := []));
    assert EnterListeners(s, at) == Finished(DrainStartup(listening, r, told.runtimes[r].startup));
    hide DrainStartup, EnterListeners, Stamped;
    DrainTakes(listening, r, told.runtimes[r].startup);
  }

  lemma EnteredCleanly(s: State, at: Suspension)
    requires at.Starting? && (s.debt.Some? ==> s.debtAt <= s.clock)
    ensures EntersCleanly(s, EnterListeners(s, at), at)
  {
    hide EntersCleanly, EnterListeners;
    if s.debt.Some? || s.stale {
      EnteredBehindRefresh(s, at);
    } else {
      EnteredAtOnce(s, at);
    }
  }

  lemma AnsweredStartShape(s: State, at: Suspension, answer: Answer)
    requires at.Starting?
    ensures var s' := AnswerStarting(s, at, answer);
            || Untouched(s, s')
            || (s' == EnterListeners(s, at) && StartStillRequired(s, at.schema, at.epoch))
  {
    FinishedUntouched(s);
    hide EnterListeners, StartStillRequired, Untouched, Suspended;
  }

  /** The only answers that do more than report: reconciling, and publishing a listener. */
  lemma AnsweredPlain(s: State, at: Suspension, answer: Answer)
    requires ListenerExists(s) && Answerable(at) && (s.debt.Some? ==> s.debtAt <= s.clock)
    ensures var s' := AnswerOperation(s, at, answer);
            || (Plain(s, s') && (s.store.Some? ==> TrackSteady(s, s')))
            || (at.Starting? && s' == EnterListeners(s, at) && StartStillRequired(s, at.schema, at.epoch))
  {
    hide Plain, Untouched, TrackSteady, AnswerStarting, EnterListeners, ReconcileConnection;
    if at.Starting? {
      AnsweredStartShape(s, at, answer);
      if Untouched(s, AnswerStarting(s, at, answer)) {
        UntouchedIsPlain(s, AnswerStarting(s, at, answer));
      }
    } else if at.RemovingProvisioning? {
      AnsweredRemoving(s, at, answer);
    } else if at.Persisting? {
      AnsweredPersisting(s, at, answer);
    } else {
      AnsweredProvisioning(s, at, answer);
    }
  }

  lemma AnsweredRemoving(s: State, at: Suspension, answer: Answer)
    requires ListenerExists(s) && at.RemovingProvisioning?
    ensures Plain(s, AnswerOperation(s, at, answer)) && TrackSteady(s, AnswerOperation(s, at, answer))
  {
    hide Plain, Untouched, TrackSteady, Finished, Reported, MarkStale;
    FinishedUntouched(s);
    UntouchedIsPlain(s, Finished(s));
    forall status, schema | status != Listening
      ensures Plain(s, Finished(Reported(MarkStale(s), status, schema))) && TrackSteady(s, Finished(Reported(MarkStale(s), status, schema)))
    {
      InvalidPlain(s, status, schema);
    }
  }

  lemma ReconciledPlain(s: State, s1: State)
    requires ListenerExists(s1) && (s.debt.Some? ==> s.debtAt <= s.clock)
    requires s1 == s.(store := s1.store, report := s1.report) && (s1.report == s.report || s1.report.None?)
    ensures Plain(s, ReconcileConnection(s1, s.epoch, false, false))
    ensures s1.store.Some? ==> TrackSteady(s, ReconcileConnection(s1, s.epoch, false, false))
  {
    ReconcilePlain(s1, s.epoch, false, false);
    hide ReconcileConnection;
  }

  lemma AnsweredPersisting(s: State, at: Suspension, answer: Answer)
    requires ListenerExists(s) && at.Persisting? && (s.debt.Some? ==> s.debtAt <= s.clock)
    ensures Plain(s, AnswerOperation(s, at, answer))
    ensures s.store.Some? ==> TrackSteady(s, AnswerOperation(s, at, answer))
  {
    hide Plain, Untouched, TrackSteady, Finished, ReconcileConnection;
    FinishedUntouched(s);
    UntouchedIsPlain(s, Finished(s));
    ReconciledPlain(s, s.(store := Some(at.override)));
  }

  lemma AnsweredProvisioning(s: State, at: Suspension, answer: Answer)
    requires ListenerExists(s) && at.Provisioning? && (s.debt.Some? ==> s.debtAt <= s.clock)
    ensures Plain(s, AnswerOperation(s, at, answer))
    ensures s.store.Some? ==> TrackSteady(s, AnswerOperation(s, at, answer))
  {
    hide Plain, Untouched, TrackSteady, Finished, Reported, ReconcileConnection;
    FinishedUntouched(s);
    UntouchedIsPlain(s, Finished(s));
    ReconciledPlain(s, s.(report := None));
    InvalidPlain(s, if answer.Refused? && answer.insufficient then InsufficientPrivilege else Unavailable, at.schema);
  }

  lemma CompletedSteady(s: State)
    requires Inv(s) && ListenerExists(s) && Enabled(s, RefreshCompletes)
    ensures var s', p := Next(s, RefreshCompletes), s.refreshes[0].progress;
            && TrackSteady(s, s') && s'.reflects == s.reflects && |s'.runtimes| == |s.runtimes|
            && (s'.report == s.report || s'.report.value.status != Listening || s'.debt.None?)
            && (s.debt.Some? && s'.debt.None? ==>
                  p.full && p.captured == s.debt && s.debtAt <= p.startedAt && s.debtAt <= s'.reflects)
            && (s'.debt.Some? ==> s'.debt == s.debt && s'.debtAt == s.debtAt)
  {
    assert ProgressOk(s, s.refreshes[0]);
    CompleteShape(s);
    CompletedReport(s);
    hide Inv, Complete;
  }

  lemma CompletedReport(s: State)
    requires s.refreshes != [] && s.refreshes[0].progress.Published? && ListenerExists(s)
    ensures Complete(s).report == s.report || Complete(s).report.value.status != Listening || Complete(s).debt.None?
  {}

  /** What one step does to the debt, to the observer's list, to the report and to the runtimes. */
  ghost predicate StepOk(s: State, e: Event, s': State) {
    && (!Forgets(s, e) && e != RefreshCompletes ==> DebtSteady(s, s'))
    && (!Excused(s, e) && !e.RefreshPublishes? ==> TrackSteady(s, s'))
    && (s'.report != s.report && s'.report.Some? && s'.report.value.status == Listening ==> s'.debt.None?)
    && (|s'.runtimes| == |s.runtimes| || PublishesListener(s, e, s'))
  }

  /** A runtime entered `listeners`: for the newest epoch, while synchronisation is enabled on its support schema. */
  ghost predicate PublishesListener(s: State, e: Event, s': State) {
    && e.LifecycleAnswers? && s.listener.None?
    && |s'.runtimes| == |s.runtimes| + 1 && s'.listener == Some(|s.runtimes|)
    && s.active.Some? && s.active.value.Starting?
    && !s'.disposed && s'.epoch == s.active.value.epoch
    && CurrentConfig(s') == Some(Config(true, s'.runtimes[|s.runtimes|].schema))
  }

  lemma AnswerStepOk(s: State, e: Event)
    requires Inv(s) && ListenerExists(s) && Enabled(s, e) && e.LifecycleAnswers?
    ensures StepOk(s, e, Next(s, e))
  {
    var at, s' := s.active.value, Next(s, e);
    assert s.debt.Some? ==> s.debtAt <= s.clock;
    AnsweredPlain(s, at, e.answer);
    if at.Starting? {
      EnteredCleanly(s, at);
    }
    hide Inv, AnswerOperation, EnterListeners, Configuration;
  }

  lemma LifecycleStepOk(s: State, e: Event)
    requires Inv(s) && ListenerExists(s) && Enabled(s, e) && (e.LifecycleStarts? || e.LifecycleResumes?)
    ensures StepOk(s, e, Next(s, e))
  {
    assert s.debt.Some? ==> s.debtAt <= s.clock;
    hide Inv, StartOperation, Resume;
    match e
    case LifecycleStarts => StartingPlain(s.(lifecycle := s.lifecycle[1..]), s.lifecycle[0]);
    case LifecycleResumes =>
      if Forgets(s, e) {
        ForgottenShape(s);
      } else {
        ResumingPlain(s, s.active.value);
      }
  }

  lemma ForgottenShape(s: State)
    requires ListenerExists(s) && Enabled(s, LifecycleResumes) && Forgets(s, LifecycleResumes)
    ensures var s' := Next(s, LifecycleResumes);
            |s'.runtimes| == |s.runtimes| && (s'.report == s.report || s'.report.None?)
  {
  }

  lemma PeripheralUntouched(s: State, e: Event)
    requires ListenerExists(s) && Enabled(s, e) && Peripheral(e)
    ensures Untouched(s.(disposed := Next(s, e).disposed), Next(s, e))
  {
    if e.Request? || e.RequestReconcile? || e.Dispose? || e.ReconnectFires? {
      RequestUntouched(s, e);
      hide Next;
    }
  }

  lemma RequestUntouched(s: State, e: Event)
    requires ListenerExists(s) && Enabled(s, e) && (e.Request? || e.RequestReconcile? || e.Dispose? || e.ReconnectFires?)
    ensures Untouched(s.(disposed := Next(s, e).disposed), Next(s, e))
  {}

  lemma ElsewherePlain(s: State, e: Event)
    requires ListenerExists(s) && Enabled(s, e) && (e.Commit? || e.IndexedElsewhere?)
    ensures Plain(s, Next(s, e)) && TrackSteady(s, Next(s, e))
  {}

  lemma PeripheralPlain(s: State, e: Event)
    requires ListenerExists(s) && Enabled(s, e)
    requires Peripheral(e) || e.Commit? || e.IndexedElsewhere?
    ensures Plain(s, Next(s, e)) && TrackSteady(s, Next(s, e))
  {
    if Peripheral(e) {
      PeripheralUntouched(s, e);
      hide Next;
    } else {
      ElsewherePlain(s, e);
    }
  }

  lemma PlainIsOk(s: State, e: Event, s': State)
    requires Plain(s, s') && TrackSteady(s, s')
    ensures StepOk(s, e, s')
  {
    hide Forgets, Excused;
  }

  lemma ClientStepOk(s: State, e: Event)
    requires Inv(s) && ListenerExists(s) && Enabled(s, e)
    requires e.ReconcileRejected? || e.Receive? || e.ClientFails? || e.TimerFires? || e.FlushResumes?
    ensures StepOk(s, e, Next(s, e))
  {
    assert s.debt.Some? ==> s.debtAt <= s.clock;
    hide Inv;
    ClientStepPlain(s, e);
    hide StepOk, Plain, TrackSteady, Next;
    PlainIsOk(s, e, Next(s, e));
  }

  lemma ClientStepPlain(s: State, e: Event)
    requires ListenerExists(s) && Enabled(s, e) && (s.debt.Some? ==> s.debtAt <= s.clock)
    requires e.ReconcileRejected? || e.Receive? || e.ClientFails? || e.TimerFires? || e.FlushResumes?
    ensures Plain(s, Next(s, e)) && TrackSteady(s, Next(s, e))
  {
    hide RejectedReconcile, Received, OnListenerClosed, FlushStarts, FlushContinues;
    match e
    case ReconcileRejected => RejectedPlain(s.(failedReconciles := s.failedReconciles - 1));
    case Receive(r, payload) => ReceivedPlain(s, r, payload);
    case ClientFails(r) => ClosedPlain(s, r);
    case TimerFires(r) => FlushStartsUntouched(s, r);
    case FlushResumes(r) => FlushContinuesPlain(s, r);
  }

  lemma EveryStepOk(s: State, e: Event)
    requires Inv(s) && Enabled(s, e)
    ensures ListenerExists(s) && StepOk(s, e, Next(s, e))
  {
    ListenerThere(s);
    assert s.reflects <= s.clock && (s.debt.Some? ==> s.debtAt <= s.clock);
    hide Inv, Next;
    match e
    case ReconcileRejected => ClientStepOk(s, e);
    case Receive(_, _) => ClientStepOk(s, e);
    case ClientFails(_) => ClientStepOk(s, e);
    case TimerFires(_) => ClientStepOk(s, e);
    case FlushResumes(_) => ClientStepOk(s, e);
    case RefreshStarts => RefreshStepsSteady(s, e);
    case RefreshReads => RefreshStepsSteady(s, e);
    case RefreshPublishes(_) => RefreshStepsSteady(s, e);
    case RefreshFails => RefreshStepsSteady(s, e);
    case RefreshSettles => RefreshStepsSteady(s, e);
    case RefreshCompletes => CompletedSteady(s);
    case LifecycleStarts => LifecycleStepOk(s, e);
    case LifecycleResumes => LifecycleStepOk(s, e);
    case LifecycleAnswers(_) => AnswerStepOk(s, e);
    case _ => PeripheralPlain(s, e);
  }

  // ----- Debt soundness ------------------------------------------------------------------------

  /**
   * While the connection stays saved, a debt epoch is deleted only by a completed full refresh that
   * started after the debt was recorded, and then the index reflects every commit made before that.
   */
  lemma DebtClearedOnlyByCoveringRefresh(s: State, e: Event)
    requires Inv(s) && ListenerExists(s) && Enabled(s, e)
    requires s.debt.Some? && Next(s, e).debt.None?
    ensures || Forgets(s, e)
            || (&& e == RefreshCompletes
                && s.refreshes[0].progress.full
                && s.refreshes[0].progress.captured == s.debt
                && s.debtAt <= s.refreshes[0].progress.startedAt
                && s.debtAt <= Next(s, e).reflects)
  {
    EveryStepOk(s, e);
    if e == RefreshCompletes {
      CompletedSteady(s);
    }
    hide Inv, Next;
  }

  /** A debt raised while a refresh runs survives that refresh. */
  lemma DebtDuringRefreshSurvives(s: State, e: Event)
    requires Inv(s) && ListenerExists(s) && Enabled(s, e) && !Forgets(s, e)
    requires s.debt.Some? && Running(s) && !s.refreshes[0].progress.Ended? && s.refreshes[0].progress.startedAt < s.debtAt
    ensures Next(s, e).debt.Some?
  {
    if Next(s, e).debt.None? {
      DebtClearedOnlyByCoveringRefresh(s, e);
    }
  }

  /** A run in which the connection is never forgotten. */
  ghost predicate RememberingRun(s: State, events: seq<Event>, s': State)
    decreases |events|
  {
    if events == [] then s' == s
    else ListenerExists(s) && Enabled(s, events[0]) && !Forgets(s, events[0])
         && RememberingRun(Next(s, events[0]), events[1..], s')
  }

  /** Everything committed before `d` is owed to a debt or already reflected. */
  ghost predicate Answers(s: State, d: nat) {
    (s.debt.Some? && d <= s.debtAt) || d <= s.reflects
  }

  lemma StepAnswers(s: State, e: Event, d: nat)
    requires Inv(s) && Enabled(s, e) && !Forgets(s, e) && Answers(s, d)
    ensures ListenerExists(s) && Answers(Next(s, e), d)
  {
    EveryStepOk(s, e);
    if e == RefreshCompletes {
      CompletedSteady(s);
    }
    hide Inv, Next;
  }

  /** Over whole runs: once a debt is recorded at `d`, either a debt at least as late stands or the index reflects every commit before `d`. */
  lemma {:induction false} DebtIsPaidByReflection(s: State, events: seq<Event>, s': State, d: nat)
    requires Inv(s) && RememberingRun(s, events, s') && Answers(s, d)
    ensures Answers(s', d)
    ensures s'.debt.None? ==> d <= s'.reflects
    decreases |events|
  {
    if events != [] {
      StepAnswers(s, events[0], d);
      NextKeeps(s, events[0]);
      DebtIsPaidByReflection(Next(s, events[0]), events[1..], s', d);
    }
  }

  // ----- No stranded or silently lost notification ---------------------------------------------

  /** A refresh that started after stamp `t` and answers for it is published; one that was asked to be full is full. */
  predicate Covers(s: State, e: Event, t: nat) {
    && e.RefreshPublishes? && s.refreshes != [] && s.refreshes[0].progress.ReadCatalog?
    && t < s.refreshes[0].progress.startedAt
    && (s.refreshes[0].progress.full || t in s.refreshes[0].stamps)
    && (s.refreshes[0].fallback ==> s.refreshes[0].progress.full)
  }

  lemma OnlyRefreshesCover(s: State, e: Event, t: nat)
    requires Inv(s) && Enabled(s, e) && !Excused(s, e) && t in s.uncovered
    ensures ListenerExists(s) && (t in Next(s, e).uncovered || Covers(s, e, t))
  {
    EveryStepOk(s, e);
    if e.RefreshPublishes? {
      assert ProgressOk(s, s.refreshes[0]);
    }
  }

  /** The events of a run, none of which disposes the controller or removes the connection. */
  ghost predicate OwingRun(s: State, events: seq<Event>, s': State)
    decreases |events|
  {
    if events == [] then s' == s
    else ListenerExists(s) && Enabled(s, events[0]) && !Excused(s, events[0])
         && OwingRun(Next(s, events[0]), events[1..], s')
  }

  ghost predicate CoveredDuring(s: State, events: seq<Event>, t: nat)
    decreases |events|
  {
    && events != [] && ListenerExists(s) && Enabled(s, events[0])
    && (Covers(s, events[0], t) || CoveredDuring(Next(s, events[0]), events[1..], t))
  }

  /**
   * Over whole runs: a tracked notification is in the startup buffer, in the queue, in the batch being
   * flushed or behind a later debt, until a refresh that started after its receipt covers it.
   */
  lemma {:induction false} NothingIsStranded(s: State, events: seq<Event>, s': State, t: nat)
    requires Inv(s) && OwingRun(s, events, s') && t in s.uncovered && !s'.disposed
    ensures Accounted(s', t) || CoveredDuring(s, events, t)
    decreases |events|
  {
    if events != [] {
      var e := events[0];
      OnlyRefreshesCover(s, e, t);
      NextKeeps(s, e);
      if t in Next(s, e).uncovered {
        NothingIsStranded(Next(s, e), events[1..], s', t);
      }
    }
  }

  /** What a listed, open listener receives is tracked from that moment. */
  lemma ReceiptIsTracked(s: State, r: nat, payload: Payload)
    requires Inv(s) && s.listener == Some(r) && r < |s.runtimes|
    ensures s.clock in Received(s, r, payload).uncovered
  {
    var tracked := s.(clock := s.clock + 1, uncovered := s.uncovered + {s.clock});
    NotifyingTakes(tracked, r, Note(s.clock, payload));
    hide OnNotification;
  }

  /** A queue on an open runtime always has a timer set or a flush active, and an active flush is not waiting for nothing. */
  lemma QueuesAreServed(s: State, r: nat)
    requires Inv(s) && r < |s.runtimes|
    ensures !s.runtimes[r].closed && s.runtimes[r].notes != [] ==> s.runtimes[r].timer || s.runtimes[r].flushing
    ensures s.runtimes[r].flushing ==> Enabled(s, FlushResumes(r)) || InQueue(s, OfFlush(r))
  {
    assert RuntimeOk(s.runtimes[r]);
  }

  /** A queued refresh is never stuck: its next step is enabled. */
  lemma RefreshesAreServed(s: State)
    requires s.refreshes != []
    ensures || Enabled(s, RefreshStarts) || Enabled(s, RefreshReads) || Enabled(s, RefreshPublishes(true))
            || Enabled(s, RefreshCompletes) || Enabled(s, RefreshSettles)
  {
  }

  // ----- Listener uniqueness and intent --------------------------------------------------------

  /** Over whole runs from an initial state, at most one runtime is open and it is the published listener. */
  lemma AtMostOneOpenListener(s: State, events: seq<Event>, s': State)
    requires Initial(s) && Run(s, events, s')
    ensures forall q, r | 0 <= q < |s'.runtimes| && 0 <= r < |s'.runtimes| && !s'.runtimes[q].closed && !s'.runtimes[r].closed :: q == r
    ensures forall r | 0 <= r < |s'.runtimes| && !s'.runtimes[r].closed :: s'.listener == Some(r)
  {
    InitialHolds(s);
    RunKeeps(s, events, s');
  }

  /** A runtime is published only for the newest intent, with synchronisation enabled on its own support schema. */
  lemma PublishedForCurrentIntent(s: State, e: Event)
    requires Inv(s) && ListenerExists(s) && Enabled(s, e) && |Next(s, e).runtimes| != |s.runtimes|
    ensures PublishesListener(s, e, Next(s, e))
  {
    EveryStepOk(s, e);
    hide Inv, Next;
  }

  /** `listening` is announced only when no debt is outstanding. */
  lemma ListeningMeansNoDebt(s: State, e: Event)
    requires Inv(s) && ListenerExists(s) && Enabled(s, e)
    requires Next(s, e).report != s.report && Next(s, e).report.Some? && Next(s, e).report.value.status == Listening
    ensures Next(s, e).debt.None?
  {
    EveryStepOk(s, e);
    hide Inv, Next;
  }
}
