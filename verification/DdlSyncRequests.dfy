/**
 * What the requested operations achieve (packages/catalog/src/ddlSync.ts): settings are saved and take effect,
 * provisioning connects, a removed connection is forgotten, a listener starts only where it is provisioned.
 */
module DdlSyncRequests {
  import opened Options
  import opened DdlSyncSpec
  import opened DdlSyncProofs
  import opened DdlSyncTheorems
  import opened DdlSyncQueues
  import opened DdlSyncRetries
  import opened DdlSyncConverges
  import L = DdlSyncLosses

  // ----- The configuration -------------------------------------------------------------------------

  /** A saved override goes before the settings; both schemas have to be valid, and the effective one is trimmed. */
  lemma ConfigurationResolves(settings: Settings, override: Override)
    ensures Configuration(settings, override).Some?
            <==> ValidateSupportSchema(settings.schema).Some? && (override.schema.Some? ==> ValidateSupportSchema(override.schema.value).Some?)
    ensures Configuration(settings, override).Some? ==>
              var config := Configuration(settings, override).value;
              && (override.enabled.Some? ==> config.enabled == override.enabled.value)
              && (override.enabled.None? ==> config.enabled == settings.enabled)
              && (override.schema.Some? ==> Some(config.schema) == ValidateSupportSchema(override.schema.value))
              && (override.schema.None? ==> Some(config.schema) == ValidateSupportSchema(settings.schema))
  {
    hide ValidateSupportSchema;
  }

  predicate AllBlank(text: string) {
    forall c | c in text :: IsBlank(c)
  }

  /** Trimming removes the blanks at both ends and nothing else. */
  lemma {:induction false} TrimIsExact(text: string) returns (before: string, after: string)
    ensures text == before + Trim(text) + after && AllBlank(before) && AllBlank(after)
    ensures Trim(text) != "" ==> !IsBlank(Trim(text)[0]) && !IsBlank(Trim(text)[|Trim(text)| - 1])
    decreases |text|
  {
    if text == "" {
      before, after := "", "";
    } else if IsBlank(text[0]) {
      var front, back := TrimIsExact(text[1..]);
      before, after := [text[0]] + front, back;
      assert text == [text[0]] + text[1..];
    } else if IsBlank(text[|text| - 1]) {
      var front, back := TrimIsExact(text[..|text| - 1]);
      before, after := front, back + [text[|text| - 1]];
      assert text == text[..|text| - 1] + [text[|text| - 1]];
    } else {
      before, after := "", "";
    }
  }

  /** A support schema is accepted exactly as an unquoted lower-case name of at most 63 characters outside `pg_`. */
  lemma AcceptedSchemas(value: string, schema: string)
    ensures ValidateSupportSchema(value) == Some(schema)
            <==> && schema == Trim(value) && 1 <= |schema| <= 63 && ('a' <= schema[0] <= 'z' || schema[0] == '_')
                 && (forall c | c in schema :: 'a' <= c <= 'z' || '0' <= c <= '9' || c == '_')
                 && (|schema| >= 3 ==> schema[..3] != "pg_")
  {
    hide Trim;
    assert "pg_" <= schema <==> |schema| >= 3 && schema[..3] == "pg_";
  }

  // ----- Settings ----------------------------------------------------------------------------------

  predicate IsSetting(operation: Operation) {
    operation.SetEnabled? || operation.SetSchema?
  }

  /** The override that the operation asks for. */
  function Asked(override: Override, operation: Operation): Override
    requires IsSetting(operation)
  {
    match operation
    case SetEnabled(enabled) => Override(enabled, override.schema)
    case SetSchema(schema) =>
      Override(override.enabled, match schema case None => None case Some(text) => ValidateSupportSchema(text))
  }

  /** The connection is gone, or a configuration is invalid before or after: the operation fails at once. */
  predicate FailsAtOnce(s: State, operation: Operation)
    requires IsSetting(operation)
  {
    || s.store.None?
    || Configuration(s.settings, Asked(s.store.value, operation)).None?
    || (operation.SetEnabled? && CurrentConfig(s).None?)
    || (operation.SetSchema? && operation.schema.Some? && ValidateSupportSchema(operation.schema.value).None?)
  }

  /** The running operation is about to save this override. */
  predicate Saving(s: State, override: Override) {
    s.active == Some(Stopping(ThenPersist(override))) || s.active == Some(Persisting(override))
  }

  /**
   * A setting that can be made is about to be saved; turning synchronisation on or off owes a refresh, and whoever
   * listens on what is not wanted any more is stopped.
   */
  lemma SettingStarts(s: State)
    requires ListenerExists(s) && Enabled(s, LifecycleStarts) && IsSetting(s.lifecycle[0])
    ensures var s', operation := Next(s, LifecycleStarts), s.lifecycle[0];
            && (FailsAtOnce(s, operation) ==> s'.active.None? && s'.store == s.store && s'.listener == s.listener)
            && (!FailsAtOnce(s, operation) ==> Saving(s', Asked(s.store.value, operation)) && s'.store == s.store)
            && (!FailsAtOnce(s, operation) && operation.SetEnabled? ==>
                  var was, wanted := CurrentConfig(s).value, Configuration(s.settings, Asked(s.store.value, operation)).value;
                  if was.enabled && wanted.enabled then s'.debt == s.debt && s'.listener == s.listener
                  else L.Owes(s, s') && (!wanted.enabled ==> s'.listener.None?))
  {
    var rest := s.(lifecycle := s.lifecycle[1..]);
    assert CurrentConfig(rest) == CurrentConfig(s);
    match s.lifecycle[0]
    case SetEnabled(enabled) => EnabledStarts(rest, enabled);
    case SetSchema(schema) => SchemaStarts(rest, schema);
  }

  lemma EnabledStarts(s: State, enabled: Option<bool>)
    requires ListenerExists(s)
    ensures var s', operation := StartSetEnabled(s, enabled), SetEnabled(enabled);
            && (FailsAtOnce(s, operation) ==> s' == Finished(s))
            && (!FailsAtOnce(s, operation) ==> Saving(s', Asked(s.store.value, operation)) && s'.store == s.store)
            && (!FailsAtOnce(s, operation) ==>
                  var was, wanted := CurrentConfig(s).value, Configuration(s.settings, Asked(s.store.value, operation)).value;
                  if was.enabled && wanted.enabled then s'.debt == s.debt && s'.listener == s.listener
                  else L.Owes(s, s') && (!wanted.enabled ==> s'.listener.None?))
  {
    hide Configuration, CurrentConfig;
    StoppedOwing(s);
    assert s.store.Some? ==> s.store.value.(enabled := enabled) == Asked(s.store.value, SetEnabled(enabled));
    hide StopListener;
  }

  lemma StoppedOwing(s: State)
    requires ListenerExists(s)
    ensures L.Owes(s, StopListener(s, true)) && StopListener(s, true).store == s.store && StopListener(s, true).listener.None?
  {}

  lemma SchemaStarts(s: State, schema: Option<string>)
    requires ListenerExists(s)
    ensures var s', operation := StartSetSchema(s, schema), SetSchema(schema);
            && (FailsAtOnce(s, operation) ==> s' == Finished(s))
            && (!FailsAtOnce(s, operation) ==> Saving(s', Asked(s.store.value, operation)) && s'.store == s.store)
  {
    hide Configuration, ValidateSupportSchema;
    StoppedOwing(s);
    hide StopListener;
  }

  lemma SavingStays(s: State, e: Event, override: Override)
    requires ListenerExists(s) && Enabled(s, e) && Saving(s, override) && !e.LifecycleAnswers?
    requires Next(s, e).epoch == s.epoch && !Next(s, e).disposed
    ensures Saving(Next(s, e), override)
  {
    if OfLifecycle(e) {
      hide CurrentConfig;
    } else {
      OthersBeside(s, e);
      hide Next, Enabled;
    }
  }

  /** The steps lead to `s'`, and nothing newer is requested, answered or disposed. */
  ghost predicate Awaiting(s: State, events: seq<Event>, s': State)
    decreases |events|
  {
    && !s.disposed
    && if events == [] then s' == s
       else
         && ListenerExists(s) && Enabled(s, events[0]) && !events[0].LifecycleAnswers? && Next(s, events[0]).epoch == s.epoch
         && Awaiting(Next(s, events[0]), events[1..], s')
  }

  lemma {:induction false} StaysSaving(s: State, events: seq<Event>, s': State, override: Override)
    requires Saving(s, override) && Awaiting(s, events, s')
    ensures Saving(s', override)
    decreases |events|
  {
    if events != [] {
      SavingStays(s, events[0], override);
      hide Next, Enabled, Saving;
      StaysSaving(Next(s, events[0]), events[1..], s', override);
    }
  }

  /** When the store has answered, the override is what was asked for, and the controller converges to it. */
  lemma SavedTakesEffect(s: State, answer: Answer, override: Override)
    requires ListenerExists(s) && Enabled(s, LifecycleAnswers(answer)) && Saving(s, override)
    ensures var s' := Next(s, LifecycleAnswers(answer));
            && (!answer.Done? || s.store.None? ==> s'.store == s.store && s'.active.None?)
            && (answer.Done? && s.store.Some? ==> s'.store == Some(override))
            && (answer.Done? && s.store.Some? && s.lifecycle == [] && !s.disposed && Configuration(s.settings, override).Some? ==>
                  Converging(s', s.epoch, Configuration(s.settings, override).value))
  {
    var stored := s.(store := Some(override));
    assert CurrentConfig(stored) == Configuration(s.settings, override);
    ReconciledStore(stored, s.epoch);
    assert Next(s, LifecycleAnswers(answer))
           == if !answer.Done? || s.store.None? then Finished(s) else ReconcileConnection(stored, s.epoch, false, false);
    hide Configuration, ReconcileConnection, CurrentConfig, Converging, Next, Enabled, Saving;
    if answer.Done? && s.store.Some? && s.lifecycle == [] && !s.disposed && CurrentConfig(stored).Some? {
      ReconcileConverges(stored, s.epoch, false, false, CurrentConfig(stored).value);
    }
  }

  lemma ReconciledStore(s: State, epoch: nat)
    requires ListenerExists(s)
    ensures ReconcileConnection(s, epoch, false, false).store == s.store
  {
    StoppedStore(if s.known then MarkStale(s) else s, false);
    StoppedStore(s.(known := true), true);
    hide StopListener, CurrentConfig, StartStillRequired;
  }

  lemma StoppedStore(s: State, recordDebt: bool)
    requires ListenerExists(s)
    ensures StopListener(s, recordDebt).store == s.store
  {}

  /**
   * Over any run: a setting that is made is what the store holds when it has answered, and unless something newer is
   * requested the controller converges to the configuration it makes.
   */
  lemma SettingsTakeEffect(s: State, events: seq<Event>, s': State)
    requires ListenerExists(s) && Enabled(s, LifecycleStarts) && IsSetting(s.lifecycle[0]) && !FailsAtOnce(s, s.lifecycle[0])
    requires Awaiting(Next(s, LifecycleStarts), events, s') && ListenerExists(s') && Enabled(s', LifecycleAnswers(Done)) && s'.store.Some?
    ensures var override := Asked(s.store.value, s.lifecycle[0]);
            && Next(s', LifecycleAnswers(Done)).store == Some(override)
            && (s'.lifecycle == [] && !s'.disposed && Configuration(s'.settings, override).Some? ==>
                  Converging(Next(s', LifecycleAnswers(Done)), s'.epoch, Configuration(s'.settings, override).value))
  {
    var override := Asked(s.store.value, s.lifecycle[0]);
    SettingStarts(s);
    hide Next, Enabled, Configuration, Asked, FailsAtOnce, Saving;
    StaysSaving(Next(s, LifecycleStarts), events, s', override);
    SavedTakesEffect(s', Done, override);
  }

  // ----- Provisioning ------------------------------------------------------------------------------

  /** PostgreSQL is about to be asked to create, or to remove, the event triggers. */
  predicate AskingPostgres(s: State, next: Then, asking: Suspension) {
    (s.active == Some(Stopping(next)) || s.active == Some(asking)) && s.listener.None?
  }

  lemma AskingStays(s: State, e: Event, next: Then, asking: Suspension)
    requires ListenerExists(s) && Enabled(s, e) && AskingPostgres(s, next, asking) && !e.LifecycleAnswers?
    requires (next.ThenProvision? && asking == Provisioning(next.schema)) || (next.ThenRemoveProvisioning? && asking == RemovingProvisioning(next.config))
    requires Next(s, e).epoch == s.epoch && !Next(s, e).disposed
    ensures AskingPostgres(Next(s, e), next, asking)
  {
    if OfLifecycle(e) {
      hide CurrentConfig;
    } else {
      OthersBeside(s, e);
      hide Next, Enabled;
    }
  }

  lemma {:induction false} StaysAsking(s: State, events: seq<Event>, s': State, next: Then, asking: Suspension)
    requires AskingPostgres(s, next, asking) && Awaiting(s, events, s')
    requires (next.ThenProvision? && asking == Provisioning(next.schema)) || (next.ThenRemoveProvisioning? && asking == RemovingProvisioning(next.config))
    ensures AskingPostgres(s', next, asking)
    decreases |events|
  {
    if events != [] {
      AskingStays(s, events[0], next, asking);
      hide Next, Enabled, AskingPostgres;
      StaysAsking(Next(s, events[0]), events[1..], s', next, asking);
    }
  }

  lemma ProvisioningStarts(s: State)
    requires ListenerExists(s) && Enabled(s, LifecycleStarts) && CurrentConfig(s).Some?
    ensures s.lifecycle[0].Provision? && CurrentConfig(s).value.enabled ==>
              var schema := CurrentConfig(s).value.schema;
              AskingPostgres(Next(s, LifecycleStarts), ThenProvision(schema), Provisioning(schema))
    ensures s.lifecycle[0].RemoveProvisioning? ==>
              var config := CurrentConfig(s).value;
              AskingPostgres(Next(s, LifecycleStarts), ThenRemoveProvisioning(config), RemovingProvisioning(config))
  {
    var rest := s.(lifecycle := s.lifecycle[1..]);
    assert CurrentConfig(rest) == CurrentConfig(s);
    StoppedOwing(rest);
    hide CurrentConfig, StopListener, ReconcileConnection, StartSetEnabled, StartSetSchema;
  }

  /**
   * Over any run: once PostgreSQL has created the triggers, a start that had to be refused before is made again, on the
   * configured schema; a refusal is reported for what it is.
   */
  lemma ProvisioningConnects(s: State, events: seq<Event>, s': State, answer: Answer)
    requires ListenerExists(s) && Enabled(s, LifecycleStarts) && s.lifecycle[0].Provision? && CurrentConfig(s).Some? && CurrentConfig(s).value.enabled
    requires Awaiting(Next(s, LifecycleStarts), events, s') && ListenerExists(s') && Enabled(s', LifecycleAnswers(answer))
    ensures var t := Next(s', LifecycleAnswers(answer));
            && (answer.Done? && Wanted(s') && !s'.reconnect ==>
                  t.report.None? && t.active == Some(Starting(s'.epoch, CurrentConfig(s').value.schema, Connecting, [], false)))
            && (answer.Refused? ==>
                  t.report == Some(Report(if answer.insufficient then InsufficientPrivilege else Unavailable, CurrentConfig(s).value.schema))
                  && t.active.None?)
  {
    var schema := CurrentConfig(s).value.schema;
    ProvisioningStarts(s);
    AwaitingLives(Next(s, LifecycleStarts), events, s');
    hide Next, Enabled, CurrentConfig;
    StaysAsking(Next(s, LifecycleStarts), events, s', ThenProvision(schema), Provisioning(schema));
    ProvisioningAnswered(s', answer, schema);
  }

  lemma {:induction false} AwaitingLives(s: State, events: seq<Event>, s': State)
    requires Awaiting(s, events, s')
    ensures !s'.disposed
    decreases |events|
  {
    if events != [] {
      AwaitingLives(Next(s, events[0]), events[1..], s');
    }
  }

  lemma ProvisioningAnswered(s: State, answer: Answer, schema: string)
    requires ListenerExists(s) && Enabled(s, LifecycleAnswers(answer)) && AskingPostgres(s, ThenProvision(schema), Provisioning(schema))
    requires !s.disposed
    ensures var t := Next(s, LifecycleAnswers(answer));
            && (answer.Done? && Wanted(s) && !s.reconnect ==>
                  t.report.None? && t.active == Some(Starting(s.epoch, CurrentConfig(s).value.schema, Connecting, [], false)))
            && (answer.Refused? ==>
                  t.report == Some(Report(if answer.insufficient then InsufficientPrivilege else Unavailable, schema)) && t.active.None?)
  {
    var told := s.(report := None).(known := true);
    assert CurrentConfig(told) == CurrentConfig(s) && CurrentConfig(s.(report := None)) == CurrentConfig(s);
    hide CurrentConfig, StopListener;
  }

  /** When the triggers are gone, the index is stale and provisioning is required again, if synchronisation is on. */
  lemma RemovalIsReported(s: State, events: seq<Event>, s': State, answer: Answer)
    requires ListenerExists(s) && Enabled(s, LifecycleStarts) && s.lifecycle[0].RemoveProvisioning? && CurrentConfig(s).Some?
    requires Awaiting(Next(s, LifecycleStarts), events, s') && ListenerExists(s') && Enabled(s', LifecycleAnswers(answer))
    ensures var t, config := Next(s', LifecycleAnswers(answer)), CurrentConfig(s).value;
            && (answer.Done? ==> t.stale && t.report == Some(Report(if config.enabled then ProvisioningRequired else Disabled, config.schema)))
            && (answer.Refused? ==>
                  t.stale && t.report == Some(Report(if answer.insufficient then InsufficientPrivilege else Unavailable, config.schema)))
            && t.listener.None? && t.active.None?
  {
    var config := CurrentConfig(s).value;
    ProvisioningStarts(s);
    hide CurrentConfig, StartOperation;
    StaysAsking(Next(s, LifecycleStarts), events, s', ThenRemoveProvisioning(config), RemovingProvisioning(config));
    hide Awaiting, Next, Enabled;
    RemovalAnswered(s', answer, config);
  }

  lemma RemovalAnswered(s: State, answer: Answer, config: Config)
    requires ListenerExists(s) && Enabled(s, LifecycleAnswers(answer))
    requires AskingPostgres(s, ThenRemoveProvisioning(config), RemovingProvisioning(config))
    ensures var t := Next(s, LifecycleAnswers(answer));
            && (answer.Done? ==> t.stale && t.report == Some(Report(if config.enabled then ProvisioningRequired else Disabled, config.schema)))
            && (answer.Refused? ==>
                  t.stale && t.report == Some(Report(if answer.insufficient then InsufficientPrivilege else Unavailable, config.schema)))
            && t.listener.None? && t.active.None?
  {
    hide CurrentConfig, StopListener, ReconcileConnection;
  }

  // ----- A start -----------------------------------------------------------------------------------

  /** How far a start has come: each stage is reached by one answer without an objection, and the client lives. */
  predicate StartedRightly(s: State, answers: seq<Answer>) {
    s.active.Some? && s.active.value.Starting? ==>
      match s.active.value.stage
      case Connecting => true
      case Querying => |answers| >= 1 && answers[|answers| - 1].Done?
      case Subscribing => |answers| >= 2 && answers[|answers| - 1].Done? && answers[|answers| - 2].Done?
  }

  /** What the running operations were answered. */
  function AnswersOf(events: seq<Event>): seq<Answer> {
    if events == [] then []
    else
      var last := events[|events| - 1];
      AnswersOf(events[..|events| - 1]) + if last.LifecycleAnswers? then [last.answer] else []
  }

  lemma StartStep(s: State, e: Event, answers: seq<Answer>)
    requires ListenerExists(s) && Enabled(s, e) && StartedRightly(s, answers)
    ensures StartedRightly(Next(s, e), if e.LifecycleAnswers? then answers + [e.answer] else answers)
  {
    if !OfLifecycle(e) {
      OthersStage(s, e);
      hide Next, Enabled;
    } else {
      match e
      case LifecycleStarts =>
        StartedStage(s.(lifecycle := s.lifecycle[1..]), s.lifecycle[0]);
        hide StartOperation;
      case LifecycleResumes =>
        ResumedStage(s, s.active.value);
        hide Resume, Resumable;
      case LifecycleAnswers(answer) =>
        AnsweredStage(s, s.active.value, answer);
        hide AnswerOperation;
    }
  }

  /** A start that begins begins by connecting. */
  predicate AtMostConnecting(s: State) {
    s.active.Some? && s.active.value.Starting? ==> s.active.value.stage.Connecting?
  }

  predicate SameStart(a: Option<Suspension>, b: Option<Suspension>) {
    b.Some? && b.value.Starting? ==> a.Some? && a.value.Starting? && b.value.stage == a.value.stage
  }

  lemma OthersStage(s: State, e: Event)
    requires ListenerExists(s) && Enabled(s, e) && !OfLifecycle(e)
    ensures SameStart(s.active, Next(s, e).active)
  {
    hide Received, OnListenerClosed, FlushStarts, FlushContinues, Complete, Settle, RejectedReconcile;
    match e
    case ReconcileRejected => RejectedActive(s.(failedReconciles := s.failedReconciles - 1));
    case Receive(r, payload) => ReceivedActive(s, r, payload);
    case TimerFires(r) => FlushStartedActive(s, r);
    case FlushResumes(r) => FlushContinuedActive(s, r);
    case RefreshCompletes => CompleteShape(s);
    case RefreshSettles => SettledActive(s);
    case ClientFails(r) => ClosedActive(s, r);
    case _ => PlainActive(s, e);
  }

  lemma ClosedActive(s: State, r: nat)
    requires r < |s.runtimes|
    ensures OnListenerClosed(s, r).active == s.active && |OnListenerClosed(s, r).runtimes| == |s.runtimes|
  {}

  lemma FlushActive(s: State, r: nat)
    requires r < |s.runtimes|
    ensures FlushEnds(s, r).active == s.active && FlushLoops(s, r).active == s.active
  {
    hide Batches;
  }

  lemma FlushStartedActive(s: State, r: nat)
    requires r < |s.runtimes|
    ensures FlushStarts(s, r).active == s.active
  {
    FlushActive(With(s, r, s.runtimes[r].(timer := false, flushing := true)), r);
    hide FlushLoops;
  }

  lemma FlushContinuedActive(s: State, r: nat)
    requires r < |s.runtimes| && s.runtimes[r].batch != []
    ensures FlushContinues(s, r).active == s.active
  {
    ClosedActive(s, r);
    hide FlushLoops, FlushEnds, OnListenerClosed;
    FlushActive(OnListenerClosed(s, r), r);
    FlushActive(s, r);
    FlushActive(With(s, r, s.runtimes[r].(batch := [], outcome := Pending)), r);
  }

  lemma NotifiedActive(s: State, r: nat, note: Note)
    requires r < |s.runtimes|
    ensures OnNotification(s, r, note).active == s.active
  {}

  lemma ReceivedActive(s: State, r: nat, payload: Payload)
    requires r < |s.runtimes|
    ensures Received(s, r, payload).active == s.active
  {
    NotifiedActive(s.(clock := s.clock + 1, uncovered := s.uncovered + {s.clock}), r, Note(s.clock, payload));
    hide OnNotification;
  }

  lemma RejectedActive(s: State)
    requires ListenerExists(s)
    ensures RejectedReconcile(s).active == s.active
  {
    if s.listener.Some? {
      ClosedActive(s, s.listener.value);
    }
    hide OnListenerClosed, CurrentConfig;
  }

  lemma PlainActive(s: State, e: Event)
    requires ListenerExists(s) && Enabled(s, e) && !OfLifecycle(e)
    requires !e.ReconcileRejected? && !e.Receive? && !e.TimerFires? && !e.FlushResumes? && !e.RefreshCompletes?
             && !e.RefreshSettles? && !e.ClientFails?
    ensures SameStart(s.active, Next(s, e).active)
  {
    hide Received, OnListenerClosed, FlushStarts, FlushContinues, Complete, Settle, RejectedReconcile, StartOperation, Resume,
         AnswerOperation, ListenerExists, CurrentConfig, StopListener;
  }

  lemma ReconcileListenerStage(s: State, config: Config, epoch: nat)
    ensures AtMostConnecting(ReconcileListener(s, config, epoch))
  {
    hide StartStillRequired;
  }

  lemma ReconciledStage(s: State, epoch: nat, restart: bool, requested: bool)
    requires ListenerExists(s)
    ensures AtMostConnecting(ReconcileConnection(s, epoch, restart, requested))
  {
    hide StopListener, CurrentConfig, ReconcileListener;
    var known := s.(known := true);
    if CurrentConfig(known).Some? {
      ReconcileListenerStage(known, CurrentConfig(known).value, epoch);
    }
  }

  lemma StartedStage(s: State, operation: Operation)
    requires ListenerExists(s)
    ensures AtMostConnecting(StartOperation(s, operation))
  {
    hide StopListener, CurrentConfig, Configuration, ReconcileConnection, ValidateSupportSchema;
    match operation
    case Reconcile(epoch, restart) => ReconciledStage(s, epoch, restart, true);
    case _ =>
  }

  lemma ResumedStage(s: State, at: Suspension)
    requires ListenerExists(s) && Resumable(s, at)
    ensures AtMostConnecting(Resume(s, at))
  {
    hide OnListenerClosed, CurrentConfig, Intent, StartStillRequired, PublishListener, StartupFailsPublished, ReconcileListener,
         RequireFullRefresh, ScheduleReconnect;
    if at.Stopping? && at.next.ThenReconfigured? && CurrentConfig(s).Some? {
      ReconcileListenerStage(s, CurrentConfig(s).value, at.next.epoch);
    }
  }

  lemma AnsweredStage(s: State, at: Suspension, answer: Answer)
    requires ListenerExists(s) && Answerable(at) && s.active == Some(at)
    requires answer.NotProvisioned? ==> at.Starting? && at.stage.Querying?
    ensures AnswerOperation(s, at, answer).active.Some? && AnswerOperation(s, at, answer).active.value.Starting? ==>
              AtMostConnecting(AnswerOperation(s, at, answer))
              || (at.Starting? && answer.Done?
                  && (AnswerOperation(s, at, answer).active.value.stage.Subscribing? ==> at.stage.Querying?))
  {
    hide ReconcileConnection, EnterListeners, StartStillRequired;
    match at
    case Persisting(override) => ReconciledStage(s.(store := Some(override)), s.epoch, false, false);
    case Provisioning(_) => ReconciledStage(s.(report := None), s.epoch, false, false);
    case RemovingProvisioning(_) =>
    case Starting(_, _, _, _, _) => EnteredActive(s, at);
  }

  lemma EnteredActive(s: State, at: Suspension)
    requires at.Starting?
    ensures var s' := EnterListeners(s, at); s'.active.None? || s'.active.value.StartupRefresh?
  {
    hide PublishListener;
  }

  lemma {:induction false} RunStartsRightly(s: State, events: seq<Event>, s': State)
    requires Run(s, events, s') && s.active.None?
    ensures StartedRightly(s', AnswersOf(events))
    decreases |events|
  {
    if events != [] {
      hide Next, Enabled, ListenerExists, StartedRightly, Run;
      var before, last := events[..|events| - 1], events[|events| - 1];
      var t := LastStep(s, events, s');
      RunStartsRightly(s, before, t);
      StartStep(t, last, AnswersOf(before));
      assert AnswersOf(before) + [] == AnswersOf(before);
    }
  }

  /** The state before the last step of a run. */
  lemma {:induction false} LastStep(s: State, events: seq<Event>, s': State) returns (t: State)
    requires Run(s, events, s') && events != []
    ensures Run(s, events[..|events| - 1], t) && ListenerExists(t) && Enabled(t, events[|events| - 1]) && Next(t, events[|events| - 1]) == s'
    decreases |events|
  {
    hide Next, Enabled, ListenerExists;
    if |events| == 1 {
      t := s;
      assert events[..0] == [] && events[1..] == [];
    } else {
      t := LastStep(Next(s, events[0]), events[1..], s');
      assert events[1..][..|events| - 2] == events[..|events| - 1][1..];
      assert events[..|events| - 1][0] == events[0] && events[1..][|events| - 2] == events[|events| - 1];
    }
  }

  /**
   * A runtime enters the listeners only after its client connected, PostgreSQL answered that the schema is provisioned,
   * and LISTEN succeeded, one answer after the other, and nothing failed its client meanwhile.
   */
  lemma ListenersAreProvisioned(s: State, events: seq<Event>, s': State, e: Event)
    requires Inv(s') && s.active.None? && Run(s, events, s') && ListenerExists(s') && Enabled(s', e)
    requires |Next(s', e).runtimes| != |s'.runtimes|
    ensures e == LifecycleAnswers(Done)
    ensures var answers := AnswersOf(events); |answers| >= 2 && answers[|answers| - 1].Done? && answers[|answers| - 2].Done?
    ensures s'.active.Some? && s'.active.value.Starting? && !s'.active.value.failed
  {
    RunStartsRightly(s, events, s');
    PublishedForCurrentIntent(s', e);
    hide Inv, Run;
    OnlySubscribedEnter(s', e.answer);
  }

  lemma OnlySubscribedEnter(s: State, answer: Answer)
    requires ListenerExists(s) && Enabled(s, LifecycleAnswers(answer)) && s.active.Some? && s.active.value.Starting?
    requires |Next(s, LifecycleAnswers(answer)).runtimes| != |s.runtimes|
    ensures answer.Done? && s.active.value.stage.Subscribing? && !s.active.value.failed
  {
    hide EnterListeners, StartStillRequired;
  }

  /** A start that fails is closed with what was refused, and told: a privilege is reported, anything else is retried. */
  lemma FailedStartsAreTold(s: State, schema: string, insufficient: bool)
    requires ListenerExists(s) && s.active == Some(ClosingFailed(s.epoch, schema, insufficient)) && !s.disposed && s.listener.None?
    requires Configured(s, Config(true, schema))
    ensures Enabled(s, LifecycleResumes)
    ensures var t := Next(s, LifecycleResumes);
            && t.active.None? && t.stale && L.Owes(s, t)
            && (insufficient ==> t.report == Some(Report(InsufficientPrivilege, schema)) && t.reconnect == s.reconnect)
            && (!insufficient ==> t.report == Some(Report(Unavailable, schema)) && t.reconnect)
  {
    hide CurrentConfig;
  }

  lemma UnprovisionedIsTold(s: State, schema: string)
    requires ListenerExists(s) && s.active == Some(ClosingUnprovisioned(s.epoch, schema)) && !s.disposed && s.listener.None?
    requires Configured(s, Config(true, schema))
    ensures Enabled(s, LifecycleResumes)
    ensures var t := Next(s, LifecycleResumes);
            t.active.None? && t.stale && L.Owes(s, t) && t.report == Some(Report(ProvisioningRequired, schema)) && t.reconnect == s.reconnect
  {
    hide CurrentConfig;
  }

  /** What a start is answered decides how it goes on. */
  lemma StartIsAnswered(s: State, answer: Answer)
    requires ListenerExists(s) && Enabled(s, LifecycleAnswers(answer)) && s.active.Some? && s.active.value.Starting? && !s.disposed
    requires s.active.value.epoch == s.epoch && s.listener.None? && Configured(s, Config(true, s.active.value.schema))
    ensures var t, at := Next(s, LifecycleAnswers(answer)), s.active.value;
            && (answer.Refused? || answer.NoClient? || (at.failed && !at.stage.Connecting?) ==>
                  t.active == Some(ClosingFailed(s.epoch, at.schema, answer == Refused(true))))
            && (answer.NotProvisioned? && !at.failed ==> t.active == Some(ClosingUnprovisioned(s.epoch, at.schema)))
            && (answer.Done? && !at.failed ==>
                  match at.stage
                  case Connecting => t.active == Some(at.(stage := Querying))
                  case Querying => t.active == Some(at.(stage := Subscribing))
                  case Subscribing => t.listener == Some(|s.runtimes|))
  {
    assert Next(s, LifecycleAnswers(answer)) == AnswerStarting(s, s.active.value, answer);
    EnteredListener(s, s.active.value);
    hide CurrentConfig, EnterListeners, Next, Enabled, ListenerExists;
  }

  lemma EnteredListener(s: State, at: Suspension)
    requires at.Starting?
    ensures EnterListeners(s, at).listener == Some(|s.runtimes|)
  {
    var told, r := Reported(Entered(s, at.schema, at.buffer), Listening, at.schema), |s.runtimes|;
    DrainedFacts(With(told, r, told.runtimes[r].(published := true, startup := [])), r, told.runtimes[r].startup);
    hide DrainStartup, Stamped, Stamps;
  }

  // ----- A reconciliation that finds a listener, or a reason to wait -----------------------------------

  /** Without a listener a reconciliation waits for a retry that is set, and leaves an unprovisioned schema alone. */
  lemma ReconcileWaits(s: State)
    requires ListenerExists(s) && Enabled(s, LifecycleStarts) && s.lifecycle[0] == Reconcile(s.epoch, false) && !s.disposed
    requires Wanted(s) && s.listener.None?
    requires s.reconnect || s.report == Some(Report(ProvisioningRequired, CurrentConfig(s).value.schema))
    ensures Next(s, LifecycleStarts) == s.(lifecycle := s.lifecycle[1..], active := None, known := true)
  {
    var rest := s.(lifecycle := s.lifecycle[1..]);
    assert CurrentConfig(rest.(known := true)) == CurrentConfig(s);
    hide CurrentConfig, StopListener, StartStillRequired;
  }

  /** Behind a listener that is still wanted it refreshes a stale index in full, unless a refresh is under way already. */
  lemma StaleListenerIsRefreshed(s: State, r: nat)
    requires Inv(s) && Enabled(s, LifecycleStarts) && s.lifecycle[0] == Reconcile(s.epoch, false) && !s.disposed
    requires Wanted(s) && s.listener == Some(r) && r < |s.runtimes| && s.runtimes[r].schema == CurrentConfig(s).value.schema
    ensures ListenerExists(s)
    ensures var t := Next(s, LifecycleStarts);
            && t.listener == s.listener && t.runtimes == s.runtimes && t.debt == s.debt
            && (s.stale && s.refreshes == [] ==>
                  t.refreshes == [Refresh(OfReactivation(r), true, [], {}, Waiting)] && t.active == Some(Reactivating(r, Pending)))
            && (!s.stale || s.refreshes != [] ==> t.refreshes == s.refreshes && t.active.None?)
  {
    ListenerThere(s);
    hide Inv;
    var rest := s.(lifecycle := s.lifecycle[1..]);
    assert CurrentConfig(rest.(known := true)) == CurrentConfig(s);
    hide CurrentConfig, StopListener, StartStillRequired;
  }

  /** Whatever stops a listener clears the retry as well: a stopped listener's timers are gone. */
  lemma StoppedIsQuiet(s: State, recordDebt: bool)
    requires Inv(s)
    ensures ListenerExists(s)
    ensures var t := StopListener(s, recordDebt);
            !t.reconnect && t.listener.None? && forall r | 0 <= r < |t.runtimes| :: t.runtimes[r].closed
    ensures s.listener.Some? ==> !StopListener(s, recordDebt).runtimes[s.listener.value].timer
  {
    hide Inv;
    L.OnlyListenerIsOpen(s);
  }

  // ----- A removed connection ----------------------------------------------------------------------

  /** The reconciliation that finds the connection removed is queued, or waits for the refreshes to end. */
  predicate Forgetting(s: State, epoch: nat) {
    && s.epoch == epoch && !s.disposed
    && (|| (s.lifecycle != [] && s.lifecycle[|s.lifecycle| - 1].Reconcile? && s.lifecycle[|s.lifecycle| - 1].epoch == epoch)
        || (s.lifecycle == [] && s.listener.None? && s.active == Some(Stopping(ThenRemoved(epoch))))
        || (s.lifecycle == [] && s.listener.None? && s.active == Some(AwaitingRefreshIdle(epoch))))
  }

  /** Nothing is known of the connection any more. */
  predicate Forgotten(s: State) {
    && s.listener.None? && s.debt.None? && s.report.None? && !s.known && s.uncovered == {} && s.refreshes == []
    && s.lifecycle == [] && s.active.None?
  }

  lemma ForgettingStep(s: State, e: Event, epoch: nat)
    requires ListenerExists(s) && Enabled(s, e) && Forgetting(s, epoch) && s.store.None?
    requires Next(s, e).epoch == epoch && !Next(s, e).disposed
    ensures Forgetting(Next(s, e), epoch) || Forgotten(Next(s, e))
  {
    hide Received, OnListenerClosed, FlushStarts, FlushContinues, Complete, Settle, RejectedReconcile, AnswerOperation;
    if !OfLifecycle(e) {
      OthersBeside(s, e);
      hide Next, Enabled;
    } else if |s.lifecycle| > 1 || (s.lifecycle != [] && !e.LifecycleStarts?) {
      LifecycleSteady(s, e);
      hide Next, Enabled;
    } else if e.LifecycleStarts? {
      StoppedForgets(if s.known then MarkStale(s.(lifecycle := s.lifecycle[1..])) else s.(lifecycle := s.lifecycle[1..]));
      hide StopListener;
    }
  }

  lemma StoppedForgets(s: State)
    requires ListenerExists(s)
    ensures var t := StopListener(s, false);
            t.listener.None? && t.lifecycle == s.lifecycle && t.epoch == s.epoch && t.disposed == s.disposed
  {}

  /** The steps lead to `s'` while the connection stays removed and nothing newer is requested. */
  ghost predicate Removed(s: State, events: seq<Event>, s': State, epoch: nat)
    decreases |events|
  {
    && s.epoch == epoch && !s.disposed && s.store.None?
    && if events == [] then s' == s
       else ListenerExists(s) && Enabled(s, events[0]) && Removed(Next(s, events[0]), events[1..], s', epoch)
  }

  ghost predicate ForgottenDuring(s: State, events: seq<Event>)
    decreases |events|
  {
    events != [] && ListenerExists(s) && Enabled(s, events[0])
    && (Forgotten(Next(s, events[0])) || ForgottenDuring(Next(s, events[0]), events[1..]))
  }

  lemma {:induction false} StaysForgetting(s: State, events: seq<Event>, s': State, epoch: nat)
    requires Forgetting(s, epoch) && Removed(s, events, s', epoch)
    ensures Forgetting(s', epoch) || ForgottenDuring(s, events)
    decreases |events|
  {
    if events != [] {
      ForgettingStep(s, events[0], epoch);
      hide Next, Enabled, Forgetting, Forgotten;
      if Forgetting(Next(s, events[0]), epoch) {
        StaysForgetting(Next(s, events[0]), events[1..], s', epoch);
      }
    }
  }

  /** A removed connection is forgotten: its reconciliation is queued, or waits for running refreshes, or has dropped everything. */
  lemma RemovedConnectionsAreForgotten(s: State, restart: bool, events: seq<Event>, s': State)
    requires !s.disposed && Removed(RequestedReconcile(s, restart), events, s', s.epoch + 1)
    ensures Forgetting(s', s.epoch + 1) || ForgottenDuring(RequestedReconcile(s, restart), events)
  {
    StaysForgetting(RequestedReconcile(s, restart), events, s', s.epoch + 1);
  }

  // ----- A restart, and disposal -------------------------------------------------------------------

  /** A current restart, or disposal. */
  predicate IsStop(s: State, operation: Operation) {
    operation == DisposeListener || (operation == Reconcile(s.epoch, true) && !s.disposed)
  }

  /** The steps lead to `s'`, and a restart stays current. */
  ghost predicate Standing(s: State, events: seq<Event>, s': State, operation: Operation)
    decreases |events|
  {
    && IsStop(s, operation)
    && if events == [] then s' == s
       else ListenerExists(s) && Enabled(s, events[0]) && Standing(Next(s, events[0]), events[1..], s', operation)
  }

  /** On the way there is no listener any more once the operation has started. */
  ghost predicate StoppedDuring(s: State, events: seq<Event>, operation: Operation)
    decreases |events|
  {
    && events != [] && ListenerExists(s) && Enabled(s, events[0])
    && (|| (events[0] == LifecycleStarts && s.lifecycle[0] == operation && Next(s, events[0]).listener.None?)
        || StoppedDuring(Next(s, events[0]), events[1..], operation))
  }

  lemma StopsNow(s: State, operation: Operation)
    requires ListenerExists(s) && IsStop(s, operation)
    ensures StartOperation(s, operation).listener.None?
  {
    hide CurrentConfig;
  }

  lemma {:induction false} StopComesToPass(s: State, events: seq<Event>, s': State, operation: Operation)
    requires operation in s.lifecycle && Standing(s, events, s', operation)
    ensures operation in s'.lifecycle || StoppedDuring(s, events, operation)
    decreases |events|
  {
    if events != [] {
      var e, next := events[0], Next(s, events[0]);
      StepAdvances(s, e);
      if e == LifecycleStarts && s.lifecycle[0] == operation {
        StopsNow(s.(lifecycle := s.lifecycle[1..]), operation);
      } else {
        StillQueued(s.lifecycle, e.LifecycleStarts?, next.lifecycle, operation);
        hide Next, Enabled;
        StopComesToPass(next, events[1..], s', operation);
      }
    }
  }

  lemma StillQueued(before: seq<Operation>, starts: bool, after: seq<Operation>, operation: Operation)
    requires operation in before && (starts ==> before[0] != operation)
    requires (if starts then before[1..] else before) <= after
    ensures operation in after
  {
    var i :| 0 <= i < |before| && before[i] == operation;
    assert after[if starts then i - 1 else i] == operation;
  }

  /** A requested restart stops the listener, whichever it is then, unless something newer is requested first. */
  lemma RestartStopsListener(s: State, events: seq<Event>, s': State)
    requires ListenerExists(s) && Enabled(s, RequestReconcile(true))
    requires Standing(Next(s, RequestReconcile(true)), events, s', Reconcile(s.epoch + 1, true))
    ensures Reconcile(s.epoch + 1, true) in s'.lifecycle || StoppedDuring(Next(s, RequestReconcile(true)), events, Reconcile(s.epoch + 1, true))
  {
    var asked := Next(s, RequestReconcile(true));
    assert asked.lifecycle[|s.lifecycle|] == Reconcile(s.epoch + 1, true);
    StopComesToPass(asked, events, s', Reconcile(s.epoch + 1, true));
  }

  /** Disposal clears the retry, overtakes what is under way, and stops the listener if there is one. */
  lemma DisposalStopsListener(s: State, events: seq<Event>, s': State)
    requires ListenerExists(s) && Enabled(s, Dispose) && Standing(Next(s, Dispose), events, s', DisposeListener)
    ensures Next(s, Dispose).disposed && !Next(s, Dispose).reconnect
    ensures s.listener.Some? ==> Next(s, Dispose).epoch > s.epoch
    ensures s.listener.Some? ==> DisposeListener in s'.lifecycle || StoppedDuring(Next(s, Dispose), events, DisposeListener)
  {
    var off := Next(s, Dispose);
    if s.listener.Some? {
      assert off.lifecycle[|s.lifecycle|] == DisposeListener;
      StopComesToPass(off, events, s', DisposeListener);
    }
  }
}
