/**
 * The schema-synchronisation protocol of one connection (packages/catalog/src/ddlSync.ts).
 *
 * A `State` holds what the controller's Maps and Sets hold for one connection, the index's stale
 * mark, and four observer fields. `Next` is one atomic step: the code that runs between two
 * `await`s, or one action of PostgreSQL, of the saved connection or of a caller. Events carry only
 * what the environment decides. The promise chains are the FIFO queues of `PromiseQueue`.
 */
module DdlSyncSpec {
  import opened Options
  import N = DdlNotifications

  // ----- Configuration (ddlSyncSettings.ts) ----------------------------------------------------

  datatype Settings = Settings(enabled: bool, schema: string)
  /** What the saved connection overrides (`schemaSync`). */
  datatype Override = Override(enabled: Option<bool>, schema: Option<string>)
  datatype Config = Config(enabled: bool, schema: string)

  predicate IsBlank(c: char) {
    c == ' ' || c == '\t' || c == '\n' || c == '\r'
  }

  function Trim(text: string): string
    decreases |text|
  {
    if text == "" then text
    else if IsBlank(text[0]) then Trim(text[1..])
    else if IsBlank(text[|text| - 1]) then Trim(text[..|text| - 1])
    else text
  }

  predicate SchemaStart(c: char) {
    'a' <= c <= 'z' || c == '_'
  }

  function ValidateSupportSchema(value: string): Option<string> {
    var schema := Trim(value);
    if && 0 < |schema| <= 63
       && SchemaStart(schema[0])
       && (forall c | c in schema :: SchemaStart(c) || '0' <= c <= '9')
       && !("pg_" <= schema)
    then Some(schema) else None
  }

  /** `None` where the source throws. */
  function Configuration(settings: Settings, override: Override): Option<Config> {
    if ValidateSupportSchema(settings.schema).None? then None
    else match ValidateSupportSchema(override.schema.GetOr(settings.schema))
      case None => None
      case Some(schema) => Some(Config(override.enabled.GetOr(settings.enabled), schema))
  }

  // ----- State ---------------------------------------------------------------------------------

  datatype Status = Disabled | ProvisioningRequired | Listening | InsufficientPrivilege | Unavailable | Desynchronized
  datatype Report = Report(status: Status, schema: string)

  /** What PostgreSQL delivers on the channel: a parsed notification of this database, or one the source rejects. */
  datatype Payload = Usable(notification: N.Notification) | Rejected
  /** A payload with the observer's stamp of when the published listener received it. */
  datatype Note = Note(at: nat, payload: Payload)
  /** One coalesced group and the stamps of the notifications it was made of. */
  datatype Batch = Batch(group: N.Group, stamps: set<nat>)

  /** How the awaited refresh of a flush, of a startup or of a reactivation stands. */
  datatype Outcome = Pending | Succeeded | Failed

  datatype Runtime = Runtime(
    schema: string,
    startup: seq<Note>,      // startupNotifications, until they are drained
    published: bool,         // startupPhase == "published"
    startupFailed: bool,     // startupFailure
    notes: seq<Note>,        // notifications
    timer: bool,             // flushTimer
    flushing: bool,          // flushActive
    batch: seq<Batch>,       // the groups of the running flush that are not done
    outcome: Outcome,        // of the refresh of batch[0]
    closed: bool)

  datatype Owner = OfFlush(runtime: nat) | OfStartup(runtime: nat) | OfReactivation(runtime: nat)

  datatype Progress =
    | Waiting
    | Reading(startedAt: nat, captured: Option<nat>, full: bool)
    | ReadCatalog(startedAt: nat, captured: Option<nat>, full: bool, at: nat)
    | Published(startedAt: nat, captured: Option<nat>, full: bool, at: nat)
    | Ended(ok: bool)

  /** One queued refresh: who awaits it, whether it was asked to be full, the objects to re-read, and the stamps it answers. */
  datatype Refresh = Refresh(owner: Owner, fallback: bool, objects: seq<N.DdlObject>, stamps: set<nat>, progress: Progress)

  datatype Operation =
    | SetEnabled(enabled: Option<bool>)
    | SetSchema(schema: Option<string>)
    | Provision
    | RemoveProvisioning
    | Reconcile(epoch: nat, restart: bool)
    | ListenerClosed(runtime: nat, epoch: nat)
    | DisposeListener

  /** What follows `await stopListenerNow(...)`. */
  datatype Then =
    | ThenPersist(override: Override)
    | ThenProvision(schema: string)
    | ThenRemoveProvisioning(config: Config)
    | ThenRemoved(epoch: nat)
    | ThenInvalid(epoch: nat, schema: string)
    | ThenReconfigured(epoch: nat, requested: bool)
    | ThenNothing

  datatype StartStage = Connecting | Querying | Subscribing

  /** Where the active lifecycle operation is suspended. */
  datatype Suspension =
    | Stopping(next: Then)
    | Persisting(override: Override)
    | Provisioning(schema: string)
    | RemovingProvisioning(config: Config)
    | AwaitingRefreshIdle(epoch: nat)
    | Starting(epoch: nat, schema: string, stage: StartStage, buffer: seq<Payload>, failed: bool)
    | ClosingUnprovisioned(epoch: nat, schema: string)
    | ClosingFailed(epoch: nat, schema: string, insufficient: bool)
    | ClosingSuperseded
    | StartupRefresh(runtime: nat, epoch: nat, schema: string, outcome: Outcome)
    | Reactivating(runtime: nat, outcome: Outcome)
    | EndingClient(runtime: nat, epoch: nat)

  datatype State = State(
    store: Option<Override>,       // the saved connection, or none
    settings: Settings,
    disposed: bool,
    epoch: nat,                    // lifecycleEpochs
    lifecycle: seq<Operation>,     // queued lifecycle operations
    active: Option<Suspension>,    // the running one
    refreshes: seq<Refresh>,       // unfinished refreshes, the running one first
    runtimes: seq<Runtime>,        // every listener runtime ever published
    listener: Option<nat>,         // listeners
    debt: Option<nat>,             // fullRefreshDebtEpochs
    debtSequence: nat,             // fullRefreshEpochSequences
    reconnect: bool,               // reconnectTimers
    report: Option<Report>,        // states
    known: bool,                   // knownDatabases
    failedReconciles: nat,         // rejections not yet caught
    stale: bool,                   // the index's stale mark
    // The observer's view: a clock that stamps commits and receipts, the clock when the debt was
    // recorded, a bound below which every commit is reflected by the index, and the received
    // notifications that no later refresh has covered.
    clock: nat,
    debtAt: nat,
    reflects: nat,
    uncovered: set<nat>)

  datatype Event =
    // PostgreSQL, the saved connection, the rest of the index
    | Commit
    | SaveConnection(override: Override)
    | RemoveConnection
    | ChangeSettings(settings: Settings)
    | MarkedStale
    | IndexedElsewhere(upTo: nat, clean: bool)
    // callers and timers
    | Request(operation: Operation)
    | RequestReconcile(restart: bool)
    | Dispose
    | ReconnectFires
    | ReconcileRejected
    // a listener's client
    | Receive(runtime: nat, payload: Payload)
    | ReceiveWhileStarting(payload: Payload)
    | ClientFails(runtime: nat)
    | ClientFailsWhileStarting
    // flushing
    | TimerFires(runtime: nat)
    | FlushResumes(runtime: nat)
    // the running refresh
    | RefreshStarts
    | RefreshReads
    | RefreshPublishes(clean: bool)
    | RefreshCompletes
    | RefreshFails
    | RefreshSettles
    // the running lifecycle operation
    | LifecycleStarts
    | LifecycleResumes
    | LifecycleAnswers(answer: Answer)

  /** What PostgreSQL or the settings store answered to the operation. */
  datatype Answer = Done | NotProvisioned | NoClient | Refused(insufficient: bool)

  // ----- Debt, epochs, status ------------------------------------------------------------------

  function RequireFullRefresh(s: State): State {
    s.(debtSequence := s.debtSequence + 1, debt := Some(s.debtSequence + 1), debtAt := s.clock)
  }

  function Intent(s: State, epoch: nat): bool {
    !s.disposed && s.epoch == epoch
  }

  function Reported(s: State, status: Status, schema: string): State {
    s.(report := Some(Report(status, schema)))
  }

  function MarkStale(s: State): State {
    s.(stale := true)
  }

  function ScheduleReconnect(s: State): State {
    if s.disposed || s.reconnect then s else s.(reconnect := true)
  }

  function Enqueued(s: State, operation: Operation): State {
    s.(lifecycle := s.lifecycle + [operation])
  }

  function RequestedReconcile(s: State, restart: bool): State {
    Enqueued(s.(epoch := s.epoch + 1), Reconcile(s.epoch + 1, restart))
  }

  function EnqueueRefresh(s: State, owner: Owner, fallback: bool, objects: seq<N.DdlObject>, stamps: set<nat>): State {
    s.(refreshes := s.refreshes + [Refresh(owner, fallback, objects, stamps, Waiting)])
  }

  function CurrentConfig(s: State): Option<Config> {
    match s.store
    case None => None
    case Some(override) => Configuration(s.settings, override)
  }

  function StartStillRequired(s: State, schema: string, epoch: nat): bool {
    Intent(s, epoch) && s.listener.None? && CurrentConfig(s) == Some(Config(true, schema))
  }

  // ----- Listener runtimes ---------------------------------------------------------------------

  function With(s: State, r: nat, runtime: Runtime): State
    requires r < |s.runtimes|
  {
    s.(runtimes := s.runtimes[r := runtime])
  }

  function OnListenerClosed(s: State, r: nat): State
    requires r < |s.runtimes|
  {
    if s.runtimes[r].closed || s.disposed then s
    else
      var closed := With(s, r, s.runtimes[r].(closed := true, timer := false));
      var gone := closed.(listener := if s.listener == Some(r) then None else s.listener);
      var owing := RequireFullRefresh(gone);
      Enqueued(owing.(epoch := owing.epoch + 1), ListenerClosed(r, owing.epoch + 1))
  }

  /** Closes the current listener; what it still held is given up only where the caller records no debt. */
  function StopListener(s: State, recordDebt: bool): State
    requires s.listener.Some? ==> s.listener.value < |s.runtimes|
  {
    var owing := (if recordDebt then RequireFullRefresh(s) else s.(uncovered := {})).(reconnect := false);
    match owing.listener
    case None => owing
    case Some(r) => With(owing, r, owing.runtimes[r].(closed := true, timer := false)).(listener := None)
  }

  function OnNotification(s: State, r: nat, note: Note): State
    requires r < |s.runtimes|
  {
    if s.runtimes[r].closed || s.listener != Some(r) then s
    else match note.payload
      case Usable(_) =>
        With(MarkStale(s), r, s.runtimes[r].(notes := s.runtimes[r].notes + [note], timer := true))
      case Rejected =>
        Reported(MarkStale(RequireFullRefresh(s)), Desynchronized, s.runtimes[r].schema)
  }

  function DrainStartup(s: State, r: nat, held: seq<Note>): State
    requires r < |s.runtimes|
    decreases |held|
  {
    if held == [] then s else DrainStartup(OnNotification(s, r, held[0]), r, held[1..])
  }

  function Stamps(notes: seq<Note>): set<nat> {
    set n | n in notes :: n.at
  }

  // ----- Flushing ------------------------------------------------------------------------------

  function UsablePayloads(notes: seq<Note>): seq<N.Notification> {
    if notes == [] then []
    else
      var before := UsablePayloads(notes[..|notes| - 1]);
      match notes[|notes| - 1].payload
      case Usable(n) => before + [n]
      case Rejected => before
  }

  function BatchOf(notes: seq<Note>, g: N.Group): Batch {
    Batch(g, set n | n in notes && n.payload.Usable? && N.KeyOf(n.payload.notification) == N.GroupKey(g) :: n.at)
  }

  function Batches(notes: seq<Note>): seq<Batch> {
    var groups := N.Coalesce(UsablePayloads(notes));
    seq(|groups|, i requires 0 <= i < |groups| => BatchOf(notes, groups[i]))
  }

  /** The `finally` of a flush: a queue filled meanwhile gets its own timer. */
  function FlushEnds(s: State, r: nat): State
    requires r < |s.runtimes|
  {
    var rt := s.runtimes[r];
    With(s, r, rt.(flushing := false, batch := [], outcome := Pending,
                   timer := rt.timer || (!rt.closed && rt.notes != [])))
  }

  function AwaitBatch(s: State, r: nat, batch: seq<Batch>): State
    requires r < |s.runtimes| && batch != []
  {
    EnqueueRefresh(With(s, r, s.runtimes[r].(batch := batch, outcome := Pending)),
                   OfFlush(r), batch[0].group.fallback, batch[0].group.objects, batch[0].stamps)
  }

  /** The head of the draining loop. */
  function FlushLoops(s: State, r: nat): State
    requires r < |s.runtimes|
  {
    var rt := s.runtimes[r];
    var batch := Batches(rt.notes);
    if rt.closed || rt.notes == [] || batch == [] then FlushEnds(s, r)
    else AwaitBatch(With(s, r, rt.(notes := [])), r, batch)
  }

  function FlushStarts(s: State, r: nat): State
    requires r < |s.runtimes|
  {
    var rt := s.runtimes[r].(timer := false);
    if rt.flushing || rt.closed then With(s, r, rt)
    else FlushLoops(With(s, r, rt.(flushing := true)), r)
  }

  function FlushContinues(s: State, r: nat): State
    requires r < |s.runtimes| && s.runtimes[r].batch != []
  {
    var rt := s.runtimes[r];
    if rt.outcome == Failed then FlushEnds(OnListenerClosed(s, r), r)
    else if rt.closed then FlushEnds(s, r)
    else if |rt.batch| > 1 then AwaitBatch(s, r, rt.batch[1..])
    else FlushLoops(With(s, r, rt.(batch := [], outcome := Pending)), r)
  }

  // ----- The running refresh -------------------------------------------------------------------

  function Head(s: State, progress: Progress): State
    requires s.refreshes != []
  {
    s.(refreshes := s.refreshes[0 := s.refreshes[0].(progress := progress)])
  }

  function Max(a: nat, b: nat): nat {
    if a < b then b else a
  }

  /** The index holds what it read. A full read covers everything received before the refresh started. */
  function Publish(s: State, clean: bool): State
    requires s.refreshes != [] && s.refreshes[0].progress.ReadCatalog?
  {
    var refresh := s.refreshes[0];
    var p := refresh.progress;
    Head(s, Published(p.startedAt, p.captured, p.full, p.at)).(
      stale := s.stale && !clean,
      reflects := if p.full then Max(s.reflects, p.at) else s.reflects,
      uncovered := set t | t in s.uncovered && t !in refresh.stamps && !(p.full && t < p.startedAt))
  }

  /** The code of `refreshActive` after the index answered. */
  function Complete(s: State): State
    requires s.refreshes != [] && s.refreshes[0].progress.Published?
    requires s.listener.Some? ==> s.listener.value < |s.runtimes|
  {
    var p := s.refreshes[0].progress;
    var paid := Head(s, Ended(true)).(
      debt := if p.captured.Some? && s.debt == p.captured then None else s.debt);
    if paid.debt.Some? then
      var marked := MarkStale(paid);
      if s.listener.Some? then Reported(marked, Desynchronized, s.runtimes[s.listener.value].schema) else marked
    else if s.listener.Some? then Reported(paid, Listening, s.runtimes[s.listener.value].schema)
    else paid
  }

  /** Whoever awaits the refresh learns its outcome. */
  function Informed(s: State, owner: Owner, outcome: Outcome): State {
    match owner
    case OfFlush(r) =>
      if r < |s.runtimes| then With(s, r, s.runtimes[r].(outcome := outcome)) else s
    case OfStartup(r) =>
      match s.active {
        case Some(StartupRefresh(q, epoch, schema, _)) =>
          if q == r then s.(active := Some(StartupRefresh(q, epoch, schema, outcome))) else s
        case _ => s
      }
    case OfReactivation(r) =>
      match s.active {
        case Some(Reactivating(q, _)) =>
          if q == r then s.(active := Some(Reactivating(q, outcome))) else s
        case _ => s
      }
  }

  /** The refresh leaves the queue and its awaiter learns the outcome. */
  function Settle(s: State): State
    requires s.refreshes != [] && s.refreshes[0].progress.Ended?
  {
    Informed(s.(refreshes := s.refreshes[1..]), s.refreshes[0].owner, if s.refreshes[0].progress.ok then Succeeded else Failed)
  }

  // ----- Lifecycle operations ------------------------------------------------------------------

  function Finished(s: State): State {
    s.(active := None)
  }

  function Suspended(s: State, at: Suspension): State {
    s.(active := Some(at))
  }

  ghost predicate ListenerExists(s: State) {
    s.listener.Some? ==> s.listener.value < |s.runtimes|
  }

  function StartOperation(s: State, operation: Operation): State
    requires ListenerExists(s)
  {
    match operation
    case SetEnabled(enabled) => StartSetEnabled(s, enabled)
    case SetSchema(schema) => StartSetSchema(s, schema)
    case Provision =>
      var config := CurrentConfig(s);
      if config.None? || !config.value.enabled then Finished(s)
      else Suspended(StopListener(s, true), Stopping(ThenProvision(config.value.schema)))
    case RemoveProvisioning =>
      var config := CurrentConfig(s);
      if config.None? then Finished(s)
      else Suspended(StopListener(s, true), Stopping(ThenRemoveProvisioning(config.value)))
    case Reconcile(epoch, restart) =>
      if Intent(s, epoch) then ReconcileConnection(s, epoch, restart, true) else Finished(s)
    case ListenerClosed(r, epoch) => Suspended(s, EndingClient(r, epoch))
    case DisposeListener => Suspended(StopListener(s, false), Stopping(ThenNothing))
  }

  function StartSetEnabled(s: State, enabled: Option<bool>): State
    requires ListenerExists(s)
  {
    if s.store.None? then Finished(s)
    else
      var override := s.store.value.(enabled := enabled);
      var was, desired := CurrentConfig(s), Configuration(s.settings, override);
      if was.None? || desired.None? then Finished(s)
      else if !desired.value.enabled then Suspended(StopListener(s, true), Stopping(ThenPersist(override)))
      else Suspended(if was.value.enabled then s else RequireFullRefresh(s), Persisting(override))
  }

  function StartSetSchema(s: State, schema: Option<string>): State
    requires ListenerExists(s)
  {
    if s.store.None? || (schema.Some? && ValidateSupportSchema(schema.value).None?) then Finished(s)
    else
      var override := s.store.value.(schema := if schema.None? then None else ValidateSupportSchema(schema.value));
      var desired := Configuration(s.settings, override);
      if desired.None? then Finished(s)
      else if s.listener.Some? && s.runtimes[s.listener.value].schema != desired.value.schema
      then Suspended(StopListener(s, true), Stopping(ThenPersist(override)))
      else Suspended(s, Persisting(override))
  }

  /** `requested`: the operation came from `requestReconcile`, which catches its failure. */
  function ReconcileConnection(s: State, epoch: nat, restart: bool, requested: bool): State
    requires ListenerExists(s)
  {
    if !Intent(s, epoch) then Finished(s)
    else if s.store.None? then
      var told := if s.known then MarkStale(s) else s;
      Suspended(StopListener(told, false), Stopping(ThenRemoved(epoch)))
    else
      var s := s.(known := true);
      var config := CurrentConfig(s);
      if config.None? then
        Suspended(if s.listener.Some? then StopListener(s, true) else s.(reconnect := false),
                  Stopping(ThenInvalid(epoch, s.store.value.schema.GetOr("workbench"))))
      else if || !config.value.enabled
              || restart
              || (s.listener.Some? && s.runtimes[s.listener.value].schema != config.value.schema) then
        Suspended(if restart || s.listener.Some? then StopListener(s, true) else s.(reconnect := false),
                  Stopping(ThenReconfigured(epoch, requested)))
      else ReconcileListener(s, config.value, epoch)
  }

  /** The last part of `reconcileConnection`: start a listener, or refresh a stale index behind a live one. */
  function ReconcileListener(s: State, config: Config, epoch: nat): State {
    if s.listener.None? then
      if s.reconnect || s.report == Some(Report(ProvisioningRequired, config.schema)) || s.store.None? then Finished(s)
      else if !StartStillRequired(s, config.schema, epoch) then Finished(s)
      else Suspended(s, Starting(epoch, config.schema, Connecting, [], false))
    else if s.store.Some? && s.stale && s.refreshes == [] then
      Suspended(EnqueueRefresh(s, OfReactivation(s.listener.value), true, [], {}),
                Reactivating(s.listener.value, Pending))
    else Finished(s)
  }

  function ResumeStopping(s: State, next: Then): State
    requires ListenerExists(s)
  {
    match next
    case ThenPersist(override) => Suspended(s, Persisting(override))
    case ThenProvision(schema) => Suspended(s, Provisioning(schema))
    case ThenRemoveProvisioning(config) => Suspended(s, RemovingProvisioning(config))
    case ThenRemoved(epoch) => Suspended(s, AwaitingRefreshIdle(epoch))
    case ThenInvalid(epoch, schema) =>
      if Intent(s, epoch) then Finished(Reported(MarkStale(s), Unavailable, schema)) else Finished(s)
    case ThenReconfigured(epoch, requested) =>
      if !Intent(s, epoch) || s.store.None? then Finished(s)
      else
        var config := CurrentConfig(s);
        if config.None? then
          Finished(s.(failedReconciles := s.failedReconciles + if requested then 1 else 0))
        else if !config.value.enabled then Finished(Reported(s, Disabled, config.value.schema))
        else ReconcileListener(s, config.value, epoch)
    case ThenNothing => Finished(s)
  }

  /** The connection is gone and its refreshes are done: forget everything about it. */
  function Forget(s: State): State {
    s.(report := None, debt := None, debtSequence := 0, known := false, uncovered := {})
  }

  function ResumeAfterClose(s: State, r: nat, epoch: nat): State {
    if !Intent(s, epoch) || s.store.None? then Finished(s)
    else
      var config := CurrentConfig(s);
      if config.None? then Finished(s)
      else if !config.value.enabled then Finished(Reported(s, Disabled, config.value.schema))
      else
        var schema := if r < |s.runtimes| then s.runtimes[r].schema else config.value.schema;
        Finished(ScheduleReconnect(Reported(MarkStale(s), Desynchronized, schema)))
  }

  /** A started listener begins to receive: drain what startup held back. */
  function PublishListener(s: State, r: nat): State
    requires r < |s.runtimes|
  {
    var held := s.runtimes[r].startup;
    DrainStartup(With(s, r, s.runtimes[r].(published := true, startup := [])), r, held)
  }

  function StartupFailsPublished(s: State, r: nat): State
    requires r < |s.runtimes|
  {
    OnListenerClosed(With(s, r, s.runtimes[r].(published := true)), r)
  }

  function ResumeStartup(s: State, at: Suspension): State
    requires at.StartupRefresh? && at.runtime < |s.runtimes|
  {
    var r := at.runtime;
    if at.outcome == Succeeded && !s.runtimes[r].startupFailed then Finished(PublishListener(s, r))
    else if s.listener == Some(r) then Finished(StartupFailsPublished(s, r))
    else Suspended(s, ClosingFailed(at.epoch, at.schema, false))
  }

  function Stamped(clock: nat, payloads: seq<Payload>): seq<Note> {
    seq(|payloads|, i requires 0 <= i < |payloads| => Note(clock + i, payloads[i]))
  }

  /** LISTEN succeeded and the intent still stands: the runtime enters `listeners`. */
  function EnterListeners(s: State, at: Suspension): State
    requires at.Starting?
  {
    var r := |s.runtimes|;
    var held := Stamped(s.clock, at.buffer);
    var entered := s.(
      runtimes := s.runtimes + [Runtime(at.schema, held, false, false, [], false, false, [], Pending, false)],
      listener := Some(r),
      clock := s.clock + |at.buffer|,
      uncovered := s.uncovered + Stamps(held));
    if s.debt.Some? || s.stale then
      Suspended(EnqueueRefresh(Reported(MarkStale(entered), Desynchronized, at.schema), OfStartup(r), true, [], {}),
                StartupRefresh(r, at.epoch, at.schema, Pending))
    else Finished(PublishListener(Reported(entered, Listening, at.schema), r))
  }

  /** One answer from PostgreSQL while a listener starts. */
  function AnswerStarting(s: State, at: Suspension, answer: Answer): State
    requires at.Starting?
  {
    var failure := Suspended(s, ClosingFailed(at.epoch, at.schema, answer == Refused(true)));
    if answer.NoClient? || answer.Refused? || (at.failed && !at.stage.Connecting?) then failure
    else if !StartStillRequired(s, at.schema, at.epoch) then Suspended(s, ClosingSuperseded)
    else match at.stage
      case Connecting => Suspended(s, at.(stage := Querying))
      case Querying =>
        if answer.NotProvisioned? then Suspended(s, ClosingUnprovisioned(at.epoch, at.schema))
        else Suspended(s, at.(stage := Subscribing))
      case Subscribing => EnterListeners(s, at)
  }

  function ResumeFailedStart(s: State, at: Suspension): State
    requires at.ClosingFailed?
  {
    if !StartStillRequired(s, at.schema, at.epoch) then Finished(s)
    else
      var owing := MarkStale(RequireFullRefresh(s));
      if at.insufficient then Finished(Reported(owing, InsufficientPrivilege, at.schema))
      else Finished(ScheduleReconnect(Reported(owing, Unavailable, at.schema)))
  }

  function ResumeUnprovisioned(s: State, at: Suspension): State
    requires at.ClosingUnprovisioned?
  {
    if !StartStillRequired(s, at.schema, at.epoch) then Finished(s)
    else Finished(Reported(MarkStale(RequireFullRefresh(s)), ProvisioningRequired, at.schema))
  }

  /** Whether the operation waits for an answer, for a refresh, or only for a promise that settles by itself. */
  predicate Resumable(s: State, at: Suspension) {
    match at
    case Stopping(_) => true
    case AwaitingRefreshIdle(_) => s.refreshes == []
    case ClosingUnprovisioned(_, _) => true
    case ClosingFailed(_, _, _) => true
    case ClosingSuperseded => true
    case StartupRefresh(r, _, _, outcome) => outcome != Pending && r < |s.runtimes|
    case Reactivating(r, outcome) => outcome != Pending && r < |s.runtimes|
    case EndingClient(_, _) => true
    case _ => false
  }

  function Resume(s: State, at: Suspension): State
    requires ListenerExists(s) && Resumable(s, at)
  {
    match at
    case Stopping(next) => ResumeStopping(s, next)
    case AwaitingRefreshIdle(epoch) =>
      if !Intent(s, epoch) || s.store.Some? then Finished(s) else Finished(Forget(s))
    case ClosingUnprovisioned(_, _) => ResumeUnprovisioned(s, at)
    case ClosingFailed(_, _, _) => ResumeFailedStart(s, at)
    case ClosingSuperseded => Finished(s)
    case StartupRefresh(_, _, _, _) => ResumeStartup(s, at)
    case Reactivating(r, outcome) => Finished(if outcome == Failed then OnListenerClosed(s, r) else s)
    case EndingClient(r, epoch) => ResumeAfterClose(s, r, epoch)
    case _ => s
  }

  predicate Answerable(at: Suspension) {
    at.Persisting? || at.Provisioning? || at.RemovingProvisioning? || at.Starting?
  }

  function AnswerOperation(s: State, at: Suspension, answer: Answer): State
    requires ListenerExists(s) && Answerable(at)
  {
    match at
    case Persisting(override) =>
      if !answer.Done? || s.store.None? then Finished(s)
      else
        var persisted := s.(store := Some(override));
        ReconcileConnection(persisted, s.epoch, false, false)
    case Provisioning(schema) =>
      if answer.Done? then ReconcileConnection(s.(report := None), s.epoch, false, false)
      else if answer.Refused? then
        Finished(Reported(s, if answer.insufficient then InsufficientPrivilege else Unavailable, schema))
      else Finished(s)
    case RemovingProvisioning(config) =>
      if answer.Done? then
        Finished(Reported(MarkStale(s), if config.enabled then ProvisioningRequired else Disabled, config.schema))
      else if answer.Refused? then
        Finished(Reported(MarkStale(s), if answer.insufficient then InsufficientPrivilege else Unavailable, config.schema))
      else Finished(s)
    case Starting(_, _, _, _, _) => AnswerStarting(s, at, answer)
  }

  function RejectedReconcile(s: State): State
    requires ListenerExists(s)
  {
    if s.disposed || s.store.None? then s
    else if s.listener.Some? then OnListenerClosed(s, s.listener.value)
    else
      var schema := match CurrentConfig(s) { case Some(c) => c.schema case None => s.store.value.schema.GetOr("workbench") };
      ScheduleReconnect(Reported(MarkStale(RequireFullRefresh(s)), Desynchronized, schema))
  }

  // ----- The step relation ---------------------------------------------------------------------

  predicate Running(s: State) {
    s.refreshes != [] && !s.refreshes[0].progress.Waiting?
  }

  predicate Enabled(s: State, e: Event) {
    match e
    case Commit => true
    case SaveConnection(_) => true
    case RemoveConnection => true
    case ChangeSettings(_) => true
    case MarkedStale => true
    case IndexedElsewhere(upTo, _) => s.reflects <= upTo <= s.clock
    case Request(operation) =>
      operation.SetEnabled? || operation.SetSchema? || operation.Provision? || operation.RemoveProvisioning?
    case RequestReconcile(_) => !s.disposed
    case Dispose => !s.disposed
    case ReconnectFires => s.reconnect
    case ReconcileRejected => s.failedReconciles > 0
    case Receive(r, _) => r < |s.runtimes|
    case ReceiveWhileStarting(_) => s.active.Some? && s.active.value.Starting? && !s.active.value.stage.Connecting?
    case ClientFails(r) => r < |s.runtimes|
    case ClientFailsWhileStarting => s.active.Some? && s.active.value.Starting? && !s.active.value.stage.Connecting?
    case TimerFires(r) => r < |s.runtimes| && s.runtimes[r].timer
    case FlushResumes(r) => r < |s.runtimes| && s.runtimes[r].batch != [] && s.runtimes[r].outcome != Pending
    case RefreshStarts => s.refreshes != [] && s.refreshes[0].progress.Waiting?
    case RefreshReads => s.refreshes != [] && s.refreshes[0].progress.Reading?
    case RefreshPublishes(_) => s.refreshes != [] && s.refreshes[0].progress.ReadCatalog?
    case RefreshCompletes => s.refreshes != [] && s.refreshes[0].progress.Published?
    case RefreshFails => s.refreshes != [] && (s.refreshes[0].progress.Reading? || s.refreshes[0].progress.ReadCatalog?)
    case RefreshSettles => s.refreshes != [] && s.refreshes[0].progress.Ended?
    case LifecycleStarts => s.active.None? && s.lifecycle != []
    case LifecycleResumes => s.active.Some? && Resumable(s, s.active.value)
    case LifecycleAnswers(answer) =>
      s.active.Some? && Answerable(s.active.value)
      && (answer.NotProvisioned? ==> s.active.value.Starting? && s.active.value.stage.Querying?)
  }

  /** The stamp, and the listener that keeps it: an open, published-to-`listeners` runtime. */
  function Received(s: State, r: nat, payload: Payload): State
    requires r < |s.runtimes|
  {
    var note := Note(s.clock, payload);
    var rt := s.runtimes[r];
    var ticked := s.(clock := s.clock + 1);
    if rt.closed || s.listener != Some(r) then ticked
    else
      var tracked := ticked.(uncovered := s.uncovered + {s.clock});
      if rt.published then OnNotification(tracked, r, note)
      else With(tracked, r, rt.(startup := rt.startup + [note]))
  }

  function Next(s: State, e: Event): State
    requires ListenerExists(s) && Enabled(s, e)
  {
    match e
    case Commit => s.(clock := s.clock + 1)
    case SaveConnection(override) => s.(store := Some(override))
    case RemoveConnection => s.(store := None)
    case ChangeSettings(settings) => s.(settings := settings)
    case MarkedStale => MarkStale(s)
    case IndexedElsewhere(upTo, clean) => s.(reflects := upTo, stale := s.stale && !clean)
    case Request(operation) => Enqueued(s.(epoch := s.epoch + 1), operation)
    case RequestReconcile(restart) => RequestedReconcile(s, restart)
    case Dispose =>
      var off := s.(disposed := true, reconnect := false);
      if s.listener.None? then off else Enqueued(off.(epoch := s.epoch + 1), DisposeListener)
    case ReconnectFires => RequestedReconcile(s.(reconnect := false), false)
    case ReconcileRejected => RejectedReconcile(s.(failedReconciles := s.failedReconciles - 1))
    case Receive(r, payload) => Received(s, r, payload)
    case ReceiveWhileStarting(payload) =>
      s.(active := Some(s.active.value.(buffer := s.active.value.buffer + [payload])))
    case ClientFails(r) =>
      if s.runtimes[r].published then OnListenerClosed(s, r)
      else With(s, r, s.runtimes[r].(startupFailed := true))
    case ClientFailsWhileStarting => s.(active := Some(s.active.value.(failed := true)))
    case TimerFires(r) => FlushStarts(s, r)
    case FlushResumes(r) => FlushContinues(s, r)
    case RefreshStarts =>
      Head(s, Reading(s.clock, s.debt, s.refreshes[0].fallback || s.debt.Some?))
    case RefreshReads =>
      var p := s.refreshes[0].progress;
      MarkStale(Head(s, ReadCatalog(p.startedAt, p.captured, p.full, s.clock)))
    case RefreshPublishes(clean) => Publish(s, clean)
    case RefreshCompletes => Complete(s)
    case RefreshFails => Head(s, Ended(false))
    case RefreshSettles => Settle(s)
    case LifecycleStarts => StartOperation(s.(lifecycle := s.lifecycle[1..]), s.lifecycle[0])
    case LifecycleResumes => Resume(s, s.active.value)
    case LifecycleAnswers(answer) => AnswerOperation(s, s.active.value, answer)
  }

  ghost predicate Initial(s: State) {
    && !s.disposed && s.lifecycle == [] && s.active.None? && s.refreshes == [] && s.runtimes == []
    && s.listener.None? && s.debt.None? && !s.reconnect && s.uncovered == {} && s.failedReconciles == 0
    && s.reflects <= s.clock
  }
}
