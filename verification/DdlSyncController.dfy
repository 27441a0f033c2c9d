/**
 * `WorkbenchDdlSyncController` for one connection (packages/catalog/src/ddlSync.ts): the Maps and
 * Sets are fields, and each stretch of code between two `await`s is a method that updates them in
 * place. `Handle` answers any event of `DdlSyncSpec` and is proved to take the controller through that
 * step; `Valid` says that its state is reachable by such steps, so the theorems of `DdlSyncTheorems`
 * are about this object.
 */
module DdlSyncController {
  import opened Options
  import opened DdlSyncSpec
  import opened DdlSyncProofs
  import opened DdlSyncTheorems

  class Controller {
    var store: Option<Override>
    var settings: Settings
    var disposed: bool
    var lifecycleEpoch: nat
    var lifecycle: seq<Operation>
    var active: Option<Suspension>
    var refreshes: seq<Refresh>
    var runtimes: seq<Runtime>
    var listener: Option<nat>
    var fullRefreshDebtEpoch: Option<nat>
    var fullRefreshEpochSequence: nat
    var reconnectTimer: bool
    var report: Option<Report>
    var knownDatabase: bool
    var failedReconciles: nat
    var stale: bool
    var clock: nat                 // the observer's clock; the stamps in queues and refreshes come from it
    ghost var debtAt: nat
    ghost var reflects: nat
    ghost var uncovered: set<nat>

    ghost function View(): State
      reads this
    {
      State(store, settings, disposed, lifecycleEpoch, lifecycle, active, refreshes, runtimes, listener,
            fullRefreshDebtEpoch, fullRefreshEpochSequence, reconnectTimer, report, knownDatabase,
            failedReconciles, stale, clock, debtAt, reflects, uncovered)
    }

    /** The state is one the protocol reaches from its beginning, so it satisfies the protocol's invariant. */
    ghost predicate Valid()
      reads this
    {
      Reachable(View()) && Inv(View()) && ListenerExists(View())
    }

    constructor (store: Option<Override>, settings: Settings, clock: nat)
      ensures Valid() && Initial(View()) && this.store == store && this.settings == settings
    {
      this.store, this.settings, disposed := store, settings, false;
      lifecycleEpoch, lifecycle, active := 0, [], None;
      refreshes, runtimes, listener := [], [], None;
      fullRefreshDebtEpoch, fullRefreshEpochSequence := None, 0;
      reconnectTimer, report, knownDatabase, failedReconciles, stale := false, None, false, 0, false;
      this.clock, debtAt, reflects, uncovered := clock, 0, 0, {};
      new;
      ReachableInitially(View());
    }

    // ----- Every event -------------------------------------------------------------------------

    /**
     * One event: the controller makes exactly the protocol's step. A debt goes only with a completed full
     * refresh that captured it, and then the index reflects every commit before it; what was received stays
     * accounted for until a later refresh covers it; at most one runtime is open, and it is the listener;
     * a runtime is published only for the current intent, and `listening` is not announced over a debt.
     */
    method Handle(e: Event)
      requires Valid() && Enabled(View(), e)
      modifies this
      ensures Valid() && View() == Next(old(View()), e)
      ensures old(fullRefreshDebtEpoch).Some? && fullRefreshDebtEpoch.None? && !Forgets(old(View()), e) ==>
                && e == RefreshCompletes && old(refreshes)[0].progress.full
                && old(refreshes)[0].progress.captured == old(fullRefreshDebtEpoch)
                && old(debtAt) <= old(refreshes)[0].progress.startedAt && old(debtAt) <= reflects
      ensures !Excused(old(View()), e) ==> forall t | t in old(uncovered) :: t in uncovered || Covers(old(View()), e, t)
      ensures !disposed ==> forall t | t in uncovered :: Accounted(View(), t)
      ensures forall r | 0 <= r < |runtimes| && !runtimes[r].closed :: listener == Some(r)
      ensures |runtimes| == |old(runtimes)| || PublishesListener(old(View()), e, View())
      ensures report != old(report) && report.Some? && report.value.status == Listening ==> fullRefreshDebtEpoch.None?
    {
      hide Valid, Reachable, Inv, Next, Enabled, ListenerExists, Forgets, Excused, Covers, Accounted, PublishesListener;
      ghost var s := View();
      ValidMeans();
      Perform(e);
      EveryEventHolds(s, e);
      NextKeeps(s, e);
      ReachableNext(s, e);
      ValidIf();
    }

    lemma ValidMeans()
      ensures Valid() <==> Reachable(View()) && Inv(View()) && ListenerExists(View())
    {}

    lemma ValidIf()
      requires Reachable(View()) && Inv(View())
      ensures Valid()
    {}

    lemma EveryEventHolds(s: State, e: Event)
      requires Inv(s) && ListenerExists(s) && Enabled(s, e)
      ensures var s' := Next(s, e);
              && (s.debt.Some? && s'.debt.None? && !Forgets(s, e) ==>
                    && e == RefreshCompletes && s.refreshes != [] && s.refreshes[0].progress.Published? && s.refreshes[0].progress.full
                    && s.refreshes[0].progress.captured == s.debt
                    && s.debtAt <= s.refreshes[0].progress.startedAt && s.debtAt <= s'.reflects)
              && (!Excused(s, e) ==> forall t | t in s.uncovered :: t in s'.uncovered || Covers(s, e, t))
              && (!s'.disposed ==> forall t | t in s'.uncovered :: Accounted(s', t))
              && (forall r | 0 <= r < |s'.runtimes| && !s'.runtimes[r].closed :: s'.listener == Some(r))
              && (|s'.runtimes| == |s.runtimes| || PublishesListener(s, e, s'))
              && (s'.report != s.report && s'.report.Some? && s'.report.value.status == Listening ==> s'.debt.None?)
    {
      var s' := Next(s, e);
      NextKeeps(s, e);
      EveryStepOk(s, e);
      forall t | t in s.uncovered && !Excused(s, e) ensures t in s'.uncovered || Covers(s, e, t) {
        OnlyRefreshesCover(s, e, t);
      }
      if s.debt.Some? && s'.debt.None? && !Forgets(s, e) {
        DebtClearedOnlyByCoveringRefresh(s, e);
      }
      hide Next, RuntimesOk, FlushesOk, RefreshesOk, HeldBefore, StartupOk, Accounted, Covers, PublishesListener;
    }

    /** The code that runs on each event. */
    method Perform(e: Event)
      requires ListenerExists(View()) && Enabled(View(), e)
      modifies this
      ensures View() == Next(old(View()), e)
    {
      hide Received, OnListenerClosed, FlushStarts, FlushContinues, Publish, Complete, Settle, RejectedReconcile,
           StartOperation, Resume, AnswerOperation, Resumable, With, Head, RequestedReconcile, Enqueued;
      match e
      case Request(operation) => RequestOperation(operation);
      case RequestReconcile(restart) => AdvanceAndEnqueueReconcile(restart);
      case Dispose => Dispose();
      case ReconnectFires => FireReconnectTimer();
      case ReconcileRejected => HandleReconcileFailure();
      case Receive(runtime, payload) => ReceiveNotification(runtime, payload);
      case ReceiveWhileStarting(payload) => HoldNotification(payload);
      case ClientFails(runtime) => ReceiveClientError(runtime);
      case ClientFailsWhileStarting => HoldClientError();
      case TimerFires(runtime) => FireFlushTimer(runtime);
      case FlushResumes(runtime) => ResumeFlush(runtime);
      case RefreshStarts => StartRefresh();
      case RefreshReads => ReadForRefresh();
      case RefreshPublishes(clean) => PublishRefresh(clean);
      case RefreshCompletes => CompleteRefresh();
      case RefreshFails => FailRefresh();
      case RefreshSettles => SettleRefresh();
      case LifecycleStarts => StartNextOperation();
      case LifecycleResumes => ResumeOperation(active.value);
      case LifecycleAnswers(answer) => ContinueOperation(active.value, answer);
      case _ => ObserveEnvironment(e);
    }

    /** What PostgreSQL, the connection store, the settings and other users of the index do. */
    method ObserveEnvironment(e: Event)
      requires e.Commit? || e.SaveConnection? || e.RemoveConnection? || e.ChangeSettings? || e.MarkedStale? || e.IndexedElsewhere?
      requires ListenerExists(View()) && Enabled(View(), e)
      modifies this
      ensures View() == Next(old(View()), e)
    {
      hide Received, OnListenerClosed, FlushStarts, FlushContinues, Publish, Complete, Settle, RejectedReconcile,
           StartOperation, Resume, AnswerOperation;
      match e
      case Commit => clock := clock + 1;
      case SaveConnection(override) => store := Some(override);
      case RemoveConnection => store := None;
      case ChangeSettings(changed) => settings := changed;
      case MarkedStale => stale := true;
      case IndexedElsewhere(upTo, clean) =>
        reflects := upTo;
        stale := stale && !clean;
    }

    // ----- Small steps -------------------------------------------------------------------------

    /** A new debt answers for everything received so far, and no refresh that is under way can pay it. */
    method RecordFullRefreshDebt() returns (epoch: nat)
      modifies this
      ensures View() == RequireFullRefresh(old(View())) && fullRefreshDebtEpoch == Some(epoch)
      ensures Core(old(View())) ==> Core(View())
      ensures Core(old(View())) ==> forall t | t in uncovered :: t < debtAt
      ensures Core(old(View())) ==> !Captured(View(), epoch)
    {
      ghost var s := View();
      epoch := AdvanceDebtEpoch();
      if Core(s) {
        RecordingKeeps(s);
        NewEpochIsFree(s);
      }
      hide Core, Captured, RequireFullRefresh;
    }

    method AdvanceDebtEpoch() returns (epoch: nat)
      modifies this
      ensures View() == RequireFullRefresh(old(View())) && fullRefreshDebtEpoch == Some(epoch)
      ensures epoch == old(fullRefreshEpochSequence) + 1
    {
      epoch := fullRefreshEpochSequence + 1;
      fullRefreshEpochSequence := epoch;
      fullRefreshDebtEpoch := Some(epoch);
      debtAt := clock;
    }

    /** The running refresh has captured this epoch. */
    static predicate Captured(s: State, epoch: nat) {
      && s.refreshes != []
      && match s.refreshes[0].progress
         case Reading(_, captured, _) => captured == Some(epoch)
         case ReadCatalog(_, captured, _, _) => captured == Some(epoch)
         case Published(_, captured, _, _) => captured == Some(epoch)
         case _ => false
    }

    static lemma NewEpochIsFree(s: State)
      requires Core(s)
      ensures !Captured(RequireFullRefresh(s), s.debtSequence + 1)
    {
      if s.refreshes != [] {
        assert ProgressOk(s, s.refreshes[0]);
      }
      hide OneListener, RuntimesOk, FlushesOk, AllAccounted, HeldBefore;
    }

    method SetReport(status: Status, schema: string)
      modifies this`report
      ensures View() == Reported(old(View()), status, schema)
    {
      if report != Some(Report(status, schema)) {
        report := Some(Report(status, schema));
      }
    }

    method ArmReconnect()
      modifies this`reconnectTimer
      ensures View() == ScheduleReconnect(old(View()))
    {
      if disposed || reconnectTimer {
        return;
      }
      reconnectTimer := true;
    }

    method AdvanceAndEnqueueReconcile(restart: bool)
      modifies this
      ensures View() == RequestedReconcile(old(View()), restart)
    {
      lifecycleEpoch := lifecycleEpoch + 1;
      lifecycle := lifecycle + [Reconcile(lifecycleEpoch, restart)];
    }

    /** `runtime.closed = true` and `clearTimeout(runtime.flushTimer)`. */
    method CloseRuntime(runtime: nat)
      requires runtime < |runtimes|
      modifies this`runtimes
      ensures runtimes == old(runtimes)[runtime := old(runtimes)[runtime].(closed := true, timer := false)]
    {
      runtimes := runtimes[runtime := runtimes[runtime].(closed := true)];
      runtimes := runtimes[runtime := runtimes[runtime].(timer := false)];
    }

    /** No runtime is open afterwards, and a debt answers for whatever they still held. */
    method StopListenerNow(recordRefreshDebt: bool)
      requires ListenerExists(View())
      modifies this
      ensures View() == StopListener(old(View()), recordRefreshDebt)
      ensures Core(old(View())) ==> Core(View()) && listener.None? && forall r | 0 <= r < |runtimes| :: runtimes[r].closed
      ensures Core(old(View())) ==> forall t | t in uncovered :: fullRefreshDebtEpoch.Some? && t < debtAt
    {
      ghost var s := View();
      StopRefinement(recordRefreshDebt);
      if Core(s) {
        StoppingKeeps(s, recordRefreshDebt);
        StoppedAnswers(s, recordRefreshDebt);
      }
    }

    static lemma StoppedAnswers(s: State, recordRefreshDebt: bool)
      requires Core(s)
      ensures var s' := StopListener(s, recordRefreshDebt);
              && (forall r | 0 <= r < |s'.runtimes| :: s'.runtimes[r].closed)
              && (forall t | t in s'.uncovered :: s'.debt.Some? && t < s'.debtAt)
    {
      StoppingKeeps(s, recordRefreshDebt);
      if recordRefreshDebt {
        RecordingKeeps(s);
      }
      hide RuntimesOk, FlushesOk, RefreshesOk, HeldBefore;
    }

    method StopRefinement(recordRefreshDebt: bool)
      requires ListenerExists(View())
      modifies this
      ensures View() == StopListener(old(View()), recordRefreshDebt)
    {
      hide Core, Captured;
      if recordRefreshDebt {
        var _ := RecordFullRefreshDebt();
      } else {
        uncovered := {};
      }
      reconnectTimer := false;
      CloseListener();
    }

    method CloseListener()
      requires ListenerExists(View())
      modifies this`runtimes, this`listener
      ensures listener.None?
      ensures runtimes == match old(listener)
                          case None => old(runtimes)
                          case Some(r) => old(runtimes)[r := old(runtimes)[r].(closed := true, timer := false)]
    {
      if listener.Some? {
        CloseRuntime(listener.value);
        listener := None;
      }
    }

    /**
     * `onListenerClosed`: the debt is recorded in the same step, and answers for what the runtime held; the
     * stale mark follows only with the operation that is queued for a new epoch.
     */
    method ListenerHasClosed(runtime: nat)
      requires runtime < |runtimes|
      modifies this
      ensures View() == OnListenerClosed(old(View()), runtime)
      ensures !old(runtimes)[runtime].closed && !old(disposed) ==>
                && (Core(old(View())) ==> Core(View()) && listener.None? && forall t | t in uncovered :: t < debtAt)
                && fullRefreshDebtEpoch.Some? && stale == old(stale)
                && lifecycleEpoch > old(lifecycleEpoch) && lifecycle == old(lifecycle) + [ListenerClosed(runtime, lifecycleEpoch)]
    {
      ghost var s := View();
      ClosedRefinement(runtime);
      if !s.runtimes[runtime].closed && !s.disposed {
        ClosedAnswers(s, runtime);
      }
      hide Core, OnListenerClosed;
    }

    static lemma ClosedAnswers(s: State, r: nat)
      requires r < |s.runtimes| && !s.runtimes[r].closed && !s.disposed
      ensures var s' := OnListenerClosed(s, r);
              && (Core(s) ==> Core(s') && s'.listener.None? && forall t | t in s'.uncovered :: t < s'.debtAt)
              && s'.debt.Some? && s'.stale == s.stale
              && s'.epoch > s.epoch && s'.lifecycle == s.lifecycle + [ListenerClosed(r, s'.epoch)]
    {
      if Core(s) {
        ListenerClosedKeeps(s, r);
        RecordingKeeps(s);
      }
      hide Core;
    }

    method ClosedRefinement(runtime: nat)
      requires runtime < |runtimes|
      modifies this
      ensures View() == OnListenerClosed(old(View()), runtime)
    {
      if runtimes[runtime].closed || disposed {
        return;
      }
      Detach(runtime);
      var _ := RecordFullRefreshDebt();
      EnqueueListenerClosed(runtime);
    }

    method Detach(runtime: nat)
      requires runtime < |runtimes|
      modifies this`runtimes, this`listener
      ensures View() == With(old(View()), runtime, old(runtimes)[runtime].(closed := true, timer := false))
                        .(listener := if old(listener) == Some(runtime) then None else old(listener))
    {
      CloseRuntime(runtime);
      if listener == Some(runtime) {
        listener := None;
      }
    }

    method EnqueueListenerClosed(runtime: nat)
      modifies this`lifecycleEpoch, this`lifecycle
      ensures View() == Enqueued(old(View()).(epoch := old(lifecycleEpoch) + 1), ListenerClosed(runtime, old(lifecycleEpoch) + 1))
    {
      lifecycleEpoch := lifecycleEpoch + 1;
      lifecycle := lifecycle + [ListenerClosed(runtime, lifecycleEpoch)];
    }

    // ----- Requests ----------------------------------------------------------------------------

    method RequestOperation(operation: Operation)
      modifies this`lifecycleEpoch, this`lifecycle
      ensures View() == Enqueued(old(View()).(epoch := old(lifecycleEpoch) + 1), operation)
    {
      lifecycleEpoch := lifecycleEpoch + 1;
      lifecycle := lifecycle + [operation];
    }

    method Dispose()
      requires ListenerExists(View()) && !disposed
      modifies this
      ensures View() == Next(old(View()), Event.Dispose)
    {
      disposed := true;
      reconnectTimer := false;
      if listener.Some? {
        RequestOperation(DisposeListener);
      }
    }

    method FireReconnectTimer()
      modifies this
      ensures View() == RequestedReconcile(old(View()).(reconnect := false), false)
    {
      reconnectTimer := false;
      AdvanceAndEnqueueReconcile(false);
    }

    /**
     * `handleReconcileFailure`: while the connection is saved, a debt answers for everything received, no
     * listener is left, and either its lifecycle operation is queued or the reconnect timer is set.
     */
    method HandleReconcileFailure()
      requires ListenerExists(View()) && failedReconciles > 0
      modifies this
      ensures View() == RejectedReconcile(old(View()).(failedReconciles := old(failedReconciles) - 1))
      ensures Inv(old(View())) ==> Inv(View())
      ensures Inv(old(View())) && !old(disposed) && old(store).Some? ==>
                && fullRefreshDebtEpoch.Some? && listener.None? && (forall t | t in uncovered :: t < debtAt)
                && (if old(listener).Some?
                    then lifecycle == old(lifecycle) + [ListenerClosed(old(listener).value, lifecycleEpoch)]
                    else stale && reconnectTimer)
    {
      ghost var s := View();
      RejectedRefinement();
      if Inv(s) {
        RejectedAnswers(s.(failedReconciles := s.failedReconciles - 1), s);
      }
      hide Inv, RejectedReconcile;
    }

    static lemma RejectedAnswers(s: State, was: State)
      requires Inv(was) && was.failedReconciles > 0 && s == was.(failedReconciles := was.failedReconciles - 1)
      ensures var s' := RejectedReconcile(s);
              && Inv(s')
              && (!s.disposed && s.store.Some? ==>
                    && s'.debt.Some? && s'.listener.None? && (forall t | t in s'.uncovered :: t < s'.debtAt)
                    && (if s.listener.Some? then s'.lifecycle == s.lifecycle + [ListenerClosed(s.listener.value, s'.epoch)]
                        else s'.stale && s'.reconnect))
    {
      FewerFailures(was);
      RejectionKeeps(s);
      hide StartupOk, RuntimesOk, FlushesOk, RefreshesOk, HeldBefore, AllAccounted;
      RecordingKeeps(s);
      if s.listener.Some? && !s.disposed {
        ClosedAnswers(s, s.listener.value);
      }
      hide Inv, OnListenerClosed, Configuration;
    }

    static lemma FewerFailures(s: State)
      requires Inv(s) && s.failedReconciles > 0
      ensures Inv(s.(failedReconciles := s.failedReconciles - 1)) && Core(s.(failedReconciles := s.failedReconciles - 1))
    {
      SameCoreKeeps(s, s.(failedReconciles := s.failedReconciles - 1));
      hide Core;
    }

    method RejectedRefinement()
      requires ListenerExists(View()) && failedReconciles > 0
      modifies this
      ensures View() == RejectedReconcile(old(View()).(failedReconciles := old(failedReconciles) - 1))
    {
      hide OnListenerClosed, Configuration, Core;
      failedReconciles := failedReconciles - 1;
      if disposed || store.None? {
        return;
      }
      if listener.Some? {
        ListenerHasClosed(listener.value);
        return;
      }
      var config := Configuration(settings, store.value);
      var schema := store.value.schema.GetOr("workbench");
      if config.Some? {
        schema := config.value.schema;
      }
      OweAndReconnect(Desynchronized, schema);
    }

    method OweAndReconnect(status: Status, schema: string)
      modifies this
      ensures View() == ScheduleReconnect(Reported(MarkStale(RequireFullRefresh(old(View()))), status, schema))
    {
      hide Core, Captured;
      var _ := RecordFullRefreshDebt();
      stale := true;
      SetReport(status, schema);
      ArmReconnect();
    }

    // ----- Notifications -----------------------------------------------------------------------

    method TakeNotification(runtime: nat, note: Note)
      requires runtime < |runtimes|
      modifies this
      ensures View() == OnNotification(old(View()), runtime, note)
    {
      if runtimes[runtime].closed || listener != Some(runtime) {
        return;
      }
      if note.payload.Rejected? {
        var _ := RecordFullRefreshDebt();
        stale := true;
        SetReport(Desynchronized, runtimes[runtime].schema);
        return;
      }
      stale := true;
      runtimes := runtimes[runtime := runtimes[runtime].(notes := runtimes[runtime].notes + [note])];
      runtimes := runtimes[runtime := runtimes[runtime].(timer := true)];
    }

    /** `for (const notification of startupNotifications.splice(0))`. */
    method DrainStartupNotifications(runtime: nat)
      requires runtime < |runtimes|
      modifies this
      ensures View() == PublishListener(old(View()), runtime)
    {
      var held := runtimes[runtime].startup;
      runtimes := runtimes[runtime := runtimes[runtime].(published := true, startup := [])];
      label drained:
      for i := 0 to |held|
        invariant runtime < |runtimes|
        invariant DrainStartup(View(), runtime, held[i..]) == DrainStartup(old@drained(View()), runtime, held)
      {
        assert held[i..][1..] == held[i + 1..];
        TakeNotification(runtime, held[i]);
      }
    }

    /** The client's notification handler: what the listener receives is on the observer's list, and accounted for. */
    method ReceiveNotification(runtime: nat, payload: Payload)
      requires runtime < |runtimes|
      modifies this
      ensures View() == Received(old(View()), runtime, payload)
      ensures Inv(old(View())) ==> Inv(View())
      ensures Inv(old(View())) && old(listener) == Some(runtime) ==>
                old(clock) in uncovered && (!disposed ==> Accounted(View(), old(clock)))
    {
      ghost var s := View();
      ReceivedRefinement(runtime, payload);
      if Inv(s) {
        ReceivingKeeps(s, runtime, payload);
        if s.listener == Some(runtime) {
          ReceiptIsTracked(s, runtime, payload);
          if !disposed {
            UncoveredIsAccounted(View(), s.clock);
          }
        }
      }
      hide Inv, Received, Accounted;
    }

    static lemma UncoveredIsAccounted(s: State, t: nat)
      requires Inv(s) && t in s.uncovered && !s.disposed
      ensures Accounted(s, t)
    {
      hide OneListener, RuntimesOk, FlushesOk, RefreshesOk, DebtOk, HeldBefore, StartupOk, Accounted;
    }

    method ReceivedRefinement(runtime: nat, payload: Payload)
      requires runtime < |runtimes|
      modifies this
      ensures View() == Received(old(View()), runtime, payload)
    {
      hide OnNotification;
      var note := Note(clock, payload);
      clock := clock + 1;
      if runtimes[runtime].closed || listener != Some(runtime) {
        return;
      }
      uncovered := uncovered + {note.at};
      if runtimes[runtime].published {
        TakeNotification(runtime, note);
      } else {
        runtimes := runtimes[runtime := runtimes[runtime].(startup := runtimes[runtime].startup + [note])];
      }
    }

    method HoldNotification(payload: Payload)
      requires active.Some? && active.value.Starting?
      modifies this`active
      ensures View() == old(View()).(active := Some(old(active).value.(buffer := old(active).value.buffer + [payload])))
    {
      active := Some(active.value.(buffer := active.value.buffer + [payload]));
    }

    method HoldClientError()
      requires active.Some? && active.value.Starting?
      modifies this`active
      ensures View() == old(View()).(active := Some(old(active).value.(failed := true)))
    {
      active := Some(active.value.(failed := true));
    }

    /** The client's `error` and `end` handlers. */
    method ReceiveClientError(runtime: nat)
      requires ListenerExists(View()) && runtime < |runtimes|
      modifies this
      ensures View() == Next(old(View()), ClientFails(runtime))
    {
      if runtimes[runtime].published {
        ListenerHasClosed(runtime);
      } else {
        runtimes := runtimes[runtime := runtimes[runtime].(startupFailed := true)];
      }
    }

    // ----- Flushing ----------------------------------------------------------------------------

    method EnqueueBatchRefresh(runtime: nat, batch: seq<Batch>)
      requires runtime < |runtimes| && batch != []
      modifies this
      ensures View() == AwaitBatch(old(View()), runtime, batch)
    {
      runtimes := runtimes[runtime := runtimes[runtime].(batch := batch, outcome := Pending)];
      refreshes := refreshes + [Refresh(OfFlush(runtime), batch[0].group.fallback, batch[0].group.objects, batch[0].stamps, Waiting)];
    }

    /** The `finally` of `flushNotifications`. */
    method FinishFlush(runtime: nat)
      requires runtime < |runtimes|
      modifies this`runtimes
      ensures View() == FlushEnds(old(View()), runtime)
    {
      runtimes := runtimes[runtime := runtimes[runtime].(flushing := false, batch := [], outcome := Pending)];
      if !runtimes[runtime].closed && runtimes[runtime].notes != [] && !runtimes[runtime].timer {
        runtimes := runtimes[runtime := runtimes[runtime].(timer := true)];
      }
    }

    /**
     * `while (!runtime.closed && runtime.notifications.length > 0)`, up to the first `await` of its body: the
     * queue of an open runtime is empty afterwards, and the batch that is awaited holds all it held.
     */
    method LoopFlush(runtime: nat)
      requires runtime < |runtimes|
      modifies this
      ensures View() == FlushLoops(old(View()), runtime)
      ensures RuntimeOk(old(runtimes)[runtime]) && !old(runtimes)[runtime].closed ==>
                && runtimes[runtime].notes == []
                && (forall n | n in old(runtimes)[runtime].notes :: InBatch(runtimes[runtime].batch, n.at))
                && (old(runtimes)[runtime].notes != [] ==> InQueue(View(), OfFlush(runtime)))
    {
      ghost var s := View();
      LoopRefinement(runtime);
      if RuntimeOk(s.runtimes[runtime]) && !s.runtimes[runtime].closed {
        LoopedAnswers(s, runtime);
      }
      hide FlushLoops, InBatch, InQueue, RuntimeOk;
    }

    static lemma LoopedAnswers(s: State, r: nat)
      requires r < |s.runtimes| && RuntimeOk(s.runtimes[r]) && !s.runtimes[r].closed
      ensures var s' := FlushLoops(s, r);
              && |s'.runtimes| == |s.runtimes| && s'.runtimes[r].notes == []
              && (forall n | n in s.runtimes[r].notes :: InBatch(s'.runtimes[r].batch, n.at))
              && (s.runtimes[r].notes != [] ==> InQueue(s', OfFlush(r)))
    {
      var notes, s' := s.runtimes[r].notes, FlushLoops(s, r);
      BatchesHold(notes);
      hide Batches, RuntimeOk;
      forall n | n in notes ensures n.at in Stamps(notes) {}
      if notes != [] {
        hide InBatch, Stamps;
        assert s'.refreshes[|s.refreshes|].owner == OfFlush(r);
      }
    }

    method LoopRefinement(runtime: nat)
      requires runtime < |runtimes|
      modifies this
      ensures View() == FlushLoops(old(View()), runtime)
    {
      var pending := runtimes[runtime].notes;
      var batch := Batches(pending);
      if runtimes[runtime].closed || pending == [] || batch == [] {
        FinishFlush(runtime);
      } else {
        runtimes := runtimes[runtime := runtimes[runtime].(notes := [])];
        EnqueueBatchRefresh(runtime, batch);
      }
    }

    method FireFlushTimer(runtime: nat)
      requires runtime < |runtimes|
      modifies this
      ensures View() == FlushStarts(old(View()), runtime)
    {
      hide FlushLoops, FlushEnds, AwaitBatch;
      var fired := runtimes[runtime].(timer := false);
      assert runtimes[runtime := fired][runtime := fired.(flushing := true)] == runtimes[runtime := fired.(flushing := true)];
      runtimes := runtimes[runtime := fired];
      if runtimes[runtime].flushing || runtimes[runtime].closed {
        return;
      }
      runtimes := runtimes[runtime := runtimes[runtime].(flushing := true)];
      LoopFlush(runtime);
    }

    /** The flush resumes with the outcome of the refresh it awaited. */
    method ResumeFlush(runtime: nat)
      requires runtime < |runtimes| && runtimes[runtime].batch != []
      modifies this
      ensures View() == FlushContinues(old(View()), runtime)
    {
      if runtimes[runtime].outcome == Failed {
        ListenerHasClosed(runtime);
        FinishFlush(runtime);
      } else if runtimes[runtime].closed {
        FinishFlush(runtime);
      } else if |runtimes[runtime].batch| > 1 {
        EnqueueBatchRefresh(runtime, runtimes[runtime].batch[1..]);
      } else {
        runtimes := runtimes[runtime := runtimes[runtime].(batch := [], outcome := Pending)];
        LoopFlush(runtime);
      }
    }

    // ----- Refreshes ---------------------------------------------------------------------------

    /** The first lines of `refreshActive`. */
    method StartRefresh()
      requires refreshes != [] && refreshes[0].progress.Waiting? && ListenerExists(View())
      modifies this`refreshes
      ensures View() == Next(old(View()), RefreshStarts)
    {
      hide Received, OnListenerClosed, FlushStarts, FlushContinues, Publish, Complete, Settle, RejectedReconcile,
           StartOperation, Resume, AnswerOperation;
      var captured := fullRefreshDebtEpoch;
      var full := refreshes[0].fallback || captured.Some?;
      refreshes := refreshes[0 := refreshes[0].(progress := Reading(clock, captured, full))];
    }

    /** The index reads the catalog of the moment, and marks the scope stale while it does. */
    method ReadForRefresh()
      requires refreshes != [] && refreshes[0].progress.Reading? && ListenerExists(View())
      modifies this
      ensures View() == Next(old(View()), RefreshReads)
    {
      hide Received, OnListenerClosed, FlushStarts, FlushContinues, Publish, Complete, Settle, RejectedReconcile,
           StartOperation, Resume, AnswerOperation;
      var p := refreshes[0].progress;
      refreshes := refreshes[0 := refreshes[0].(progress := ReadCatalog(p.startedAt, p.captured, p.full, clock))];
      stale := true;
    }

    method PublishRefresh(clean: bool)
      requires refreshes != [] && refreshes[0].progress.ReadCatalog?
      modifies this
      ensures View() == Publish(old(View()), clean)
    {
      var refresh := refreshes[0];
      var p := refresh.progress;
      refreshes := refreshes[0 := refresh.(progress := Published(p.startedAt, p.captured, p.full, p.at))];
      stale := stale && !clean;
      if p.full {
        reflects := Max(reflects, p.at);
      }
      uncovered := set t | t in uncovered && t !in refresh.stamps && !(p.full && t < p.startedAt);
    }

    method FailRefresh()
      requires refreshes != []
      modifies this`refreshes
      ensures View() == Head(old(View()), Ended(false))
    {
      refreshes := refreshes[0 := refreshes[0].(progress := Ended(false))];
    }

    /** The refresh leaves its queue, and whoever awaits it goes on with its outcome. */
    method SettleRefresh()
      requires refreshes != [] && refreshes[0].progress.Ended?
      modifies this`refreshes, this`runtimes, this`active
      ensures View() == Settle(old(View()))
    {
      hide Informed;
      var refresh := refreshes[0];
      refreshes := refreshes[1..];
      InformAwaiter(refresh.owner, if refresh.progress.ok then Succeeded else Failed);
    }

    method InformAwaiter(owner: Owner, outcome: Outcome)
      modifies this`runtimes, this`active
      ensures View() == Informed(old(View()), owner, outcome)
    {
      match owner
      case OfFlush(r) =>
        if r < |runtimes| {
          runtimes := runtimes[r := runtimes[r].(outcome := outcome)];
        }
      case OfStartup(r) =>
        if active.Some? && active.value.StartupRefresh? && active.value.runtime == r {
          active := Some(StartupRefresh(r, active.value.epoch, active.value.schema, outcome));
        }
      case OfReactivation(r) =>
        if active.Some? && active.value.Reactivating? && active.value.runtime == r {
          active := Some(Reactivating(r, outcome));
        }
    }

    /** `refreshActive` after `synchronizeDatabaseDdl` resolved: it pays exactly the debt it captured. */
    method CompleteRefresh()
      requires refreshes != [] && refreshes[0].progress.Published? && ListenerExists(View())
      modifies this
      ensures View() == Complete(old(View()))
      ensures old(fullRefreshDebtEpoch).Some? ==>
                (fullRefreshDebtEpoch.None? <==> old(refreshes)[0].progress.captured == old(fullRefreshDebtEpoch))
      ensures Inv(old(View())) ==> Inv(View())
      ensures Inv(old(View())) && old(fullRefreshDebtEpoch).Some? && fullRefreshDebtEpoch.None? ==> debtAt <= reflects
      ensures report != old(report) ==> (report.value.status == Listening <==> fullRefreshDebtEpoch.None?)
    {
      ghost var s := View();
      CompleteRefinement();
      CompletedAnswers(s);
      hide Inv, Complete;
    }

    static lemma CompletedAnswers(s: State)
      requires s.refreshes != [] && s.refreshes[0].progress.Published? && ListenerExists(s)
      ensures var s' := Complete(s);
              && (s.debt.Some? ==> (s'.debt.None? <==> s.refreshes[0].progress.captured == s.debt))
              && (Inv(s) ==> Inv(s'))
              && (Inv(s) && s.debt.Some? && s'.debt.None? ==> s'.debtAt <= s'.reflects)
              && (s'.report != s.report ==> s'.report.Some? && (s'.report.value.status == Listening <==> s'.debt.None?))
    {
      CompletedPays(s);
      hide Inv, Complete;
      if Inv(s) {
        CompletingKeeps(s);
        CompletedSteady(s);
      }
    }

    static lemma CompletedPays(s: State)
      requires s.refreshes != [] && s.refreshes[0].progress.Published? && ListenerExists(s)
      ensures var s' := Complete(s);
              && (s.debt.Some? ==> (s'.debt.None? <==> s.refreshes[0].progress.captured == s.debt))
              && (s'.report != s.report ==> s'.report.Some? && (s'.report.value.status == Listening <==> s'.debt.None?))
              && s'.debtAt == s.debtAt && s'.reflects == s.reflects
    {}

    method CompleteRefinement()
      requires refreshes != [] && refreshes[0].progress.Published? && ListenerExists(View())
      modifies this
      ensures View() == Complete(old(View()))
    {
      var captured := refreshes[0].progress.captured;
      refreshes := refreshes[0 := refreshes[0].(progress := Ended(true))];
      if captured.Some? && fullRefreshDebtEpoch == captured {
        fullRefreshDebtEpoch := None;
      }
      if fullRefreshDebtEpoch.Some? {
        stale := true;
        if listener.Some? {
          SetReport(Desynchronized, runtimes[listener.value].schema);
        }
        return;
      }
      if listener.Some? {
        SetReport(Listening, runtimes[listener.value].schema);
      }
    }

    // ----- Lifecycle ---------------------------------------------------------------------------

    method FinishOperation()
      modifies this`active
      ensures View() == Finished(old(View()))
    {
      active := None;
    }

    method SuspendOperation(at: Suspension)
      modifies this`active
      ensures View() == Suspended(old(View()), at)
    {
      active := Some(at);
    }

    /** The end of `reconcileConnection`, up to its next `await`. */
    method StartOrReactivate(config: Config, epoch: nat)
      modifies this
      ensures View() == ReconcileListener(old(View()), config, epoch)
    {
      if listener.None? {
        if reconnectTimer || report == Some(Report(ProvisioningRequired, config.schema)) || store.None? {
          FinishOperation();
        } else if disposed || lifecycleEpoch != epoch
                  || Configuration(settings, store.value) != Some(Config(true, config.schema)) {
          FinishOperation();
        } else {
          SuspendOperation(Starting(epoch, config.schema, Connecting, [], false));
        }
      } else if store.Some? && stale && refreshes == [] {
        refreshes := refreshes + [Refresh(OfReactivation(listener.value), true, [], {}, Waiting)];
        SuspendOperation(Reactivating(listener.value, Pending));
      } else {
        FinishOperation();
      }
    }

    /** `reconcileConnection`, up to its first `await`. */
    method ReconcileNow(epoch: nat, restart: bool, requested: bool)
      requires ListenerExists(View())
      modifies this
      ensures View() == ReconcileConnection(old(View()), epoch, restart, requested)
    {
      hide Core, Configuration, StopListener, ReconcileListener;
      if disposed || lifecycleEpoch != epoch {
        FinishOperation();
        return;
      }
      if store.None? {
        if knownDatabase {
          stale := true;
        }
        StopListenerNow(false);
        SuspendOperation(Stopping(ThenRemoved(epoch)));
        return;
      }
      knownDatabase := true;
      var config := Configuration(settings, store.value);
      if config.None? {
        var label_ := store.value.schema.GetOr("workbench");
        if listener.Some? {
          StopListenerNow(true);
        } else {
          reconnectTimer := false;
        }
        SuspendOperation(Stopping(ThenInvalid(epoch, label_)));
        return;
      }
      if || !config.value.enabled
         || restart
         || (listener.Some? && runtimes[listener.value].schema != config.value.schema) {
        if restart || listener.Some? {
          StopListenerNow(true);
        } else {
          reconnectTimer := false;
        }
        SuspendOperation(Stopping(ThenReconfigured(epoch, requested)));
        return;
      }
      StartOrReactivate(config.value, epoch);
    }

    /**
     * LISTEN succeeded and the intent still stands: the new runtime is the listener, everything startup held
     * back is on the observer's list, `listening` is not announced over a debt, and behind a debt or a stale
     * index a full refresh is queued.
     */
    method PublishStartedListener(at: Suspension)
      requires at.Starting?
      modifies this
      ensures View() == EnterListeners(old(View()), at)
      ensures Calm(old(View())) && old(listener).None? ==>
                && Inv(View()) && listener == Some(|old(runtimes)|)
                && (forall t | old(clock) <= t < old(clock) + |at.buffer| :: t in uncovered)
                && (report.Some? && report.value.status == Listening ==> fullRefreshDebtEpoch.None?)
                && (old(fullRefreshDebtEpoch).Some? || old(stale) ==>
                      refreshes == old(refreshes) + [Refresh(OfStartup(|old(runtimes)|), true, [], {}, Waiting)])
    {
      ghost var s := View();
      EnterRefinement(at);
      if Calm(s) && s.listener.None? {
        EnteredAnswers(s, at);
      }
      hide Calm, Inv, EnterListeners;
    }

    static lemma EnteredAnswers(s: State, at: Suspension)
      requires Calm(s) && s.listener.None? && at.Starting?
      ensures var s' := EnterListeners(s, at);
              && Inv(s') && s'.listener == Some(|s.runtimes|)
              && (forall t | s.clock <= t < s.clock + |at.buffer| :: t in s'.uncovered)
              && (s'.report.Some? && s'.report.value.status == Listening ==> s'.debt.None?)
              && (s.debt.Some? || s.stale ==> s'.refreshes == s.refreshes + [Refresh(OfStartup(|s.runtimes|), true, [], {}, Waiting)])
    {
      EnteringListenersKeeps(s, at);
      assert s.debt.Some? ==> s.debtAt <= s.clock;
      EnteredCleanly(s, at);
      EnteredIsTracked(s, at);
      hide Calm, Inv, PublishListener, Stamped;
    }

    static lemma EnteredIsTracked(s: State, at: Suspension)
      requires at.Starting? && (s.debt.Some? ==> s.debtAt <= s.clock)
      ensures forall t | s.clock <= t < s.clock + |at.buffer| :: t in EnterListeners(s, at).uncovered
    {
      EnteredKeepsTracked(s, at);
      StampsOfBuffer(s.clock, at.buffer);
      hide EnterListeners, Stamped, Stamps;
    }

    static lemma EnteredKeepsTracked(s: State, at: Suspension)
      requires at.Starting? && (s.debt.Some? ==> s.debtAt <= s.clock)
      ensures EnterListeners(s, at).uncovered == s.uncovered + Stamps(Stamped(s.clock, at.buffer))
    {
      hide DrainStartup, Stamped, Stamps;
      if !(s.debt.Some? || s.stale) {
        var told := Reported(Entered(s, at.schema, at.buffer), Listening, at.schema);
        DrainTakes(With(told, |s.runtimes|, told.runtimes[|s.runtimes|].(published := true, startup := [])),
                   |s.runtimes|, told.runtimes[|s.runtimes|].startup);
        assert EnterListeners(s, at) == Finished(PublishListener(told, |s.runtimes|));
        hide EnterListeners;
      }
    }

    static lemma StampsOfBuffer(clock: nat, buffer: seq<Payload>)
      ensures forall t | clock <= t < clock + |buffer| :: t in Stamps(Stamped(clock, buffer))
    {
      var held := Stamped(clock, buffer);
      forall t | clock <= t < clock + |buffer| ensures t in Stamps(held) {
        assert held[t - clock] in held;
      }
    }

    method EnterRefinement(at: Suspension)
      requires at.Starting?
      modifies this
      ensures View() == EnterListeners(old(View()), at)
    {
      var runtime := |runtimes|;
      var held := Stamped(clock, at.buffer);
      runtimes := runtimes + [Runtime(at.schema, held, false, false, [], false, false, [], Pending, false)];
      listener := Some(runtime);
      clock := clock + |at.buffer|;
      uncovered := uncovered + Stamps(held);
      assert View() == Entered(old(View()), at.schema, at.buffer);
      AnnounceStartedListener(runtime, at);
    }

    /** A listener that starts behind a debt or a stale index refreshes before it takes notifications. */
    method AnnounceStartedListener(runtime: nat, at: Suspension)
      requires at.Starting? && runtime < |runtimes|
      modifies this
      ensures old(View().debt.Some? || View().stale) ==>
                View() == Suspended(EnqueueRefresh(Reported(MarkStale(old(View())), Desynchronized, at.schema), OfStartup(runtime), true, [], {}),
                                    StartupRefresh(runtime, at.epoch, at.schema, Pending))
      ensures !old(View().debt.Some? || View().stale) ==>
                View() == Finished(PublishListener(Reported(old(View()), Listening, at.schema), runtime))
    {
      if fullRefreshDebtEpoch.Some? || stale {
        stale := true;
        SetReport(Desynchronized, at.schema);
        refreshes := refreshes + [Refresh(OfStartup(runtime), true, [], {}, Waiting)];
        SuspendOperation(StartupRefresh(runtime, at.epoch, at.schema, Pending));
      } else {
        SetReport(Listening, at.schema);
        DrainStartupNotifications(runtime);
        FinishOperation();
      }
    }

    /** `startConnectionOnce` after its startup refresh. */
    method ResumeStartupRefresh(at: Suspension)
      requires at.StartupRefresh? && at.runtime < |runtimes|
      modifies this
      ensures View() == ResumeStartup(old(View()), at)
    {
      var runtime := at.runtime;
      if at.outcome == Succeeded && !runtimes[runtime].startupFailed {
        DrainStartupNotifications(runtime);
        FinishOperation();
      } else if listener == Some(runtime) {
        runtimes := runtimes[runtime := runtimes[runtime].(published := true)];
        ListenerHasClosed(runtime);
        FinishOperation();
      } else {
        SuspendOperation(ClosingFailed(at.epoch, at.schema, false));
      }
    }

    /** The operation queued by `onListenerClosed`, after the old client ended. */
    method ResumeListenerClosed(runtime: nat, epoch: nat)
      modifies this
      ensures View() == ResumeAfterClose(old(View()), runtime, epoch)
    {
      if disposed || lifecycleEpoch != epoch || store.None? || Configuration(settings, store.value).None? {
        FinishOperation();
        return;
      }
      var config := Configuration(settings, store.value).value;
      if !config.enabled {
        SetReport(Disabled, config.schema);
      } else {
        stale := true;
        SetReport(Desynchronized, if runtime < |runtimes| then runtimes[runtime].schema else config.schema);
        ArmReconnect();
      }
      FinishOperation();
    }

    // ----- Starting, resuming and answering operations -------------------------------------------

    method StartNextOperation()
      requires ListenerExists(View()) && lifecycle != []
      modifies this
      ensures View() == StartOperation(old(View()).(lifecycle := old(lifecycle)[1..]), old(lifecycle)[0])
    {
      hide StopListener, CurrentConfig, StartSetEnabled, StartSetSchema, ReconcileConnection;
      var operation := lifecycle[0];
      lifecycle := lifecycle[1..];
      match operation
      case SetEnabled(enabled) => BeginSetEnabled(enabled);
      case SetSchema(schema) => BeginSetSchema(schema);
      case Provision => BeginProvision();
      case RemoveProvisioning => BeginRemoveProvisioning();
      case Reconcile(epoch, restart) => BeginReconcile(epoch, restart);
      case ListenerClosed(runtime, epoch) => SuspendOperation(EndingClient(runtime, epoch));
      case DisposeListener => BeginDisposal();
    }

    method BeginReconcile(epoch: nat, restart: bool)
      requires ListenerExists(View())
      modifies this
      ensures View() == StartOperation(old(View()), Reconcile(epoch, restart))
    {
      hide ReconcileConnection;
      if disposed || lifecycleEpoch != epoch {
        FinishOperation();
      } else {
        ReconcileNow(epoch, restart, true);
      }
    }

    method BeginDisposal()
      requires ListenerExists(View())
      modifies this
      ensures View() == StartOperation(old(View()), DisposeListener)
    {
      hide Core, StopListener;
      StopListenerNow(false);
      SuspendOperation(Stopping(ThenNothing));
    }

    /** `provision`, up to its first `await`. */
    method BeginProvision()
      requires ListenerExists(View())
      modifies this
      ensures View() == StartOperation(old(View()), Provision)
    {
      hide Core, StopListener, CurrentConfig;
      var config := ResolvedConfiguration();
      if config.None? || !config.value.enabled {
        FinishOperation();
      } else {
        StopListenerNow(true);
        SuspendOperation(Stopping(ThenProvision(config.value.schema)));
      }
    }

    method BeginRemoveProvisioning()
      requires ListenerExists(View())
      modifies this
      ensures View() == StartOperation(old(View()), RemoveProvisioning)
    {
      hide Core, StopListener, CurrentConfig;
      var config := ResolvedConfiguration();
      if config.None? {
        FinishOperation();
      } else {
        StopListenerNow(true);
        SuspendOperation(Stopping(ThenRemoveProvisioning(config.value)));
      }
    }

    method ResolvedConfiguration() returns (config: Option<Config>)
      ensures config == CurrentConfig(View())
    {
      if store.None? {
        return None;
      }
      return Configuration(settings, store.value);
    }

    /** `setConnectionEnabled`, up to its first `await`. */
    method BeginSetEnabled(enabled: Option<bool>)
      requires ListenerExists(View())
      modifies this
      ensures View() == StartSetEnabled(old(View()), enabled)
    {
      hide Core, Captured, StopListener, Configuration;
      if store.None? {
        FinishOperation();
        return;
      }
      var override := store.value.(enabled := enabled);
      var was, desired := Configuration(settings, store.value), Configuration(settings, override);
      if was.None? || desired.None? {
        FinishOperation();
        return;
      }
      if !desired.value.enabled {
        StopListenerNow(true);
        SuspendOperation(Stopping(ThenPersist(override)));
        return;
      }
      if !was.value.enabled {
        var _ := RecordFullRefreshDebt();
      }
      SuspendOperation(Persisting(override));
    }

    /** `setConnectionSupportSchema`, up to its first `await`. */
    method BeginSetSchema(schema: Option<string>)
      requires ListenerExists(View())
      modifies this
      ensures View() == StartSetSchema(old(View()), schema)
    {
      hide Core, StopListener, Configuration, ValidateSupportSchema;
      if store.None? || (schema.Some? && ValidateSupportSchema(schema.value).None?) {
        FinishOperation();
        return;
      }
      var override := store.value.(schema := if schema.None? then None else ValidateSupportSchema(schema.value));
      var desired := Configuration(settings, override);
      if desired.None? {
        FinishOperation();
      } else if listener.Some? && runtimes[listener.value].schema != desired.value.schema {
        StopListenerNow(true);
        SuspendOperation(Stopping(ThenPersist(override)));
      } else {
        SuspendOperation(Persisting(override));
      }
    }

    method ResumeOperation(at: Suspension)
      requires ListenerExists(View()) && Resumable(View(), at)
      modifies this
      ensures View() == Resume(old(View()), at)
    {
      hide ResumeStopping, ResumeUnprovisioned, ResumeFailedStart, ResumeStartup, ResumeAfterClose, OnListenerClosed;
      match at
      case Stopping(next) => ResumeStopped(next);
      case AwaitingRefreshIdle(epoch) =>
        if !disposed && lifecycleEpoch == epoch && store.None? {
          ClearRemovedConnectionState();
        }
        FinishOperation();
      case ClosingUnprovisioned(_, _) => ReportUnprovisioned(at);
      case ClosingFailed(_, _, _) => ReportFailedStart(at);
      case ClosingSuperseded => FinishOperation();
      case StartupRefresh(_, _, _, _) => ResumeStartupRefresh(at);
      case Reactivating(runtime, outcome) =>
        if outcome == Failed {
          ListenerHasClosed(runtime);
        }
        FinishOperation();
      case EndingClient(runtime, epoch) => ResumeListenerClosed(runtime, epoch);
    }

    /** What follows `await this.stopListenerNow(...)`. */
    method ResumeStopped(next: Then)
      requires ListenerExists(View())
      modifies this
      ensures View() == ResumeStopping(old(View()), next)
    {
      hide ReconcileListener, Configuration;
      match next
      case ThenPersist(override) => SuspendOperation(Persisting(override));
      case ThenProvision(schema) => SuspendOperation(Provisioning(schema));
      case ThenRemoveProvisioning(config) => SuspendOperation(RemovingProvisioning(config));
      case ThenRemoved(epoch) => SuspendOperation(AwaitingRefreshIdle(epoch));
      case ThenInvalid(epoch, schema) =>
        if !disposed && lifecycleEpoch == epoch {
          stale := true;
          SetReport(Unavailable, schema);
        }
        FinishOperation();
      case ThenReconfigured(epoch, requested) =>
        if disposed || lifecycleEpoch != epoch || store.None? {
          FinishOperation();
          return;
        }
        var config := Configuration(settings, store.value);
        if config.None? {
          if requested {
            failedReconciles := failedReconciles + 1;
          }
          FinishOperation();
        } else if !config.value.enabled {
          SetReport(Disabled, config.value.schema);
          FinishOperation();
        } else {
          StartOrReactivate(config.value, epoch);
        }
      case ThenNothing => FinishOperation();
    }

    method ClearRemovedConnectionState()
      modifies this
      ensures View() == Forget(old(View()))
    {
      report := None;
      fullRefreshDebtEpoch, fullRefreshEpochSequence := None, 0;
      knownDatabase := false;
      uncovered := {};
    }

    method StillRequired(schema: string, epoch: nat) returns (required: bool)
      ensures required == StartStillRequired(View(), schema, epoch)
    {
      hide Configuration;
      if disposed || lifecycleEpoch != epoch || listener.Some? || store.None? {
        return false;
      }
      return Configuration(settings, store.value) == Some(Config(true, schema));
    }

    method ReportUnprovisioned(at: Suspension)
      requires at.ClosingUnprovisioned?
      modifies this
      ensures View() == ResumeUnprovisioned(old(View()), at)
    {
      hide StartStillRequired;
      var required := StillRequired(at.schema, at.epoch);
      if required {
        var _ := RecordFullRefreshDebt();
        stale := true;
        SetReport(ProvisioningRequired, at.schema);
      }
      FinishOperation();
    }

    method ReportFailedStart(at: Suspension)
      requires at.ClosingFailed?
      modifies this
      ensures View() == ResumeFailedStart(old(View()), at)
    {
      hide StartStillRequired;
      var required := StillRequired(at.schema, at.epoch);
      if required {
        var _ := RecordFullRefreshDebt();
        stale := true;
        if at.insufficient {
          SetReport(InsufficientPrivilege, at.schema);
        } else {
          SetReport(Unavailable, at.schema);
          ArmReconnect();
        }
      }
      FinishOperation();
    }

    /** The settings store or PostgreSQL answered the operation. */
    method ContinueOperation(at: Suspension, answer: Answer)
      requires ListenerExists(View()) && Answerable(at)
      modifies this
      ensures View() == AnswerOperation(old(View()), at, answer)
    {
      hide ReconcileConnection, AnswerStarting;
      match at
      case Persisting(override) =>
        if !answer.Done? || store.None? {
          FinishOperation();
        } else {
          store := Some(override);
          ReconcileNow(lifecycleEpoch, false, false);
        }
      case Provisioning(schema) =>
        if answer.Done? {
          report := None;
          ReconcileNow(lifecycleEpoch, false, false);
        } else {
          if answer.Refused? {
            SetReport(if answer.insufficient then InsufficientPrivilege else Unavailable, schema);
          }
          FinishOperation();
        }
      case RemovingProvisioning(config) =>
        if answer.Done? {
          stale := true;
          SetReport(if config.enabled then ProvisioningRequired else Disabled, config.schema);
        } else if answer.Refused? {
          stale := true;
          SetReport(if answer.insufficient then InsufficientPrivilege else Unavailable, config.schema);
        }
        FinishOperation();
      case Starting(_, _, _, _, _) => ContinueStart(at, answer);
    }

    /** `startConnectionOnce` after one of its awaits. */
    method ContinueStart(at: Suspension, answer: Answer)
      requires at.Starting?
      modifies this
      ensures View() == AnswerStarting(old(View()), at, answer)
    {
      hide StartStillRequired, EnterListeners;
      if answer.NoClient? || answer.Refused? || (at.failed && !at.stage.Connecting?) {
        SuspendOperation(ClosingFailed(at.epoch, at.schema, answer == Refused(true)));
        return;
      }
      var required := StillRequired(at.schema, at.epoch);
      if !required {
        SuspendOperation(ClosingSuperseded);
        return;
      }
      match at.stage
      case Connecting => SuspendOperation(at.(stage := Querying));
      case Querying =>
        if answer.NotProvisioned? {
          SuspendOperation(ClosingUnprovisioned(at.epoch, at.schema));
        } else {
          SuspendOperation(at.(stage := Subscribing));
        }
      case Subscribing => PublishStartedListener(at);
    }
  }
}
