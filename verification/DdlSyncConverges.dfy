/**
 * Where a reconciliation ends (packages/catalog/src/ddlSync.ts): unless something newer takes over, the
 * controller comes to the listener its configuration asks for, or to a reason why it has none.
 */
module DdlSyncConverges {
  import opened Options
  import opened DdlSyncSpec
  import opened DdlSyncProofs
  import opened DdlSyncTheorems
  import opened DdlSyncQueues
  import opened DdlSyncRetries
  import L = DdlSyncLosses

  // ----- A saved connection ------------------------------------------------------------------------

  /** A listener on the configured schema. */
  predicate Listens(s: State, schema: string) {
    s.listener.Some? && s.listener.value < |s.runtimes| && s.runtimes[s.listener.value].schema == schema
  }

  /** No listener, and why: the timer is set, or PostgreSQL refused, or it has to be provisioned first. */
  predicate Explained(s: State, schema: string) {
    && s.listener.None?
    && (s.reconnect || s.report == Some(Report(ProvisioningRequired, schema)) || s.report == Some(Report(InsufficientPrivilege, schema)))
  }

  /** The lifecycle is idle, and the controller is where the configuration wants it. */
  predicate Settled(s: State, config: Config) {
    && s.lifecycle == [] && s.active.None?
    && if config.enabled then Listens(s, config.schema) || Explained(s, config.schema) else s.listener.None?
  }

  /** The running operation is on its way there. */
  predicate Underway(s: State, config: Config) {
    && s.lifecycle == [] && s.active.Some?
    && match s.active.value
       case Stopping(ThenReconfigured(epoch, _)) => epoch == s.epoch && s.listener.None?
       case Starting(epoch, schema, _, _, _) => epoch == s.epoch && config == Config(true, schema) && s.listener.None?
       case ClosingFailed(epoch, schema, _) => epoch == s.epoch && config == Config(true, schema) && s.listener.None?
       case ClosingUnprovisioned(epoch, schema) => epoch == s.epoch && config == Config(true, schema) && s.listener.None?
       case StartupRefresh(r, _, _, _) => config.enabled && s.listener == Some(r) && Listens(s, config.schema)
       case Reactivating(r, _) => config.enabled && s.listener == Some(r) && Listens(s, config.schema)
       case _ => false
  }

  /** The reconciliation of this epoch is the last operation queued, or under way, or has come to its end. */
  predicate Converging(s: State, epoch: nat, config: Config) {
    && s.epoch == epoch && !s.disposed
    && (|| (s.lifecycle != [] && s.lifecycle[|s.lifecycle| - 1].Reconcile? && s.lifecycle[|s.lifecycle| - 1].epoch == epoch)
        || Underway(s, config) || Settled(s, config))
  }

  predicate Configured(s: State, config: Config) {
    s.store.Some? && CurrentConfig(s) == Some(config)
  }

  // Steps beside the lifecycle.

  /** What steps beside the lifecycle leave of it while the epoch stays. */
  ghost predicate Beside(s: State, s': State) {
    s'.epoch > s.epoch || s'.disposed
    || (s'.epoch == s.epoch && s'.lifecycle == s.lifecycle && (s.reconnect ==> s'.reconnect)
        && SameSuspension(s.active, s'.active) && |s.runtimes| <= |s'.runtimes| && s'.listener == s.listener
        && (forall r | 0 <= r < |s.runtimes| :: s'.runtimes[r].schema == s.runtimes[r].schema)
        && (s'.report == s.report || s'.listener.Some? || s'.reconnect))
  }

  /** The same place, whatever was answered or buffered meanwhile. */
  predicate SameSuspension(a: Option<Suspension>, b: Option<Suspension>) {
    match a
    case Some(Starting(epoch, schema, stage, _, _)) =>
      b.Some? && b.value.Starting? && b.value.epoch == epoch && b.value.schema == schema && b.value.stage == stage
    case Some(StartupRefresh(r, epoch, schema, _)) =>
      b.Some? && b.value.StartupRefresh? && b.value.runtime == r && b.value.epoch == epoch && b.value.schema == schema
    case Some(Reactivating(r, _)) => b.Some? && b.value.Reactivating? && b.value.runtime == r
    case _ => b == a
  }

  lemma ItselfBeside(s: State)
    ensures Beside(s, s)
  {}

  lemma ClosedBeside(s: State, r: nat)
    requires r < |s.runtimes|
    ensures Beside(s, OnListenerClosed(s, r))
  {}

  lemma LoopedBeside(s: State, r: nat)
    requires r < |s.runtimes|
    ensures Beside(s, FlushLoops(s, r)) && Beside(s, FlushEnds(s, r))
  {
    hide Batches;
  }

  lemma NotifiedBeside(s: State, r: nat, note: Note)
    requires r < |s.runtimes|
    ensures Beside(s, OnNotification(s, r, note))
  {}

  lemma FlushStartedBeside(s: State, r: nat)
    requires r < |s.runtimes|
    ensures Beside(s, FlushStarts(s, r))
  {
    LoopedBeside(With(s, r, s.runtimes[r].(timer := false, flushing := true)), r);
    hide FlushLoops;
  }

  lemma FlushContinuedBeside(s: State, r: nat)
    requires r < |s.runtimes| && s.runtimes[r].batch != []
    ensures Beside(s, FlushContinues(s, r))
  {
    hide FlushLoops, FlushEnds, OnListenerClosed;
    var rt := s.runtimes[r];
    if rt.outcome == Failed {
      ClosedFacts(s, r);
      LoopedBeside(OnListenerClosed(s, r), r);
      FlushKeepsEpoch(OnListenerClosed(s, r), r);
    } else if rt.closed {
      LoopedBeside(s, r);
    } else if |rt.batch| == 1 {
      LoopedBeside(With(s, r, rt.(batch := [], outcome := Pending)), r);
    }
  }

  lemma ReceivedBeside(s: State, r: nat, payload: Payload)
    requires r < |s.runtimes|
    ensures Beside(s, Received(s, r, payload))
  {
    var tracked, note := s.(clock := s.clock + 1, uncovered := s.uncovered + {s.clock}), Note(s.clock, payload);
    NotifiedBeside(tracked, r, note);
    HeldBeside(tracked, r, note);
    ItselfBeside(s);
    hide OnNotification, With, Beside;
    BesideToo(s, s, s.(clock := s.clock + 1));
    BesideTracked(s, tracked, Received(s, r, payload));
  }

  lemma HeldBeside(s: State, r: nat, note: Note)
    requires r < |s.runtimes|
    ensures Beside(s, With(s, r, s.runtimes[r].(startup := s.runtimes[r].startup + [note])))
  {}

  lemma BesideTracked(s: State, tracked: State, t: State)
    requires tracked == s.(clock := tracked.clock, uncovered := tracked.uncovered) && Beside(tracked, t)
    ensures Beside(s, t)
  {}

  lemma BesideToo(s: State, s': State, t: State)
    requires Beside(s, s') && t == s'.(clock := t.clock)
    ensures Beside(s, t)
  {}

  lemma RejectedBeside(s: State)
    requires ListenerExists(s)
    ensures Beside(s, RejectedReconcile(s))
  {
    if s.listener.Some? {
      ClosedBeside(s, s.listener.value);
    }
    hide OnListenerClosed, CurrentConfig;
  }

  lemma SettledBeside(s: State)
    requires s.refreshes != [] && s.refreshes[0].progress.Ended?
    ensures Beside(s, Settle(s))
  {
    match s.refreshes[0].owner
    case OfFlush(_) =>
    case OfStartup(_) =>
    case OfReactivation(_) =>
  }

  lemma CompletedBeside(s: State)
    requires s.refreshes != [] && s.refreshes[0].progress.Published? && ListenerExists(s)
    ensures Beside(s, Complete(s))
  {}

  lemma ClientBeside(s: State, r: nat)
    requires ListenerExists(s) && r < |s.runtimes|
    ensures Beside(s, Next(s, ClientFails(r)))
  {
    ClosedBeside(s, r);
    hide OnListenerClosed;
  }

  lemma RejectionBeside(s: State)
    requires ListenerExists(s) && s.failedReconciles > 0
    ensures Beside(s, Next(s, ReconcileRejected))
  {
    RejectedBeside(s.(failedReconciles := s.failedReconciles - 1));
    hide RejectedReconcile;
  }

  lemma PlainBeside(s: State, e: Event)
    requires ListenerExists(s) && Enabled(s, e) && !OfLifecycle(e)
    requires !e.ReconcileRejected? && !e.Receive? && !e.TimerFires? && !e.FlushResumes? && !e.RefreshCompletes?
             && !e.RefreshSettles? && !e.ClientFails?
    ensures Beside(s, Next(s, e))
  {
    hide Received, OnListenerClosed, FlushStarts, FlushContinues, Complete, Settle, RejectedReconcile, StartOperation, Resume, AnswerOperation;
  }

  lemma OthersBeside(s: State, e: Event)
    requires ListenerExists(s) && Enabled(s, e) && !OfLifecycle(e)
    ensures Beside(s, Next(s, e))
  {
    hide Received, OnListenerClosed, FlushStarts, FlushContinues, Complete, Settle, RejectedReconcile, Beside;
    match e
    case ReconcileRejected => RejectionBeside(s);
    case Receive(r, payload) => ReceivedBeside(s, r, payload);
    case TimerFires(r) => FlushStartedBeside(s, r);
    case FlushResumes(r) => FlushContinuedBeside(s, r);
    case RefreshCompletes => CompletedBeside(s);
    case RefreshSettles => SettledBeside(s);
    case ClientFails(r) => ClientBeside(s, r);
    case _ => PlainBeside(s, e);
  }

  lemma BesideConverges(s: State, s': State, epoch: nat, config: Config)
    requires Converging(s, epoch, config) && Beside(s, s') && s'.epoch == epoch && !s'.disposed
    ensures Converging(s', epoch, config)
  {}

  // Steps of the lifecycle.

  lemma ReconcileListenerConverges(s: State, config: Config, epoch: nat)
    requires s.lifecycle == [] && s.epoch == epoch && !s.disposed && Configured(s, config) && config.enabled
    requires s.listener.None? || Listens(s, config.schema)
    ensures Converging(ReconcileListener(s, config, epoch), epoch, config)
  {
    hide CurrentConfig;
  }

  lemma ReconcileConverges(s: State, epoch: nat, restart: bool, requested: bool, config: Config)
    requires ListenerExists(s) && s.lifecycle == [] && s.epoch == epoch && !s.disposed && Configured(s, config)
    ensures Converging(ReconcileConnection(s, epoch, restart, requested), epoch, config)
  {
    var known := s.(known := true);
    assert CurrentConfig(known) == CurrentConfig(s) && ListenerExists(known);
    StoppedFacts(known);
    hide StopListener, CurrentConfig, ReconcileListener;
    if config.enabled && !restart && !(s.listener.Some? && s.runtimes[s.listener.value].schema != config.schema) {
      ReconcileListenerConverges(known, config, epoch);
    }
  }

  lemma StoppedFacts(s: State)
    requires ListenerExists(s)
    ensures var t := StopListener(s, true);
            t.listener.None? && t.lifecycle == s.lifecycle && t.epoch == s.epoch && t.disposed == s.disposed
  {}

  lemma StartConverges(s: State, epoch: nat, config: Config)
    requires ListenerExists(s) && s.active.None? && s.epoch == epoch && !s.disposed && Configured(s, config)
    requires |s.lifecycle| == 1 && s.lifecycle[0].Reconcile? && s.lifecycle[0].epoch == epoch
    ensures Converging(Next(s, LifecycleStarts), epoch, config)
  {
    var rest := s.(lifecycle := s.lifecycle[1..]);
    assert CurrentConfig(rest) == CurrentConfig(s);
    ReconcileConverges(rest, epoch, s.lifecycle[0].restart, true, config);
    hide ReconcileConnection, CurrentConfig;
  }

  lemma ResumeConverges(s: State, epoch: nat, config: Config)
    requires ListenerExists(s) && Enabled(s, LifecycleResumes) && Configured(s, config)
    requires s.epoch == epoch && !s.disposed && Underway(s, config) && Next(s, LifecycleResumes).epoch == epoch
    requires s.listener.Some? ==> !s.runtimes[s.listener.value].closed
    ensures Converging(Next(s, LifecycleResumes), epoch, config)
  {
    var at := s.active.value;
    hide CurrentConfig, ReconcileListener, ResumeStartup, OnListenerClosed;
    match at
    case Stopping(next) =>
      if config.enabled {
        ReconcileListenerConverges(s, config, epoch);
      }
    case StartupRefresh(r, _, _, _) => StartupConverges(s, at, epoch, config);
    case Reactivating(r, _) => ClosedFacts(s, r);
    case ClosingFailed(_, _, _) =>
    case ClosingUnprovisioned(_, _) =>
  }

  lemma StartupConverges(s: State, at: Suspension, epoch: nat, config: Config)
    requires ListenerExists(s) && at.StartupRefresh? && s.active == Some(at) && at.runtime < |s.runtimes| && s.epoch == epoch && !s.disposed
    requires Underway(s, config) && ResumeStartup(s, at).epoch == epoch
    requires !s.runtimes[at.runtime].closed
    ensures Converging(ResumeStartup(s, at), epoch, config)
  {
    var r := at.runtime;
    DrainedFacts(With(s, r, s.runtimes[r].(published := true, startup := [])), r, s.runtimes[r].startup);
    ClosedFacts(With(s, r, s.runtimes[r].(published := true)), r);
    hide DrainStartup, OnListenerClosed;
  }

  lemma {:induction false} DrainedFacts(s: State, r: nat, held: seq<Note>)
    requires r < |s.runtimes|
    ensures var d := DrainStartup(s, r, held);
            && d.listener == s.listener && d.lifecycle == s.lifecycle && d.epoch == s.epoch && d.disposed == s.disposed
            && |d.runtimes| == |s.runtimes| && forall q | 0 <= q < |s.runtimes| :: d.runtimes[q].schema == s.runtimes[q].schema
    decreases |held|
  {
    hide OnNotification;
    if held != [] {
      NotifiedFacts(s, r, held[0]);
      DrainedFacts(OnNotification(s, r, held[0]), r, held[1..]);
    }
  }

  lemma NotifiedFacts(s: State, r: nat, note: Note)
    requires r < |s.runtimes|
    ensures var d := OnNotification(s, r, note);
            && d.listener == s.listener && d.lifecycle == s.lifecycle && d.epoch == s.epoch && d.disposed == s.disposed
            && |d.runtimes| == |s.runtimes| && forall q | 0 <= q < |s.runtimes| :: d.runtimes[q].schema == s.runtimes[q].schema
  {}

  lemma EnterConverges(s: State, at: Suspension, epoch: nat)
    requires at.Starting? && s.lifecycle == [] && s.epoch == epoch && !s.disposed
    ensures Converging(EnterListeners(s, at), epoch, Config(true, at.schema))
  {
    var entered := Entered(s, at.schema, at.buffer);
    var told, r := Reported(entered, Listening, at.schema), |s.runtimes|;
    DrainedFacts(With(told, r, told.runtimes[r].(published := true, startup := [])), r, told.runtimes[r].startup);
    hide DrainStartup, Stamped, Stamps;
  }

  lemma AnswerConverges(s: State, answer: Answer, epoch: nat, config: Config)
    requires ListenerExists(s) && Enabled(s, LifecycleAnswers(answer)) && Configured(s, config)
    requires s.epoch == epoch && !s.disposed && Underway(s, config)
    ensures Converging(Next(s, LifecycleAnswers(answer)), epoch, config)
  {
    var at := s.active.value;
    assert at.Starting? && StartStillRequired(s, at.schema, at.epoch);
    hide StartStillRequired, CurrentConfig, ReconcileConnection, AnswerStarting, Reported, MarkStale, Converging;
    AnswerStartingConverges(s, at, answer, epoch, config);
  }

  lemma AnswerStartingConverges(s: State, at: Suspension, answer: Answer, epoch: nat, config: Config)
    requires at.Starting? && s.active == Some(at) && StartStillRequired(s, at.schema, at.epoch)
    requires s.epoch == epoch && !s.disposed && Underway(s, config)
    ensures Converging(AnswerStarting(s, at, answer), epoch, config)
  {
    assert s.lifecycle == [] && s.listener.None? && at.epoch == epoch && config == Config(true, at.schema);
    EnterConverges(s, at, epoch);
    hide CurrentConfig, EnterListeners, StartStillRequired, Underway, Converging, Suspended;
    StartsOn(s, ClosingFailed(at.epoch, at.schema, answer == Refused(true)), epoch, config);
    StartsOn(s, ClosingUnprovisioned(at.epoch, at.schema), epoch, config);
    StartsOn(s, at.(stage := Querying), epoch, config);
    StartsOn(s, at.(stage := Subscribing), epoch, config);
  }

  lemma StartsOn(s: State, at: Suspension, epoch: nat, config: Config)
    requires s.epoch == epoch && !s.disposed && s.lifecycle == [] && s.listener.None?
    requires (at.Starting? || at.ClosingFailed? || at.ClosingUnprovisioned?) && at.epoch == epoch && config == Config(true, at.schema)
    ensures Converging(Suspended(s, at), epoch, config)
  {}

  lemma ConvergingStep(s: State, e: Event, epoch: nat, config: Config)
    requires Inv(s) && ListenerExists(s) && Enabled(s, e) && Converging(s, epoch, config) && Configured(s, config)
    requires Next(s, e).epoch == epoch && !Next(s, e).disposed
    ensures Converging(Next(s, e), epoch, config)
  {
    hide Inv, Received, OnListenerClosed, FlushStarts, FlushContinues, Complete, Settle, RejectedReconcile, StartOperation, Resume,
         AnswerOperation;
    L.OnlyListenerIsOpen(s);
    if !OfLifecycle(e) {
      OthersBeside(s, e);
      hide Next, Enabled, Beside;
      BesideConverges(s, Next(s, e), epoch, config);
    } else if |s.lifecycle| > 1 || (s.lifecycle != [] && !e.LifecycleStarts?) {
      LifecycleSteady(s, e);
      hide Next, Enabled;
    } else {
      match e
      case LifecycleStarts => StartConverges(s, epoch, config);
      case LifecycleResumes => ResumeConverges(s, epoch, config);
      case LifecycleAnswers(answer) => AnswerConverges(s, answer, epoch, config);
    }
  }

  /** The steps lead to `s'` while epoch and configuration stay as they are. */
  ghost predicate Unchanged(s: State, events: seq<Event>, s': State, epoch: nat, config: Config)
    decreases |events|
  {
    && s.epoch == epoch && !s.disposed && Configured(s, config)
    && if events == [] then s' == s
       else ListenerExists(s) && Enabled(s, events[0]) && Unchanged(Next(s, events[0]), events[1..], s', epoch, config)
  }

  lemma {:induction false} StaysConverging(s: State, events: seq<Event>, s': State, epoch: nat, config: Config)
    requires Inv(s) && Converging(s, epoch, config) && Unchanged(s, events, s', epoch, config)
    ensures Converging(s', epoch, config)
    decreases |events|
  {
    if events != [] {
      ConvergingStep(s, events[0], epoch, config);
      NextKeeps(s, events[0]);
      hide Next, Enabled, Inv, Converging, Configured;
      StaysConverging(Next(s, events[0]), events[1..], s', epoch, config);
    }
  }

  /**
   * A requested reconciliation reaches what the configuration asks for: as long as nothing newer is requested and the
   * configuration stays, the controller is on its way, or it listens on the configured schema, or it says why not (a
   * retry is set, or PostgreSQL refused, or provisioning is needed); and with synchronisation off nothing listens.
   */
  lemma ReconciliationConverges(s: State, restart: bool, events: seq<Event>, s': State, config: Config)
    requires Inv(s) && !s.disposed
    requires Unchanged(RequestedReconcile(s, restart), events, s', s.epoch + 1, config)
    ensures Converging(s', s.epoch + 1, config)
    ensures s'.lifecycle == [] && s'.active.None? ==> Settled(s', config)
  {
    SameCoreKeeps(s, RequestedReconcile(s, restart));
    assert Inv(RequestedReconcile(s, restart));
    hide Inv;
    StaysConverging(RequestedReconcile(s, restart), events, s', s.epoch + 1, config);
  }
}
