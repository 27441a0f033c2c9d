/**
 * What becomes of a lost listener, and for what a listener is lost (packages/catalog/src/ddlSync.ts).
 */
module DdlSyncRetries {
  import opened Options
  import opened DdlSyncSpec
  import opened DdlSyncProofs
  import opened DdlSyncTheorems
  import opened DdlSyncQueues

  // ----- A lost listener is retried ----------------------------------------------------------------

  /** The operation behind the loss is the last one queued, or it runs, or it has set the reconnect timer. */
  predicate Recovering(s: State, epoch: nat) {
    && s.epoch == epoch && !s.disposed
    && (|| (s.lifecycle != [] && s.lifecycle[|s.lifecycle| - 1].ListenerClosed? && s.lifecycle[|s.lifecycle| - 1].epoch == epoch)
        || (s.lifecycle == [] && s.active.Some? && s.active.value.EndingClient? && s.active.value.epoch == epoch)
        || (s.lifecycle == [] && s.active.None? && s.reconnect))
  }

  /** The saved connection wants synchronisation. */
  predicate Wanted(s: State) {
    s.store.Some? && CurrentConfig(s).Some? && CurrentConfig(s).value.enabled
  }

  /** Nothing queues an operation without a new epoch, and the timer of a living controller stays set. */
  ghost predicate Steady(s: State, s': State) {
    s'.epoch > s.epoch || s'.disposed
    || (s'.epoch == s.epoch && s'.lifecycle == s.lifecycle && (s.reconnect ==> s'.reconnect)
        && (s.active.None? || s.active.value.EndingClient? ==> s'.active == s.active))
  }

  lemma ClosedSteady(s: State, r: nat)
    requires r < |s.runtimes|
    ensures Steady(s, OnListenerClosed(s, r))
    ensures OnListenerClosed(s, r).epoch == s.epoch ==> OnListenerClosed(s, r) == s
  {}

  lemma LoopedSteady(s: State, r: nat)
    requires r < |s.runtimes|
    ensures Steady(s, FlushLoops(s, r)) && Steady(s, FlushEnds(s, r))
  {
    hide Batches;
  }

  lemma NotifiedSteady(s: State, r: nat, note: Note)
    requires r < |s.runtimes|
    ensures Steady(s, OnNotification(s, r, note))
  {}

  lemma FlushStartedSteady(s: State, r: nat)
    requires r < |s.runtimes|
    ensures Steady(s, FlushStarts(s, r))
  {
    LoopedSteady(With(s, r, s.runtimes[r].(timer := false, flushing := true)), r);
    hide FlushLoops;
  }

  lemma FlushContinuedSteady(s: State, r: nat)
    requires r < |s.runtimes| && s.runtimes[r].batch != []
    ensures Steady(s, FlushContinues(s, r))
  {
    hide FlushLoops, FlushEnds, OnListenerClosed;
    var rt := s.runtimes[r];
    if rt.outcome == Failed {
      ClosedFacts(s, r);
      LoopedSteady(OnListenerClosed(s, r), r);
      FlushKeepsEpoch(OnListenerClosed(s, r), r);
    } else if rt.closed {
      LoopedSteady(s, r);
    } else if |rt.batch| == 1 {
      LoopedSteady(With(s, r, rt.(batch := [], outcome := Pending)), r);
    }
  }

  lemma ClosedFacts(s: State, r: nat)
    requires r < |s.runtimes|
    ensures var t := OnListenerClosed(s, r);
            && |t.runtimes| == |s.runtimes| && (t == s || (t.epoch > s.epoch && !t.disposed))
  {}

  lemma FlushKeepsEpoch(s: State, r: nat)
    requires r < |s.runtimes|
    ensures FlushEnds(s, r).epoch == s.epoch && FlushEnds(s, r).disposed == s.disposed
  {}

  lemma ReceivedSteady(s: State, r: nat, payload: Payload)
    requires r < |s.runtimes|
    ensures Steady(s, Received(s, r, payload))
  {
    NotifiedSteady(s.(clock := s.clock + 1, uncovered := s.uncovered + {s.clock}), r, Note(s.clock, payload));
    hide OnNotification;
  }

  lemma RejectedSteady(s: State)
    requires ListenerExists(s)
    ensures Steady(s, RejectedReconcile(s))
  {
    if s.listener.Some? {
      ClosedSteady(s, s.listener.value);
    }
    hide OnListenerClosed, CurrentConfig;
  }

  lemma SettledSteady(s: State)
    requires s.refreshes != [] && s.refreshes[0].progress.Ended?
    ensures Steady(s, Settle(s))
  {}

  lemma CompletedSteadily(s: State)
    requires s.refreshes != [] && s.refreshes[0].progress.Published? && ListenerExists(s)
    ensures Steady(s, Complete(s))
  {}

  lemma OthersSteady(s: State, e: Event)
    requires ListenerExists(s) && Enabled(s, e) && !OfLifecycle(e) && !e.ReconnectFires?
    ensures Steady(s, Next(s, e))
  {
    hide Received, OnListenerClosed, FlushStarts, FlushContinues, Complete, Settle, RejectedReconcile, Steady;
    match e
    case ReconcileRejected => RejectionSteady(s);
    case Receive(r, payload) => ReceivedSteady(s, r, payload);
    case TimerFires(r) => FlushStartedSteady(s, r);
    case FlushResumes(r) => FlushContinuedSteady(s, r);
    case RefreshCompletes => CompletedSteadily(s);
    case RefreshSettles => SettledSteady(s);
    case ClientFails(r) => ClientSteady(s, r);
    case _ => PlainSteady(s, e);
  }

  lemma RejectionSteady(s: State)
    requires ListenerExists(s) && s.failedReconciles > 0
    ensures Steady(s, Next(s, ReconcileRejected))
  {
    RejectedSteady(s.(failedReconciles := s.failedReconciles - 1));
    hide RejectedReconcile;
  }

  lemma ClientSteady(s: State, r: nat)
    requires ListenerExists(s) && r < |s.runtimes|
    ensures Steady(s, Next(s, ClientFails(r)))
  {
    ClosedSteady(s, r);
    hide OnListenerClosed;
  }

  lemma PlainSteady(s: State, e: Event)
    requires ListenerExists(s) && Enabled(s, e) && !OfLifecycle(e) && !e.ReconnectFires?
    requires !e.ReconcileRejected? && !e.Receive? && !e.TimerFires? && !e.FlushResumes? && !e.RefreshCompletes?
             && !e.RefreshSettles? && !e.ClientFails?
    ensures Steady(s, Next(s, e))
  {}

  /** What the lifecycle queues while it goes on has a new epoch too. */
  lemma ResumedBumps(s: State, at: Suspension)
    requires ListenerExists(s) && Resumable(s, at)
    ensures Resume(s, at).epoch == s.epoch ==> Resume(s, at).lifecycle == s.lifecycle
  {
    hide OnListenerClosed, ResumeStopping, ResumeStartup, ResumeFailedStart, ResumeUnprovisioned, ResumeAfterClose;
    match at
    case Stopping(next) => ResumedStopWaits(s, next);
    case StartupRefresh(_, _, _, _) => StartupBumps(s, at);
    case Reactivating(r, _) => ClosedFacts(s, r);
    case ClosingFailed(_, _, _) => FailedStartWaits(s, at);
    case ClosingUnprovisioned(_, _) => FailedStartWaits(s, at);
    case EndingClient(r, epoch) => AfterCloseWaits(s, r, epoch);
    case _ =>
  }

  lemma StartupBumps(s: State, at: Suspension)
    requires at.StartupRefresh? && at.runtime < |s.runtimes|
    ensures ResumeStartup(s, at).epoch == s.epoch ==> ResumeStartup(s, at).lifecycle == s.lifecycle
  {
    var r := at.runtime;
    DrainedWaits(With(s, r, s.runtimes[r].(published := true, startup := [])), r, s.runtimes[r].startup);
    ClosedFacts(With(s, r, s.runtimes[r].(published := true)), r);
    hide OnListenerClosed, DrainStartup;
  }

  /** The last operation of the queue stays the last while the epoch does. */
  lemma LifecycleSteady(s: State, e: Event)
    requires ListenerExists(s) && Enabled(s, e) && OfLifecycle(e) && Next(s, e).epoch == s.epoch
    ensures Next(s, e).lifecycle == if e.LifecycleStarts? then s.lifecycle[1..] else s.lifecycle
  {
    hide StartOperation, Resume, AnswerOperation, Resumable;
    match e
    case LifecycleStarts => StartedWaits(s.(lifecycle := s.lifecycle[1..]), s.lifecycle[0]);
    case LifecycleResumes => ResumedBumps(s, s.active.value);
    case LifecycleAnswers(answer) => AnsweredWaits(s, s.active.value, answer);
  }

  lemma RecoveringStep(s: State, e: Event, epoch: nat)
    requires ListenerExists(s) && Enabled(s, e) && Recovering(s, epoch) && Wanted(s)
    requires Next(s, e).epoch == epoch && !Next(s, e).disposed
    ensures Recovering(Next(s, e), epoch)
  {
    hide Received, OnListenerClosed, FlushStarts, FlushContinues, Complete, Settle, RejectedReconcile, AnswerOperation;
    if e.ReconnectFires? {
      assert false;
    } else if !OfLifecycle(e) {
      OthersSteady(s, e);
      hide Next, Enabled;
    } else if |s.lifecycle| > 1 || (s.lifecycle != [] && !e.LifecycleStarts?) {
      LifecycleSteady(s, e);
      hide Next, Enabled;
    } else {
      hide Recovering, Next, Enabled;
      RecoveringGoesOn(s, e, epoch);
    }
  }

  lemma RecoveringGoesOn(s: State, e: Event, epoch: nat)
    requires ListenerExists(s) && Enabled(s, e) && Recovering(s, epoch) && Wanted(s) && OfLifecycle(e)
    requires s.lifecycle == [] || (e.LifecycleStarts? && |s.lifecycle| == 1)
    requires Next(s, e).epoch == epoch && !Next(s, e).disposed
    ensures Recovering(Next(s, e), epoch)
  {
    hide CurrentConfig, AnswerOperation;
    if s.lifecycle == [] && e.LifecycleResumes? {
      RetryIsSet(s, s.active.value.runtime, epoch);
    }
  }

  /** The operation behind a lost listener sets the reconnect timer, marks the scope and says that it is out of step. */
  lemma RetryIsSet(s: State, r: nat, epoch: nat)
    requires s.epoch == epoch && !s.disposed && Wanted(s)
    ensures var s' := ResumeAfterClose(s, r, epoch);
            && s'.reconnect && s'.stale && s'.active.None? && s'.lifecycle == s.lifecycle && s'.epoch == s.epoch && !s'.disposed
            && s'.report.Some? && s'.report.value.status == Desynchronized
  {
    hide CurrentConfig;
  }

  /** The steps lead to `s'`; in every state on the way the epoch is this one, and synchronisation is wanted. */
  ghost predicate Undecided(s: State, events: seq<Event>, s': State, epoch: nat)
    decreases |events|
  {
    && s.epoch == epoch && !s.disposed && Wanted(s)
    && if events == [] then s' == s
       else ListenerExists(s) && Enabled(s, events[0]) && Undecided(Next(s, events[0]), events[1..], s', epoch)
  }

  lemma LossRecovers(s: State, r: nat)
    requires r < |s.runtimes| && !s.runtimes[r].closed && !s.disposed
    ensures Recovering(OnListenerClosed(s, r), s.epoch + 1)
  {}

  lemma {:induction false} StaysRecovering(s: State, events: seq<Event>, s': State, epoch: nat)
    requires Recovering(s, epoch) && Undecided(s, events, s', epoch)
    ensures Recovering(s', epoch)
    decreases |events|
  {
    if events != [] {
      RecoveringStep(s, events[0], epoch);
      hide Next, Enabled, Recovering, Wanted;
      StaysRecovering(Next(s, events[0]), events[1..], s', epoch);
    }
  }

  /**
   * A lost listener is retried: as long as no newer request takes over and synchronisation stays wanted, the
   * operation that ends its client is queued or running, or the reconnect timer is set.
   */
  lemma LostListenerIsRetried(s: State, r: nat, events: seq<Event>, s': State)
    requires r < |s.runtimes| && !s.runtimes[r].closed && !s.disposed
    requires Undecided(OnListenerClosed(s, r), events, s', s.epoch + 1)
    ensures Recovering(s', s.epoch + 1)
    ensures s'.lifecycle == [] && s'.active.None? ==> Enabled(s', ReconnectFires)
  {
    LossRecovers(s, r);
    hide OnListenerClosed;
    StaysRecovering(OnListenerClosed(s, r), events, s', s.epoch + 1);
  }

  /** The timer queues a new attempt, and that attempt connects again. */
  lemma RetryConnects(s: State)
    requires ListenerExists(s) && Enabled(s, ReconnectFires) && s.lifecycle == [] && s.active.None? && !s.disposed && Wanted(s)
    requires s.listener.None? && s.report != Some(Report(ProvisioningRequired, CurrentConfig(s).value.schema))
    ensures var t := Next(s, ReconnectFires);
            && t.lifecycle == [Reconcile(s.epoch + 1, false)] && ListenerExists(t) && Enabled(t, LifecycleStarts)
            && Next(t, LifecycleStarts).active == Some(Starting(s.epoch + 1, CurrentConfig(s).value.schema, Connecting, [], false))
  {
    hide Configuration;
    var t := Next(s, ReconnectFires);
    assert CurrentConfig(t) == CurrentConfig(s);
    var u := t.(lifecycle := []);
    assert CurrentConfig(u.(known := true)) == CurrentConfig(s) && t.lifecycle[1..] == [];
    hide StopListener;
  }
}
