/**
 * The lifecycle operations of `DdlSyncSpec` wait in a plain sequence. This is the promise chain of
 * packages/catalog/src/ddlSync.ts: every run of the protocol is accompanied by a run of the chain whose
 * unfinished operations are, in this order, the active one and those of the sequence.
 */
module DdlSyncQueues {
  import opened Options
  import opened DdlSyncSpec
  import DdlSyncProofs
  import Q = PromiseQueue

  // ----- What a step does to the operations ------------------------------------------------------------

  /** New operations join the end, and none starts or ends. */
  ghost predicate Waits(s: State, s': State) {
    s.lifecycle <= s'.lifecycle && (s'.active.Some? <==> s.active.Some?)
  }

  lemma ClosedWaits(s: State, r: nat)
    requires r < |s.runtimes|
    ensures s.lifecycle <= OnListenerClosed(s, r).lifecycle && OnListenerClosed(s, r).active == s.active
    ensures |OnListenerClosed(s, r).runtimes| == |s.runtimes|
  {}

  lemma NotifiedWaits(s: State, r: nat, note: Note)
    requires r < |s.runtimes|
    ensures OnNotification(s, r, note).lifecycle == s.lifecycle && OnNotification(s, r, note).active == s.active
  {}

  lemma {:induction false} DrainedWaits(s: State, r: nat, held: seq<Note>)
    requires r < |s.runtimes|
    ensures DrainStartup(s, r, held).lifecycle == s.lifecycle && DrainStartup(s, r, held).active == s.active
    decreases |held|
  {
    if held != [] {
      NotifiedWaits(s, r, held[0]);
      DrainedWaits(OnNotification(s, r, held[0]), r, held[1..]);
      hide OnNotification;
    }
  }

  lemma FlushWaits(s: State, r: nat)
    requires r < |s.runtimes|
    ensures FlushEnds(s, r).lifecycle == s.lifecycle && FlushEnds(s, r).active == s.active
    ensures FlushLoops(s, r).lifecycle == s.lifecycle && FlushLoops(s, r).active == s.active
  {
    hide Batches;
  }

  lemma FlushStartsWaits(s: State, r: nat)
    requires r < |s.runtimes|
    ensures Waits(s, FlushStarts(s, r))
  {
    FlushWaits(With(s, r, s.runtimes[r].(timer := false, flushing := true)), r);
    hide FlushLoops;
  }

  lemma FlushContinuesWaits(s: State, r: nat)
    requires r < |s.runtimes| && s.runtimes[r].batch != []
    ensures Waits(s, FlushContinues(s, r))
  {
    hide FlushLoops, FlushEnds, OnListenerClosed;
    var rt := s.runtimes[r];
    if rt.outcome == Failed {
      ClosedWaits(s, r);
      FlushWaits(OnListenerClosed(s, r), r);
    } else if rt.closed {
      FlushWaits(s, r);
    } else if |rt.batch| == 1 {
      FlushWaits(With(s, r, rt.(batch := [], outcome := Pending)), r);
    }
  }

  lemma ReceivedWaits(s: State, r: nat, payload: Payload)
    requires r < |s.runtimes|
    ensures Waits(s, Received(s, r, payload))
  {
    NotifiedWaits(s.(clock := s.clock + 1, uncovered := s.uncovered + {s.clock}), r, Note(s.clock, payload));
    hide OnNotification;
  }

  lemma RejectedWaits(s: State)
    requires ListenerExists(s)
    ensures Waits(s, RejectedReconcile(s))
  {
    if s.listener.Some? {
      ClosedWaits(s, s.listener.value);
    }
    hide OnListenerClosed, Configuration;
  }

  lemma SettledWaits(s: State)
    requires s.refreshes != [] && s.refreshes[0].progress.Ended?
    ensures Waits(s, Settle(s))
  {}

  lemma CompletedWaits(s: State)
    requires s.refreshes != [] && s.refreshes[0].progress.Published? && ListenerExists(s)
    ensures Waits(s, Complete(s))
  {}

  lemma StoppedWaits(s: State, recordDebt: bool)
    requires ListenerExists(s)
    ensures StopListener(s, recordDebt).lifecycle == s.lifecycle
  {}

  lemma ReconcileListenerWaits(s: State, config: Config, epoch: nat)
    ensures ReconcileListener(s, config, epoch).lifecycle == s.lifecycle
  {
    hide Configuration;
  }

  lemma ReconciledWaits(s: State, epoch: nat, restart: bool, requested: bool)
    requires ListenerExists(s)
    ensures ReconcileConnection(s, epoch, restart, requested).lifecycle == s.lifecycle
  {
    var known := s.(known := true);
    StoppedWaits(if s.known then MarkStale(s) else s, false);
    StoppedWaits(known, true);
    hide StopListener, CurrentConfig, ReconcileListener;
    if CurrentConfig(known).Some? {
      ReconcileListenerWaits(known, CurrentConfig(known).value, epoch);
    }
  }

  lemma PausesWait(s: State)
    ensures Finished(s).lifecycle == s.lifecycle
    ensures forall at :: Suspended(s, at).lifecycle == s.lifecycle
  {}

  lemma SetEnabledWaits(s: State, enabled: Option<bool>)
    requires ListenerExists(s)
    ensures StartSetEnabled(s, enabled).lifecycle == s.lifecycle
  {
    hide StopListener, CurrentConfig, Configuration, Suspended, Finished;
    StoppedWaits(s, true);
    PausesWait(s);
    PausesWait(RequireFullRefresh(s));
    PausesWait(StopListener(s, true));
  }

  lemma SetSchemaWaits(s: State, schema: Option<string>)
    requires ListenerExists(s)
    ensures StartSetSchema(s, schema).lifecycle == s.lifecycle
  {
    hide StopListener, CurrentConfig, Configuration, ValidateSupportSchema, Suspended, Finished;
    StoppedWaits(s, true);
    PausesWait(s);
    PausesWait(StopListener(s, true));
  }

  lemma StartedWaits(s: State, operation: Operation)
    requires ListenerExists(s)
    ensures StartOperation(s, operation).lifecycle == s.lifecycle
  {
    hide StopListener, CurrentConfig, ReconcileConnection, StartSetEnabled, StartSetSchema;
    StoppedWaits(s, true);
    StoppedWaits(s, false);
    match operation
    case Reconcile(epoch, restart) => ReconciledWaits(s, epoch, restart, true);
    case SetEnabled(enabled) => SetEnabledWaits(s, enabled);
    case SetSchema(schema) => SetSchemaWaits(s, schema);
    case _ =>
  }

  lemma ResumedStopWaits(s: State, next: Then)
    requires ListenerExists(s)
    ensures ResumeStopping(s, next).lifecycle == s.lifecycle
  {
    hide CurrentConfig, ReconcileListener;
    if next.ThenReconfigured? && CurrentConfig(s).Some? {
      ReconcileListenerWaits(s, CurrentConfig(s).value, next.epoch);
    }
  }

  lemma ResumedStartupWaits(s: State, at: Suspension)
    requires at.StartupRefresh? && at.runtime < |s.runtimes|
    ensures s.lifecycle <= ResumeStartup(s, at).lifecycle
  {
    var r := at.runtime;
    DrainedWaits(With(s, r, s.runtimes[r].(published := true, startup := [])), r, s.runtimes[r].startup);
    ClosedWaits(With(s, r, s.runtimes[r].(published := true)), r);
    hide OnListenerClosed, DrainStartup;
  }

  lemma FailedStartWaits(s: State, at: Suspension)
    ensures at.ClosingFailed? ==> ResumeFailedStart(s, at).lifecycle == s.lifecycle
    ensures at.ClosingUnprovisioned? ==> ResumeUnprovisioned(s, at).lifecycle == s.lifecycle
  {
    hide StartStillRequired;
  }

  lemma AfterCloseWaits(s: State, r: nat, epoch: nat)
    ensures ResumeAfterClose(s, r, epoch).lifecycle == s.lifecycle
  {
    hide CurrentConfig, Intent, Finished;
    forall t: State ensures Finished(t).lifecycle == t.lifecycle {
      PausesWait(t);
    }
  }

  lemma ResumedWaits(s: State, at: Suspension)
    requires ListenerExists(s) && Resumable(s, at)
    ensures s.lifecycle <= Resume(s, at).lifecycle
  {
    hide OnListenerClosed, ResumeStopping, ResumeStartup, ResumeFailedStart, ResumeUnprovisioned, ResumeAfterClose;
    match at
    case Stopping(next) => ResumedStopWaits(s, next);
    case StartupRefresh(_, _, _, _) => ResumedStartupWaits(s, at);
    case Reactivating(r, _) => ClosedWaits(s, r);
    case ClosingFailed(_, _, _) => FailedStartWaits(s, at);
    case ClosingUnprovisioned(_, _) => FailedStartWaits(s, at);
    case EndingClient(r, epoch) => AfterCloseWaits(s, r, epoch);
    case _ =>
  }

  lemma EnteredWaits(s: State, at: Suspension)
    requires at.Starting?
    ensures EnterListeners(s, at).lifecycle == s.lifecycle
  {
    var entered := DdlSyncProofs.Entered(s, at.schema, at.buffer);
    var told := Reported(entered, Listening, at.schema);
    var r := |s.runtimes|;
    DrainedWaits(With(told, r, told.runtimes[r].(published := true, startup := [])), r, told.runtimes[r].startup);
    hide DrainStartup, Stamped;
  }

  lemma AnsweredWaits(s: State, at: Suspension, answer: Answer)
    requires ListenerExists(s) && Answerable(at)
    ensures AnswerOperation(s, at, answer).lifecycle == s.lifecycle
  {
    hide ReconcileConnection, EnterListeners, StartStillRequired;
    match at
    case Persisting(override) => ReconciledWaits(s.(store := Some(override)), s.epoch, false, false);
    case Provisioning(_) => ReconciledWaits(s.(report := None), s.epoch, false, false);
    case RemovingProvisioning(_) =>
    case Starting(_, _, _, _, _) => EnteredWaits(s, at);
  }

  predicate OfLifecycle(e: Event) {
    e.LifecycleStarts? || e.LifecycleResumes? || e.LifecycleAnswers?
  }

  lemma OtherStepsWait(s: State, e: Event)
    requires ListenerExists(s) && Enabled(s, e) && !OfLifecycle(e)
    ensures Waits(s, Next(s, e))
  {
    hide Received, OnListenerClosed, FlushStarts, FlushContinues, Complete, Settle, RejectedReconcile, Waits;
    match e
    case ReconcileRejected => RejectionWaits(s);
    case Receive(r, payload) => ReceivedWaits(s, r, payload);
    case TimerFires(r) => FlushStartsWaits(s, r);
    case FlushResumes(r) => FlushContinuesWaits(s, r);
    case RefreshCompletes => CompletedWaits(s);
    case RefreshSettles => SettledWaits(s);
    case ClientFails(r) => ClientWaits(s, r);
    case _ => PlainWaits(s, e);
  }

  lemma RejectionWaits(s: State)
    requires ListenerExists(s) && s.failedReconciles > 0
    ensures Waits(s, Next(s, ReconcileRejected))
  {
    RejectedWaits(s.(failedReconciles := s.failedReconciles - 1));
    hide RejectedReconcile;
  }

  lemma ClientWaits(s: State, r: nat)
    requires ListenerExists(s) && r < |s.runtimes|
    ensures Waits(s, Next(s, ClientFails(r)))
  {
    ClosedWaits(s, r);
    hide OnListenerClosed;
  }

  lemma PlainWaits(s: State, e: Event)
    requires ListenerExists(s) && Enabled(s, e) && !OfLifecycle(e)
    requires !e.ReconcileRejected? && !e.Receive? && !e.TimerFires? && !e.FlushResumes? && !e.RefreshCompletes?
             && !e.RefreshSettles? && !e.ClientFails?
    ensures Waits(s, Next(s, e))
  {}

  /** The three ways of the lifecycle: an operation starts, goes on, or ends; what it queues joins the end. */
  lemma LifecycleSteps(s: State, e: Event)
    requires ListenerExists(s) && Enabled(s, e) && OfLifecycle(e)
    ensures e.LifecycleStarts? <==> s.active.None?
    ensures (if e.LifecycleStarts? then s.lifecycle[1..] else s.lifecycle) <= Next(s, e).lifecycle
  {
    hide StartOperation, Resume, AnswerOperation, Resumable;
    match e
    case LifecycleStarts => StartedWaits(s.(lifecycle := s.lifecycle[1..]), s.lifecycle[0]);
    case LifecycleResumes => ResumedWaits(s, s.active.value);
    case LifecycleAnswers(answer) => AnsweredWaits(s, s.active.value, answer);
  }

  // ----- The chain beside it ---------------------------------------------------------------------------

  function Unfinished(waiting: seq<Operation>, active: bool): nat {
    |waiting| + if active then 1 else 0
  }

  /**
   * The chain `c` stands where the operations do. `log` holds every operation that was ever queued; the
   * chain's number for an operation is its place in the log.
   */
  ghost predicate Stands(waiting: seq<Operation>, active: bool, c: Q.Chain, log: seq<Operation>) {
    && Q.Inv(c) && |log| == |c.operations|
    && c.pending == Unfinished(waiting, active) && c.active == active
    && waiting == log[|log| - |waiting|..]
  }

  ghost predicate Accompanies(s: State, c: Q.Chain, log: seq<Operation>) {
    Stands(s.lifecycle, s.active.Some?, c, log)
  }

  lemma {:induction false} RunFurther(c: Q.Chain, events: seq<Q.Event>, c': Q.Chain, e: Q.Event)
    requires Q.Run(c, events, c') && Q.Enabled(c', e)
    ensures Q.Run(c, events + [e], Q.Next(c', e))
    decreases |events|
  {
    if events == [] {
      assert [] + [e] == [e] && [e][1..] == [];
    } else {
      assert (events + [e])[1..] == events[1..] + [e];
      RunFurther(Q.Next(c, events[0]), events[1..], c', e);
    }
  }

  ghost predicate Leads(c: Q.Chain, c': Q.Chain) {
    exists events :: Q.Run(c, events, c')
  }

  lemma LeadsNowhere(c: Q.Chain)
    ensures Leads(c, c)
  {
    assert Q.Run(c, [], c);
  }

  lemma LeadsFurther(c: Q.Chain, c': Q.Chain, e: Q.Event)
    requires Leads(c, c') && Q.Enabled(c', e)
    ensures Leads(c, Q.Next(c', e))
  {
    var events :| Q.Run(c, events, c');
    hide Q.Next, Q.Enabled;
    RunFurther(c, events, c', e);
  }

  /** One more operation is queued. */
  lemma EnqueuesOne(waiting: seq<Operation>, active: bool, c: Q.Chain, log: seq<Operation>, o: Operation)
    requires Stands(waiting, active, c, log)
    ensures Q.Enabled(c, Q.Enqueue) && Stands(waiting + [o], active, Q.Next(c, Q.Enqueue), log + [o])
  {
    OrderIs(c);
    hide Q.Inv;
    Q.StepRefines(c, Q.Enqueue);
    assert (log + [o])[|log + [o]| - |waiting + [o]|..] == waiting + [o];
  }

  /** Enqueueing the operations one by one. */
  lemma {:induction false} Enqueues(waiting: seq<Operation>, active: bool, c0: Q.Chain, c: Q.Chain, log: seq<Operation>,
                                    added: seq<Operation>) returns (c': Q.Chain)
    requires Stands(waiting, active, c, log) && Leads(c0, c)
    ensures Leads(c0, c') && Stands(waiting + added, active, c', log + added)
    decreases |added|
  {
    hide Stands, Leads, Q.Next, Q.Enabled;
    if added == [] {
      c' := c;
      assert log + added == log && waiting + added == waiting;
    } else {
      EnqueuesOne(waiting, active, c, log, added[0]);
      LeadsFurther(c0, c, Q.Enqueue);
      c' := Enqueues(waiting + [added[0]], active, c0, Q.Next(c, Q.Enqueue), log + [added[0]], added[1..]);
      assert log + [added[0]] + added[1..] == log + added && waiting + [added[0]] + added[1..] == waiting + added;
    }
  }

  /** The head of the sequence starts, after its predecessor's promise has settled. */
  lemma Starts(waiting: seq<Operation>, c: Q.Chain, log: seq<Operation>) returns (c': Q.Chain)
    requires Stands(waiting, false, c, log) && waiting != []
    ensures Leads(c, c') && Stands(waiting[1..], true, c', log)
  {
    var ready := Settled(c);
    var head := |c.operations| - c.pending;
    LeadsFurther(c, ready, Q.Start(head));
    c' := Q.Next(ready, Q.Start(head));
    Q.StepRefines(ready, Q.Start(head));
    hide Q.Inv, Leads, Q.Enabled;
    assert waiting[1..] == log[|log| - |waiting[1..]|..];
  }

  /** The head of the chain may start, if need be after the settling of the operation before it. */
  lemma Settled(c: Q.Chain) returns (c': Q.Chain)
    requires Q.Inv(c) && c.pending > 0 && !c.active
    ensures Leads(c, c') && Q.Inv(c') && Q.Enabled(c', Q.Start(|c.operations| - c.pending))
    ensures |c'.operations| == |c.operations| && c'.pending == c.pending && !c'.active
  {
    var head := |c.operations| - c.pending;
    LeadsNowhere(c);
    c' := c;
    if !Q.Enabled(c, Q.Start(head)) {
      WaitsForSettling(c);
      Q.StepRefines(c, Q.Settle(head - 1));
      LeadsFurther(c, c, Q.Settle(head - 1));
      c' := Q.Next(c, Q.Settle(head - 1));
      hide Q.Inv, Leads, Q.Enabled;
    }
  }

  lemma WaitsForSettling(c: Q.Chain)
    requires Q.Inv(c) && c.pending > 0 && !c.active && !Q.Enabled(c, Q.Start(|c.operations| - c.pending))
    ensures var head := |c.operations| - c.pending;
            && head > 0 && Q.Enabled(c, Q.Settle(head - 1)) && Q.Enabled(Q.Next(c, Q.Settle(head - 1)), Q.Start(head))
  {
    var head := |c.operations| - c.pending;
    assert Q.Chained(c, head);
    assert !c.operations[head].Finished();
    assert c.operations[head - 1].Finished();
  }

  /** The active operation ends. */
  lemma Finishes(waiting: seq<Operation>, c0: Q.Chain, c: Q.Chain, log: seq<Operation>) returns (c': Q.Chain)
    requires Stands(waiting, true, c, log) && Leads(c0, c)
    ensures Leads(c0, c') && Stands(waiting, false, c', log)
  {
    var head := |c.operations| - c.pending;
    Q.StepRefines(c, Q.Finish(head));
    LeadsFurther(c0, c, Q.Finish(head));
    c' := Q.Next(c, Q.Finish(head));
    hide Q.Inv, Leads, Q.Enabled;
  }

  /** The operations before and after a step: one may start and one end, and what is queued joins the end. */
  ghost predicate Advances(waiting: seq<Operation>, active: bool, starts: bool, waiting': seq<Operation>, active': bool) {
    && (starts ==> !active && waiting != [])
    && (active' ==> active || starts)
    && (if starts then waiting[1..] else waiting) <= waiting'
  }

  lemma StepAdvances(s: State, e: Event)
    requires ListenerExists(s) && Enabled(s, e)
    ensures Advances(s.lifecycle, s.active.Some?, e.LifecycleStarts?, Next(s, e).lifecycle, Next(s, e).active.Some?)
  {
    if OfLifecycle(e) {
      LifecycleSteps(s, e);
      if e.LifecycleStarts? {
        StartsFromQueue(s, e);
      }
    } else {
      OtherStepsWait(s, e);
    }
    hide Next, Enabled;
  }

  lemma StartsFromQueue(s: State, e: Event)
    requires Enabled(s, e) && e.LifecycleStarts?
    ensures s.lifecycle != [] && s.active.None?
  {}

  /** Each step of the protocol is accompanied by steps of the chain. */
  lemma StepAccompanied(s: State, e: Event, c: Q.Chain, log: seq<Operation>) returns (c': Q.Chain, log': seq<Operation>)
    requires ListenerExists(s) && Enabled(s, e) && Accompanies(s, c, log)
    ensures Leads(c, c') && log <= log' && Accompanies(Next(s, e), c', log')
  {
    StepAdvances(s, e);
    hide Next, Enabled;
    c', log' := Advanced(s.lifecycle, s.active.Some?, e.LifecycleStarts?, Next(s, e).lifecycle, Next(s, e).active.Some?, c, log);
  }

  lemma Advanced(waiting: seq<Operation>, active: bool, starts: bool, waiting': seq<Operation>, active': bool, c: Q.Chain, log: seq<Operation>)
    returns (c': Q.Chain, log': seq<Operation>)
    requires Stands(waiting, active, c, log) && Advances(waiting, active, starts, waiting', active')
    ensures Leads(c, c') && log <= log' && Stands(waiting', active', c', log')
  {
    hide Stands, Leads;
    LeadsNowhere(c);
    c' := c;
    var behind := waiting;
    if starts {
      c' := Starts(waiting, c, log);
      behind := waiting[1..];
    }
    if !active' && (active || starts) {
      c' := Finishes(behind, c, c', log);
    }
    var added := waiting'[|behind|..];
    assert behind + added == waiting';
    c' := Enqueues(behind, active', c, c', log, added);
    log' := log + added;
  }

  lemma LeadsOn(a: Q.Chain, b: Q.Chain, c: Q.Chain)
    requires Leads(a, b) && Leads(b, c)
    ensures Leads(a, c)
  {
    var events :| Q.Run(b, events, c);
    RunOn(a, b, events, c);
  }

  lemma {:induction false} RunOn(a: Q.Chain, b: Q.Chain, events: seq<Q.Event>, c: Q.Chain)
    requires Leads(a, b) && Q.Run(b, events, c)
    ensures Leads(a, c)
    decreases |events|
  {
    if events != [] {
      LeadsFurther(a, b, events[0]);
      RunOn(a, Q.Next(b, events[0]), events[1..], c);
    }
  }

  lemma {:induction false} StepsAccompanied(s: State, events: seq<Event>, s': State, c0: Q.Chain, c: Q.Chain, log: seq<Operation>)
    returns (c': Q.Chain, log': seq<Operation>)
    requires DdlSyncProofs.Run(s, events, s') && Accompanies(s, c, log) && Leads(c0, c)
    ensures Leads(c0, c') && Accompanies(s', c', log')
    decreases |events|
  {
    if events == [] {
      c', log' := c, log;
    } else {
      var next, more := StepAccompanied(s, events[0], c, log);
      LeadsOn(c0, c, next);
      hide Next, Enabled, Accompanies, Leads;
      c', log' := StepsAccompanied(Next(s, events[0]), events[1..], s', c0, next, more);
    }
  }

  /** The waiting operations, in order, are those the chain has not finished. */
  ghost predicate Shows(s: State, queue: Q.Fifo, log: seq<Operation>) {
    && |log| == queue.arrivals && (queue.running <==> s.active.Some?)
    && |queue.order| == Unfinished(s.lifecycle, s.active.Some?)
    && forall i | 0 <= i < |s.lifecycle| ::
         queue.order[|queue.order| - |s.lifecycle| + i] < |log|
         && s.lifecycle[i] == log[queue.order[|queue.order| - |s.lifecycle| + i]]
  }

  lemma OrderIs(c: Q.Chain)
    requires Q.Inv(c)
    ensures var queue := Q.Abstract(c);
            && c.pending <= |c.operations| && |queue.order| == c.pending
            && queue.running == c.active && queue.arrivals == |c.operations|
            && forall k | 0 <= k < c.pending :: queue.order[k] == |c.operations| - c.pending + k
  {
    hide Q.Chained;
  }

  lemma AccompaniedShows(s: State, c: Q.Chain, log: seq<Operation>)
    requires Accompanies(s, c, log)
    ensures Q.Inv(c) && Shows(s, Q.Abstract(c), log)
  {
    OrderIs(c);
    hide Q.Inv, Q.Abstract;
  }

  /**
   * Over every run: the operations that wait are the tail of a queue that the promise chain refines. The
   * unfinished operations of a chain that starts empty are the active one and, behind it in the order of
   * arrival, those of `lifecycle`.
   */
  lemma LifecycleIsTheChain(s: State, events: seq<Event>, s': State) returns (chain: seq<Q.Event>, c: Q.Chain, log: seq<Operation>)
    requires Initial(s) && DdlSyncProofs.Run(s, events, s')
    ensures Q.Run(Q.EMPTY, chain, c) && Q.Inv(c) && Q.FifoRun(Q.Fifo([], false, 0), chain, Q.Abstract(c))
    ensures Shows(s', Q.Abstract(c), log)
  {
    Q.EmptyChain();
    LeadsNowhere(Q.EMPTY);
    StartsEmpty(s);
    hide Q.Inv, Q.FifoRun, DdlSyncProofs.Run, Accompanies, Initial, Q.Abstract, Shows;
    c, log := StepsAccompanied(s, events, s', Q.EMPTY, Q.EMPTY, []);
    chain :| Q.Run(Q.EMPTY, chain, c);
    Q.ChainRefinesFifo(Q.EMPTY, chain, c);
    AccompaniedShows(s', c, log);
  }

  lemma StartsEmpty(s: State)
    requires Initial(s)
    ensures Accompanies(s, Q.EMPTY, [])
  {
    Q.EmptyChain();
  }
}
