/**
 * `CoverageRunner` (packages/coverage/src/runner.ts): its Sets and its status Map are fields, its run
 * contexts a sequence. `Handle` takes the runner through any step of `CoverageRuns`, and `Valid` says that
 * its state is the one those steps lead to from a new runner, so the theorems of `CoverageRuns` hold of it.
 */
module CoverageRunnerClass {
  import opened Options
  import opened CoverageRuns

  class CoverageRunner {
    var activeTargets: set<Key>
    var activeRunIds: set<string>
    var statuses: map<string, RunState>
    var contexts: seq<Context>
    ghost var history: seq<Event>

    ghost function View(): Runner
      reads this
    {
      Runner(activeTargets, activeRunIds, statuses, contexts)
    }

    /** The state is that of a run of the machine from its start, and keeps the machine's invariant. */
    ghost predicate Valid()
      reads this
    {
      Possible(Start, history) && After(Start, history) == View() && Inv(View())
    }

    constructor ()
      ensures Valid() && history == [] && activeTargets == {} && activeRunIds == {}
    {
      activeTargets, activeRunIds, statuses, contexts, history := {}, {}, map[], [], [];
    }

    /** Every step of the machine, and what holds of the runner after it. */
    method Handle(e: Event)
      requires Valid() && Enabled(View(), e)
      modifies this
      ensures Valid() && View() == Next(old(View()), e) && history == old(history) + [e]
      ensures Disjoint(contexts) && activeTargets == Held(contexts) && activeRunIds == HeldIds(contexts)
      ensures forall k | 0 <= k < |contexts| && Released(contexts[k]) :: HeldByOthers(View(), k)
      ensures forall k | 0 <= k < |contexts| && contexts[k].phase.Finished? && contexts[k].result.Completed? ::
                contexts[k].outcome && Ended(contexts[k])
    {
      hide Next, After, Possible, HeldByOthers;
      match e {
        case Admit(request) =>
          var _ := this.Admit(request);
        case Abort(k, reason) => SignalAborted(k, reason);
        case ConnectionLost(k) => LoseConnection(k);
        case Step(k, answer) => Resume(k, answer);
      }
      RunnerHolds();
    }

    lemma RunnerHolds()
      requires Valid()
      ensures forall k | 0 <= k < |contexts| && Released(contexts[k]) :: HeldByOthers(View(), k)
      ensures forall k | 0 <= k < |contexts| && contexts[k].phase.Finished? && contexts[k].result.Completed? ::
                contexts[k].outcome && Ended(contexts[k])
    {
      forall k | 0 <= k < |contexts| && Released(contexts[k]) ensures HeldByOthers(View(), k) {
        EndedRunsHoldNothing(View(), k);
      }
      forall k | 0 <= k < |contexts| && contexts[k].phase.Finished? && contexts[k].result.Completed?
        ensures contexts[k].outcome && Ended(contexts[k])
      {
        CompletedMeansEnded(history, k);
      }
    }

    /** The observer's record of a step that was just made. */
    ghost method Record(s: Runner, e: Event)
      requires Possible(Start, history) && After(Start, history) == s && Inv(s)
      requires Enabled(s, e) && View() == Next(s, e)
      modifies this`history
      ensures Valid() && View() == Next(s, e) && history == old(history) + [e]
    {
      hide Inv, Next, Enabled, Possible, After;
      OneStepFurther(Start, history, e);
      NextKeeps(s, e);
      history := history + [e];
    }

    /** The lowest oid of the request whose target is taken; the source sorts the oids and takes the first. */
    method FindBusy(request: Request) returns (busy: Option<nat>)
      ensures busy.None? <==> Targets(request) * activeTargets == {}
      ensures busy.Some? ==> busy.value == LowestBusy(View(), request)
    {
      if oid :| oid in request.oids && Key(request.connection, oid) in activeTargets {
        assert Key(request.connection, oid) in Targets(request) * activeTargets;
        busy := Some(LowestIn(request.oids, request.connection, activeTargets));
      } else {
        busy := None;
      }
    }

    /** `admit`: all keys and the run id, or nothing and the reason. */
    method Admit(request: Request) returns (admission: Admission)
      requires Valid()
      modifies this
      ensures Valid() && View() == Next(old(View()), Event.Admit(request)) && history == old(history) + [Event.Admit(request)]
      ensures !admission.Admitted? <==>
                || request.oids == [] || !request.timeoutValid
                || exists i :: 0 <= i < |old(contexts)| && !Released(old(contexts)[i])
                               && (old(contexts)[i].runId == request.runId
                                   || exists o | o in request.oids :: Key(request.connection, o) in old(contexts)[i].targets)
      ensures !admission.Admitted? ==> View() == old(View())
      ensures admission.Admitted? ==>
                && admission.run == |old(contexts)| && contexts == old(contexts) + [NewContext(request)]
                && activeTargets == old(activeTargets) + Targets(request) && old(activeTargets) !! Targets(request)
                && activeRunIds == old(activeRunIds) + {request.runId} && request.runId !in old(activeRunIds)
      ensures admission.TargetBusy? ==>
                && Key(request.connection, admission.oid) in old(activeTargets) && admission.oid in request.oids
                && forall o | o in request.oids && Key(request.connection, o) in old(activeTargets) :: admission.oid <= o
    {
      ghost var s := View();
      RefusedExactlyWhen(s, request);
      admission := Acquire(request);
      if admission.TargetBusy? {
        ghost var key :| key in Targets(request) * s.activeTargets;
        LowestIsBusy(request.oids, request.connection, s.activeTargets);
      }
      Record(s, Event.Admit(request));
    }

    method Acquire(request: Request) returns (admission: Admission)
      modifies this`activeTargets, this`activeRunIds, this`statuses, this`contexts
      ensures View() == Admitting(old(View()), request)
      ensures admission == Refusal(old(View()), request).GetOr(Admitted(|old(contexts)|))
      ensures admission.Admitted? ==> old(activeTargets) !! Targets(request)
    {
      if request.oids == [] {
        return NoRoutine;
      }
      var busy := FindBusy(request);
      if busy.Some? {
        return TargetBusy(busy.value);
      }
      if request.runId in activeRunIds {
        return RunIdBusy;
      }
      if !request.timeoutValid {
        return InvalidTimeout;
      }
      assert activeTargets !! Targets(request) by {
        assert forall k :: k in Targets(request) && k in activeTargets ==> k in Targets(request) * activeTargets;
      }
      activeTargets := activeTargets + Targets(request);
      activeRunIds := activeRunIds + {request.runId};
      statuses := statuses[request.runId := Preparing];
      contexts := contexts + [NewContext(request)];
      return Admitted(|contexts| - 1);
    }

    method Announce(runId: string, state: RunState)
      modifies this`statuses
      ensures statuses == Transition(old(statuses), runId, state)
    {
      if IsTerminal(state) {
        statuses := statuses - {runId};
      } else {
        statuses := statuses[runId := state];
      }
    }

    /** The end of `cleanup`, whatever happened before it. */
    method Release(k: nat)
      requires k < |contexts|
      modifies this`activeTargets, this`activeRunIds
      ensures activeTargets == old(activeTargets) - contexts[k].targets
      ensures activeRunIds == old(activeRunIds) - {contexts[k].runId}
    {
      activeTargets := activeTargets - contexts[k].targets;
      activeRunIds := activeRunIds - {contexts[k].runId};
    }

    /** The `try` of `runSuite`: one awaited step of `execute` answered, or failed. */
    method RunStep(c: Context, ok: bool) returns (next: Context)
      requires Executing(c)
      ensures next == Execute(c, ok)
    {
      var aborted := c.aborted.Some?;
      var failed := !ok || (aborted && (c.phase.Opening? || c.phase.CheckingPgTap? || c.phase.Analyzing? || c.phase.Replacing? || c.phase.Testing?));
      if failed {
        next := FailStep(c);
      } else {
        next := PassStep(c);
      }
    }

    /** The `catch`: the abort's reason first. A BEGIN that failed to answer may still have begun. */
    method FailStep(c: Context) returns (next: Context)
      requires Executing(c)
      ensures next == Execute(c, false)
    {
      next := c;
      if c.phase.Beginning? {
        next := next.(transaction := Begun);
      }
      next := next.(failure := Some(c.aborted.GetOr(Other)));
      next := next.(phase := AwaitingCancellation);
    }

    method PassStep(c: Context) returns (next: Context)
      requires Executing(c)
      requires c.aborted.None? || c.phase.Probing? || c.phase.Beginning? || c.phase.Locking?
      ensures next == Execute(c, true)
    {
      hide Failing;
      match c.phase
      case Opening => next := c.(client := true, phase := Probing);
      case Probing => next := c.(phase := CheckingPgTap, cancelling := c.aborted.Some?);
      case CheckingPgTap => next := c.(phase := Beginning);
      case Beginning => next := c.(transaction := Begun, transactionOpen := true, phase := Locking);
      case Locking => next := c.(phase := Analyzing);
      case Analyzing => next := c.(phase := Replacing);
      case Replacing => next := c.(phase := Testing);
      case Testing => next := c.(outcome := true, phase := AwaitingCancellation);
    }

    /** `applyCancellationOutcome`, then the rollback if the transaction is still open. */
    method ApplyCancellation(c: Context, answer: Answer) returns (next: Context)
      ensures next == Cancellation(c, answer)
    {
      next := c;
      if c.cancelling {
        if answer.Terminated? || answer.Disconnected? {
          next := next.(transactionOpen := false);
          next := next.(transaction := BackendGone);
        } else if answer.Stuck? {
          next := next.(failure := Some(Other));
        }
      }
      if next.transactionOpen && next.client {
        next := next.(phase := AwaitingRollback);
      } else {
        next := next.(phase := if next.client then Closing else Finishing);
      }
    }

    /** `rollback` answered, or the forced cleanup that follows when it did not. */
    method EndTransaction(c: Context, answer: Answer) returns (next: Context)
      requires c.phase.AwaitingRollback? || c.phase.Forcing?
      ensures next == Continue(c, answer)
    {
      next := c;
      if c.phase.AwaitingRollback? {
        if !answer.Ok? {
          next := next.(phase := Forcing);
          return;
        }
        next := next.(transactionOpen := false, transaction := RolledBack);
      } else if answer.Terminated? || answer.Disconnected? {
        next := next.(transactionOpen := false, transaction := BackendGone);
      } else {
        next := next.(failure := Some(Other));
      }
      next := next.(phase := if next.client then Closing else Finishing);
    }

    /** `client.end()` answered; a connection error counts when nothing else failed. */
    method CloseClient(c: Context, ok: bool) returns (next: Context)
      ensures next == Close(c, ok)
    {
      next := c;
      if !ok {
        next := next.(failure := Some(Other));
      }
      if next.connectionError && next.failure.None? {
        next := next.(failure := Some(Other));
      }
      next := next.(phase := Finishing);
    }

    /** `finish`: the result the run reports. */
    method ReportResult(c: Context) returns (next: Context)
      ensures next == Finish(c)
    {
      next := c.(phase := Finished);
      if c.failure.Some? {
        match c.failure.value
        case Cancelled => next := next.(result := CancelledState);
        case TimedOut => next := next.(result := TimedOutState);
        case Other => next := next.(result := FailedState);
      } else {
        next := next.(result := if c.outcome then Completed else FailedState);
      }
    }

    method ContinueContext(c: Context, answer: Answer) returns (next: Context)
      requires !c.phase.Finished?
      ensures next == Continue(c, answer)
    {
      hide Execute, Cancellation, Rollback, Force, Close, Finish;
      if Executing(c) {
        next := RunStep(c, answer.Ok?);
      } else if c.phase.AwaitingCancellation? {
        next := ApplyCancellation(c, answer);
      } else if c.phase.Closing? {
        next := CloseClient(c, answer.Ok?);
      } else if c.phase.Finishing? {
        next := ReportResult(c);
      } else {
        next := EndTransaction(c, answer);
      }
    }

    /** One continuation of a run: its context moves on, its keys are released at the end, its status announced. */
    method Resume(k: nat, answer: Answer)
      requires Valid() && k < |contexts| && !contexts[k].phase.Finished?
      modifies this
      ensures Valid() && View() == Next(old(View()), Step(k, answer)) && history == old(history) + [Step(k, answer)]
      ensures |contexts| == |old(contexts)| && Rank(contexts[k].phase) < Rank(old(contexts)[k].phase)
      ensures Released(contexts[k]) ==> HeldByOthers(View(), k)
      ensures contexts[k].phase.Finished? && contexts[k].result.Completed? ==> contexts[k].outcome && Ended(contexts[k])
      ensures contexts[k].phase.Finished? ==> old(contexts)[k].runId !in statuses
    {
      ghost var s := View();
      var was := contexts[k];
      RankFalls(was, answer);
      Move(k, answer);
      Record(s, Step(k, answer));
      RunnerHolds();
      FinishedLeavesStatuses(s, k, answer);
    }

    lemma FinishedLeavesStatuses(s: Runner, k: nat, answer: Answer)
      requires k < |s.runs| && !s.runs[k].phase.Finished?
      ensures var t := Next(s, Step(k, answer)); t.runs[k].phase.Finished? ==> s.runs[k].runId !in t.statuses
    {
      if Continue(s.runs[k], answer).phase.Finished? {
        FinishesLast(s.runs[k], answer);
      }
      hide Continue;
    }

    method Move(k: nat, answer: Answer)
      requires k < |contexts| && !contexts[k].phase.Finished?
      modifies this`activeTargets, this`activeRunIds, this`statuses, this`contexts
      ensures View() == Moved(old(View()), k, Continue(old(contexts)[k], answer))
    {
      hide Continue;
      var was := contexts[k];
      var next := ContinueContext(was, answer);
      if !Released(was) && Released(next) {
        Release(k);
      }
      if next.phase != was.phase && Announced(next).Some? {
        Announce(was.runId, Announced(next).value);
      }
      contexts := contexts[k := next];
    }

    /** The abort signal: its first reason stays, and it starts the cancellation while that is listened for. */
    method SignalAborted(k: nat, reason: Failure)
      requires Valid() && k < |contexts| && !reason.Other?
      modifies this
      ensures Valid() && View() == Next(old(View()), Abort(k, reason)) && history == old(history) + [Abort(k, reason)]
    {
      ghost var s := View();
      var c := contexts[k];
      contexts := contexts[k := c.(aborted := if c.aborted.Some? then c.aborted else Some(reason),
                                   cancelling := c.cancelling || Listening(c))];
      Record(s, Abort(k, reason));
    }

    /** The client's error handler. */
    method LoseConnection(k: nat)
      requires Valid() && k < |contexts| && contexts[k].client
      modifies this
      ensures Valid() && View() == Next(old(View()), ConnectionLost(k)) && history == old(history) + [ConnectionLost(k)]
    {
      ghost var s := View();
      contexts := contexts[k := contexts[k].(connectionError := true)];
      Record(s, ConnectionLost(k));
    }
  }
}
