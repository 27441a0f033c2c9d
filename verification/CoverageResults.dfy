/** What the result of a coverage run tells (packages/coverage/src/runner.ts): completed, failed, cancelled or timed out, and why. */
module CoverageResults {
  import opened Options
  import opened CoverageRuns

  // ----- The result and the failure ----------------------------------------------------------------

  /** A recorded cancellation or timeout is the abort's own reason, and a finished run reports exactly what is recorded. */
  ghost predicate Told(c: Context) {
    && (c.failure == Some(Cancelled) ==> c.aborted == Some(Cancelled))
    && (c.failure == Some(TimedOut) ==> c.aborted == Some(TimedOut))
    && (c.phase.Finished? ==>
          && (c.result.Completed? <==> c.failure.None? && c.outcome)
          && (c.result.CancelledState? <==> c.failure == Some(Cancelled))
          && (c.result.TimedOutState? <==> c.failure == Some(TimedOut))
          && (c.result.FailedState? <==> c.failure == Some(Other) || (c.failure.None? && !c.outcome)))
  }

  lemma ContinueTells(c: Context, answer: Answer)
    requires Told(c)
    ensures Told(Continue(c, answer)) && Continue(c, answer).aborted == c.aborted
  {
    hide Execute, Cancellation, Rollback, Force, Close;
    match c.phase
    case AwaitingCancellation => CancellationTells(c, answer);
    case AwaitingRollback => CleanupTells(c, answer);
    case Forcing => CleanupTells(c, answer);
    case Closing => CleanupTells(c, answer);
    case Finishing =>
    case Finished =>
    case _ => ExecuteTells(c, answer.Ok?);
  }

  lemma ExecuteTells(c: Context, ok: bool)
    requires Told(c) && Executing(c)
    ensures Told(Execute(c, ok)) && Execute(c, ok).aborted == c.aborted
  {
    if Early(c) {
      EarlyTells(c, ok);
    } else {
      LateTells(c, ok);
    }
    hide Execute;
  }

  /** The phases before the transaction, and those within it. */
  predicate Early(c: Context) {
    c.phase.Opening? || c.phase.Probing? || c.phase.CheckingPgTap? || c.phase.Beginning?
  }

  predicate Late(c: Context) {
    c.phase.Locking? || c.phase.Analyzing? || c.phase.Replacing? || c.phase.Testing?
  }

  lemma EarlyTells(c: Context, ok: bool)
    requires Told(c) && Early(c)
    ensures Told(Execute(c, ok)) && Execute(c, ok).aborted == c.aborted
  {
    match c.phase
    case Opening => case Probing => case CheckingPgTap => case Beginning =>
  }

  lemma LateTells(c: Context, ok: bool)
    requires Told(c) && Late(c)
    ensures Told(Execute(c, ok)) && Execute(c, ok).aborted == c.aborted
  {
    match c.phase
    case Locking => case Analyzing => case Replacing => case Testing =>
  }

  lemma CancellationTells(c: Context, answer: Answer)
    requires Told(c) && c.phase.AwaitingCancellation?
    ensures Told(Cancellation(c, answer)) && Cancellation(c, answer).aborted == c.aborted
  {}

  lemma CleanupTells(c: Context, answer: Answer)
    requires Told(c) && !c.phase.Finished?
    ensures Told(Rollback(c, answer.Ok?)) && Rollback(c, answer.Ok?).aborted == c.aborted
    ensures Told(Force(c, answer)) && Force(c, answer).aborted == c.aborted
    ensures Told(Close(c, answer.Ok?)) && Close(c, answer.Ok?).aborted == c.aborted
  {
    RollbackTells(c, answer.Ok?);
    ForceTells(c, answer);
    hide Rollback, Force;
  }

  lemma RollbackTells(c: Context, ok: bool)
    requires Told(c) && !c.phase.Finished?
    ensures Told(Rollback(c, ok)) && Rollback(c, ok).aborted == c.aborted
  {}

  lemma ForceTells(c: Context, answer: Answer)
    requires Told(c) && !c.phase.Finished?
    ensures Told(Force(c, answer)) && Force(c, answer).aborted == c.aborted
  {}

  /** The first abort decides, and later ones change nothing. */
  lemma AbortTells(c: Context, reason: Failure)
    requires Told(c)
    ensures Told(Aborting(c, reason)) && Told(c.(connectionError := true))
    ensures Aborting(c, reason).aborted == if c.aborted.Some? then c.aborted else Some(reason)
  {}

  ghost predicate AllTold(s: Runner) {
    forall c | c in s.runs :: Told(c)
  }

  lemma NextTells(s: Runner, e: Event)
    requires Enabled(s, e) && AllTold(s)
    ensures AllTold(Next(s, e))
  {
    match e
    case Admit(request) => assert Told(NewContext(request));
    case Abort(k, reason) => AbortTells(s.runs[k], reason);
    case ConnectionLost(k) => AbortTells(s.runs[k], Cancelled);
    case Step(k, answer) =>
      ContinueTells(s.runs[k], answer);
      hide Told, Continue;
  }

  lemma {:induction false} AlwaysTold(s: Runner, es: seq<Event>)
    requires AllTold(s) && Possible(s, es)
    ensures AllTold(After(s, es))
    decreases |es|
  {
    if es != [] {
      NextTells(s, es[0]);
      hide Next, Enabled, AllTold;
      AlwaysTold(Next(s, es[0]), es[1..]);
    }
  }

  /** Over any steps: a finished run has completed, was cancelled, timed out or failed exactly as its record says. */
  lemma ResultIsRecorded(es: seq<Event>, k: nat)
    requires Possible(Start, es) && k < |After(Start, es).runs|
    ensures Told(After(Start, es).runs[k])
  {
    AlwaysTold(Start, es);
    assert After(Start, es).runs[k] in After(Start, es).runs;
    hide Told, After;
  }

  // ----- Runs that nothing disturbs ----------------------------------------------------------------

  /** Nothing has gone wrong yet. */
  predicate Undisturbed(c: Context) {
    c.failure.None? && c.aborted.None? && !c.cancelling && !c.connectionError && !c.phase.Forcing?
  }

  /** Another run's step, or an answer without a failure. */
  predicate Harmless(e: Event, k: nat) {
    match e
    case Admit(_) => true
    case Abort(j, _) => j != k
    case ConnectionLost(j) => j != k
    case Step(j, answer) => j != k || answer.Ok?
  }

  lemma UndisturbedContinues(c: Context)
    requires Sound(c) && Undisturbed(c) && (c.phase.Finished? ==> c.result.Completed? && c.transaction.RolledBack?)
    requires Rank(c.phase) <= 2 ==> c.transaction.RolledBack?
    ensures var d := Continue(c, Ok);
            Undisturbed(d) && (d.phase.Finished? ==> d.result.Completed? && d.transaction.RolledBack?)
            && (Rank(d.phase) <= 2 ==> d.transaction.RolledBack?)
  {
    match c.phase
    case Opening => case Probing => case CheckingPgTap => case Beginning => case Locking => case Analyzing => case Replacing =>
    case Testing => case AwaitingCancellation => case AwaitingRollback => case Forcing => case Closing => case Finishing => case Finished =>
  }

  ghost predicate Smooth(s: Runner, k: nat) {
    && k < |s.runs| && Undisturbed(s.runs[k])
    && (Rank(s.runs[k].phase) <= 2 ==> s.runs[k].transaction.RolledBack?)
    && (s.runs[k].phase.Finished? ==> s.runs[k].result.Completed?)
  }

  lemma SmoothStep(s: Runner, e: Event, k: nat)
    requires Inv(s) && Enabled(s, e) && Smooth(s, k) && Harmless(e, k)
    ensures Smooth(Next(s, e), k)
  {
    if e.Step? && e.run == k {
      assert Sound(s.runs[k]);
      UndisturbedContinues(s.runs[k]);
    }
    hide Inv, Continue, Undisturbed;
  }

  /** A run that is never aborted, keeps its connection and gets no failing answer completes when it ends, behind a rollback. */
  lemma {:induction false} UndisturbedRunsComplete(s: Runner, k: nat, es: seq<Event>)
    requires Inv(s) && Possible(s, es) && Smooth(s, k) && forall i :: 0 <= i < |es| ==> Harmless(es[i], k)
    ensures Smooth(After(s, es), k)
    ensures After(s, es).runs[k].phase.Finished? ==>
              After(s, es).runs[k].result.Completed? && After(s, es).runs[k].outcome && After(s, es).runs[k].transaction.RolledBack?
    decreases |es|
  {
    AlwaysInv(s, es);
    if es == [] {
      if s.runs[k].phase.Finished? {
        CompletedHasEnded(s, k);
      }
    } else {
      SmoothStep(s, es[0], k);
      NextKeeps(s, es[0]);
      hide Next, Enabled, Inv, Smooth;
      assert forall i :: 0 <= i < |es[1..]| ==> es[1..][i] == es[i + 1];
      UndisturbedRunsComplete(Next(s, es[0]), k, es[1..]);
    }
  }

  lemma AdmittedIsSmooth(s: Runner, r: Request)
    requires Refusal(s, r).None?
    ensures Smooth(Admitting(s, r), |s.runs|)
  {}

  // ----- Aborted runs --------------------------------------------------------------------------------

  /** Aborted while it executes, for this reason, which is what it records when it stops. */
  predicate Stopping(c: Context, reason: Failure) {
    c.aborted == Some(reason) && (if Executing(c) then c.failure.None? else c.failure == Some(reason))
    && (c.phase.Finished? ==> c.result == TerminalFailure(reason))
  }

  /** The cleanup of run `k` does what it is asked; whatever else happens, to it or to others. */
  predicate CleansUp(s: Runner, e: Event, k: nat)
    requires k < |s.runs|
  {
    e.Step? && e.run == k ==>
      match s.runs[k].phase
      case AwaitingCancellation => !e.answer.Stuck?
      case Forcing => e.answer.Terminated? || e.answer.Disconnected?
      case Closing => e.answer.Ok?
      case _ => true
  }

  lemma StoppingContinues(c: Context, answer: Answer, reason: Failure)
    requires Sound(c) && Stopping(c, reason)
    requires match c.phase
             case AwaitingCancellation => !answer.Stuck?
             case Forcing => answer.Terminated? || answer.Disconnected?
             case Closing => answer.Ok?
             case _ => true
    ensures Stopping(Continue(c, answer), reason)
  {
    match c.phase
    case Opening => case Probing => case CheckingPgTap => case Beginning => case Locking => case Analyzing => case Replacing =>
    case Testing => case AwaitingCancellation => case AwaitingRollback => case Forcing => case Closing => case Finishing => case Finished =>
  }

  lemma StoppingStep(s: Runner, e: Event, k: nat, reason: Failure)
    requires Inv(s) && Enabled(s, e) && k < |s.runs| && Stopping(s.runs[k], reason) && CleansUp(s, e, k)
    ensures k < |Next(s, e).runs| && Stopping(Next(s, e).runs[k], reason)
  {
    if e.Step? && e.run == k {
      assert Sound(s.runs[k]);
      StoppingContinues(s.runs[k], e.answer, reason);
    }
    hide Inv, Continue;
  }

  ghost predicate CleanedUp(s: Runner, es: seq<Event>, k: nat)
    requires Possible(s, es)
    decreases |es|
  {
    k < |s.runs| && (es != [] ==> CleansUp(s, es[0], k) && CleanedUp(Next(s, es[0]), es[1..], k))
  }

  lemma {:induction false} StaysStopping(s: Runner, k: nat, es: seq<Event>, reason: Failure)
    requires Inv(s) && Possible(s, es) && CleanedUp(s, es, k) && Stopping(s.runs[k], reason)
    ensures k < |After(s, es).runs| && Stopping(After(s, es).runs[k], reason)
    decreases |es|
  {
    if es != [] {
      StoppingStep(s, es[0], k, reason);
      NextKeeps(s, es[0]);
      hide Next, Enabled, Inv, Stopping, CleansUp;
      StaysStopping(Next(s, es[0]), k, es[1..], reason);
    }
  }

  /**
   * A run that is first aborted while it executes ends cancelled, or timed out, as that abort said, whatever is answered
   * and whatever aborts follow, as long as its cleanup succeeds.
   */
  lemma AbortedRunsTellWhy(s: Runner, k: nat, es: seq<Event>, reason: Failure)
    requires Inv(s) && Enabled(s, Abort(k, reason)) && Executing(s.runs[k]) && s.runs[k].aborted.None?
    requires Possible(Next(s, Abort(k, reason)), es) && CleanedUp(Next(s, Abort(k, reason)), es, k)
    ensures var t := After(Next(s, Abort(k, reason)), es);
            k < |t.runs| && (t.runs[k].phase.Finished? ==>
              && (reason.Cancelled? <==> t.runs[k].result.CancelledState?)
              && (reason.TimedOut? <==> t.runs[k].result.TimedOutState?))
  {
    NextKeeps(s, Abort(k, reason));
    assert Sound(s.runs[k]);
    assert Stopping(Next(s, Abort(k, reason)).runs[k], reason);
    hide Next, Inv;
    StaysStopping(Next(s, Abort(k, reason)), k, es, reason);
  }

  // ----- When a run completes ------------------------------------------------------------------------

  /** It can no longer complete. */
  predicate Spoiled(c: Context) {
    c.failure.Some? || (c.aborted.Some? && Executing(c)) || (c.connectionError && Rank(c.phase) >= 2)
  }

  /** What spoils a run: a failing answer while it executes or closes, a backend that cannot be ended, an abort in time, a lost connection. */
  predicate Spoils(s: Runner, e: Event, k: nat)
    requires k < |s.runs|
  {
    var c := s.runs[k];
    match e
    case Admit(_) => false
    case Abort(j, _) => j == k && Executing(c)
    case ConnectionLost(j) => j == k && Rank(c.phase) >= 2
    case Step(j, answer) =>
      j == k && (if c.phase.Forcing? then !answer.Terminated? && !answer.Disconnected?
                 else (Executing(c) || c.phase.Closing?) && !answer.Ok?)
  }

  /** What a run that is not spoiled has: once its tests have ended, their outcome. */
  ghost predicate Judged(c: Context) {
    && (!Spoiled(c) && !Executing(c) ==> c.outcome)
    && (c.phase.Finished? ==> (c.result.Completed? <==> !Spoiled(c)))
    && (c.cancelling ==> c.aborted.Some? && (Executing(c) || c.failure.Some?))
    && (c.connectionError ==> c.client)
  }

  lemma ContinueJudges(c: Context, answer: Answer)
    requires Sound(c) && Judged(c) && !c.phase.Finished?
    ensures var d := Continue(c, answer);
            && Judged(d)
            && (Spoiled(d) <==> Spoiled(c) || (if c.phase.Forcing? then !answer.Terminated? && !answer.Disconnected?
                                               else (Executing(c) || c.phase.Closing?) && !answer.Ok?))
  {
    if Early(c) {
      EarlyJudges(c, answer);
    } else if Late(c) {
      LateJudges(c, answer);
    } else {
      CleanupJudges(c, answer);
    }
    hide Continue, Judged, Spoiled, Sound;
  }

  lemma EarlyJudges(c: Context, answer: Answer)
    requires Sound(c) && Judged(c) && Early(c)
    ensures Judged(Continue(c, answer)) && (Spoiled(Continue(c, answer)) <==> Spoiled(c) || !answer.Ok?)
  {
    hide Cancellation, Rollback, Force, Close, Finish;
    match c.phase
    case Opening => case Probing => case CheckingPgTap => case Beginning =>
  }

  lemma LateJudges(c: Context, answer: Answer)
    requires Sound(c) && Judged(c) && Late(c)
    ensures Judged(Continue(c, answer)) && (Spoiled(Continue(c, answer)) <==> Spoiled(c) || !answer.Ok?)
  {
    hide Cancellation, Rollback, Force, Close, Finish;
    match c.phase
    case Locking => case Analyzing => case Replacing => case Testing =>
  }

  lemma CleanupJudges(c: Context, answer: Answer)
    requires Sound(c) && Judged(c) && !Executing(c) && !c.phase.Finished?
    ensures Judged(Continue(c, answer))
    ensures Spoiled(Continue(c, answer))
            <==> Spoiled(c) || (if c.phase.Forcing? then !answer.Terminated? && !answer.Disconnected? else c.phase.Closing? && !answer.Ok?)
  {
    hide Execute;
    match c.phase
    case AwaitingCancellation => case AwaitingRollback => case Forcing => case Closing => case Finishing =>
  }

  lemma StepJudges(s: Runner, e: Event, k: nat)
    requires Inv(s) && Enabled(s, e) && k < |s.runs| && Judged(s.runs[k])
    ensures k < |Next(s, e).runs| && Judged(Next(s, e).runs[k])
    ensures Spoiled(Next(s, e).runs[k]) <==> Spoiled(s.runs[k]) || Spoils(s, e, k)
  {
    assert Sound(s.runs[k]);
    if e.Step? && e.run == k {
      ContinueJudges(s.runs[k], e.answer);
      hide Continue;
    }
    hide Inv;
  }

  ghost predicate SpoiledDuring(s: Runner, es: seq<Event>, k: nat)
    requires Possible(s, es)
    decreases |es|
  {
    es != [] && k < |s.runs| && (Spoils(s, es[0], k) || SpoiledDuring(Next(s, es[0]), es[1..], k))
  }

  lemma {:induction false} JudgedDuring(s: Runner, k: nat, es: seq<Event>)
    requires Inv(s) && Possible(s, es) && k < |s.runs| && Judged(s.runs[k])
    ensures var t := After(s, es);
            k < |t.runs| && Judged(t.runs[k]) && (Spoiled(t.runs[k]) <==> Spoiled(s.runs[k]) || SpoiledDuring(s, es, k))
    decreases |es|
  {
    if es != [] {
      StepJudges(s, es[0], k);
      NextKeeps(s, es[0]);
      hide Next, Enabled, Inv, Judged, Spoils, Spoiled;
      JudgedDuring(Next(s, es[0]), k, es[1..]);
    }
  }

  /**
   * A run completes exactly when nothing spoils it from its admission on: no failing answer while it executes or closes,
   * no abort before its tests have ended, no lost connection before it is closed, and a backend that could be ended.
   */
  lemma CompletesExactlyWhen(s: Runner, r: Request, es: seq<Event>)
    requires Inv(s) && Refusal(s, r).None? && Possible(Admitting(s, r), es)
    ensures var k, t := |s.runs|, After(Admitting(s, r), es);
            k < |t.runs| && (t.runs[k].phase.Finished? ==>
              (t.runs[k].result.Completed? <==> !SpoiledDuring(Admitting(s, r), es, k)))
  {
    NextKeeps(s, Admit(r));
    assert Judged(NewContext(r)) && !Spoiled(NewContext(r));
    hide Inv, Next, Spoils;
    JudgedDuring(Admitting(s, r), |s.runs|, es);
  }

  // ----- Botched cleanups ----------------------------------------------------------------------------

  /** The cleanup itself has failed. */
  predicate Botched(c: Context) {
    !Executing(c) && c.failure == Some(Other) && (c.phase.Finished? ==> c.result.FailedState?)
  }

  /** A cancellation that neither cancels nor ends the backend, a backend that cannot be ended, a client that cannot be closed. */
  predicate Botches(c: Context, answer: Answer) {
    match c.phase
    case AwaitingCancellation => c.cancelling && answer.Stuck?
    case Forcing => !answer.Terminated? && !answer.Disconnected?
    case Closing => !answer.Ok?
    case _ => false
  }

  /** A run whose cleanup fails ends as failed, even if it was cancelled or timed out before. */
  lemma BotchedCleanupsFail(c: Context, answer: Answer)
    ensures Botches(c, answer) ==> Botched(Continue(c, answer))
    ensures Botched(c) ==> Botched(Continue(c, answer))
  {
    if !Executing(c) {
      hide Execute, Cancellation, Force, Close;
      match c.phase
      case AwaitingCancellation => CancellationBotches(c, answer);
      case AwaitingRollback =>
      case Forcing => ForceBotches(c, answer);
      case Closing => CloseBotches(c, answer.Ok?);
      case Finishing =>
      case Finished =>
    }
  }

  lemma ForceBotches(c: Context, answer: Answer)
    requires c.phase.Forcing?
    ensures Botched(c) || (!answer.Terminated? && !answer.Disconnected?) ==> Botched(Force(c, answer))
  {}

  lemma CloseBotches(c: Context, ok: bool)
    requires c.phase.Closing?
    ensures Botched(c) || !ok ==> Botched(Close(c, ok))
  {}

  lemma CancellationBotches(c: Context, answer: Answer)
    requires c.phase.AwaitingCancellation?
    ensures Botches(c, answer) ==> Botched(Cancellation(c, answer))
    ensures Botched(c) ==> Botched(Cancellation(c, answer))
  {
  }

  // ----- Aborts and the backend ----------------------------------------------------------------------

  /** The cancellation of the backend is under way, and its outcome is awaited before anything else. */
  predicate BackendAsked(c: Context) {
    c.aborted.Some? && c.cancelling && Rank(c.phase) >= 5
  }

  /** An abort while the backend is known asks it to stop, and that stays so until its outcome is awaited. */
  lemma AbortsAskTheBackend(c: Context, reason: Failure, answer: Answer)
    requires Sound(c)
    ensures 6 <= Rank(c.phase) <= 11 ==> BackendAsked(Aborting(c, reason))
    ensures c.phase.Probing? && c.aborted.Some? && answer.Ok? ==> BackendAsked(Continue(c, answer))
    ensures BackendAsked(c) && 6 <= Rank(c.phase) <= 11 ==> BackendAsked(Continue(c, answer))
    ensures BackendAsked(c) ==> BackendAsked(Aborting(c, reason))
    ensures BackendAsked(c) && c.phase.AwaitingCancellation? && (answer.Terminated? || answer.Disconnected?) ==>
              Ended(Continue(c, answer)) && !Continue(c, answer).transactionOpen && !Continue(c, answer).phase.AwaitingRollback?
    ensures c.phase.AwaitingCancellation? && c.transactionOpen && !(c.cancelling && (answer.Terminated? || answer.Disconnected?)) ==>
              Continue(c, answer).phase.AwaitingRollback?
  {
    match c.phase
    case Opening => case Probing => case CheckingPgTap => case Beginning => case Locking => case Analyzing => case Replacing =>
    case Testing => case AwaitingCancellation => case AwaitingRollback => case Forcing => case Closing => case Finishing => case Finished =>
  }

  // ----- The announced status ------------------------------------------------------------------------

  /** What is announced of a run in this phase. */
  predicate Fits(c: Context, status: RunState) {
    match c.phase
    case Opening => status.Preparing?
    case Probing => status.Preparing?
    case CheckingPgTap => status.Preparing?
    case Beginning => status.Preparing?
    case Locking => status.TransactionOpen?
    case Analyzing => status.TransactionOpen?
    case Replacing => status.Instrumenting?
    case Testing => status.RunningTests?
    case AwaitingCancellation =>
      if c.outcome then status.Collecting?
      else status.Preparing? || status.TransactionOpen? || status.Instrumenting? || status.RunningTests?
    case AwaitingRollback => status.RollingBack?
    case Forcing => status.RollingBack?
    case _ => !IsTerminal(status)
  }

  /** The run has its id to itself, and what is announced under it fits; a finished run is announced no more. */
  ghost predicate Announces(s: Runner, k: nat) {
    && k < |s.runs|
    && var c := s.runs[k];
       if c.phase.Finished? then c.runId !in s.statuses
       else c.runId in s.statuses && Fits(c, s.statuses[c.runId])
  }

  ghost predicate OwnId(s: Runner, k: nat) {
    k < |s.runs| && forall j :: 0 <= j < |s.runs| && j != k ==> s.runs[j].runId != s.runs[k].runId
  }

  lemma MovedAnnounces(c: Context, answer: Answer, statuses: map<string, RunState>)
    requires Sound(c) && !c.phase.Finished? && c.runId in statuses && Fits(c, statuses[c.runId])
    ensures var d := Continue(c, answer);
            var after := if d.phase != c.phase && Announced(d).Some? then Transition(statuses, c.runId, Announced(d).value) else statuses;
            if d.phase.Finished? then c.runId !in after else c.runId in after && Fits(d, after[c.runId])
  {
    var d, status := Continue(c, answer), statuses[c.runId];
    if Early(c) {
      EarlyFits(c, answer, status);
    } else if Late(c) {
      LateFits(c, answer, status);
    } else {
      CleanupFits(c, answer, status);
    }
    hide Continue, Fits, Sound;
  }

  /** What is announced of the run when it has gone on. */
  function Status(c: Context, d: Context, status: RunState): RunState {
    if d.phase != c.phase && Announced(d).Some? then Announced(d).value else status
  }

  lemma EarlyFits(c: Context, answer: Answer, status: RunState)
    requires Early(c) && Fits(c, status)
    ensures var d := Continue(c, answer); !d.phase.Finished? && Fits(d, Status(c, d, status))
  {
    hide Cancellation, Rollback, Force, Close, Finish;
    match c.phase
    case Opening => case Probing => case CheckingPgTap => case Beginning =>
  }

  lemma LateFits(c: Context, answer: Answer, status: RunState)
    requires Late(c) && Fits(c, status)
    ensures var d := Continue(c, answer); !d.phase.Finished? && Fits(d, Status(c, d, status))
  {
    hide Cancellation, Rollback, Force, Close, Finish;
    if c.phase.Testing? {
      TestingFits(c, answer, status);
      hide Execute;
    } else {
      match c.phase
      case Locking => case Analyzing => case Replacing =>
    }
  }

  lemma TestingFits(c: Context, answer: Answer, status: RunState)
    requires c.phase.Testing? && Fits(c, status)
    ensures var d := Execute(c, answer.Ok?); !d.phase.Finished? && Fits(d, Status(c, d, status))
  {}

  lemma CleanupFits(c: Context, answer: Answer, status: RunState)
    requires Sound(c) && !Executing(c) && !c.phase.Finished? && Fits(c, status)
    ensures var d := Continue(c, answer);
            if d.phase.Finished? then IsTerminal(d.result) else Fits(d, Status(c, d, status))
  {
    hide Execute, Cancellation, Rollback, Force, Close;
    match c.phase
    case AwaitingCancellation => CancellationFits(c, answer, status);
    case AwaitingRollback => RollbackFits(c, answer, status);
    case Forcing => ForceFits(c, answer, status);
    case Closing => CloseFits(c, answer, status);
    case Finishing =>
  }

  lemma RollbackFits(c: Context, answer: Answer, status: RunState)
    requires c.phase.AwaitingRollback? && Fits(c, status)
    ensures var d := Rollback(c, answer.Ok?); !d.phase.Finished? && Fits(d, Status(c, d, status))
  {}

  lemma ForceFits(c: Context, answer: Answer, status: RunState)
    requires c.phase.Forcing? && Fits(c, status)
    ensures var d := Force(c, answer); !d.phase.Finished? && Fits(d, Status(c, d, status))
  {}

  lemma CloseFits(c: Context, answer: Answer, status: RunState)
    requires c.phase.Closing? && Fits(c, status)
    ensures var d := Close(c, answer.Ok?); !d.phase.Finished? && Fits(d, Status(c, d, status))
  {}

  lemma CancellationFits(c: Context, answer: Answer, status: RunState)
    requires c.phase.AwaitingCancellation? && Fits(c, status)
    ensures var d := Cancellation(c, answer); !d.phase.Finished? && Fits(d, Status(c, d, status))
  {}

  lemma StepAnnounces(s: Runner, e: Event, k: nat)
    requires Inv(s) && Enabled(s, e) && Announces(s, k) && OwnId(Next(s, e), k)
    ensures Announces(Next(s, e), k)
  {
    match e
    case Admit(_) =>
      assert |Next(s, e).runs| > |s.runs| ==> Next(s, e).runs[|s.runs|].runId != s.runs[k].runId;
    case Abort(_, _) =>
    case ConnectionLost(_) =>
    case Step(j, answer) =>
      ContinueKeeps(s.runs[j], answer);
      if j == k {
        MovedAnnounces(s.runs[k], answer, s.statuses);
      } else {
        assert Next(s, e).runs[j].runId != s.runs[k].runId;
      }
      hide Continue, Fits, Announced, Sound;
  }

  lemma {:induction false} OwnIdBefore(s: Runner, es: seq<Event>, k: nat)
    requires Inv(s) && Possible(s, es) && k < |s.runs| && OwnId(After(s, es), k)
    ensures OwnId(s, k)
    decreases |es|
  {
    if es != [] {
      NextKeeps(s, es[0]);
      IdsStay(s, es[0]);
      OwnIdBefore(Next(s, es[0]), es[1..], k);
      hide Next, Inv;
    }
  }

  lemma IdsStay(s: Runner, e: Event)
    requires Inv(s) && Enabled(s, e)
    ensures |s.runs| <= |Next(s, e).runs| && forall j :: 0 <= j < |s.runs| ==> Next(s, e).runs[j].runId == s.runs[j].runId
  {
    if e.Step? {
      ContinueKeeps(s.runs[e.run], e.answer);
      hide Continue;
    }
  }

  /** Over any steps: what is announced of a run that has its id to itself fits its phase, until it is finished. */
  lemma {:induction false} StatusFits(s: Runner, k: nat, es: seq<Event>)
    requires Inv(s) && Possible(s, es) && Announces(s, k) && OwnId(After(s, es), k)
    ensures Announces(After(s, es), k)
    decreases |es|
  {
    if es != [] {
      NextKeeps(s, es[0]);
      IdsStay(s, es[0]);
      OwnIdBefore(Next(s, es[0]), es[1..], k);
      StepAnnounces(s, es[0], k);
      hide Next, Enabled, Inv, Announces, OwnId;
      StatusFits(Next(s, es[0]), k, es[1..]);
    }
  }

  /** An admitted run holds exactly the keys of its own connection and routines, and is announced at once. */
  lemma AdmittedRunIsAnnounced(s: Runner, r: Request)
    requires Refusal(s, r).None?
    ensures var t, k := Admitting(s, r), |s.runs|;
            && Announces(t, k) && t.runs[k].runId == r.runId && t.runs[k].phase.Opening?
            && forall key :: key in t.runs[k].targets <==> key.connection == r.connection && key.oid in r.oids
  {
    forall key ensures key in Targets(r) <==> key.connection == r.connection && key.oid in r.oids {
      assert key == Key(key.connection, key.oid);
    }
  }
}
