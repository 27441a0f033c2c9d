/**
 * Coverage runs (packages/coverage/src/runner.ts) as a state machine over the steps between awaits.
 * `Step` continues one run with what its awaited operation answered; any answer may be a failure, an
 * abort, or a lost connection. Loops over the routines of a run are one operation each.
 */
module CoverageRuns {
  import opened Options

  datatype Key = Key(connection: string, oid: nat)

  datatype Failure = Cancelled | TimedOut | Other
  datatype RunState =
    | Idle | Preparing | TransactionOpen | Instrumenting | RunningTests | Collecting | RollingBack
    | Completed | FailedState | CancelledState | TimedOutState

  /** The transaction as the database sees it. */
  datatype Transaction = NotBegun | Begun | RolledBack | BackendGone

  datatype Phase =
    | Opening          // awaiting a client
    | Probing          // the backend pid
    | CheckingPgTap
    | Beginning        // BEGIN
    | Locking          // lock timeout and advisory locks
    | Analyzing        // catalog reads, analysis and instrumentation
    | Replacing        // the instrumented DDL
    | Testing
    | AwaitingCancellation
    | AwaitingRollback
    | Forcing          // terminate the backend, or disconnect from it
    | Closing          // client.end()
    | Finishing        // cleanup is done, the result is not reported yet
    | Finished

  datatype Context = Context(
    targets: set<Key>, runId: string, phase: Phase,
    client: bool, transactionOpen: bool, transaction: Transaction,
    cancelling: bool,                  // an abort has started `cancelOrDisconnect`
    aborted: Option<Failure>,          // the reason of the signal
    connectionError: bool,
    outcome: bool, failure: Option<Failure>, result: RunState)

  datatype Runner = Runner(activeTargets: set<Key>, activeRunIds: set<string>, statuses: map<string, RunState>, runs: seq<Context>)

  datatype Request = Request(connection: string, oids: seq<nat>, runId: string, timeoutValid: bool)

  datatype Admission = Admitted(run: nat) | NoRoutine | TargetBusy(oid: nat) | RunIdBusy | InvalidTimeout

  /** What an awaited operation answered. For a forced cleanup: how it ended the backend, or that it could not. */
  datatype Answer = Ok | Fails | Terminated | Disconnected | Stuck

  datatype Event =
    | Admit(request: Request)
    | Abort(run: nat, reason: Failure)
    | ConnectionLost(run: nat)
    | Step(run: nat, answer: Answer)

  // ----- Admission -----------------------------------------------------------------------------------

  function Targets(r: Request): set<Key> {
    set oid | oid in r.oids :: Key(r.connection, oid)
  }

  predicate Released(c: Context) {
    c.phase.Finishing? || c.phase.Finished?
  }

  predicate IsTerminal(state: RunState) {
    state.Completed? || state.FailedState? || state.CancelledState? || state.TimedOutState?
  }

  /** Why a request is refused; the lowest busy oid is the one reported. */
  function Refusal(s: Runner, r: Request): Option<Admission> {
    if r.oids == [] then Some(NoRoutine)
    else if Targets(r) * s.activeTargets != {} then Some(TargetBusy(LowestBusy(s, r)))
    else if r.runId in s.activeRunIds then Some(RunIdBusy)
    else if !r.timeoutValid then Some(InvalidTimeout)
    else None
  }

  function LowestBusy(s: Runner, r: Request): nat {
    LowestIn(r.oids, r.connection, s.activeTargets)
  }

  function LowestIn(oids: seq<nat>, connection: string, active: set<Key>): nat {
    if oids == [] then 0
    else
      var rest := LowestIn(oids[1..], connection, active);
      if Key(connection, oids[0]) !in active then rest
      else if (exists o | o in oids[1..] :: Key(connection, o) in active) && rest < oids[0] then rest
      else oids[0]
  }

  function NewContext(r: Request): Context {
    Context(Targets(r), r.runId, Opening, false, false, NotBegun, false, None, false, false, None, Idle)
  }

  /** `admit`, and the first step of `execute` that follows in the same turn. */
  function Admitting(s: Runner, r: Request): Runner {
    if Refusal(s, r).Some? then s
    else Runner(s.activeTargets + Targets(r), s.activeRunIds + {r.runId}, s.statuses[r.runId := Preparing], s.runs + [NewContext(r)])
  }

  // ----- One run -------------------------------------------------------------------------------------

  /** The failure `runSuite` records: the abort's reason when there was one. */
  function Failing(c: Context): (r: Context)
    ensures r.phase.AwaitingCancellation?
  {
    c.(failure := Some(c.aborted.GetOr(Other)), phase := AwaitingCancellation)
  }

  predicate AbortWins(c: Context) {
    c.aborted.Some?
  }

  /** The steps of `execute`. */
  function Execute(c: Context, ok: bool): Context {
    match c.phase
    case Opening =>
      if !ok || AbortWins(c) then Failing(c) else c.(client := true, phase := Probing)
    case Probing => if !ok then Failing(c) else c.(phase := CheckingPgTap, cancelling := c.aborted.Some?)
    case CheckingPgTap => if !ok || AbortWins(c) then Failing(c) else c.(phase := Beginning)
    case Beginning =>
      // A BEGIN that failed to answer may still have begun.
      if !ok then Failing(c.(transaction := Begun)) else c.(transaction := Begun, transactionOpen := true, phase := Locking)
    case Locking => if !ok then Failing(c) else c.(phase := Analyzing)
    case Analyzing => if !ok || AbortWins(c) then Failing(c) else c.(phase := Replacing)
    case Replacing => if !ok || AbortWins(c) then Failing(c) else c.(phase := Testing)
    case Testing => if !ok || AbortWins(c) then Failing(c) else c.(outcome := true, phase := AwaitingCancellation)
    case _ => c
  }

  function Combined(c: Context): Context {
    c.(failure := Some(Other))
  }

  /** After the cancellation settled: `applyCancellationOutcome`, and on to the rollback. */
  function Cancellation(c: Context, answer: Answer): Context {
    var applied :=
      if !c.cancelling then c
      else match answer
        case Terminated => c.(transactionOpen := false, transaction := BackendGone)
        case Disconnected => c.(transactionOpen := false, transaction := BackendGone)
        case Stuck => Combined(c)
        case _ => c;
    if applied.transactionOpen && applied.client then applied.(phase := AwaitingRollback)
    else ToClosing(applied)
  }

  function ToClosing(c: Context): (r: Context)
    ensures Rank(r.phase) <= 2
  {
    if c.client then c.(phase := Closing) else c.(phase := Finishing)
  }

  /** `rollback`: within its timeout, or else by force. */
  function Rollback(c: Context, ok: bool): Context {
    if ok then ToClosing(c.(transactionOpen := false, transaction := RolledBack)) else c.(phase := Forcing)
  }

  function Force(c: Context, answer: Answer): Context {
    if answer.Terminated? || answer.Disconnected? then ToClosing(c.(transactionOpen := false, transaction := BackendGone))
    else ToClosing(Combined(c))
  }

  function Close(c: Context, ok: bool): Context {
    var closed := if ok then c else Combined(c);
    closed.(failure := if closed.connectionError && closed.failure.None? then Some(Other) else closed.failure, phase := Finishing)
  }

  function TerminalFailure(f: Failure): RunState {
    match f case Cancelled => CancelledState case TimedOut => TimedOutState case Other => FailedState
  }

  function Finish(c: Context): Context {
    c.(phase := Finished,
       result := if c.failure.Some? then TerminalFailure(c.failure.value) else if !c.outcome then FailedState else Completed)
  }

  function Continue(c: Context, answer: Answer): Context {
    match c.phase
    case AwaitingCancellation => Cancellation(c, answer)
    case AwaitingRollback => Rollback(c, answer.Ok?)
    case Forcing => Force(c, answer)
    case Closing => Close(c, answer.Ok?)
    case Finishing => Finish(c)
    case Finished => c
    case _ => Execute(c, answer.Ok?)
  }

  /** The status announced on the way into a phase; `None` where the source announces nothing. */
  function Announced(c: Context): Option<RunState> {
    match c.phase
    case Locking => Some(TransactionOpen)
    case Replacing => Some(Instrumenting)
    case Testing => Some(RunningTests)
    case AwaitingCancellation => if c.outcome then Some(Collecting) else None
    case AwaitingRollback => Some(RollingBack)
    case Finished => Some(c.result)
    case _ => None
  }

  /** `transition`. */
  function Transition(statuses: map<string, RunState>, runId: string, state: RunState): map<string, RunState> {
    if IsTerminal(state) then statuses - {runId} else statuses[runId := state]
  }

  /** A run moves to its next context. The keys and the run id are released in the step that ends the cleanup. */
  function Moved(s: Runner, k: nat, next: Context): Runner
    requires k < |s.runs|
  {
    var was := s.runs[k];
    var releases := !Released(was) && Released(next);
    Runner(if releases then s.activeTargets - was.targets else s.activeTargets,
           if releases then s.activeRunIds - {was.runId} else s.activeRunIds,
           if next.phase != was.phase && Announced(next).Some? then Transition(s.statuses, was.runId, Announced(next).value) else s.statuses,
           s.runs[k := next])
  }

  predicate Enabled(s: Runner, e: Event) {
    match e
    case Admit(_) => true
    case Abort(k, reason) => k < |s.runs| && !reason.Other?
    case ConnectionLost(k) => k < |s.runs| && s.runs[k].client
    case Step(k, _) => k < |s.runs| && !s.runs[k].phase.Finished?
  }

  /** The cancellation listener is installed with the backend pid and removed when the cleanup begins. */
  predicate Listening(c: Context) {
    6 <= Rank(c.phase) <= 11
  }

  function Aborting(c: Context, reason: Failure): Context {
    c.(aborted := if c.aborted.Some? then c.aborted else Some(reason), cancelling := c.cancelling || Listening(c))
  }

  function Next(s: Runner, e: Event): Runner
    requires Enabled(s, e)
  {
    match e
    case Admit(request) => Admitting(s, request)
    case Abort(k, reason) => s.(runs := s.runs[k := Aborting(s.runs[k], reason)])
    case ConnectionLost(k) => s.(runs := s.runs[k := s.runs[k].(connectionError := true)])
    case Step(k, answer) => Moved(s, k, Continue(s.runs[k], answer))
  }

  const Start := Runner({}, {}, map[], [])

  /** How many answers a run waits for at most. */
  function Rank(phase: Phase): nat {
    match phase
    case Opening => 13 case Probing => 12 case CheckingPgTap => 11 case Beginning => 10 case Locking => 9
    case Analyzing => 8 case Replacing => 7 case Testing => 6 case AwaitingCancellation => 5
    case AwaitingRollback => 4 case Forcing => 3 case Closing => 2 case Finishing => 1 case Finished => 0
  }

  // ----- The invariant -------------------------------------------------------------------------------

  /** The target keys of all runs that have not been cleaned up. */
  function Held(runs: seq<Context>): set<Key> {
    if runs == [] then {}
    else
      var last := runs[|runs| - 1];
      Held(runs[..|runs| - 1]) + if Released(last) then {} else last.targets
  }

  function HeldIds(runs: seq<Context>): set<string> {
    if runs == [] then {}
    else
      var last := runs[|runs| - 1];
      HeldIds(runs[..|runs| - 1]) + if Released(last) then {} else {last.runId}
  }

  /** Runs that have not been cleaned up share neither a target nor a run id. */
  ghost predicate Disjoint(runs: seq<Context>) {
    forall i, j :: 0 <= i < j < |runs| && !Released(runs[i]) && !Released(runs[j]) ==>
      runs[i].targets * runs[j].targets == {} && runs[i].runId != runs[j].runId
  }

  predicate Executing(c: Context) {
    Rank(c.phase) >= 6
  }

  /** In each phase: whether the transaction has been ended, unless the run has failed. */
  ghost predicate Sound(c: Context) {
    && (c.transactionOpen ==> c.client && c.transaction.Begun?)
    && (Rank(c.phase) >= 10 ==> c.transaction.NotBegun? && !c.transactionOpen)
    && (Executing(c) ==> !c.outcome && c.failure.None?)
    && (6 <= Rank(c.phase) <= 9 ==> c.transactionOpen)
    && (6 <= Rank(c.phase) <= 12 || 2 <= Rank(c.phase) <= 4 ==> c.client)
    && (3 <= Rank(c.phase) <= 4 ==> c.transactionOpen && (c.failure.None? ==> c.outcome))
    && (c.phase.AwaitingCancellation? && c.failure.None? ==> c.outcome && c.transactionOpen)
    && (Rank(c.phase) <= 2 && c.failure.None? ==> c.outcome && Ended(c))
    && (c.outcome && c.failure.None? ==> c.client)
    && (c.phase.Finished? && c.result.Completed? ==> c.failure.None? && c.outcome)
  }

  predicate Ended(c: Context) {
    c.transaction.RolledBack? || c.transaction.BackendGone?
  }

  ghost predicate Inv(s: Runner) {
    && s.activeTargets == Held(s.runs) && s.activeRunIds == HeldIds(s.runs) && Disjoint(s.runs)
    && (forall i :: 0 <= i < |s.runs| ==> Sound(s.runs[i]))
    && (forall id | id in s.statuses :: !IsTerminal(s.statuses[id]))
  }

  lemma {:induction false} HeldIff(runs: seq<Context>, key: Key)
    ensures key in Held(runs) <==> exists i :: 0 <= i < |runs| && !Released(runs[i]) && key in runs[i].targets
  {
    if runs != [] {
      var n := |runs| - 1;
      HeldIff(runs[..n], key);
      if key in Held(runs[..n]) {
        var i :| 0 <= i < n && !Released(runs[..n][i]) && key in runs[..n][i].targets;
        assert !Released(runs[i]) && key in runs[i].targets;
      }
      if i :| 0 <= i < |runs| && !Released(runs[i]) && key in runs[i].targets {
        if i < n {
          assert !Released(runs[..n][i]) && key in runs[..n][i].targets;
        }
      }
    }
  }

  lemma {:induction false} HeldIdsIff(runs: seq<Context>, id: string)
    ensures id in HeldIds(runs) <==> exists i :: 0 <= i < |runs| && !Released(runs[i]) && runs[i].runId == id
  {
    if runs != [] {
      var n := |runs| - 1;
      HeldIdsIff(runs[..n], id);
      if id in HeldIds(runs[..n]) {
        var i :| 0 <= i < n && !Released(runs[..n][i]) && runs[..n][i].runId == id;
        assert !Released(runs[i]) && runs[i].runId == id;
      }
      if i :| 0 <= i < |runs| && !Released(runs[i]) && runs[i].runId == id {
        if i < n {
          assert !Released(runs[..n][i]) && runs[..n][i].runId == id;
        }
      }
    }
  }

  lemma ContinueKeeps(c: Context, answer: Answer)
    requires Sound(c)
    ensures Sound(Continue(c, answer)) && Continue(c, answer).targets == c.targets && Continue(c, answer).runId == c.runId
    ensures Released(c) ==> Released(Continue(c, answer))
  {
    hide Sound, Execute, Cancellation, Rollback, Force, Close, Finish;
    match c.phase
    case AwaitingCancellation => CancellationKeeps(c, answer);
    case AwaitingRollback => RollbackKeeps(c, answer.Ok?);
    case Forcing => ForceKeeps(c, answer);
    case Closing => CloseKeeps(c, answer.Ok?);
    case Finishing => FinishKeeps(c);
    case Finished =>
    case _ => ExecuteKeeps(c, answer.Ok?);
  }

  lemma RollbackKeeps(c: Context, ok: bool)
    requires Sound(c) && c.phase.AwaitingRollback?
    ensures Sound(Rollback(c, ok)) && Rollback(c, ok).targets == c.targets && Rollback(c, ok).runId == c.runId
  {}

  lemma ForceKeeps(c: Context, answer: Answer)
    requires Sound(c) && c.phase.Forcing?
    ensures Sound(Force(c, answer)) && Force(c, answer).targets == c.targets && Force(c, answer).runId == c.runId
  {}

  lemma CloseKeeps(c: Context, ok: bool)
    requires Sound(c) && c.phase.Closing?
    ensures Sound(Close(c, ok)) && Close(c, ok).targets == c.targets && Close(c, ok).runId == c.runId
  {}

  lemma FinishKeeps(c: Context)
    requires Sound(c) && c.phase.Finishing?
    ensures Sound(Finish(c)) && Finish(c).targets == c.targets && Finish(c).runId == c.runId && Released(Finish(c))
  {}

  lemma ExecuteKeeps(c: Context, ok: bool)
    requires Sound(c) && Executing(c)
    ensures Sound(Execute(c, ok)) && Execute(c, ok).targets == c.targets && Execute(c, ok).runId == c.runId
  {
    match c.phase
    case Opening => case Probing => case CheckingPgTap => case Beginning =>
    case Locking => case Analyzing => case Replacing => case Testing =>
  }

  lemma CancellationKeeps(c: Context, answer: Answer)
    requires Sound(c) && c.phase.AwaitingCancellation?
    ensures Sound(Cancellation(c, answer)) && Cancellation(c, answer).targets == c.targets && Cancellation(c, answer).runId == c.runId
  {}

  lemma AbortKeeps(c: Context, reason: Failure)
    requires Sound(c)
    ensures Sound(Aborting(c, reason)) && Sound(c.(connectionError := true))
  {}

  /** Replacing one run by another with the same keys keeps what is held, less its keys once it is released. */
  lemma UpdateHolds(runs: seq<Context>, k: nat, next: Context)
    requires k < |runs| && Disjoint(runs) && next.targets == runs[k].targets && next.runId == runs[k].runId
    requires Released(runs[k]) ==> Released(next)
    ensures var m := runs[k := next];
            var releases := !Released(runs[k]) && Released(next);
            && Disjoint(m)
            && Held(m) == (if releases then Held(runs) - next.targets else Held(runs))
            && HeldIds(m) == (if releases then HeldIds(runs) - {next.runId} else HeldIds(runs))
  {
    var m := runs[k := next];
    var releases := !Released(runs[k]) && Released(next);
    forall key ensures key in Held(m) <==> key in Held(runs) && !(releases && key in next.targets) {
      HeldIff(m, key);
      HeldIff(runs, key);
      HeldElsewhere(runs, m, k, key);
    }
    forall id ensures id in HeldIds(m) <==> id in HeldIds(runs) && !(releases && id == next.runId) {
      HeldIdsIff(m, id);
      HeldIdsIff(runs, id);
      IdElsewhere(runs, m, k, id);
    }
  }

  lemma OneHolder(runs: seq<Context>, i: nat, j: nat, key: Key)
    requires i < |runs| && j < |runs| && Disjoint(runs) && !Released(runs[i]) && !Released(runs[j])
    requires key in runs[i].targets && key in runs[j].targets
    ensures i == j
  {
    var common, same := runs[i].targets * runs[j].targets, runs[j].targets * runs[i].targets;
    assert key in common && key in same;
  }

  lemma HeldElsewhere(runs: seq<Context>, m: seq<Context>, k: nat, key: Key)
    requires k < |runs| == |m| && Disjoint(runs) && m == runs[k := m[k]] && m[k].targets == runs[k].targets
    requires Released(runs[k]) ==> Released(m[k])
    ensures (exists i :: 0 <= i < |m| && !Released(m[i]) && key in m[i].targets)
            <==> (exists i :: 0 <= i < |runs| && !Released(runs[i]) && key in runs[i].targets)
                 && !(!Released(runs[k]) && Released(m[k]) && key in m[k].targets)
  {
    if i :| 0 <= i < |m| && !Released(m[i]) && key in m[i].targets {
      assert !Released(runs[i]) && key in runs[i].targets;
      if !Released(runs[k]) && key in runs[k].targets {
        OneHolder(runs, i, k, key);
      }
    }
    if i :| 0 <= i < |runs| && !Released(runs[i]) && key in runs[i].targets {
      if i != k || !Released(m[k]) {
        assert !Released(m[i]) && key in m[i].targets;
      }
    }
  }

  lemma IdElsewhere(runs: seq<Context>, m: seq<Context>, k: nat, id: string)
    requires k < |runs| == |m| && Disjoint(runs) && m == runs[k := m[k]] && m[k].runId == runs[k].runId
    requires Released(runs[k]) ==> Released(m[k])
    ensures (exists i :: 0 <= i < |m| && !Released(m[i]) && m[i].runId == id)
            <==> (exists i :: 0 <= i < |runs| && !Released(runs[i]) && runs[i].runId == id)
                 && !(!Released(runs[k]) && Released(m[k]) && id == m[k].runId)
  {
    if i :| 0 <= i < |m| && !Released(m[i]) && m[i].runId == id {
      assert !Released(runs[i]) && runs[i].runId == id;
    }
    if i :| 0 <= i < |runs| && !Released(runs[i]) && runs[i].runId == id {
      if i != k || !Released(m[k]) {
        assert !Released(m[i]) && m[i].runId == id;
      }
    }
  }

  lemma AdmittingKeeps(s: Runner, r: Request)
    requires Inv(s) && Refusal(s, r).None?
    ensures Inv(Admitting(s, r))
  {
    var c := NewContext(r);
    NewIsDisjoint(s, r);
    HeldSnoc(s.runs, c);
    NewIsSound(r);
    hide Disjoint, Sound, Held, HeldIds, Targets, NewContext;
    assert forall i :: 0 <= i < |s.runs + [c]| ==> (s.runs + [c])[i] == if i < |s.runs| then s.runs[i] else c;
  }

  lemma NewIsSound(r: Request)
    ensures Sound(NewContext(r)) && !Released(NewContext(r)) && NewContext(r).targets == Targets(r) && NewContext(r).runId == r.runId
  {}

  lemma HeldSnoc(runs: seq<Context>, c: Context)
    requires !Released(c)
    ensures Held(runs + [c]) == Held(runs) + c.targets && HeldIds(runs + [c]) == HeldIds(runs) + {c.runId}
  {
    assert (runs + [c])[..|runs|] == runs;
  }

  lemma NewIsDisjoint(s: Runner, r: Request)
    requires s.activeTargets == Held(s.runs) && s.activeRunIds == HeldIds(s.runs) && Disjoint(s.runs) && Refusal(s, r).None?
    ensures Disjoint(s.runs + [NewContext(r)])
  {
    var c := NewContext(r);
    forall i | 0 <= i < |s.runs| && !Released(s.runs[i])
      ensures s.runs[i].targets * c.targets == {} && s.runs[i].runId != c.runId
    {
      forall key | key in s.runs[i].targets ensures key in s.activeTargets {
        HeldIff(s.runs, key);
      }
      HeldIdsIff(s.runs, s.runs[i].runId);
    }
  }

  lemma NextKeeps(s: Runner, e: Event)
    requires Inv(s) && Enabled(s, e)
    ensures Inv(Next(s, e))
  {
    match e
    case Admit(request) =>
      if Refusal(s, request).None? {
        AdmittingKeeps(s, request);
      }
    case Abort(k, reason) =>
      AbortKeeps(s.runs[k], reason);
      MarkKeeps(s, k, Aborting(s.runs[k], reason));
    case ConnectionLost(k) =>
      AbortKeeps(s.runs[k], Cancelled);
      MarkKeeps(s, k, s.runs[k].(connectionError := true));
    case Step(k, answer) =>
      ContinueKeeps(s.runs[k], answer);
      MoveKeeps(s, k, Continue(s.runs[k], answer));
  }

  lemma MarkKeeps(s: Runner, k: nat, next: Context)
    requires Inv(s) && k < |s.runs| && Sound(next)
    requires next.targets == s.runs[k].targets && next.runId == s.runs[k].runId && next.phase == s.runs[k].phase
    ensures Inv(s.(runs := s.runs[k := next]))
  {
    UpdateHolds(s.runs, k, next);
    hide Sound, Disjoint, Held, HeldIds;
  }

  lemma MoveKeeps(s: Runner, k: nat, next: Context)
    requires Inv(s) && k < |s.runs| && Sound(next)
    requires next.targets == s.runs[k].targets && next.runId == s.runs[k].runId && (Released(s.runs[k]) ==> Released(next))
    ensures Inv(Moved(s, k, next))
  {
    UpdateHolds(s.runs, k, next);
    hide Sound, Disjoint, Held, HeldIds, Announced;
  }

  // ----- Theorems ------------------------------------------------------------------------------------

  ghost predicate Possible(s: Runner, es: seq<Event>)
    decreases |es|
  {
    es == [] || (Enabled(s, es[0]) && Possible(Next(s, es[0]), es[1..]))
  }

  function After(s: Runner, es: seq<Event>): Runner
    requires Possible(s, es)
    decreases |es|
  {
    if es == [] then s else After(Next(s, es[0]), es[1..])
  }

  lemma {:induction false} AlwaysInv(s: Runner, es: seq<Event>)
    requires Inv(s) && Possible(s, es)
    ensures Inv(After(s, es))
    decreases |es|
  {
    if es != [] {
      NextKeeps(s, es[0]);
      AlwaysInv(Next(s, es[0]), es[1..]);
    }
  }

  lemma {:induction false} OneStepFurther(s: Runner, es: seq<Event>, e: Event)
    requires Possible(s, es) && Enabled(After(s, es), e)
    ensures Possible(s, es + [e]) && After(s, es + [e]) == Next(After(s, es), e)
    decreases |es|
  {
    if es == [] {
      assert [] + [e] == [e] && [e][1..] == [];
    } else {
      assert (es + [e])[1..] == es[1..] + [e];
      OneStepFurther(Next(s, es[0]), es[1..], e);
    }
  }

  /** `activeTargets` is at all times the disjoint union of the target keys of the runs not yet cleaned up. */
  lemma TargetsAreDisjointUnion(es: seq<Event>, key: Key)
    requires Possible(Start, es)
    ensures var s := After(Start, es);
            && (key in s.activeTargets <==> exists i :: 0 <= i < |s.runs| && !Released(s.runs[i]) && key in s.runs[i].targets)
            && (forall i, j | 0 <= i < |s.runs| && 0 <= j < |s.runs| && !Released(s.runs[i]) && !Released(s.runs[j])
                              && key in s.runs[i].targets && key in s.runs[j].targets :: i == j)
  {
    AlwaysInv(Start, es);
    var s := After(Start, es);
    HeldIff(s.runs, key);
    forall i, j | 0 <= i < |s.runs| && 0 <= j < |s.runs| && !Released(s.runs[i]) && !Released(s.runs[j])
                  && key in s.runs[i].targets && key in s.runs[j].targets
      ensures i == j
    {
      OneHolder(s.runs, i, j, key);
    }
  }

  /** A request is refused exactly when it is malformed or something it needs is taken by a run not yet cleaned up. */
  lemma RefusedExactlyWhen(s: Runner, r: Request)
    requires Inv(s)
    ensures Refusal(s, r).Some? <==>
              || r.oids == [] || !r.timeoutValid
              || exists i :: 0 <= i < |s.runs| && !Released(s.runs[i])
                             && (s.runs[i].runId == r.runId || exists o | o in r.oids :: Key(r.connection, o) in s.runs[i].targets)
  {
    HeldIdsIff(s.runs, r.runId);
    if key :| key in Targets(r) * s.activeTargets {
      HeldIff(s.runs, key);
      var i :| 0 <= i < |s.runs| && !Released(s.runs[i]) && key in s.runs[i].targets;
      assert key == Key(r.connection, key.oid) && key.oid in r.oids;
    }
    if i, o :| 0 <= i < |s.runs| && !Released(s.runs[i]) && o in r.oids && Key(r.connection, o) in s.runs[i].targets {
      var key := Key(r.connection, o);
      HeldIff(s.runs, key);
      assert key in Targets(r) * s.activeTargets;
    }
  }

  /** The reported busy oid is one that is taken, and no smaller one of the request is. */
  lemma {:induction false} LowestIsBusy(oids: seq<nat>, connection: string, active: set<Key>)
    requires exists o | o in oids :: Key(connection, o) in active
    ensures var low := LowestIn(oids, connection, active);
            low in oids && Key(connection, low) in active && forall o | o in oids && Key(connection, o) in active :: low <= o
  {
    if exists o | o in oids[1..] :: Key(connection, o) in active {
      LowestIsBusy(oids[1..], connection, active);
    }
    assert oids == [oids[0]] + oids[1..];
  }

  /** A run reports completion only after its transaction was rolled back or its backend was ended. */
  lemma CompletedMeansEnded(es: seq<Event>, k: nat)
    requires Possible(Start, es) && k < |After(Start, es).runs|
    ensures var c := After(Start, es).runs[k];
            c.phase.Finished? && c.result.Completed? ==> c.outcome && Ended(c)
  {
    AlwaysInv(Start, es);
    hide After, Possible, Inv;
    var s := After(Start, es);
    if s.runs[k].phase.Finished? && s.runs[k].result.Completed? {
      CompletedHasEnded(s, k);
    }
  }

  lemma CompletedHasEnded(s: Runner, k: nat)
    requires Inv(s) && k < |s.runs| && s.runs[k].phase.Finished? && s.runs[k].result.Completed?
    ensures s.runs[k].outcome && Ended(s.runs[k])
  {
    hide Disjoint, Held, HeldIds;
    assert Sound(s.runs[k]);
  }

  lemma RankFalls(c: Context, answer: Answer)
    requires Sound(c) && !c.phase.Finished?
    ensures Rank(Continue(c, answer).phase) < Rank(c.phase)
  {
    if Executing(c) {
      ExecuteRank(c, answer.Ok?);
      hide Execute, Cancellation, Rollback, Force, Close, Finish, Sound;
    } else {
      CleanupRank(c, answer);
    }
  }

  lemma CleanupRank(c: Context, answer: Answer)
    requires !Executing(c) && !c.phase.Finished?
    ensures Rank(Continue(c, answer).phase) < Rank(c.phase)
  {
    hide ToClosing, Execute, Cancellation, Rollback, Force, Close, Finish;
    match c.phase
    case AwaitingCancellation => CancellationRank(c, answer);
    case AwaitingRollback => RollbackRank(c, answer.Ok?);
    case Forcing => ForceRank(c, answer);
    case Closing => CloseRank(c, answer.Ok?);
    case Finishing => CloseRank(c, true);
  }

  /** Only the last step of a run finishes it, and with a terminal state. */
  lemma FinishesLast(c: Context, answer: Answer)
    requires !c.phase.Finished? && Continue(c, answer).phase.Finished?
    ensures c.phase.Finishing? && IsTerminal(Continue(c, answer).result)
  {
    hide ToClosing, Execute, Cancellation, Rollback, Force, Close;
    match c.phase
    case AwaitingCancellation => CancellationUnfinished(c, answer);
    case AwaitingRollback => CleanupUnfinished(c, answer);
    case Forcing => CleanupUnfinished(c, answer);
    case Closing => CleanupUnfinished(c, answer);
    case Finishing =>
    case _ => ExecuteUnfinished(c, answer.Ok?);
  }

  lemma ExecuteUnfinished(c: Context, ok: bool)
    requires Executing(c)
    ensures !Execute(c, ok).phase.Finished?
  {
    hide Failing;
    match c.phase
    case Opening => case Probing => case CheckingPgTap => case Beginning =>
    case Locking => case Analyzing => case Replacing => case Testing =>
  }

  lemma CancellationUnfinished(c: Context, answer: Answer)
    ensures !Cancellation(c, answer).phase.Finished?
  {}

  lemma CleanupUnfinished(c: Context, answer: Answer)
    ensures !Rollback(c, answer.Ok?).phase.Finished? && !Force(c, answer).phase.Finished? && !Close(c, answer.Ok?).phase.Finished?
  {}

  lemma CancellationRank(c: Context, answer: Answer)
    ensures Rank(Cancellation(c, answer).phase) <= 4
  {
    hide ToClosing;
  }

  lemma RollbackRank(c: Context, ok: bool)
    ensures Rank(Rollback(c, ok).phase) <= 3
  {
    hide ToClosing;
  }

  lemma ForceRank(c: Context, answer: Answer)
    ensures Rank(Force(c, answer).phase) <= 2
  {
    hide ToClosing;
  }

  lemma CloseRank(c: Context, ok: bool)
    ensures Rank(Close(c, ok).phase) == 1 && Rank(Finish(c).phase) == 0
  {}

  lemma ExecuteRank(c: Context, ok: bool)
    requires Executing(c)
    ensures Rank(Execute(c, ok).phase) < Rank(c.phase)
  {
    hide Failing;
    match c.phase
    case Opening => case Probing => case CheckingPgTap => case Beginning =>
    case Locking => case Analyzing => case Replacing => case Testing =>
  }

  lemma StepAdvances(s: Runner, k: nat, e: Event)
    requires Inv(s) && k < |s.runs| && Enabled(s, e)
    ensures var t := Next(s, e);
            Inv(t) && |s.runs| <= |t.runs| && Rank(t.runs[k].phase) + (if Continues(e, k) then 1 else 0) <= Rank(s.runs[k].phase)
  {
    NextKeeps(s, e);
    if Continues(e, k) {
      RankFalls(s.runs[k], e.answer);
    }
    hide Continue, Inv;
  }

  predicate Continues(e: Event, k: nat) {
    e.Step? && e.run == k
  }

  /** How often the run is continued. */
  function Continuations(es: seq<Event>, k: nat): nat {
    if es == [] then 0 else (if Continues(es[0], k) then 1 else 0) + Continuations(es[1..], k)
  }

  /** No key and no run id is held on behalf of the run: other runs, not yet cleaned up, hold them all. */
  ghost predicate HeldByOthers(s: Runner, k: nat) {
    && (forall key | key in s.activeTargets :: exists i :: 0 <= i < |s.runs| && i != k && !Released(s.runs[i]) && key in s.runs[i].targets)
    && (forall id | id in s.activeRunIds :: exists i :: 0 <= i < |s.runs| && i != k && !Released(s.runs[i]) && s.runs[i].runId == id)
  }

  /**
   * Whatever is answered, and whatever happens to other runs meanwhile: a run that has not ended can always
   * be continued, it is continued at most as often as its phase allows (thirteen times), and when it is, it
   * has ended and holds neither a key nor its run id.
   */
  lemma {:induction false} EveryExitReleases(s: Runner, k: nat, es: seq<Event>)
    requires Inv(s) && k < |s.runs| && Possible(s, es)
    ensures var t := After(s, es);
            && k < |t.runs| && Rank(t.runs[k].phase) + Continuations(es, k) <= Rank(s.runs[k].phase)
            && (!t.runs[k].phase.Finished? ==> forall answer :: Enabled(t, Step(k, answer)))
            && (Continuations(es, k) == Rank(s.runs[k].phase) ==> t.runs[k].phase.Finished? && HeldByOthers(t, k))
    decreases |es|
  {
    if es == [] {
      if s.runs[k].phase.Finished? {
        EndedRunsHoldNothing(s, k);
      }
    } else {
      StepAdvances(s, k, es[0]);
      hide Next, Inv, HeldByOthers;
      EveryExitReleases(Next(s, es[0]), k, es[1..]);
      if Continuations(es, k) == Rank(s.runs[k].phase) {
        assert Continuations(es[1..], k) == Rank(Next(s, es[0]).runs[k].phase);
      }
    }
  }

  /** A run that is cleaned up holds no key and no run id. */
  lemma EndedRunsHoldNothing(s: Runner, k: nat)
    requires Inv(s) && k < |s.runs| && Released(s.runs[k])
    ensures HeldByOthers(s, k)
  {
    forall key | key in s.activeTargets
      ensures exists i :: 0 <= i < |s.runs| && i != k && !Released(s.runs[i]) && key in s.runs[i].targets
    {
      HeldIff(s.runs, key);
    }
    forall id | id in s.activeRunIds
      ensures exists i :: 0 <= i < |s.runs| && i != k && !Released(s.runs[i]) && s.runs[i].runId == id
    {
      HeldIdsIff(s.runs, id);
    }
  }
}
