/**
 * When a refresh that was requested loses its stale mark before it starts (packages/catalog/src/indexController.ts).
 * Only `runPostgresDatabaseIndex` compares epochs before it calls `publishRegistry`; `runIndex` and
 * `runDdlSynchronization` do not.
 */
module IndexMarks {
  import opened Options
  import opened IndexPublication
  import opened IndexTheorems

  /** A run and a queued refresh carry epochs that have been handed out. */
  ghost predicate Dated(s: Slice) {
    && (s.run.Some? ==> s.run.value.epoch <= s.epoch)
    && (forall job | job in s.queue && job.RefreshDatabase? :: job.epoch <= s.epoch)
  }

  /** Where one answer can take the active run, as far as epochs go. */
  ghost predicate Moves(s: Slice, run: Run, t: Slice) {
    && t.queue == s.queue
    && match t.run
       case None => t.epoch == s.epoch
       case Some(next) =>
         || (t.epoch == s.epoch && next.epoch == run.epoch && next.mode == run.mode && !run.stage.Committed?
             && (next.stage.Committed? ==> run.epoch == s.epoch))
         || (run.mode.Ddl? && !run.stage.Committed? && t.epoch == s.epoch + 1 && next == NewRun(Refresh, t.epoch))
  }

  lemma FailMoves(s: Slice, run: Run)
    requires !run.stage.Committed?
    ensures Moves(s, run, Fail(s, run))
  {}

  lemma RestoredMoves(s: Slice, run: Run)
    requires !run.stage.Committed?
    ensures Moves(s, run, Restored(s, run))
  {
    FailMoves(s.(published := run.previousPublished), run);
    hide Fail;
  }

  lemma RemovedMoves(s: Slice, run: Run, c: Catalog)
    requires !run.stage.Committed?
    ensures Moves(s, run, Removed(s, run, c))
  {
    RestoredMoves(if s.published.Some? then Remove(s, s.published.value) else s, run);
    hide Restored;
  }

  lemma RestoreMoves(s: Slice, run: Run, c: Catalog)
    requires !run.stage.Committed?
    ensures Moves(s, run, Restore(s, run, c)) && Moves(s, run, Replaced(s, run, c))
  {
    RestoredMoves(s, run);
    hide Restored;
  }

  lemma AdvanceMoves(s: Slice, run: Run, reply: Reply)
    requires s.run == Some(run)
    ensures Moves(s, run, Advance(s, run, reply))
  {
    if run.stage.Committed? {
      AnnounceMoves(s, run, run.stage.registry);
      hide Moves, Announce;
      return;
    }
    hide Moves, At, Replaced, Restore, Removed, Restored, Commit, Announce, Fail;
    FailMoves(s, run);
    match run.stage
    case Reading => EarlyMoves(s, run, reply);
    case Connecting(_) => EarlyMoves(s, run, reply);
    case Readying(_) => EarlyMoves(s, run, reply);
    case Queued(_) => EarlyMoves(s, run, reply);
    case Replacing(c) => RestoreMoves(s, run, c);
    case RemovingOld(_, _) => EarlyMoves(s, run, reply);
    case ReadingSymbols(c) =>
      AtMoves(s, run, RestoreQueued(c));
      if reply.Answered? {
        CommitMoves(s, run, c, reply.generation);
      }
    case RestoreQueued(c) => RestoreMoves(s, run, c);
    case RestoreRemoving(c) => RemovedMoves(s, run, c);
    case RestoreReplacing(_) => RestoreReplacedMoves(s, run, reply);
    case RestoreWaiting => RestoreReplacedMoves(s, run, reply);
  }

  lemma EarlyMoves(s: Slice, run: Run, reply: Reply)
    requires run.stage.Reading? || run.stage.Connecting? || run.stage.Readying? || run.stage.Queued? || run.stage.RemovingOld?
    ensures Moves(s, run, Advance(s, run, reply))
  {
    hide Replaced, Restore, Removed, Restored, Commit, Announce;
  }

  lemma RestoreReplacedMoves(s: Slice, run: Run, reply: Reply)
    requires s.run == Some(run) && (run.stage.RestoreReplacing? || run.stage.RestoreWaiting?)
    ensures Moves(s, run, Advance(s, run, reply))
  {
    hide Replaced, Restore, Removed, Restored, Commit, Announce, Fail;
    FailMoves(s, run);
    if run.stage.RestoreReplacing? && run.previous.Some? {
      RestoredMoves(Replace(s, Catalog(run.previous.value.srcset, run.previous.value.content)), run);
    }
    if run.stage.RestoreWaiting? && s.registry.Some? && reply.Answered? {
      FailMoves(s.(registry := Some(s.registry.value.(generation := reply.generation))), run);
    }
  }

  lemma AnnounceMoves(s: Slice, run: Run, registry: Registry)
    ensures Moves(s, run, Announce(s, run, registry))
  {}

  lemma AtMoves(s: Slice, run: Run, stage: Stage)
    requires !run.stage.Committed? && !stage.Committed?
    ensures Moves(s, run, At(s, run, stage))
  {}

  lemma CommitMoves(s: Slice, run: Run, c: Catalog, generation: nat)
    requires !run.stage.Committed?
    ensures Moves(s, run, Commit(s, run, c, generation))
  {}

  lemma DatedStep(s: Slice, e: Event)
    requires Dated(s) && Enabled(s, e)
    ensures Dated(Next(s, e))
  {
    match e
    case Reply(reply) =>
      AdvanceMoves(s, s.run.value, reply);
      hide Advance;
    case StartNext =>
      assert s.queue[0] in s.queue;
    case _ =>
  }

  /** `t` follows from `s` by steps that start no queued run. */
  ghost predicate Continues(s: Slice, es: seq<Event>, t: Slice)
    decreases |es|
  {
    if es == [] then t == s
    else Enabled(s, es[0]) && !es[0].StartNext? && Continues(Next(s, es[0]), es[1..], t)
  }

  ghost predicate Leads(s: Slice, t: Slice) {
    exists es :: Continues(s, es, t)
  }

  lemma LeadsStep(s: Slice, e: Event, t: Slice)
    requires Enabled(s, e) && !e.StartNext? && Leads(Next(s, e), t)
    ensures Leads(s, t)
  {
    var es :| Continues(Next(s, e), es, t);
    assert ([e] + es)[1..] == es;
    assert Continues(s, [e] + es, t);
  }

  lemma LeadsNowhere(s: Slice)
    ensures Leads(s, s)
  {
    assert Continues(s, [], s);
  }

  function Asked(s: Slice): Slice {
    Next(s, RequestRefresh)
  }

  /** A refresh was requested in `s`; in `t` it is still queued, and `e` removes the stale mark. */
  ghost predicate TakesMark(s: Slice, t: Slice, e: Event) {
    Leads(Asked(s), t) && !e.StartNext? && Enabled(t, e) && t.stale && !Next(t, e).stale
  }

  // ----- Who can be active behind the request ----------------------------------------------------

  /** The run that was active at the request. */
  ghost predicate Older(s: Slice, run: Run) {
    && s.run.Some? && run.epoch <= s.epoch && run.mode == s.run.value.mode
    && (run.stage.Committed? || s.run.value.stage.Committed? ==> run.stage == s.run.value.stage)
  }

  /** The full refresh that an incremental run fell back to after the request. */
  ghost predicate Fallback(s: Slice, run: Run) {
    && s.run.Some? && s.run.value.mode.Ddl? && !s.run.value.stage.Committed?
    && run.mode.Refresh? && s.epoch + 1 < run.epoch
  }

  ghost predicate Follows(s: Slice, t: Slice) {
    && s.epoch < t.epoch
    && RefreshDatabase(s.epoch + 1) in t.queue
    && (t.run.Some? ==> Older(s, t.run.value) || Fallback(s, t.run.value))
  }

  lemma AskedFollows(s: Slice)
    requires Dated(s)
    ensures Follows(s, Asked(s))
  {
    assert Asked(s).queue[|s.queue|] == RefreshDatabase(s.epoch + 1);
  }

  lemma FollowsStep(s: Slice, t: Slice, e: Event)
    requires Follows(s, t) && Enabled(t, e) && !e.StartNext?
    ensures Follows(s, Next(t, e))
  {
    match e
    case Reply(reply) => AdvanceFollows(s, t, t.run.value, reply);
    case _ =>
  }

  lemma AdvanceFollows(s: Slice, t: Slice, run: Run, reply: Reply)
    requires Follows(s, t) && t.run == Some(run)
    ensures Follows(s, Advance(t, run, reply))
  {
    AdvanceMoves(t, run, reply);
    hide Advance;
  }

  lemma {:induction false} WaitingFollows(s: Slice, t: Slice, es: seq<Event>, u: Slice)
    requires Follows(s, t) && Continues(t, es, u)
    ensures Follows(s, u)
    decreases |es|
  {
    if es != [] {
      FollowsStep(s, t, es[0]);
      WaitingFollows(s, Next(t, es[0]), es[1..], u);
    }
  }

  lemma {:induction false} WaitingKeeps(s: Slice, es: seq<Event>, t: Slice)
    requires Inv(s) && Continues(s, es, t)
    ensures Inv(t)
    decreases |es|
  {
    if es != [] {
      NextKeeps(s, es[0]);
      WaitingKeeps(Next(s, es[0]), es[1..], t);
    }
  }

  lemma LeadsFollows(s: Slice, t: Slice)
    requires Inv(s) && Dated(s) && Leads(Asked(s), t)
    ensures Inv(t) && Follows(s, t)
  {
    var es :| Continues(Asked(s), es, t);
    NextKeeps(s, RequestRefresh);
    WaitingKeeps(Asked(s), es, t);
    AskedFollows(s);
    WaitingFollows(s, Asked(s), es, t);
  }

  // ----- Every waiting incremental run can fall back and publish -----------------------------------

  /** Letting every awaited call fail brings an incremental run to its fallback; the mark stays until then. */
  lemma {:induction false} FallsBack(t: Slice)
    requires Inv(t) && t.stale && t.run.Some? && t.run.value.mode.Ddl? && !t.run.value.stage.Committed? && t.run.value.epoch < t.epoch
    ensures exists u :: Leads(t, u) && u.stale && u.epoch == t.epoch + 1 && u.run == Some(NewRun(Refresh, u.epoch))
    decreases Rank(t)
  {
    var reply := if t.run.value.stage.RestoreRemoving? || t.run.value.stage.RestoreReplacing? then Answered(Catalog(0, ""), 0) else Failed;
    var next := Next(t, Reply(reply));
    RunsEnd(t, reply);
    NextKeeps(t, Reply(reply));
    DdlStep(t, reply);
    hide Next, Rank, Inv;
    if next.epoch == t.epoch {
      FallsBack(next);
      var u :| Leads(next, u) && u.stale && u.epoch == t.epoch + 1 && u.run == Some(NewRun(Refresh, u.epoch));
      LeadsStep(t, Reply(reply), u);
    } else {
      LeadsNowhere(next);
      LeadsStep(t, Reply(reply), next);
    }
  }

  lemma DdlStep(t: Slice, reply: Reply)
    requires Inv(t) && t.run.Some? && t.run.value.mode.Ddl? && !t.run.value.stage.Committed? && t.run.value.epoch < t.epoch
    requires Enabled(t, Event.Reply(reply)) && (reply.Answered? ==> t.run.value.stage.RestoreRemoving? || t.run.value.stage.RestoreReplacing?)
    ensures var next := Next(t, Event.Reply(reply));
            && next.stale == t.stale && next.run.Some?
            && ((next.epoch == t.epoch && next.run.value.mode.Ddl? && !next.run.value.stage.Committed? && next.run.value.epoch < next.epoch)
                || (next.epoch == t.epoch + 1 && next.run == Some(NewRun(Refresh, next.epoch))))
  {
    match t.run.value.stage
    case Reading => case Connecting(_) => case Readying(_) => case Queued(_) => case Replacing(_) => case RemovingOld(_, _) =>
    case ReadingSymbols(_) => case RestoreQueued(_) => case RestoreRemoving(_) => case RestoreReplacing(_) => case RestoreWaiting =>
  }

  /** A full refresh of the latest epoch that is answered everywhere commits. */
  ghost predicate Promising(t: Slice) {
    && t.stale && t.run.Some? && t.run.value.mode.Refresh? && t.run.value.epoch == t.epoch && !t.run.value.cancelled
    && (match t.run.value.stage
        case RestoreQueued(_) => false case RestoreRemoving(_) => false case RestoreReplacing(_) => false case RestoreWaiting => false
        case _ => true)
  }

  lemma PromisingStep(t: Slice, reply: Reply)
    requires Promising(t) && reply.Answered? && !t.run.value.stage.Committed?
    ensures Promising(Next(t, Event.Reply(reply))) && Next(t, Event.Reply(reply)).epoch == t.epoch
  {
    match t.run.value.stage
    case Reading => case Connecting(_) => case Readying(_) => case Queued(_) => case Replacing(_) => case RemovingOld(_, _) =>
    case ReadingSymbols(_) =>
  }

  lemma {:induction false} Publishes(t: Slice)
    requires Inv(t) && Promising(t)
    ensures exists u :: Leads(t, u) && Promising(u) && u.run.value.stage.Committed?
    decreases Rank(t)
  {
    if t.run.value.stage.Committed? {
      LeadsNowhere(t);
    } else {
      var reply := Answered(Catalog(0, ""), 0);
      var next := Next(t, Reply(reply));
      RunsEnd(t, reply);
      NextKeeps(t, Reply(reply));
      PromisingStep(t, reply);
      hide Next, Rank, Inv, Promising;
      Publishes(next);
      var u :| Leads(next, u) && Promising(u) && u.run.value.stage.Committed?;
      LeadsStep(t, Reply(reply), u);
    }
  }

  lemma {:induction false} ContinuesOn(s: Slice, es: seq<Event>, t: Slice, u: Slice)
    requires Continues(s, es, t) && Leads(t, u)
    ensures Leads(s, u)
    decreases |es|
  {
    if es != [] {
      ContinuesOn(Next(s, es[0]), es[1..], t, u);
      LeadsStep(s, es[0], u);
    }
  }

  lemma CommittedRefreshTakes(t: Slice)
    requires Promising(t) && t.run.value.stage.Committed?
    ensures Enabled(t, Event.Reply(Failed)) && t.stale && !Next(t, Event.Reply(Failed)).stale
  {}

  lemma FallbackStarts(s: Slice) returns (u: Slice)
    requires Inv(s) && Dated(s) && s.run.Some? && s.run.value.mode.Ddl? && !s.run.value.stage.Committed?
    ensures Leads(Asked(s), u) && Inv(u) && Promising(u)
  {
    NextKeeps(s, RequestRefresh);
    FallsBack(Asked(s));
    u :| Leads(Asked(s), u) && u.stale && u.epoch == Asked(s).epoch + 1 && u.run == Some(NewRun(Refresh, u.epoch));
    hide Inv;
    LeadsFollows(s, u);
  }

  lemma FallbackTakesMark(s: Slice)
    requires Inv(s) && Dated(s) && s.run.Some? && s.run.value.mode.Ddl? && !s.run.value.stage.Committed?
    ensures exists t, e :: TakesMark(s, t, e)
  {
    var asked := Asked(s);
    var u := FallbackStarts(s);
    hide Inv, Next, Continues, Promising, Dated;
    Publishes(u);
    var t :| Leads(u, t) && Promising(t) && t.run.value.stage.Committed?;
    var es :| Continues(asked, es, u);
    ContinuesOn(asked, es, u, t);
    CommittedRefreshTakes(t);
    assert TakesMark(s, t, Reply(Failed));
  }

  // ----- The theorems ------------------------------------------------------------------------------

  /** Who removes the mark: the run that had committed before the request, or the fallback of an incremental one. */
  lemma WhoTakesTheMark(s: Slice, t: Slice, e: Event)
    requires Inv(s) && Dated(s) && TakesMark(s, t, e)
    ensures s.run.Some? && t.run.Some? && RefreshDatabase(s.epoch + 1) in Next(t, e).queue
    ensures || (s.run.value.stage.Committed? && !s.run.value.mode.Refresh? && t.run.value.epoch <= s.epoch
                && Next(t, e).registry == Some(s.run.value.stage.registry))
            || (Fallback(s, t.run.value) && t.run.value.epoch == t.epoch)
  {
    LeadsFollows(s, t);
    StaleMarkRemoval(t, e);
    hide Inv;
  }

  /** Once it has committed, such a run takes the mark with its next answer, whatever happens before that. */
  lemma CommittedRunTakesTheMark(s: Slice, t: Slice, reply: Reply)
    requires Inv(s) && Dated(s) && s.run.Some? && s.run.value.stage.Committed? && !s.run.value.mode.Refresh?
    requires Leads(Asked(s), t) && t.run.Some?
    ensures Enabled(t, Event.Reply(reply))
    ensures var u := Next(t, Event.Reply(reply));
            && !u.stale && u.run.None? && u.registry == Some(s.run.value.stage.registry)
            && RefreshDatabase(s.epoch + 1) in u.queue
  {
    LeadsFollows(s, t);
    hide Inv;
  }

  /**
   * A requested refresh can lose its mark before it starts exactly when the active run is incremental, or
   * is a run of `runIndex` that has committed.
   */
  lemma MarkIsTakenIff(s: Slice)
    requires Inv(s) && Dated(s)
    ensures (exists t, e :: TakesMark(s, t, e))
            <==> s.run.Some? && (s.run.value.mode.Ddl? || (s.run.value.mode.Plain? && s.run.value.stage.Committed?))
  {
    if t, e :| TakesMark(s, t, e) {
      WhoTakesTheMark(s, t, e);
    }
    if s.run.Some? && !s.run.value.mode.Refresh? && s.run.value.stage.Committed? {
      LeadsNowhere(Asked(s));
      CommittedRunTakesTheMark(s, Asked(s), Failed);
      assert TakesMark(s, Asked(s), Reply(Failed));
    } else if s.run.Some? && s.run.value.mode.Ddl? {
      FallbackTakesMark(s);
    }
  }

  /** Taken by a run older than the request, whose catalog was read before it. */
  ghost predicate TakenByOlder(s: Slice, t: Slice, e: Event) {
    TakesMark(s, t, e) && t.run.Some? && t.run.value.epoch <= s.epoch
  }

  /**
   * The mark is lost to an outdated catalog exactly when a run other than a full refresh has committed at
   * the request; a fallback that takes it is newer than the refresh that waits.
   */
  lemma OlderRunTakesMarkIff(s: Slice)
    requires Inv(s) && Dated(s)
    ensures (exists t, e :: TakenByOlder(s, t, e))
            <==> s.run.Some? && s.run.value.stage.Committed? && !s.run.value.mode.Refresh?
  {
    if t, e :| TakenByOlder(s, t, e) {
      WhoTakesTheMark(s, t, e);
    }
    if s.run.Some? && !s.run.value.mode.Refresh? && s.run.value.stage.Committed? {
      LeadsNowhere(Asked(s));
      CommittedRunTakesTheMark(s, Asked(s), Failed);
      assert TakenByOlder(s, Asked(s), Reply(Failed));
    }
  }

  // ----- The states of a scope ---------------------------------------------------------------------

  ghost predicate Reachable(s: Slice) {
    exists es :: Possible(Empty, es) && After(Empty, es) == s
  }

  lemma {:induction false} OneStepFurther(s: Slice, es: seq<Event>, e: Event)
    requires Possible(s, es) && Enabled(After(s, es), e)
    ensures Possible(s, es + [e]) && After(s, es + [e]) == Next(After(s, es), e)
    decreases |es|
  {
    if es == [] {
      assert [] + [e] == [e] && [e][1..] == [];
    } else {
      assert (es + [e])[1..] == es[1..] + [e];
      OneStepFurther(Next(s, es[0]), es[1..], e);
    }
  }

  lemma ReachNext(s: Slice, e: Event)
    requires Reachable(s) && Enabled(s, e)
    ensures Reachable(Next(s, e))
  {
    var es :| Possible(Empty, es) && After(Empty, es) == s;
    OneStepFurther(Empty, es, e);
    assert Possible(Empty, es + [e]);
  }

  /** The theorems hold of every state a scope can be in. */
  lemma {:induction false} ReachableHolds(s: Slice, es: seq<Event>)
    requires Inv(s) && Dated(s) && Possible(s, es)
    ensures Inv(After(s, es)) && Dated(After(s, es))
    decreases |es|
  {
    if es != [] {
      NextKeeps(s, es[0]);
      DatedStep(s, es[0]);
      ReachableHolds(Next(s, es[0]), es[1..]);
    }
  }

  const Answer := Event.Reply(Answered(Catalog(0, "new"), 1))

  /** Six answers take a run of a connected scope from its start to its commit. */
  lemma SixAnswers(s: Slice) returns (t: Slice)
    requires Reachable(s) && s.connected && s.run.Some? && s.run.value.stage.Reading? && !s.run.value.cancelled
    requires s.run.value.epoch == s.epoch && (s.published.Some? ==> s.published.value == 0)
    ensures Reachable(t) && t.run.Some? && t.run.value.stage.Committed? && t.run.value.mode == s.run.value.mode
    ensures t.epoch == s.epoch && t.queue == s.queue && t.published == Some(0) && t.connected
  {
    var s1, s2, s3 := Next(s, Answer), Next(Next(s, Answer), Answer), Next(Next(Next(s, Answer), Answer), Answer);
    ReachNext(s, Answer);
    ReachNext(s1, Answer);
    ReachNext(s2, Answer);
    assert s3.run == Some(s.run.value.(previous := s.registry, previousPublished := s.published, stage := Queued(Catalog(0, "new"))));
    var s4, s5 := Next(s3, Answer), Next(Next(s3, Answer), Answer);
    ReachNext(s3, Answer);
    ReachNext(s4, Answer);
    t := Next(s5, Answer);
    ReachNext(s5, Answer);
  }

  lemma PlainCommits() returns (s: Slice)
    ensures Reachable(s) && s.run.Some? && s.run.value.mode.Plain? && s.run.value.stage.Committed?
    ensures s.queue == [] && s.connected && s.published == Some(0)
  {
    assert Possible(Empty, []) && After(Empty, []) == Empty;
    var up := Next(Empty, Connection(true));
    ReachNext(Empty, Connection(true));
    var asked := Next(up, Request(IndexDatabase));
    ReachNext(up, Request(IndexDatabase));
    ReachNext(asked, StartNext);
    s := SixAnswers(Next(asked, StartNext));
  }

  lemma DdlCommits() returns (s: Slice)
    ensures Reachable(s) && s.run.Some? && s.run.value.mode.Ddl? && s.run.value.stage.Committed?
  {
    var first := PlainCommits();
    var done := Next(first, Answer);
    ReachNext(first, Answer);
    var asked := Next(done, Request(SynchronizeDdl(false)));
    ReachNext(done, Request(SynchronizeDdl(false)));
    assert asked.queue == [SynchronizeDdl(false)];
    ReachNext(asked, StartNext);
    s := SixAnswers(Next(asked, StartNext));
  }

  /** Both kinds of run can be found in that state, from an empty scope: a full run, and an incremental one. */
  lemma OlderRunsOccur(mode: Mode) returns (s: Slice, t: Slice, e: Event)
    requires !mode.Refresh?
    ensures Reachable(s) && s.run.Some? && s.run.value.mode == mode && TakenByOlder(s, t, e)
  {
    if mode.Plain? {
      s := PlainCommits();
    } else {
      s := DdlCommits();
    }
    var es :| Possible(Empty, es) && After(Empty, es) == s;
    InitialHolds();
    ReachableHolds(Empty, es);
    OlderRunTakesMarkIff(s);
    t, e :| TakenByOlder(s, t, e);
  }
}
