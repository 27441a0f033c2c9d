/** What publication guarantees, over every scope and every interleaving of their runs. */
module IndexTheorems {
  import opened Options
  import opened IndexPublication

  // ----- One scope -----------------------------------------------------------------------------

  ghost predicate Possible(s: Slice, es: seq<Event>)
    decreases |es|
  {
    es == [] || (Enabled(s, es[0]) && Possible(Next(s, es[0]), es[1..]))
  }

  function After(s: Slice, es: seq<Event>): Slice
    requires Possible(s, es)
    decreases |es|
  {
    if es == [] then s else After(Next(s, es[0]), es[1..])
  }

  lemma {:induction false} AlwaysInv(s: Slice, es: seq<Event>)
    requires Inv(s) && Possible(s, es)
    ensures Inv(After(s, es))
    decreases |es|
  {
    if es != [] {
      NextKeeps(s, es[0]);
      AlwaysInv(Next(s, es[0]), es[1..]);
    }
  }

  /** The same registry, whatever generation the daemon counts. */
  predicate SameRegistry(a: Option<Registry>, b: Option<Registry>) {
    match a
    case None => b.None?
    case Some(r) => b.Some? && b.value.id == r.id && b.value.srcset == r.srcset && b.value.content == r.content
  }

  /** `registries` is overwritten only by a run that is current and not cancelled, in the step that checked it. */
  lemma OnlyCurrentRunsOverwrite(s: Slice, e: Event)
    requires Inv(s) && Enabled(s, e)
    ensures SameRegistry(s.registry, Next(s, e).registry)
            || (&& e.Reply? && e.reply.Answered? && s.run.value.stage.ReadingSymbols?
                && s.run.value.epoch == s.epoch && !s.run.value.cancelled && (s.run.value.mode.Plain? ==> s.connected)
                && Next(s, e).registry.Some? && Next(s, e).registry.value.content == s.run.value.stage.catalog.content
                && Next(s, e).registry.value.srcset == s.run.value.stage.catalog.srcset
                && Next(s, e).registry.value.generation == e.reply.generation && Next(s, e).registry.value.id == s.nextId
                && Next(s, e).run.Some? && Next(s, e).run.value.stage.Committed?)
  {
    match e
    case Reply(reply) =>
      if s.run.value.stage.Committed? {
        assert s.registry == Some(s.run.value.stage.registry);
      } else {
        OthersKeepRegistry(s, s.run.value, reply);
      }
    case _ =>
  }

  lemma OthersKeepRegistry(s: Slice, run: Run, reply: Reply)
    requires s.run == Some(run) && !run.stage.Committed?
    ensures var t := Advance(s, run, reply);
            SameRegistry(s.registry, t.registry)
            || (reply.Answered? && run.stage.ReadingSymbols? && run.epoch == s.epoch && !run.cancelled
                && (run.mode.Plain? ==> s.connected)
                && t.registry.Some? && t.registry.value.content == run.stage.catalog.content
                && t.registry.value.srcset == run.stage.catalog.srcset
                && t.registry.value.generation == reply.generation && t.registry.value.id == s.nextId
                && t.run.Some? && t.run.value.stage.Committed?)
  {
    FailKeeps(s, run);
    hide Replaced, Restore, Removed, Restored, Commit, Fail;
    match run.stage
    case ReadingSymbols(c) =>
      if reply.Answered? {
        CommitRegisters(s, run, c, reply.generation);
      }
    case Replacing(c) => HelpersKeep(s, run, c);
    case RestoreQueued(c) => HelpersKeep(s, run, c);
    case RestoreRemoving(c) => HelpersKeep(s, run, c);
    case RestoreReplacing(c) =>
      if run.previous.Some? {
        HelpersKeep(Replace(s, Catalog(run.previous.value.srcset, run.previous.value.content)), run, c);
      }
    case RestoreWaiting =>
      if s.registry.Some? && reply.Answered? {
        FailKeeps(s.(registry := Some(s.registry.value.(generation := reply.generation))), run);
      }
    case _ =>
  }

  lemma CommitRegisters(s: Slice, run: Run, c: Catalog, generation: nat)
    ensures var t := Commit(s, run, c, generation);
            SameRegistry(s.registry, t.registry)
            || (run.epoch == s.epoch && !run.cancelled && (run.mode.Plain? ==> s.connected)
                && t.registry == Some(Registry(s.nextId, c.srcset, c.content, generation)) && t.run.Some? && t.run.value.stage.Committed?)
  {}

  lemma FailKeeps(s: Slice, run: Run)
    ensures Fail(s, run).registry == s.registry
  {}

  lemma HelpersKeep(s: Slice, run: Run, c: Catalog)
    ensures Restored(s, run).registry == s.registry && Removed(s, run, c).registry == s.registry
    ensures Restore(s, run, c).registry == s.registry && Replaced(s, run, c).registry == s.registry
  {}

  /** The registry changes only with an answer of the daemon, and then has the generation the daemon answered. */
  lemma GenerationIsAnswered(s: Slice, e: Event)
    requires Inv(s) && Enabled(s, e)
    ensures Next(s, e).registry == s.registry
            || (e.Reply? && e.reply.Answered? && Next(s, e).registry.Some? && Next(s, e).registry.value.generation == e.reply.generation)
  {
    if e.Reply? {
      var run := s.run.value;
      if run.stage.Committed? {
        assert s.registry == Some(run.stage.registry);
        hide Inv;
      } else {
        AnswerGivesGeneration(s, run, e.reply);
        hide Inv, Advance;
      }
    }
  }

  lemma AnswerGivesGeneration(s: Slice, run: Run, reply: Reply)
    requires s.run == Some(run) && !run.stage.Committed?
    ensures var t := Advance(s, run, reply);
            t.registry == s.registry || (reply.Answered? && t.registry.Some? && t.registry.value.generation == reply.generation)
  {
    hide Replaced, Restore, Removed, Restored, Commit, Fail;
    FailKeeps(s, run);
    match run.stage
    case ReadingSymbols(c) =>
      if reply.Answered? {
        CommitGivesGeneration(s, run, c, reply.generation);
      }
    case Replacing(c) => HelpersKeep(s, run, c);
    case RestoreQueued(c) => HelpersKeep(s, run, c);
    case RestoreRemoving(c) => HelpersKeep(s, run, c);
    case RestoreReplacing(c) =>
      if run.previous.Some? {
        HelpersKeep(Replace(s, Catalog(run.previous.value.srcset, run.previous.value.content)), run, c);
      }
    case RestoreWaiting =>
      if s.registry.Some? && reply.Answered? {
        FailKeeps(s.(registry := Some(s.registry.value.(generation := reply.generation))), run);
      }
    case _ =>
  }

  lemma CommitGivesGeneration(s: Slice, run: Run, c: Catalog, generation: nat)
    ensures var t := Commit(s, run, c, generation);
            t.registry == s.registry || (t.registry.Some? && t.registry.value.generation == generation)
  {}

  // ----- Cancelled runs ------------------------------------------------------------------------

  /** The active run is cancelled and has not committed. */
  ghost predicate Doomed(s: Slice) {
    s.run.Some? ==> s.run.value.cancelled && !s.run.value.mode.Ddl? && !s.run.value.stage.Committed?
  }

  lemma DoomedAdvance(s: Slice, run: Run, reply: Reply)
    requires s.run == Some(run) && Doomed(s)
    ensures Doomed(Advance(s, run, reply))
  {
    match run.stage
    case Replacing(c) => hide Fail;
    case RestoreQueued(c) =>
    case RestoreRemoving(c) => hide Restore;
    case RestoreReplacing(c) =>
    case RestoreWaiting =>
    case _ =>
      hide Restored, Removed, Restore, Replaced;
  }

  lemma DoomedStep(s: Slice, e: Event)
    requires Inv(s) && Doomed(s) && Enabled(s, e) && !e.StartNext?
    ensures Doomed(Next(s, e)) && SameRegistry(s.registry, Next(s, e).registry)
  {
    OnlyCurrentRunsOverwrite(s, e);
    if e.Reply? && s.run.Some? {
      DoomedAdvance(s, s.run.value, e.reply);
    }
    hide Inv, Advance, SameRegistry;
  }

  lemma {:induction false} DoomedRunsAreSilent(s: Slice, es: seq<Event>)
    requires Inv(s) && Doomed(s) && Possible(s, es)
    requires forall i :: 0 <= i < |es| ==> !es[i].StartNext?
    ensures SameRegistry(s.registry, After(s, es).registry)
    decreases |es|
  {
    if es != [] {
      DoomedStep(s, es[0]);
      NextKeeps(s, es[0]);
      assert forall i :: 0 <= i < |es[1..]| ==> es[1..][i] == es[i + 1];
      DoomedRunsAreSilent(Next(s, es[0]), es[1..]);
    }
  }

  /** A full run that is cancelled before it commits never overwrites `registries`, whatever happens until it ends. */
  lemma CancelledRunsAreSilent(s: Slice, es: seq<Event>)
    requires Inv(s) && s.run.Some? && !s.run.value.mode.Ddl? && !s.run.value.stage.Committed?
    requires Possible(Next(s, Cancel), es) && forall i :: 0 <= i < |es| ==> !es[i].StartNext?
    ensures SameRegistry(s.registry, After(Next(s, Cancel), es).registry)
  {
    NextKeeps(s, Cancel);
    hide Inv;
    DoomedRunsAreSilent(Next(s, Cancel), es);
  }

  // ----- Overtaken runs ------------------------------------------------------------------------

  /** A run other than the incremental one, that may still commit and is behind the scope's epoch. */
  ghost predicate Overtaken(s: Slice) {
    s.run.Some? ==> s.run.value.epoch < s.epoch && !s.run.value.mode.Ddl? && !s.run.value.stage.Committed?
  }

  lemma OvertakenStep(s: Slice, e: Event)
    requires Inv(s) && Overtaken(s) && Enabled(s, e) && !e.StartNext?
    ensures Overtaken(Next(s, e)) && SameRegistry(s.registry, Next(s, e).registry)
  {
    OnlyCurrentRunsOverwrite(s, e);
    if e.Reply? && s.run.Some? {
      AdvanceOvertaken(s, s.run.value, e.reply);
    }
    hide Inv, Advance, SameRegistry;
  }

  lemma AdvanceOvertaken(s: Slice, run: Run, reply: Reply)
    requires s.run == Some(run) && Overtaken(s)
    ensures Overtaken(Advance(s, run, reply))
  {
    match run.stage
    case Replacing(c) => hide Fail;
    case RestoreQueued(c) =>
    case RestoreRemoving(c) => hide Restore;
    case RestoreReplacing(c) =>
    case RestoreWaiting =>
    case _ =>
      hide Restored, Removed, Restore, Replaced;
  }

  /** Once overtaken by a newer refresh epoch, a run never overwrites `registries`, whatever happens until it ends. */
  lemma {:induction false} OvertakenRunsAreSilent(s: Slice, es: seq<Event>)
    requires Inv(s) && Overtaken(s) && Possible(s, es)
    requires forall i :: 0 <= i < |es| ==> !es[i].StartNext?
    ensures SameRegistry(s.registry, After(s, es).registry)
    decreases |es|
  {
    if es != [] {
      OvertakenStep(s, es[0]);
      NextKeeps(s, es[0]);
      assert forall i :: 0 <= i < |es[1..]| ==> es[1..][i] == es[i + 1];
      OvertakenRunsAreSilent(Next(s, es[0]), es[1..]);
    }
  }

  /** A full refresh removes the stale mark only while its epoch is the scope's latest. */
  lemma StaleMarkRemoval(s: Slice, e: Event)
    requires Inv(s) && Enabled(s, e) && s.stale && !Next(s, e).stale
    ensures e.Reply? && s.run.Some? && s.run.value.stage.Committed?
    ensures s.run.value.mode.Refresh? ==> s.run.value.epoch == s.epoch
    ensures Next(s, e).registry == Some(s.run.value.stage.registry)
  {
    if e.Reply? && !s.run.value.stage.Committed? {
      OthersKeepMark(s, s.run.value, e.reply);
    }
    hide Inv, Fail, Restored, Removed, Restore, Replaced, Commit;
  }

  lemma OthersKeepMark(s: Slice, run: Run, reply: Reply)
    requires s.run == Some(run) && !run.stage.Committed?
    ensures Advance(s, run, reply).stale == s.stale
  {
    match run.stage
    case Replacing(c) => hide Fail;
    case RestoreQueued(c) => RestoringKeepsMark(s, run, c);
    case RestoreRemoving(c) => RestoringKeepsMark(s, run, c);
    case RestoreReplacing(c) =>
      if run.previous.Some? {
        RestoringKeepsMark(Replace(s, Catalog(run.previous.value.srcset, run.previous.value.content)), run, c);
      }
    case RestoreWaiting =>
    case _ =>
      hide Restored, Removed, Restore, Replaced;
  }

  lemma RestoringKeepsMark(s: Slice, run: Run, c: Catalog)
    ensures Restored(s, run).stale == s.stale && Removed(s, run, c).stale == s.stale && Restore(s, run, c).stale == s.stale
  {}

  // ----- Rollback --------------------------------------------------------------------------------

  /** No state on the way has committed. */
  ghost predicate NeverCommits(s: Slice, es: seq<Event>)
    requires Possible(s, es)
    decreases |es|
  {
    && (s.run.Some? ==> !s.run.value.stage.Committed?)
    && (es != [] ==> !es[0].StartNext? && NeverCommits(Next(s, es[0]), es[1..]))
  }

  lemma InSyncAgree(s: Slice, t: Slice)
    requires InSync(s) && InSync(t) && SameRegistry(s.registry, t.registry)
    ensures s.daemon == t.daemon && s.published == t.published
  {}

  /**
   * Whatever step of a run fails or is cancelled, when it ends without having committed the daemon's
   * source set and the published entry are what they were when it began.
   */
  lemma {:induction false} FailedRunsRestore(s: Slice, es: seq<Event>)
    requires Inv(s) && Possible(s, es) && NeverCommits(s, es)
    ensures SameRegistry(s.registry, After(s, es).registry)
    ensures InSync(s) && After(s, es).run.None? ==> After(s, es).daemon == s.daemon && After(s, es).published == s.published
    decreases |es|
  {
    AlwaysInv(s, es);
    if es != [] {
      OnlyCurrentRunsOverwrite(s, es[0]);
      NextKeeps(s, es[0]);
      FailedRunsRestore(Next(s, es[0]), es[1..]);
    }
    if InSync(s) && After(s, es).run.None? {
      InSyncAgree(s, After(s, es));
    }
  }

  // ----- Runs end ----------------------------------------------------------------------------------

  function StageRank(stage: Stage): nat {
    match stage
    case Reading => 11 case Connecting(_) => 10 case Readying(_) => 9 case Queued(_) => 8 case Replacing(_) => 7
    case RemovingOld(_, _) => 6 case ReadingSymbols(_) => 5
    case RestoreQueued(_) => 4 case RestoreRemoving(_) => 3 case RestoreReplacing(_) => 2
    case RestoreWaiting => 1 case Committed(_) => 1
  }

  /** How many answers a run can still wait for. */
  function Rank(s: Slice): nat {
    match s.run
    case None => 0
    case Some(run) => StageRank(run.stage) + (if run.mode.Ddl? then 20 else 0)
  }

  /** Each answer brings a run nearer its end: every run ends, and ends within a fixed number of answers. */
  lemma RunsEnd(s: Slice, reply: Reply)
    requires Inv(s) && Enabled(s, Event.Reply(reply))
    ensures Rank(Next(s, Event.Reply(reply))) < Rank(s)
  {
    var run := s.run.value;
    if run.stage.RestoreReplacing? {
      assert run.previous.Some?;
    }
    StepRank(s, run, reply);
  }

  lemma StepRank(s: Slice, run: Run, reply: Reply)
    requires s.run == Some(run) && (run.stage.RestoreReplacing? ==> run.previous.Some?)
    ensures Rank(Advance(s, run, reply)) < Rank(s)
  {
    FailRank(s, run);
    hide Replaced, Restore, Removed, Restored, Commit, Announce, Fail;
    match run.stage
    case Replacing(c) => ReplacedRank(s, run, c);
    case RestoreQueued(c) => RestoreRank(s, run, c);
    case RestoreRemoving(c) => RemovedRank(s, run, c);
    case RestoreReplacing(c) => RestoredRank(Replace(s, Catalog(run.previous.value.srcset, run.previous.value.content)), run);
    case RestoreWaiting =>
      if s.registry.Some? && reply.Answered? {
        FailRank(s.(registry := Some(s.registry.value.(generation := reply.generation))), run);
      }
    case Committed(registry) => AnnouncedRank(s, run, registry);
    case ReadingSymbols(c) =>
      if reply.Answered? {
        CommitRank(s, run, c, reply.generation);
      }
    case _ =>
  }

  lemma CommitRank(s: Slice, run: Run, c: Catalog, generation: nat)
    requires run.stage.ReadingSymbols?
    ensures Rank(Commit(s, run, c, generation)) <= 4 + if run.mode.Ddl? then 20 else 0
  {
    hide IsCurrent;
  }

  lemma AnnouncedRank(s: Slice, run: Run, registry: Registry)
    ensures Rank(Announce(s, run, registry)) == 0
  {}

  lemma FailRank(s: Slice, run: Run)
    ensures Rank(Fail(s, run)) == if run.mode.Ddl? then 11 else 0
  {}

  lemma RestoredRank(s: Slice, run: Run)
    ensures Rank(Restored(s, run)) <= 1 + if run.mode.Ddl? then 20 else 0
  {
    FailRank(s.(published := run.previousPublished), run);
    hide Fail;
  }

  lemma RemovedRank(s: Slice, run: Run, c: Catalog)
    ensures Rank(Removed(s, run, c)) <= 2 + if run.mode.Ddl? then 20 else 0
  {
    RestoredRank(if s.published.Some? then Remove(s, s.published.value) else s, run);
    hide Restored;
  }

  lemma RestoreRank(s: Slice, run: Run, c: Catalog)
    ensures Rank(Restore(s, run, c)) <= 3 + if run.mode.Ddl? then 20 else 0
  {
    RestoredRank(s, run);
    hide Restored;
  }

  lemma ReplacedRank(s: Slice, run: Run, c: Catalog)
    ensures Rank(Replaced(s, run, c)) <= 6 + if run.mode.Ddl? then 20 else 0
  {}

  // ----- The authoring snapshot cache --------------------------------------------------------------

  /** The cache is transparent: the answer is always what a fresh build of the current registry gives. */
  lemma AuthoringSnapshotIsFresh(s: Slice)
    requires Inv(s)
    ensures AuthoringSnapshot(s).0.Some? <==> s.registry.Some?
    ensures AuthoringSnapshot(s).0.Some? ==>
              && AuthoringSnapshot(s).0.value.content == s.registry.value.content
              && AuthoringSnapshot(s).0.value.generation == s.registry.value.generation
              && (AuthoringSnapshot(s).0.value.status.Stale? <==> s.stale)
    ensures Inv(AuthoringSnapshot(s).1)
  {
    NextKeeps(s, Authored);
  }

  // ----- All scopes --------------------------------------------------------------------------------

  /** Every scope's slice, and `sourceMutation`: the scopes that hold or await the lock, first the holder. */
  datatype World = World(slices: map<string, Slice>, mutations: seq<string>)

  function SliceOf(w: World, scope: string): Slice {
    if scope in w.slices then w.slices[scope] else Empty
  }

  predicate Waits(s: Slice) {
    s.run.Some? && (s.run.value.stage.Queued? || s.run.value.stage.RestoreQueued?)
  }

  predicate Holds(s: Slice) {
    s.run.Some? && (|| s.run.value.stage.Replacing? || s.run.value.stage.RemovingOld?
                    || s.run.value.stage.RestoreRemoving? || s.run.value.stage.RestoreReplacing?)
  }

  /** The lock's queue after a step of its scope: it may leave the front, and it may join the end. */
  function Mutations(mutations: seq<string>, scope: string, before: Slice, after: Slice): seq<string> {
    var left :=
      if mutations != [] && mutations[0] == scope && !Holds(after) && (Holds(before) || !Waits(after)) then mutations[1..] else mutations;
    if Waits(after) && !Waits(before) then left + [scope] else left
  }

  /** A run that waits for the lock continues only when it is its turn. */
  predicate WorldEnabled(w: World, scope: string, e: Event) {
    && Enabled(SliceOf(w, scope), e)
    && (e.Reply? && Waits(SliceOf(w, scope)) ==> w.mutations != [] && w.mutations[0] == scope)
  }

  function WorldNext(w: World, scope: string, e: Event): World
    requires WorldEnabled(w, scope, e)
  {
    var before := SliceOf(w, scope);
    var after := Next(before, e);
    World(w.slices[scope := after], Mutations(w.mutations, scope, before, after))
  }

  ghost predicate LockHolds(w: World) {
    && (forall i, j :: 0 <= i < j < |w.mutations| ==> w.mutations[i] != w.mutations[j])
    && (forall x :: x in w.mutations <==> Waits(SliceOf(w, x)) || Holds(SliceOf(w, x)))
    && (forall x :: Holds(SliceOf(w, x)) ==> w.mutations != [] && w.mutations[0] == x)
  }

  ghost predicate WorldInv(w: World) {
    && (forall x :: Inv(SliceOf(w, x)))
    && LockHolds(w)
  }

  /** How one step of a slice may move it with respect to the lock. */
  lemma LockMoves(s: Slice, e: Event)
    requires Enabled(s, e)
    ensures !e.Reply? && !e.StartNext? ==> (Waits(Next(s, e)) <==> Waits(s)) && (Holds(Next(s, e)) <==> Holds(s))
    ensures e.StartNext? ==> !Waits(s) && !Holds(s) && !Waits(Next(s, e)) && !Holds(Next(s, e))
    ensures Holds(Next(s, e)) ==> Holds(s) || Waits(s)
    ensures e.Reply? && Waits(s) ==> !Waits(Next(s, e))
  {
    if e.Reply? {
      AdvanceLock(s, s.run.value, e.reply);
      hide Advance;
    }
  }

  lemma AdvanceLock(s: Slice, run: Run, reply: Reply)
    requires s.run == Some(run)
    ensures Holds(Advance(s, run, reply)) ==> Holds(s) || Waits(s)
    ensures Waits(s) ==> !Waits(Advance(s, run, reply))
  {
    FailLock(s, run);
    RestoredLock(s, run);
    hide Replaced, Restore, Removed, Restored, Commit, Announce, Fail;
    match run.stage
    case RestoreQueued(c) => RestoreLock(s, run, c);
    case RestoreWaiting =>
      if s.registry.Some? && reply.Answered? {
        FailLock(s.(registry := Some(s.registry.value.(generation := reply.generation))), run);
      }
    case ReadingSymbols(c) =>
      if reply.Answered? {
        CommitLock(s, run, c, reply.generation);
      }
    case Committed(registry) => AnnounceLock(s, run, registry);
    case _ =>
  }

  lemma RestoreLock(s: Slice, run: Run, c: Catalog)
    ensures !Waits(Restore(s, run, c))
  {
    RestoredLock(s, run);
    hide Restored;
  }

  lemma CommitLock(s: Slice, run: Run, c: Catalog, generation: nat)
    ensures !Holds(Commit(s, run, c, generation))
  {
    hide IsCurrent;
  }

  lemma AnnounceLock(s: Slice, run: Run, registry: Registry)
    ensures !Holds(Announce(s, run, registry))
  {}

  lemma FailLock(s: Slice, run: Run)
    ensures !Holds(Fail(s, run)) && !Waits(Fail(s, run))
  {}

  lemma RestoredLock(s: Slice, run: Run)
    ensures !Holds(Restored(s, run)) && !Waits(Restored(s, run))
  {
    FailLock(s.(published := run.previousPublished), run);
    hide Fail;
  }

  lemma LockStep(mutations: seq<string>, scope: string, before: Slice, after: Slice)
    requires forall i, j :: 0 <= i < j < |mutations| ==> mutations[i] != mutations[j]
    requires scope in mutations <==> Waits(before) || Holds(before)
    requires Holds(before) ==> mutations != [] && mutations[0] == scope
    requires Holds(after) ==> Holds(before) || Waits(before)
    requires Waits(before) ==> (Waits(after) && !Holds(after)) || (mutations[0] == scope && !Waits(after))
    requires !Waits(before) && !Holds(before) ==> !Holds(after)
    ensures var m := Mutations(mutations, scope, before, after);
            && (forall i, j :: 0 <= i < j < |m| ==> m[i] != m[j])
            && (scope in m <==> Waits(after) || Holds(after))
            && (Holds(after) ==> m != [] && m[0] == scope)
            && (forall x :: x != scope ==> (x in m <==> x in mutations))
            && (mutations != [] && mutations[0] != scope ==> m != [] && m[0] == mutations[0])
  {
    if mutations != [] {
      assert mutations == [mutations[0]] + mutations[1..];
    }
    hide Waits, Holds;
  }

  lemma WorldNextKeeps(w: World, scope: string, e: Event)
    requires WorldInv(w) && WorldEnabled(w, scope, e)
    ensures WorldInv(WorldNext(w, scope, e))
  {
    var before := SliceOf(w, scope);
    var after := Next(before, e);
    var n := WorldNext(w, scope, e);
    NextKeeps(before, e);
    LockMoves(before, e);
    hide Inv, Next, Waits, Holds;
    LockStep(w.mutations, scope, before, after);
    forall x ensures SliceOf(n, x) == if x == scope then after else SliceOf(w, x) {}
    hide Mutations;
    assert LockHolds(n) by {
      forall x ensures x in n.mutations <==> Waits(SliceOf(n, x)) || Holds(SliceOf(n, x)) {}
      forall x | Holds(SliceOf(n, x)) ensures n.mutations != [] && n.mutations[0] == x {
        if x != scope {
          assert Holds(SliceOf(w, x));
        }
      }
    }
  }

  datatype Step = Step(scope: string, event: Event)

  ghost predicate WorldPossible(w: World, steps: seq<Step>)
    decreases |steps|
  {
    steps == [] || (WorldEnabled(w, steps[0].scope, steps[0].event)
                    && WorldPossible(WorldNext(w, steps[0].scope, steps[0].event), steps[1..]))
  }

  function WorldAfter(w: World, steps: seq<Step>): World
    requires WorldPossible(w, steps)
    decreases |steps|
  {
    if steps == [] then w else WorldAfter(WorldNext(w, steps[0].scope, steps[0].event), steps[1..])
  }

  lemma {:induction false} WorldAlwaysInv(w: World, steps: seq<Step>)
    requires WorldInv(w) && WorldPossible(w, steps)
    ensures WorldInv(WorldAfter(w, steps))
    decreases |steps|
  {
    if steps != [] {
      WorldNextKeeps(w, steps[0].scope, steps[0].event);
      WorldAlwaysInv(WorldNext(w, steps[0].scope, steps[0].event), steps[1..]);
    }
  }

  const Begin := World(map[], [])

  lemma BeginHolds()
    ensures WorldInv(Begin)
  {
    InitialHolds();
  }

  lemma {:induction false} WorldFurther(w: World, steps: seq<Step>, next: Step)
    requires WorldPossible(w, steps) && WorldEnabled(WorldAfter(w, steps), next.scope, next.event)
    ensures WorldPossible(w, steps + [next])
    ensures WorldAfter(w, steps + [next]) == WorldNext(WorldAfter(w, steps), next.scope, next.event)
    decreases |steps|
  {
    if steps == [] {
      assert [] + [next] == [next] && [next][1..] == [];
    } else {
      assert (steps + [next])[1..] == steps[1..] + [next];
      WorldFurther(WorldNext(w, steps[0].scope, steps[0].event), steps[1..], next);
    }
  }

  /**
   * Transactional publication: after any steps of any scopes, whatever failed or was cancelled, a scope
   * without an active run has a daemon source set and a published entry that agree with its registry.
   */
  lemma TransactionalPublication(steps: seq<Step>, scope: string)
    requires WorldPossible(Begin, steps)
    ensures var s := SliceOf(WorldAfter(Begin, steps), scope); s.run.None? ==> InSync(s)
  {
    BeginHolds();
    WorldAlwaysInv(Begin, steps);
    assert Inv(SliceOf(WorldAfter(Begin, steps), scope));
  }

  /** Source mutations of different scopes never overlap, and the one in progress can always go on. */
  lemma MutationsAreSerial(steps: seq<Step>, a: string, b: string)
    requires WorldPossible(Begin, steps)
    ensures var w := WorldAfter(Begin, steps);
            && (Holds(SliceOf(w, a)) && Holds(SliceOf(w, b)) ==> a == b)
            && (w.mutations != [] ==> WorldEnabled(w, w.mutations[0], Reply(Answered(Catalog(0, ""), 0))))
  {
    BeginHolds();
    WorldAlwaysInv(Begin, steps);
    var w := WorldAfter(Begin, steps);
    if w.mutations != [] {
      var head := w.mutations[0];
      assert head in w.mutations;
      assert Waits(SliceOf(w, head)) || Holds(SliceOf(w, head));
    }
  }
}
