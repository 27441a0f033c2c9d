/**
 * What a run registers is a catalog it read itself, after it started (packages/catalog/src/indexController.ts).
 * `DdlSyncSpec` relies on this: a full refresh that ended well reflects every commit made before it started.
 */
module IndexReads {
  import opened Options
  import opened IndexPublication
  import opened IndexTheorems
  import opened IndexMarks

  /** The catalog a run carries from its read to its commit. */
  function Carried(stage: Stage): Option<Catalog> {
    match stage
    case Connecting(c) => Some(c)
    case Readying(c) => Some(c)
    case Queued(c) => Some(c)
    case Replacing(c) => Some(c)
    case RemovingOld(c, _) => Some(c)
    case ReadingSymbols(c) => Some(c)
    case Committed(r) => Some(Catalog(r.srcset, r.content))
    case _ => None
  }

  /** The catalog query of the active run answers `c` in this step. */
  predicate Reads(s: Slice, e: Event, c: Catalog) {
    s.run.Some? && s.run.value.stage.Reading? && e.Reply? && e.reply.Answered? && e.reply.catalog == c
  }

  ghost predicate ReadDuring(s: Slice, es: seq<Event>, c: Catalog)
    decreases |es|
  {
    es != [] && Enabled(s, es[0]) && (Reads(s, es[0], c) || ReadDuring(Next(s, es[0]), es[1..], c))
  }

  ghost predicate Empties(t: Slice) {
    t.run.Some? ==> Carried(t.run.value.stage).None?
  }

  lemma FailEmpties(s: Slice, run: Run)
    ensures Empties(Fail(s, run))
  {}

  /** Once a run rolls back it carries nothing to a commit. */
  ghost predicate Restores(stage: Stage) {
    stage.RestoreQueued? || stage.RestoreRemoving? || stage.RestoreReplacing? || stage.RestoreWaiting?
  }

  lemma RestoredEmpties(s: Slice, run: Run)
    ensures Empties(Restored(s, run))
  {
    FailEmpties(s.(published := run.previousPublished), run);
    hide Fail;
  }

  lemma RestoringEmpties(s: Slice, run: Run, reply: Reply)
    requires s.run == Some(run) && Restores(run.stage)
    ensures Empties(Advance(s, run, reply))
  {
    match run.stage
    case RestoreQueued(c) =>
      RestoredEmpties(s, run);
      hide Restored;
    case RestoreRemoving(c) =>
      RestoredEmpties(if s.published.Some? then Remove(s, s.published.value) else s, run);
      hide Restored;
    case RestoreReplacing(c) =>
      if run.previous.Some? {
        RestoredEmpties(Replace(s, Catalog(run.previous.value.srcset, run.previous.value.content)), run);
      }
      hide Restored;
    case RestoreWaiting =>
      FailEmpties(s, run);
      if s.registry.Some? && reply.Answered? {
        FailEmpties(s.(registry := Some(s.registry.value.(generation := reply.generation))), run);
      }
      hide Fail;
  }

  /** A run comes to carry a catalog only by reading it. */
  lemma AdvanceCarries(s: Slice, run: Run, reply: Reply, c: Catalog)
    requires s.run == Some(run)
    requires var t := Advance(s, run, reply); t.run.Some? && Carried(t.run.value.stage) == Some(c)
    ensures Carried(run.stage) == Some(c) || Reads(s, Event.Reply(reply), c)
  {
    FailEmpties(s, run);
    if Restores(run.stage) {
      RestoringEmpties(s, run, reply);
      hide Advance;
    } else {
      hide Fail, Restored, Removed, Restore, Replaced, Commit, Announce;
      match run.stage
      case Replacing(k) => ReplacedCarries(s, run, k, c);
      case ReadingSymbols(k) =>
        if reply.Answered? {
          CommitCarries(s, run, k, reply.generation, c);
        }
      case Committed(registry) => AnnouncesNothing(s, run, registry);
      case _ =>
    }
  }

  lemma ReplacedCarries(s: Slice, run: Run, k: Catalog, c: Catalog)
    ensures Replaced(s, run, k).run.Some?
    ensures Carried(Replaced(s, run, k).run.value.stage) == Some(c) ==> k == c
  {}

  lemma CommitCarries(s: Slice, run: Run, k: Catalog, generation: nat, c: Catalog)
    ensures Commit(s, run, k, generation).run.Some?
    ensures Carried(Commit(s, run, k, generation).run.value.stage) == Some(c) ==> k == c
  {}

  lemma AnnouncesNothing(s: Slice, run: Run, registry: Registry)
    ensures Announce(s, run, registry).run.None?
  {}

  lemma StepCarries(s: Slice, e: Event, c: Catalog)
    requires Enabled(s, e) && !e.StartNext?
    requires Next(s, e).run.Some? && Carried(Next(s, e).run.value.stage) == Some(c)
    ensures s.run.Some? && (Carried(s.run.value.stage) == Some(c) || Reads(s, e, c))
  {
    if e.Reply? {
      AdvanceCarries(s, s.run.value, e.reply, c);
    }
    hide Advance, Carried;
  }

  /** What a run commits it carried before, or read on the way. */
  lemma {:induction false} CommitsWhatItRead(s: Slice, es: seq<Event>, t: Slice, c: Catalog)
    requires Continues(s, es, t) && t.run.Some? && Carried(t.run.value.stage) == Some(c)
    ensures s.run.Some? && (Carried(s.run.value.stage) == Some(c) || ReadDuring(s, es, c))
    decreases |es|
  {
    if es != [] {
      CommitsWhatItRead(Next(s, es[0]), es[1..], t, c);
      if Carried(Next(s, es[0]).run.value.stage) == Some(c) {
        StepCarries(s, es[0], c);
      }
    }
    hide Next, Carried;
  }

  // ----- Full and incremental runs -----------------------------------------------------------------

  /** The scope is patched only for a synchronisation that was not asked to be full and has a registry to patch. */
  predicate Patches(s: Slice, job: Job) {
    job == SynchronizeDdl(false) && s.registry.Some?
  }

  /** How a queued job starts: a synchronisation that cannot patch is a full refresh of a new epoch, and the scope is stale. */
  lemma StartsAs(s: Slice)
    requires Enabled(s, StartNext)
    ensures var t, job := Next(s, StartNext), s.queue[0];
            && t.run.Some? && t.run.value.stage.Reading? && !t.run.value.cancelled && t.queue == s.queue[1..]
            && t.registry == s.registry && t.published == s.published && t.daemon == s.daemon
            && (if Patches(s, job) then t.run.value.mode.Ddl? && t.run.value.epoch == t.epoch == s.epoch && t.stale
                else if job.SynchronizeDdl? then t.run.value.mode.Refresh? && t.run.value.epoch == t.epoch == s.epoch + 1 && t.stale
                else if job.RefreshDatabase? then t.run.value.mode.Refresh? && t.run.value.epoch == job.epoch && t.epoch == s.epoch
                else t.run.value.mode.Plain? && t.run.value.epoch == t.epoch == s.epoch)
  {}

  lemma {:induction false} NoRunStays(s: Slice, es: seq<Event>, t: Slice)
    requires Continues(s, es, t) && s.run.None?
    ensures t.run.None?
    decreases |es|
  {
    if es != [] {
      NoRunStays(Next(s, es[0]), es[1..], t);
    }
  }

  /** A step that starts no run leaves mode and epoch of the active one, ends it, or lets an incremental run fall back. */
  lemma StepMode(s: Slice, e: Event)
    requires Enabled(s, e) && !e.StartNext? && s.run.Some? && Next(s, e).run.Some?
    ensures var run, next := s.run.value, Next(s, e).run.value;
            || (next.mode == run.mode && next.epoch == run.epoch)
            || (run.mode.Ddl? && e.Reply? && next == NewRun(Refresh, Next(s, e).epoch) && Next(s, e).epoch == s.epoch + 1)
  {
    if e.Reply? {
      AdvanceMoves(s, s.run.value, e.reply);
      hide Advance;
    }
  }

  /** A full refresh stays one, of its epoch, until it ends. */
  lemma {:induction false} RefreshStaysFull(s: Slice, es: seq<Event>, t: Slice)
    requires Continues(s, es, t) && s.run.Some? && s.run.value.mode.Refresh? && t.run.Some?
    ensures t.run.value.mode.Refresh? && t.run.value.epoch == s.run.value.epoch
    decreases |es|
  {
    if es != [] {
      var next := Next(s, es[0]);
      if next.run.None? {
        NoRunStays(next, es[1..], t);
      } else {
        StepMode(s, es[0]);
        RefreshStaysFull(next, es[1..], t);
      }
    }
  }

  /** An incremental run has failed on the way and gone on as a full refresh of a new epoch. */
  ghost predicate FallsBackDuring(s: Slice, es: seq<Event>)
    decreases |es|
  {
    && es != [] && Enabled(s, es[0])
    && ((s.run.Some? && s.run.value.mode.Ddl? && Next(s, es[0]).run == Some(NewRun(Refresh, s.epoch + 1))) || FallsBackDuring(Next(s, es[0]), es[1..]))
  }

  lemma {:induction false} DdlStaysIncremental(s: Slice, es: seq<Event>, t: Slice)
    requires Continues(s, es, t) && s.run.Some? && s.run.value.mode.Ddl? && t.run.Some?
    ensures (t.run.value.mode.Ddl? && t.run.value.epoch == s.run.value.epoch) || (t.run.value.mode.Refresh? && FallsBackDuring(s, es))
    decreases |es|
  {
    if es != [] {
      var next := Next(s, es[0]);
      if next.run.None? {
        NoRunStays(next, es[1..], t);
      } else {
        StepMode(s, es[0]);
        if next.run.value.mode.Ddl? {
          DdlStaysIncremental(next, es[1..], t);
        } else {
          RefreshStaysFull(next, es[1..], t);
        }
        hide Next, Enabled;
      }
    }
  }

  /**
   * A synchronisation that was asked to be full, or has nothing to patch, is a full refresh of the newest epoch in
   * every state until it ends, its commit included; any other is incremental until it fails.
   */
  lemma SynchronisationKeepsItsMode(s: Slice, es: seq<Event>, t: Slice)
    requires Enabled(s, StartNext) && s.queue[0].SynchronizeDdl?
    requires Continues(Next(s, StartNext), es, t) && t.run.Some?
    ensures s.queue[0].fallback || s.registry.None? ==> t.run.value.mode.Refresh? && t.run.value.epoch == s.epoch + 1
    ensures !s.queue[0].fallback && s.registry.Some? ==>
              || (t.run.value.mode.Ddl? && t.run.value.epoch == s.epoch)
              || (t.run.value.mode.Refresh? && FallsBackDuring(Next(s, StartNext), es))
  {
    var start := Next(s, StartNext);
    StartsAs(s);
    hide Next, Enabled, Continues, FallsBackDuring;
    if s.queue[0].fallback || s.registry.None? {
      RefreshStaysFull(start, es, t);
    } else {
      DdlStaysIncremental(start, es, t);
    }
  }

  /**
   * Whatever job started it, a run registers, when it gets that far, a catalog that was read after it had started.
   * A synchronisation asked to be full registers it in a full refresh of its own epoch, never as a patch.
   */
  lemma EveryRunRegistersLaterRead(s: Slice, es: seq<Event>, t: Slice)
    requires Inv(s) && Enabled(s, StartNext)
    requires Continues(Next(s, StartNext), es, t) && t.run.Some? && t.run.value.stage.Committed?
    ensures t.registry == Some(t.run.value.stage.registry)
    ensures ReadDuring(Next(s, StartNext), es, Catalog(t.registry.value.srcset, t.registry.value.content))
    ensures s.queue[0].SynchronizeDdl? && (s.queue[0].fallback || s.registry.None?) ==>
              t.run.value.mode.Refresh? && t.run.value.epoch == s.epoch + 1
    ensures Patches(s, s.queue[0]) ==> t.run.value.mode.Ddl? || FallsBackDuring(Next(s, StartNext), es)
  {
    var start, r := Next(s, StartNext), t.run.value.stage.registry;
    StartsAs(s);
    NextKeeps(s, StartNext);
    if s.queue[0].SynchronizeDdl? {
      SynchronisationKeepsItsMode(s, es, t);
    }
    hide Inv, Next, ReadDuring, Continues, Enabled, FallsBackDuring;
    WaitingKeeps(start, es, t);
    CommittedIsRegistered(t);
    CommitsWhatItRead(start, es, t, Catalog(r.srcset, r.content));
  }

  lemma CommittedIsRegistered(t: Slice)
    requires Inv(t) && t.run.Some? && t.run.value.stage.Committed?
    ensures t.registry == Some(t.run.value.stage.registry)
  {}
}
