/**
 * How runs wait, stop early and hand over (packages/catalog/src/indexController.ts): jobs wait in order, a run that is
 * cancelled or overtaken in time never reaches the daemon, and the authoring cache lives exactly as long as it is right.
 */
module IndexRuns {
  import opened Options
  import opened IndexPublication
  import opened IndexTheorems
  import opened IndexMarks

  // ----- Jobs wait in order ------------------------------------------------------------------------

  /** The job that the event asks for. */
  function Wanted(s: Slice, e: Event): seq<Job> {
    match e
    case Request(job) => [job]
    case RequestRefresh => [RefreshDatabase(s.epoch + 1)]
    case _ => []
  }

  /** A new job joins the end of the queue, and the run that starts is the first of it; nothing else moves a job. */
  lemma JobsWaitInOrder(s: Slice, e: Event)
    requires Enabled(s, e)
    ensures Next(s, e).queue == (if e.StartNext? then s.queue[1..] else s.queue) + Wanted(s, e)
  {
    if e.Reply? {
      AdvanceMoves(s, s.run.value, e.reply);
      hide Advance;
    }
  }

  // ----- Runs that stop early ----------------------------------------------------------------------

  /** Before it holds the lock a run has not touched the daemon. */
  predicate Early(stage: Stage) {
    stage.Reading? || stage.Connecting? || stage.Readying? || stage.Queued?
  }

  /** Overtaken by a newer epoch before it holds the lock, or cancelled before it waits for the lock. */
  predicate StopsEarly(s: Slice) {
    s.run.Some? ==>
      && !s.run.value.mode.Ddl? && Early(s.run.value.stage)
      && (s.run.value.epoch < s.epoch || (s.run.value.cancelled && !s.run.value.stage.Queued?))
  }

  lemma StopsEarlyAdvance(s: Slice, run: Run, reply: Reply)
    requires s.run == Some(run) && StopsEarly(s)
    ensures var t := Advance(s, run, reply);
            StopsEarly(t) && t.daemon == s.daemon && t.published == s.published && t.registry == s.registry && t.stale == s.stale
  {
    hide Replaced, Restore, Removed, Restored, Commit, Announce;
  }

  lemma StopsEarlyStep(s: Slice, e: Event)
    requires Enabled(s, e) && StopsEarly(s) && !e.StartNext?
    ensures var t := Next(s, e);
            StopsEarly(t) && t.daemon == s.daemon && t.published == s.published && t.registry == s.registry && (s.stale ==> t.stale)
  {
    if e.Reply? {
      StopsEarlyAdvance(s, s.run.value, e.reply);
      hide Advance;
    } else {
      hide Advance, Start;
    }
  }

  /** Such a run leaves the daemon, the published entry, the registry and the stale mark alone until it ends. */
  lemma {:induction false} EarlyStopsLeaveTheDaemon(s: Slice, es: seq<Event>, t: Slice)
    requires Continues(s, es, t) && StopsEarly(s)
    ensures t.daemon == s.daemon && t.published == s.published && t.registry == s.registry && (s.stale ==> t.stale)
    decreases |es|
  {
    if es != [] {
      StopsEarlyStep(s, es[0]);
      hide Next, Enabled, StopsEarly;
      EarlyStopsLeaveTheDaemon(Next(s, es[0]), es[1..], t);
    }
  }

  /**
   * A cancelled run ends with its next answer while it reads, connects or waits for readiness, as does one whose
   * answer is a failure; one that is overtaken or, outside refreshes, disconnected, after its read or at the lock.
   */
  lemma StopsAtOnce(s: Slice, reply: Reply)
    requires Inv(s) && s.run.Some? && Enabled(s, Event.Reply(reply)) && !s.run.value.mode.Ddl?
    requires var run := s.run.value;
             || ((run.stage.Reading? || run.stage.Connecting? || run.stage.Readying?) && (run.cancelled || reply.Failed?))
             || ((run.stage.Reading? || run.stage.Queued?) && (s.epoch != run.epoch || (run.mode.Plain? && !s.connected)))
    ensures Next(s, Event.Reply(reply)) == s.(run := None)
  {
    hide Inv, Replaced, Restore, Removed, Restored, Commit, Announce;
  }

  // ----- After a rollback --------------------------------------------------------------------------

  /** The last answer of a rollback: the registry keeps its content and gets the daemon's generation; nothing else changes. */
  lemma RollbackEndsWithGeneration(s: Slice, reply: Reply)
    requires Inv(s) && s.run.Some? && s.run.value.stage.RestoreWaiting? && Enabled(s, Event.Reply(reply))
    ensures var t := Next(s, Event.Reply(reply));
            && t.daemon == s.daemon && t.published == s.published && t.stale == s.stale && SameRegistry(s.registry, t.registry)
            && (reply.Answered? && s.registry.Some? ==> t.registry.value.generation == reply.generation)
            && (reply.Failed? ==> t.registry == s.registry)
  {
    hide Inv, Replaced, Restore, Removed, Restored, Commit, Announce;
  }

  // ----- The authoring cache -----------------------------------------------------------------------

  /** Asked again while nothing happens the cache answers itself; without a registry nothing is kept. */
  lemma CacheIsUsed(s: Slice)
    requires Inv(s)
    ensures var (answer, t) := AuthoringSnapshot(s);
            && AuthoringSnapshot(t) == (answer, t)
            && (answer.Some? ==> t.cached == Some(Cached(s.registry.value.id, answer.value)) && CacheHit(t))
            && (answer.None? ==> t.cached.None?)
            && (CacheHit(s) ==> t == s)
  {
    hide Inv;
  }

  /** The cached snapshot is dropped when the scope is marked stale and when a registry is published, and only asking fills it. */
  lemma CacheFollowsTheScope(s: Slice, e: Event)
    requires Enabled(s, e) && !e.Authored?
    ensures Next(s, e).cached == s.cached || Next(s, e).cached.None?
    ensures Next(s, e).stale != s.stale ==> Next(s, e).cached.None?
    ensures e.MarkStale? || e.RequestRefresh? || (e.StartNext? && s.queue[0].SynchronizeDdl?) ==> Next(s, e).cached.None? && Next(s, e).stale
    ensures e.Reply? && s.run.value.stage.Committed? && (s.run.value.mode.Refresh? ==> s.run.value.epoch == s.epoch) ==>
              Next(s, e).cached.None? && !Next(s, e).stale
  {
    if e.Reply? {
      AnswerKeepsCache(s, s.run.value, e.reply);
      hide Advance;
    } else {
      hide Advance;
    }
  }

  lemma FailKeepsCache(s: Slice, run: Run)
    ensures Fail(s, run).cached == s.cached && Fail(s, run).stale == s.stale
  {}

  lemma HelpersKeepCache(s: Slice, run: Run, c: Catalog)
    ensures Restored(s, run).cached == s.cached && Restored(s, run).stale == s.stale
    ensures Removed(s, run, c).cached == s.cached && Removed(s, run, c).stale == s.stale
    ensures Restore(s, run, c).cached == s.cached && Restore(s, run, c).stale == s.stale
    ensures Replaced(s, run, c).cached == s.cached && Replaced(s, run, c).stale == s.stale
  {}

  lemma AnswerKeepsCache(s: Slice, run: Run, reply: Reply)
    requires s.run == Some(run)
    ensures var t := Advance(s, run, reply);
            && (t.cached == s.cached || t.cached.None?) && (t.stale != s.stale ==> t.cached.None?)
            && (run.stage.Committed? && (run.mode.Refresh? ==> run.epoch == s.epoch) ==> t.cached.None? && !t.stale)
  {
    FailKeepsCache(s, run);
    hide Replaced, Restore, Removed, Restored, Commit, Fail;
    match run.stage
    case Replacing(c) => HelpersKeepCache(s, run, c);
    case RestoreQueued(c) => HelpersKeepCache(s, run, c);
    case RestoreRemoving(c) => HelpersKeepCache(s, run, c);
    case RestoreReplacing(c) =>
      if run.previous.Some? {
        HelpersKeepCache(Replace(s, Catalog(run.previous.value.srcset, run.previous.value.content)), run, c);
      }
    case RestoreWaiting =>
      if s.registry.Some? && reply.Answered? {
        FailKeepsCache(s.(registry := Some(s.registry.value.(generation := reply.generation))), run);
      }
    case ReadingSymbols(c) =>
      if reply.Answered? {
        CommitKeepsCache(s, run, c, reply.generation);
      }
    case _ =>
  }

  lemma CommitKeepsCache(s: Slice, run: Run, c: Catalog, generation: nat)
    ensures Commit(s, run, c, generation).cached == s.cached && Commit(s, run, c, generation).stale == s.stale
  {}
}
