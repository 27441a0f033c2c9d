/**
 * `WorkbenchIndexController` (packages/catalog/src/indexController.ts) with its Maps keyed by scope.
 * Each method is one stretch of code without an `await`, proved to take its scope through the step of
 * `IndexPublication` of that name and to leave every other scope as it was. `Handle` answers any event of
 * any scope, and `Valid` says that such steps lead to the controller's state from an empty one, so the
 * theorems of `IndexTheorems` are about this object.
 */
module IndexController {
  import opened Options
  import opened IndexPublication
  import opened IndexTheorems

  class Controller {
    var registries: map<string, Registry>
    var published: map<string, Name>
    var sources: map<string, map<Name, Content>>     // what the daemon holds, by owning scope
    var staleScopes: set<string>
    var scopeRefreshEpochs: map<string, nat>
    var connectedScopes: set<string>
    var scopeRuns: map<string, seq<Job>>
    var activeIndexRuns: map<string, Run>
    var sqlAuthoringSnapshots: map<string, Cached>
    var registryIds: map<string, nat>
    var sourceMutation: seq<string>                  // the scopes that hold or await the mutation lock

    ghost function View(scope: string): Slice
      reads this
    {
      Slice(
        if scope in registries then Some(registries[scope]) else None,
        if scope in published then Some(published[scope]) else None,
        if scope in sources then sources[scope] else map[],
        scope in staleScopes,
        if scope in scopeRefreshEpochs then scopeRefreshEpochs[scope] else 0,
        scope in connectedScopes,
        if scope in scopeRuns then scopeRuns[scope] else [],
        if scope in activeIndexRuns then Some(activeIndexRuns[scope]) else None,
        if scope in sqlAuthoringSnapshots then Some(sqlAuthoringSnapshots[scope]) else None,
        if scope in registryIds then registryIds[scope] else 0)
    }

    ghost predicate Represents(w: World)
      reads this
    {
      sourceMutation == w.mutations && forall scope :: View(scope) == SliceOf(w, scope)
    }

    /** The state is one that steps of the scopes lead to. */
    ghost predicate Valid()
      reads this
    {
      exists steps :: WorldPossible(Begin, steps) && Represents(WorldAfter(Begin, steps))
    }

    constructor ()
      ensures Valid() && forall scope :: View(scope) == Empty
    {
      registries, published, sources, staleScopes, scopeRefreshEpochs := map[], map[], map[], {}, map[];
      connectedScopes, scopeRuns, activeIndexRuns, sqlAuthoringSnapshots, registryIds := {}, map[], map[], map[], map[];
      sourceMutation := [];
      new;
      assert WorldPossible(Begin, []) && Represents(WorldAfter(Begin, []));
    }

    // ----- Every event of every scope ----------------------------------------------------------

    /**
     * One event of one scope: exactly its step, with its place in the queue of the mutation lock. Every scope
     * without an active run is in sync with the daemon; at most one scope changes source sets; a registry is
     * overwritten only by a current run.
     */
    method Handle(scope: string, e: Event)
      requires Valid() && Enabled(View(scope), e)
      requires e.Reply? && Waits(View(scope)) ==> sourceMutation != [] && sourceMutation[0] == scope
      modifies this
      ensures Valid() && View(scope) == Next(old(View(scope)), e)
      ensures forall other | other != scope :: View(other) == old(View(other))
      ensures forall other | View(other).run.None? :: InSync(View(other))
      ensures forall other | Holds(View(other)) :: sourceMutation != [] && sourceMutation[0] == other
      ensures SameRegistry(old(View(scope)).registry, View(scope).registry)
              || (&& e.Reply? && old(View(scope)).run.value.epoch == old(View(scope)).epoch && !old(View(scope)).run.value.cancelled)
    {
      hide View, Valid, Represents, Enabled, Next, Inv, InSync, Mutations, SameRegistry, Waits, Holds, SliceOf;
      ghost var before := View(scope);
      ghost var steps := History();
      ghost var w := WorldAfter(Begin, steps);
      RepresentsAt(w);
      var waited, held := LockState(scope);
      Perform(scope, e);
      KeepPlace(scope, waited, held, before);
      Extended(steps, w, scope, e);
      ghost var after := WorldAfter(Begin, steps + [Step.Step(scope, e)]);
      Consequences(after, steps + [Step.Step(scope, e)]);
      OverwritesOnlyWhenCurrent(w, steps, scope, e);
    }

    ghost method History() returns (steps: seq<Step>)
      requires Valid()
      ensures WorldPossible(Begin, steps) && Represents(WorldAfter(Begin, steps))
    {
      steps :| WorldPossible(Begin, steps) && Represents(WorldAfter(Begin, steps));
    }

    lemma RepresentsAt(w: World)
      requires Represents(w)
      ensures sourceMutation == w.mutations && forall scope :: View(scope) == SliceOf(w, scope)
    {}

    /** The step was that of the world. */
    lemma Extended(steps: seq<Step>, w: World, scope: string, e: Event)
      requires WorldPossible(Begin, steps) && w == WorldAfter(Begin, steps) && WorldEnabled(w, scope, e)
      requires View(scope) == Next(SliceOf(w, scope), e)
      requires sourceMutation == Mutations(w.mutations, scope, SliceOf(w, scope), View(scope))
      requires forall other | other != scope :: View(other) == SliceOf(w, other)
      ensures WorldPossible(Begin, steps + [Step.Step(scope, e)])
      ensures Represents(WorldAfter(Begin, steps + [Step.Step(scope, e)]))
    {
      hide View, Enabled, Next, Mutations, IndexTheorems.Waits;
      WorldFurther(Begin, steps, Step.Step(scope, e));
    }

    lemma Consequences(w: World, steps: seq<Step>)
      requires WorldPossible(Begin, steps) && w == WorldAfter(Begin, steps) && Represents(w)
      ensures Valid()
      ensures forall other | View(other).run.None? :: InSync(View(other))
      ensures forall other | Holds(View(other)) :: sourceMutation != [] && sourceMutation[0] == other
    {
      hide View, Inv, InSync, Holds, Waits;
      InitialHolds();
      BeginHolds();
      WorldAlwaysInv(Begin, steps);
      forall other | View(other).run.None? ensures InSync(View(other)) {
        TransactionalPublication(steps, other);
      }
      forall other | Holds(View(other)) ensures sourceMutation != [] && sourceMutation[0] == other {
        assert Holds(SliceOf(w, other));
      }
    }

    static lemma OverwritesOnlyWhenCurrent(w: World, steps: seq<Step>, scope: string, e: Event)
      requires WorldPossible(Begin, steps) && w == WorldAfter(Begin, steps) && Enabled(SliceOf(w, scope), e)
      ensures var s := SliceOf(w, scope);
              SameRegistry(s.registry, Next(s, e).registry)
              || (e.Reply? && s.run.value.epoch == s.epoch && !s.run.value.cancelled)
    {
      InitialHolds();
      BeginHolds();
      WorldAlwaysInv(Begin, steps);
      assert Inv(SliceOf(w, scope));
      OnlyCurrentRunsOverwrite(SliceOf(w, scope), e);
      hide Inv, Next;
    }

    /** Where the active run of the scope stands with the mutation lock. */
    method LockState(scope: string) returns (waits: bool, holds: bool)
      ensures waits == Waits(View(scope)) && holds == Holds(View(scope))
    {
      if scope !in activeIndexRuns {
        return false, false;
      }
      var stage := activeIndexRuns[scope].stage;
      waits := stage.Queued? || stage.RestoreQueued?;
      holds := stage.Replacing? || stage.RemovingOld? || stage.RestoreRemoving? || stage.RestoreReplacing?;
    }

    /** `mutateSources`: the scope leaves the front of the queue when it is done, and joins its end to wait. */
    method KeepPlace(scope: string, waited: bool, held: bool, ghost before: Slice)
      requires waited == Waits(before) && held == Holds(before)
      modifies this`sourceMutation
      ensures sourceMutation == Mutations(old(sourceMutation), scope, before, View(scope))
      ensures forall other :: View(other) == old(View(other))
    {
      hide View, Mutations, Waits, Holds;
      var queue := NextInLine(scope, waited, held, before);
      ReplaceLine(queue);
    }

    method ReplaceLine(queue: seq<string>)
      modifies this`sourceMutation
      ensures sourceMutation == queue && forall other :: View(other) == old(View(other))
    {
      sourceMutation := queue;
    }

    method NextInLine(scope: string, waited: bool, held: bool, ghost before: Slice) returns (queue: seq<string>)
      requires waited == Waits(before) && held == Holds(before)
      ensures queue == Mutations(sourceMutation, scope, before, View(scope))
    {
      var waits, holds := LockState(scope);
      queue := sourceMutation;
      hide View, Waits, Holds;
      if queue != [] && queue[0] == scope && !holds && (held || !waits) {
        queue := queue[1..];
      }
      if waits && !waited {
        queue := queue + [scope];
      }
    }

    /** The code that runs on each event. */
    method Perform(scope: string, e: Event)
      requires Enabled(View(scope), e)
      modifies this
      ensures View(scope) == Next(old(View(scope)), e) && sourceMutation == old(sourceMutation)
      ensures forall other | other != scope :: View(other) == old(View(other))
    {
      hide Advance, Start, MarkedStale, AuthoringSnapshot;
      match e
      case Request(job) => EnqueueScopeRun(scope, job);
      case RequestRefresh => IndexPostgresDatabase(scope);
      case MarkStale => MarkDatabaseStale(scope);
      case Connection(up) => connectedScopes := if up then connectedScopes + {scope} else connectedScopes - {scope};
      case Cancel => CancelDatabaseIndex(scope);
      case Authored =>
        var _ := SqlAuthoringSnapshot(scope);
      case StartNext => StartNextRun(scope);
      case Reply(reply) => ContinueRun(scope, activeIndexRuns[scope], reply);
    }

    method TakeRun(scope: string) returns (job: Job)
      requires View(scope).queue != []
      modifies this`scopeRuns
      ensures job == old(View(scope)).queue[0] && View(scope) == old(View(scope)).(queue := old(View(scope)).queue[1..])
      ensures forall other | other != scope :: View(other) == old(View(other))
    {
      job := scopeRuns[scope][0];
      scopeRuns := scopeRuns[scope := scopeRuns[scope][1..]];
    }

    /** The run chained behind the one that ended begins. */
    method StartNextRun(scope: string)
      requires View(scope).queue != []
      modifies this
      ensures sourceMutation == old(sourceMutation)
      ensures View(scope) == Start(old(View(scope)).(queue := old(View(scope)).queue[1..]), old(View(scope)).queue[0])
      ensures forall other | other != scope :: View(other) == old(View(other))
    {
      hide MarkedStale;
      var job := TakeRun(scope);
      var refreshEpoch := if scope in scopeRefreshEpochs then scopeRefreshEpochs[scope] else 0;
      match job
      case IndexDatabase => BeginRun(scope, NewRun(Plain, refreshEpoch));
      case RefreshDatabase(epoch) => BeginRun(scope, NewRun(Refresh, epoch));
      case SynchronizeDdl(fallback) => StartDdlSynchronization(scope, fallback);
    }

    method Current(scope: string, run: Run) returns (current: bool)
      ensures current == IsCurrent(View(scope), run)
    {
      var epoch := if scope in scopeRefreshEpochs then scopeRefreshEpochs[scope] else 0;
      return epoch == run.epoch && (run.mode.Plain? ==> scope in connectedScopes);
    }

    /** The active run goes on with what it awaited. */
    method ContinueRun(scope: string, run: Run, reply: Reply)
      requires View(scope).run == Some(run)
      modifies this
      ensures sourceMutation == old(sourceMutation)
      ensures View(scope) == Advance(old(View(scope)), run, reply)
      ensures forall other | other != scope :: View(other) == old(View(other))
    {
      hide Fail, Replaced, Restore, Restored, Removed, Commit, Announce, IsCurrent;
      match run.stage
      case Reading =>
        var current := Current(scope, run);
        if reply.Failed? || run.cancelled || !current {
          FailRun(scope, run);
        } else {
          var previous := if scope in registries then Some(registries[scope]) else None;
          var previousPublished := if scope in published then Some(published[scope]) else None;
          MoveTo(scope, run.(previous := previous, previousPublished := previousPublished), Connecting(reply.catalog));
        }
      case Connecting(catalog) =>
        if reply.Failed? || run.cancelled {
          FailRun(scope, run);
        } else {
          MoveTo(scope, run, Readying(catalog));
        }
      case Readying(catalog) =>
        if reply.Failed? || run.cancelled {
          FailRun(scope, run);
        } else {
          MoveTo(scope, run, Queued(catalog));
        }
      case Queued(catalog) =>
        var current := Current(scope, run);
        if current {
          MoveTo(scope, run, Replacing(catalog));
        } else {
          FailRun(scope, run);
        }
      case _ => ContinuePublication(scope, run, reply);
    }

    method ContinuePublication(scope: string, run: Run, reply: Reply)
      requires View(scope).run == Some(run)
      requires !run.stage.Reading? && !run.stage.Connecting? && !run.stage.Readying? && !run.stage.Queued?
      modifies this
      ensures sourceMutation == old(sourceMutation)
      ensures View(scope) == Advance(old(View(scope)), run, reply)
      ensures forall other | other != scope :: View(other) == old(View(other))
    {
      hide Fail, Replaced, Restore, Restored, Removed, Commit, Announce, IsCurrent;
      match run.stage
      case Replacing(catalog) =>
        if reply.Failed? {
          FailRun(scope, run);
        } else {
          SourceSetReplaced(scope, run, catalog);
        }
      case RemovingOld(catalog, old_) =>
        if reply.Failed? {
          MoveTo(scope, run, RestoreQueued(catalog));
        } else {
          RemoveSources(scope, old_);
          MoveTo(scope, run, ReadingSymbols(catalog));
        }
      case ReadingSymbols(catalog) =>
        if reply.Failed? {
          MoveTo(scope, run, RestoreQueued(catalog));
        } else {
          CommitRegistry(scope, run, catalog, reply.generation);
        }
      case Committed(registry) => AnnounceRegistry(scope, run, registry);
      case RestoreQueued(catalog) => BeginRestore(scope, run, catalog);
      case RestoreRemoving(catalog) => SourceSetRemoved(scope, run, catalog);
      case RestoreReplacing(_) =>
        if run.previous.Some? {
          ReplaceSources(scope, Catalog(run.previous.value.srcset, run.previous.value.content));
          RestorePublished(scope, run);
        }
      case RestoreWaiting => RestoredRegistry(scope, run, reply);
    }

    /** `getGeneration` answered after the rollback, or failed. */
    method RestoredRegistry(scope: string, run: Run, reply: Reply)
      requires run.stage.RestoreWaiting?
      modifies this
      ensures sourceMutation == old(sourceMutation)
      ensures View(scope) == Advance(old(View(scope)), run, reply)
      ensures forall other | other != scope :: View(other) == old(View(other))
    {
      hide Fail;
      if reply.Answered? && scope in registries {
        registries := registries[scope := registries[scope].(generation := reply.generation)];
      }
      FailRun(scope, run);
    }

    /** `restorePublishedSnapshot` after the daemon dropped what was published instead. */
    method SourceSetRemoved(scope: string, run: Run, catalog: Catalog)
      modifies this
      ensures sourceMutation == old(sourceMutation)
      ensures View(scope) == Removed(old(View(scope)), run, catalog)
      ensures forall other | other != scope :: View(other) == old(View(other))
    {
      hide Restored;
      if scope in published {
        RemoveSources(scope, published[scope]);
      }
      if run.previous.Some? {
        MoveTo(scope, run, RestoreReplacing(catalog));
      } else {
        RestorePublished(scope, run);
      }
    }

    // ----- The stretches of code ---------------------------------------------------------------

    method AdvanceScopeRefreshEpoch(scope: string) returns (epoch: nat)
      modifies this`scopeRefreshEpochs
      ensures epoch == old(View(scope)).epoch + 1
      ensures View(scope) == old(View(scope)).(epoch := epoch)
      ensures forall other | other != scope :: View(other) == old(View(other))
    {
      epoch := (if scope in scopeRefreshEpochs then scopeRefreshEpochs[scope] else 0) + 1;
      scopeRefreshEpochs := scopeRefreshEpochs[scope := epoch];
    }

    method MarkDatabaseStale(scope: string)
      modifies this`staleScopes, this`sqlAuthoringSnapshots
      ensures View(scope) == MarkedStale(old(View(scope)))
      ensures forall other | other != scope :: View(other) == old(View(other))
    {
      staleScopes := staleScopes + {scope};
      sqlAuthoringSnapshots := sqlAuthoringSnapshots - {scope};
    }

    method EnqueueScopeRun(scope: string, job: Job)
      modifies this`scopeRuns
      ensures View(scope) == old(View(scope)).(queue := old(View(scope)).queue + [job])
      ensures forall other | other != scope :: View(other) == old(View(other))
    {
      scopeRuns := scopeRuns[scope := (if scope in scopeRuns then scopeRuns[scope] else []) + [job]];
    }

    /** `indexPostgresDatabase`, up to the queue. */
    method IndexPostgresDatabase(scope: string)
      modifies this
      ensures sourceMutation == old(sourceMutation)
      ensures View(scope) == Next(old(View(scope)), RequestRefresh)
      ensures forall other | other != scope :: View(other) == old(View(other))
    {
      var epoch := AdvanceScopeRefreshEpoch(scope);
      MarkDatabaseStale(scope);
      EnqueueScopeRun(scope, RefreshDatabase(epoch));
    }

    method CancelDatabaseIndex(scope: string)
      modifies this`activeIndexRuns
      ensures View(scope) == Next(old(View(scope)), Cancel)
      ensures forall other | other != scope :: View(other) == old(View(other))
    {
      if scope in activeIndexRuns && !activeIndexRuns[scope].mode.Ddl? {
        activeIndexRuns := activeIndexRuns[scope := activeIndexRuns[scope].(cancelled := true)];
      }
    }

    method SqlAuthoringSnapshot(scope: string) returns (answer: Option<Authoring>)
      modifies this`sqlAuthoringSnapshots
      ensures (answer, View(scope)) == AuthoringSnapshot(old(View(scope)))
      ensures forall other | other != scope :: View(other) == old(View(other))
    {
      if scope !in registries {
        sqlAuthoringSnapshots := sqlAuthoringSnapshots - {scope};
        return None;
      }
      var registry := registries[scope];
      var status := if scope in staleScopes then Stale else Available;
      if scope in sqlAuthoringSnapshots {
        var cached := sqlAuthoringSnapshots[scope];
        if cached.registry == registry.id && cached.snapshot.status == status && cached.snapshot.generation == registry.generation {
          return Some(cached.snapshot);
        }
      }
      var snapshot := Build(registry, status);
      sqlAuthoringSnapshots := sqlAuthoringSnapshots[scope := Cached(registry.id, snapshot)];
      return Some(snapshot);
    }

    method MoveTo(scope: string, run: Run, stage: Stage)
      modifies this`activeIndexRuns
      ensures View(scope) == At(old(View(scope)), run, stage)
      ensures forall other | other != scope :: View(other) == old(View(other))
    {
      activeIndexRuns := activeIndexRuns[scope := run.(stage := stage)];
    }

    /** A full run ends; an incremental one falls back to a full refresh of a new epoch. */
    method FailRun(scope: string, run: Run)
      modifies this
      ensures sourceMutation == old(sourceMutation)
      ensures View(scope) == Fail(old(View(scope)), run)
      ensures forall other | other != scope :: View(other) == old(View(other))
    {
      if run.mode.Ddl? {
        var epoch := AdvanceScopeRefreshEpoch(scope);
        BeginRun(scope, NewRun(Refresh, epoch));
      } else {
        activeIndexRuns := activeIndexRuns - {scope};
      }
    }

    method ReplaceSources(scope: string, catalog: Catalog)
      modifies this`sources
      ensures View(scope) == Replace(old(View(scope)), catalog)
      ensures forall other | other != scope :: View(other) == old(View(other))
    {
      var held := if scope in sources then sources[scope] else map[];
      sources := sources[scope := held[catalog.srcset := catalog.content]];
    }

    method RemoveSources(scope: string, name: Name)
      modifies this`sources
      ensures View(scope) == Remove(old(View(scope)), name)
      ensures forall other | other != scope :: View(other) == old(View(other))
    {
      var held := if scope in sources then sources[scope] else map[];
      sources := sources[scope := held - {name}];
    }

    /** `publishCatalog` once `sources.replace` resolved. */
    method SourceSetReplaced(scope: string, run: Run, catalog: Catalog)
      modifies this
      ensures sourceMutation == old(sourceMutation)
      ensures View(scope) == Replaced(old(View(scope)), run, catalog)
      ensures forall other | other != scope :: View(other) == old(View(other))
    {
      var previous := if scope in published then Some(published[scope]) else None;
      ReplaceSources(scope, catalog);
      ReturnPublished(scope, Some(catalog.srcset));
      if previous.Some? && previous.value != catalog.srcset {
        MoveTo(scope, run, RemovingOld(catalog, previous.value));
      } else {
        MoveTo(scope, run, ReadingSymbols(catalog));
      }
    }

    method ReturnPublished(scope: string, name: Option<Name>)
      modifies this`published
      ensures View(scope) == old(View(scope)).(published := name)
      ensures forall other | other != scope :: View(other) == old(View(other))
    {
      if name.Some? {
        published := published[scope := name.value];
      } else {
        published := published - {scope};
      }
    }

    /** The last lines of the mutation in `restorePublishedSnapshot`. */
    method RestorePublished(scope: string, run: Run)
      modifies this
      ensures sourceMutation == old(sourceMutation)
      ensures View(scope) == Restored(old(View(scope)), run)
      ensures forall other | other != scope :: View(other) == old(View(other))
    {
      hide Fail;
      ReturnPublished(scope, run.previousPublished);
      if run.previous.Some? {
        MoveTo(scope, run, RestoreWaiting);
      } else {
        FailRun(scope, run);
      }
    }

    /** `restorePublishedSnapshot` once it holds the lock. */
    method BeginRestore(scope: string, run: Run, catalog: Catalog)
      modifies this
      ensures sourceMutation == old(sourceMutation)
      ensures View(scope) == Restore(old(View(scope)), run, catalog)
      ensures forall other | other != scope :: View(other) == old(View(other))
    {
      var current := if scope in published then Some(published[scope]) else None;
      if current.Some? && (run.previous.None? || current.value != run.previous.value.srcset) {
        MoveTo(scope, run, RestoreRemoving(catalog));
      } else if run.previous.Some? {
        MoveTo(scope, run, RestoreReplacing(catalog));
      } else {
        RestorePublished(scope, run);
      }
    }

    /** The final checks of `publishAndReadCatalog` and its `registries.set`. */
    method CommitRegistry(scope: string, run: Run, catalog: Catalog, generation: nat)
      modifies this
      ensures sourceMutation == old(sourceMutation)
      ensures View(scope) == Commit(old(View(scope)), run, catalog, generation)
      ensures forall other | other != scope :: View(other) == old(View(other))
    {
      var epoch := if scope in scopeRefreshEpochs then scopeRefreshEpochs[scope] else 0;
      if run.cancelled || epoch != run.epoch || (run.mode.Plain? && scope !in connectedScopes) {
        MoveTo(scope, run, RestoreQueued(catalog));
        return;
      }
      var id := if scope in registryIds then registryIds[scope] else 0;
      var registry := Registry(id, catalog.srcset, catalog.content, generation);
      registryIds := registryIds[scope := id + 1];
      registries := registries[scope := registry];
      MoveTo(scope, run, Committed(registry));
    }

    /** `if (options.publish()) this.publishRegistry(...)`, and the end of the run. */
    method AnnounceRegistry(scope: string, run: Run, registry: Registry)
      modifies this
      ensures sourceMutation == old(sourceMutation)
      ensures View(scope) == Announce(old(View(scope)), run, registry)
      ensures forall other | other != scope :: View(other) == old(View(other))
    {
      hide PublishRegistry;
      var epoch := if scope in scopeRefreshEpochs then scopeRefreshEpochs[scope] else 0;
      if run.mode.Plain? || run.mode.Ddl? || epoch == run.epoch {
        PublishScopeRegistry(scope, registry);
      }
      activeIndexRuns := activeIndexRuns - {scope};
    }

    /** `publishRegistry`. */
    method PublishScopeRegistry(scope: string, registry: Registry)
      modifies this`registries, this`staleScopes, this`sqlAuthoringSnapshots
      ensures View(scope) == PublishRegistry(old(View(scope)), registry)
      ensures forall other | other != scope :: View(other) == old(View(other))
    {
      registries := registries[scope := registry];
      staleScopes := staleScopes - {scope};
      sqlAuthoringSnapshots := sqlAuthoringSnapshots - {scope};
    }

    /** The head of `runDdlSynchronization`. */
    method StartDdlSynchronization(scope: string, fallback: bool)
      modifies this
      ensures sourceMutation == old(sourceMutation)
      ensures View(scope) == Start(old(View(scope)), SynchronizeDdl(fallback))
      ensures forall other | other != scope :: View(other) == old(View(other))
    {
      var refreshEpoch := if scope in scopeRefreshEpochs then scopeRefreshEpochs[scope] else 0;
      var indexed := scope in registries;
      MarkDatabaseStale(scope);
      if fallback || !indexed {
        var epoch := AdvanceScopeRefreshEpoch(scope);
        BeginRun(scope, NewRun(Refresh, epoch));
      } else {
        BeginRun(scope, NewRun(Ddl, refreshEpoch));
      }
    }

    method BeginRun(scope: string, run: Run)
      modifies this`activeIndexRuns
      ensures View(scope) == old(View(scope)).(run := Some(run))
      ensures forall other | other != scope :: View(other) == old(View(other))
    {
      activeIndexRuns := activeIndexRuns[scope := run];
    }
  }
}
