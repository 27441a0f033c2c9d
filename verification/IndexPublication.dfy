/**
 * How the index of one scope (a database of a connection) is published to the Code Moniker daemon
 * (packages/catalog/src/indexController.ts): runs, refresh epochs, the source set and its rollback.
 * A `Slice` is what the controller's Maps hold for the scope; `Advance` is the code between two awaits.
 */
module IndexPublication {
  import opened Options

  type Content = string
  type Name = nat   // a source-set name of this scope

  /** `IndexedPostgresRegistry`: `id` is the object's identity; only `generation` is ever changed in place. */
  datatype Registry = Registry(id: nat, srcset: Name, content: Content, generation: nat)
  datatype Catalog = Catalog(srcset: Name, content: Content)

  /** Who runs: `runIndex`, `runPostgresDatabaseIndex`, or the incremental part of `runDdlSynchronization`. */
  datatype Mode = Plain | Refresh | Ddl
  datatype Job = IndexDatabase | RefreshDatabase(epoch: nat) | SynchronizeDdl(fallback: bool)

  datatype Stage =
    | Reading
    | Connecting(catalog: Catalog)
    | Readying(catalog: Catalog)
    | Queued(catalog: Catalog)                   // waiting for the source mutation lock
    | Replacing(catalog: Catalog)
    | RemovingOld(catalog: Catalog, old_: Name)
    | ReadingSymbols(catalog: Catalog)
    | Committed(registry: Registry)
    | RestoreQueued(catalog: Catalog)            // waiting for the lock again, to roll back
    | RestoreRemoving(catalog: Catalog)
    | RestoreReplacing(catalog: Catalog)
    | RestoreWaiting

  datatype Run = Run(mode: Mode, epoch: nat, cancelled: bool,
                     previous: Option<Registry>, previousPublished: Option<Name>, stage: Stage)

  datatype Status = Stale | Available
  datatype Authoring = Authoring(status: Status, content: Content, generation: nat)
  /** An entry of `sqlAuthoringSnapshots`. */
  datatype Cached = Cached(registry: nat, snapshot: Authoring)

  datatype Slice = Slice(
    registry: Option<Registry>,      // registries
    published: Option<Name>,         // published
    daemon: map<Name, Content>,      // the daemon's source sets of this scope
    stale: bool,                     // staleScopes
    epoch: nat,                      // scopeRefreshEpochs
    connected: bool,                 // isConnectionConnected
    queue: seq<Job>,                 // runs chained behind the active one
    run: Option<Run>,                // the active run
    cached: Option<Cached>,
    nextId: nat)

  datatype Reply = Answered(catalog: Catalog, generation: nat) | Failed

  datatype Event =
    | Request(job: Job)              // indexDatabase, synchronizeDatabaseDdl
    | RequestRefresh                 // indexPostgresDatabase
    | MarkStale
    | Connection(up: bool)
    | Cancel
    | Authored                       // sqlAuthoringSnapshot
    | StartNext
    | Reply(reply: Reply)            // what the active run awaits

  // ----- Steps ---------------------------------------------------------------------------------

  predicate IsCurrent(s: Slice, run: Run) {
    s.epoch == run.epoch && (run.mode.Plain? ==> s.connected)
  }

  function At(s: Slice, run: Run, stage: Stage): Slice {
    s.(run := Some(run.(stage := stage)))
  }

  function NewRun(mode: Mode, epoch: nat): Run {
    Run(mode, epoch, false, None, None, Reading)
  }

  /** The end of a failed run. A failed incremental update goes on as a full refresh of a new epoch. */
  function Fail(s: Slice, run: Run): Slice {
    if run.mode.Ddl? then s.(epoch := s.epoch + 1, run := Some(NewRun(Refresh, s.epoch + 1)))
    else s.(run := None)
  }

  function MarkedStale(s: Slice): Slice {
    s.(stale := true, cached := None)
  }

  function Start(s: Slice, job: Job): Slice {
    match job
    case IndexDatabase => s.(run := Some(NewRun(Plain, s.epoch)))
    case RefreshDatabase(epoch) => s.(run := Some(NewRun(Refresh, epoch)))
    case SynchronizeDdl(fallback) =>
      var marked := MarkedStale(s);
      if fallback || s.registry.None? then marked.(epoch := s.epoch + 1, run := Some(NewRun(Refresh, s.epoch + 1)))
      else marked.(run := Some(NewRun(Ddl, s.epoch)))
  }

  /** `publishRegistry`. */
  function PublishRegistry(s: Slice, registry: Registry): Slice {
    s.(registry := Some(registry), stale := false, cached := None)
  }

  function Build(registry: Registry, status: Status): Authoring {
    Authoring(status, registry.content, registry.generation)
  }

  function StatusOf(s: Slice): Status {
    if s.stale then Stale else Available
  }

  predicate CacheHit(s: Slice) {
    && s.registry.Some? && s.cached.Some?
    && s.cached.value.registry == s.registry.value.id
    && s.cached.value.snapshot.status == StatusOf(s)
    && s.cached.value.snapshot.generation == s.registry.value.generation
  }

  /** `sqlAuthoringSnapshot`: the answer, and the cache it leaves. */
  function AuthoringSnapshot(s: Slice): (Option<Authoring>, Slice) {
    if s.registry.None? then (None, s.(cached := None))
    else if CacheHit(s) then (Some(s.cached.value.snapshot), s)
    else
      var snapshot := Build(s.registry.value, StatusOf(s));
      (Some(snapshot), s.(cached := Some(Cached(s.registry.value.id, snapshot))))
  }

  function Replace(s: Slice, c: Catalog): Slice {
    s.(daemon := s.daemon[c.srcset := c.content])
  }

  function Remove(s: Slice, name: Name): Slice {
    s.(daemon := s.daemon - {name})
  }

  /** After the daemon accepted the new source set: `published`, `onReplaced`, and the removal of an old name. */
  function Replaced(s: Slice, run: Run, c: Catalog): Slice {
    var out := Replace(s, c).(published := Some(c.srcset));
    if s.published.Some? && s.published.value != c.srcset then At(out, run, RemovingOld(c, s.published.value))
    else At(out, run, ReadingSymbols(c))
  }

  /** The body of the rollback, once it holds the lock. */
  function Restore(s: Slice, run: Run, c: Catalog): Slice {
    var remove := s.published.Some? && (run.previous.Some? ==> s.published.value != run.previous.value.srcset);
    if remove then At(s, run, RestoreRemoving(c))
    else if run.previous.Some? then At(s, run, RestoreReplacing(c))
    else Restored(s, run)
  }

  /** The last lines of the rollback: the old `published` entry returns. */
  function Restored(s: Slice, run: Run): Slice {
    var out := s.(published := run.previousPublished);
    if run.previous.Some? then At(out, run, RestoreWaiting) else Fail(out, run)
  }

  function Removed(s: Slice, run: Run, c: Catalog): Slice {
    var out := if s.published.Some? then Remove(s, s.published.value) else s;
    if run.previous.Some? then At(out, run, RestoreReplacing(c)) else Restored(out, run)
  }

  /** All symbols are read: the last checks and `registries.set`, without an await between them. */
  function Commit(s: Slice, run: Run, c: Catalog, generation: nat): Slice {
    if run.cancelled || !IsCurrent(s, run) then At(s, run, RestoreQueued(c))
    else
      var registry := Registry(s.nextId, c.srcset, c.content, generation);
      At(s.(registry := Some(registry), nextId := s.nextId + 1), run, Committed(registry))
  }

  /** What `executeIndexRun` or `runDdlSynchronization` does with the result. */
  function Announce(s: Slice, run: Run, registry: Registry): Slice {
    if run.mode.Refresh? && s.epoch != run.epoch then s.(run := None)
    else PublishRegistry(s, registry).(run := None)
  }

  /** One continuation of the active run. */
  function Advance(s: Slice, run: Run, reply: Reply): Slice {
    match run.stage
    case Reading =>
      if reply.Failed? || run.cancelled || !IsCurrent(s, run) then Fail(s, run)
      else At(s, run.(previous := s.registry, previousPublished := s.published), Connecting(reply.catalog))
    case Connecting(c) => if reply.Failed? || run.cancelled then Fail(s, run) else At(s, run, Readying(c))
    case Readying(c) => if reply.Failed? || run.cancelled then Fail(s, run) else At(s, run, Queued(c))
    case Queued(c) => if !IsCurrent(s, run) then Fail(s, run) else At(s, run, Replacing(c))
    case Replacing(c) => if reply.Failed? then Fail(s, run) else Replaced(s, run, c)
    case RemovingOld(c, old_) =>
      if reply.Failed? then At(s, run, RestoreQueued(c)) else At(Remove(s, old_), run, ReadingSymbols(c))
    case ReadingSymbols(c) =>
      if reply.Failed? then At(s, run, RestoreQueued(c)) else Commit(s, run, c, reply.generation)
    case Committed(registry) => Announce(s, run, registry)
    case RestoreQueued(c) => Restore(s, run, c)
    case RestoreRemoving(c) => Removed(s, run, c)
    case RestoreReplacing(c) =>
      if run.previous.None? then s
      else Restored(Replace(s, Catalog(run.previous.value.srcset, run.previous.value.content)), run)
    case RestoreWaiting =>
      if reply.Failed? || s.registry.None? then Fail(s, run)
      else Fail(s.(registry := Some(s.registry.value.(generation := reply.generation))), run)
  }

  /** The rollback's own daemon calls succeed; a source set always belongs to this scope. */
  predicate Enabled(s: Slice, e: Event) {
    match e
    case Request(job) => !job.RefreshDatabase?
    case StartNext => s.run.None? && s.queue != []
    case Reply(reply) =>
      s.run.Some? && (s.run.value.stage.RestoreRemoving? || s.run.value.stage.RestoreReplacing? ==> reply.Answered?)
    case _ => true
  }

  function Next(s: Slice, e: Event): Slice
    requires Enabled(s, e)
  {
    match e
    case Request(job) => s.(queue := s.queue + [job])
    case RequestRefresh =>
      MarkedStale(s.(epoch := s.epoch + 1)).(queue := s.queue + [RefreshDatabase(s.epoch + 1)])
    case MarkStale => MarkedStale(s)
    case Connection(up) => s.(connected := up)
    case Cancel =>
      if s.run.None? || s.run.value.mode.Ddl? then s else s.(run := Some(s.run.value.(cancelled := true)))
    case Authored => AuthoringSnapshot(s).1
    case StartNext => Start(s.(queue := s.queue[1..]), s.queue[0])
    case Reply(reply) => Advance(s, s.run.value, reply)
  }

  const Empty := Slice(None, None, map[], false, 0, false, [], None, None, 0)

  // ----- The invariant -------------------------------------------------------------------------

  /** The daemon and `published` agree with the retained registry. */
  ghost predicate InSync(s: Slice) {
    match s.registry
    case None => s.daemon == map[] && s.published.None?
    case Some(r) => s.daemon == map[r.srcset := r.content] && s.published == Some(r.srcset)
  }

  /** The run remembers what was published before it, up to the registry's generation. */
  ghost predicate Remembers(s: Slice, run: Run) {
    && run.previous == s.registry
    && run.previousPublished == (if s.registry.Some? then Some(s.registry.value.srcset) else None)
  }

  ghost predicate OldAndNew(s: Slice, run: Run, c: Catalog) {
    && Remembers(s, run) && s.published == Some(c.srcset)
    && c.srcset in s.daemon
    && (forall n | n in s.daemon :: n == c.srcset || (run.previous.Some? && n == run.previous.value.srcset))
  }

  ghost predicate OldOnly(s: Slice, run: Run) {
    && Remembers(s, run)
    && (forall n | n in s.daemon :: run.previous.Some? && n == run.previous.value.srcset)
  }

  ghost predicate StageHolds(s: Slice, run: Run) {
    match run.stage
    case Reading => InSync(s)
    case Connecting(_) => InSync(s) && Remembers(s, run)
    case Readying(_) => InSync(s) && Remembers(s, run)
    case Queued(_) => InSync(s) && Remembers(s, run)
    case Replacing(_) => InSync(s) && Remembers(s, run)
    case RemovingOld(c, old_) => OldAndNew(s, run, c) && run.previous.Some? && old_ == run.previous.value.srcset && old_ != c.srcset
                                 && s.daemon[c.srcset] == c.content
    case ReadingSymbols(c) => OldAndNew(s, run, c) && s.daemon == map[c.srcset := c.content]
    case Committed(r) => InSync(s) && s.registry == Some(r)
    case RestoreQueued(c) => OldAndNew(s, run, c)
    case RestoreRemoving(c) => OldAndNew(s, run, c) && (run.previous.Some? ==> c.srcset != run.previous.value.srcset)
    case RestoreReplacing(_) => OldOnly(s, run) && run.previous.Some?
    case RestoreWaiting => InSync(s) && Remembers(s, run)
  }

  ghost predicate CacheHolds(s: Slice) {
    && (s.registry.Some? ==> s.registry.value.id < s.nextId)
    && (s.cached.Some? ==> s.cached.value.registry < s.nextId)
    && (s.cached.Some? && s.registry.Some? && s.cached.value.registry == s.registry.value.id
        ==> s.cached.value.snapshot.content == s.registry.value.content)
  }

  ghost predicate Inv(s: Slice) {
    && (s.run.None? ==> InSync(s))
    && (s.run.Some? ==> StageHolds(s, s.run.value) && (s.run.value.mode.Ddl? ==> !s.run.value.cancelled))
    && CacheHolds(s)
  }

  lemma InitialHolds()
    ensures Inv(Empty)
  {}

  lemma RestoreQueuedKeeps(s: Slice, run: Run, reply: Reply)
    requires Inv(s) && s.run == Some(run) && run.stage.RestoreQueued?
    ensures Inv(Advance(s, run, reply))
  {
    hide Replaced, Removed, Commit, Announce, IsCurrent;
  }

  lemma RestoreRemovingKeeps(s: Slice, run: Run, reply: Reply)
    requires Inv(s) && s.run == Some(run) && run.stage.RestoreRemoving?
    ensures Inv(Advance(s, run, reply))
  {
    var out := Remove(s, run.stage.catalog.srcset);
    assert forall n | n in out.daemon :: run.previous.Some? && n == run.previous.value.srcset;
    if run.previous.None? {
      assert out.daemon == map[];
    }
  }

  lemma RestoreReplacingKeeps(s: Slice, run: Run, reply: Reply)
    requires Inv(s) && s.run == Some(run) && run.stage.RestoreReplacing?
    ensures Inv(Advance(s, run, reply))
  {
    var p := run.previous.value;
    assert s.daemon[p.srcset := p.content] == map[p.srcset := p.content];
  }

  lemma RestoreWaitingKeeps(s: Slice, run: Run, reply: Reply)
    requires Inv(s) && s.run == Some(run) && run.stage.RestoreWaiting?
    ensures Inv(Advance(s, run, reply))
  {}

  lemma ReplacedKeeps(s: Slice, run: Run, c: Catalog)
    requires Inv(s) && s.run == Some(run) && run.stage == Replacing(c)
    ensures Inv(Replaced(s, run, c))
  {
    if s.published.None? || s.published.value == c.srcset {
      assert s.daemon[c.srcset := c.content] == map[c.srcset := c.content];
    }
  }

  lemma FailingKeeps(s: Slice, run: Run)
    requires Inv(s) && s.run == Some(run) && InSync(s)
    ensures Inv(Fail(s, run))
  {}

  lemma ReplacingKeeps(s: Slice, run: Run, reply: Reply)
    requires Inv(s) && s.run == Some(run) && run.stage.Replacing?
    ensures Inv(Advance(s, run, reply))
  {
    FailingKeeps(s, run);
    ReplacedKeeps(s, run, run.stage.catalog);
    hide Inv, Fail, Replaced, Restore, Removed, Restored, Commit, Announce, IsCurrent;
  }

  lemma RemovingOldKeeps(s: Slice, run: Run, reply: Reply)
    requires Inv(s) && s.run == Some(run) && run.stage.RemovingOld?
    ensures Inv(Advance(s, run, reply))
  {
    var c := run.stage.catalog;
    if reply.Answered? {
      assert s.daemon - {run.stage.old_} == map[c.srcset := c.content];
    }
  }

  lemma ReadingSymbolsKeeps(s: Slice, run: Run, reply: Reply)
    requires Inv(s) && s.run == Some(run) && run.stage.ReadingSymbols?
    ensures Inv(Advance(s, run, reply))
  {
    hide Replaced, Restore, Removed, Restored, Announce, Fail;
  }

  lemma CommittedKeeps(s: Slice, run: Run, reply: Reply)
    requires Inv(s) && s.run == Some(run) && run.stage.Committed?
    ensures Inv(Advance(s, run, reply))
  {
    hide Replaced, Restore, Removed, Restored, Commit, Fail, IsCurrent;
  }

  lemma ReadingKeeps(s: Slice, run: Run, reply: Reply)
    requires Inv(s) && s.run == Some(run) && run.stage.Reading?
    ensures Inv(Advance(s, run, reply))
  {}

  lemma MovingOnKeeps(s: Slice, run: Run, stage: Stage)
    requires Inv(s) && s.run == Some(run) && InSync(s) && Remembers(s, run)
    requires stage.Readying? || stage.Queued? || stage.Replacing?
    ensures Inv(At(s, run, stage))
  {}

  lemma EarlyKeeps(s: Slice, run: Run, reply: Reply)
    requires Inv(s) && s.run == Some(run)
    requires run.stage.Connecting? || run.stage.Readying? || run.stage.Queued?
    ensures Inv(Advance(s, run, reply))
  {
    FailingKeeps(s, run);
    MovingOnKeeps(s, run, Readying(run.stage.catalog));
    MovingOnKeeps(s, run, Queued(run.stage.catalog));
    MovingOnKeeps(s, run, Replacing(run.stage.catalog));
    hide Inv, At, Fail, Replaced, Restore, Removed, Restored, Commit, Announce, IsCurrent;
  }

  lemma ReplyKeeps(s: Slice, reply: Reply)
    requires Inv(s) && Enabled(s, Event.Reply(reply))
    ensures Inv(Advance(s, s.run.value, reply))
  {
    var run := s.run.value;
    hide Inv, Advance;
    match run.stage
    case Reading => ReadingKeeps(s, run, reply);
    case Connecting(_) => EarlyKeeps(s, run, reply);
    case Readying(_) => EarlyKeeps(s, run, reply);
    case Queued(_) => EarlyKeeps(s, run, reply);
    case Replacing(_) => ReplacingKeeps(s, run, reply);
    case RemovingOld(_, _) => RemovingOldKeeps(s, run, reply);
    case ReadingSymbols(_) => ReadingSymbolsKeeps(s, run, reply);
    case Committed(_) => CommittedKeeps(s, run, reply);
    case RestoreQueued(_) => RestoreQueuedKeeps(s, run, reply);
    case RestoreRemoving(_) => RestoreRemovingKeeps(s, run, reply);
    case RestoreReplacing(_) => RestoreReplacingKeeps(s, run, reply);
    case RestoreWaiting => RestoreWaitingKeeps(s, run, reply);
  }

  lemma StageIgnores(s: Slice, t: Slice, run: Run, cancelled: bool)
    requires StageHolds(s, run)
    requires t.registry == s.registry && t.published == s.published && t.daemon == s.daemon
    ensures StageHolds(t, run.(cancelled := cancelled))
  {}

  lemma StartKeeps(s: Slice)
    requires Inv(s) && s.run.None? && s.queue != []
    ensures Inv(Next(s, StartNext))
  {}

  lemma NextKeeps(s: Slice, e: Event)
    requires Inv(s) && Enabled(s, e)
    ensures Inv(Next(s, e))
  {
    match e
    case Reply(reply) =>
      ReplyKeeps(s, reply);
      hide Inv, Advance;
    case StartNext =>
      StartKeeps(s);
      hide Inv, Start;
    case _ => AsideKeeps(s, e);
  }

  /** Steps beside the active run. */
  lemma AsideKeeps(s: Slice, e: Event)
    requires Inv(s) && Enabled(s, e) && !e.Reply? && !e.StartNext?
    ensures Inv(Next(s, e))
  {
    hide Advance, Start;
    if e.Cancel? {
      if s.run.Some? {
        StageIgnores(s, s, s.run.value, true);
      }
    } else if e.Authored? {
      AuthoredKeeps(s);
      hide Inv, AuthoringSnapshot;
    } else {
      if s.run.Some? {
        StageIgnores(s, Next(s, e), s.run.value, s.run.value.cancelled);
      }
      hide StageHolds, AuthoringSnapshot;
    }
  }

  lemma AuthoredKeeps(s: Slice)
    requires Inv(s)
    ensures Inv(AuthoringSnapshot(s).1)
  {
    if s.run.Some? {
      StageIgnores(s, AuthoringSnapshot(s).1, s.run.value, s.run.value.cancelled);
    }
    hide StageHolds;
  }
}
