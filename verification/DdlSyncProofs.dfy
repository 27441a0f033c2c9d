/**
 * What every run of the schema-synchronisation protocol keeps (packages/catalog/src/ddlSync.ts).
 *
 * The invariant is proved one building block at a time, then for `Next`, then for every run; the
 * theorems at the end read it off.
 */
module DdlSyncProofs {
  import opened Options
  import opened DdlSyncSpec
  import N = DdlNotifications

  // ----- The invariant -------------------------------------------------------------------------

  /** At most one runtime is open, and it is the published listener. */
  ghost predicate OneListener(s: State) {
    && (s.listener.Some? ==> s.listener.value < |s.runtimes| && !s.runtimes[s.listener.value].closed)
    && (forall r | 0 <= r < |s.runtimes| && !s.runtimes[r].closed :: s.listener == Some(r))
  }

  ghost predicate RuntimeOk(rt: Runtime) {
    && (rt.flushing <==> rt.batch != [])
    && (!rt.published ==> rt.notes == [] && !rt.flushing && !rt.timer)
    && (!rt.closed && rt.notes != [] ==> rt.timer || rt.flushing)
    && (forall n | n in rt.notes :: n.payload.Usable?)
  }

  ghost predicate RuntimesOk(s: State) {
    forall r | 0 <= r < |s.runtimes| :: RuntimeOk(s.runtimes[r])
  }

  ghost predicate InQueue(s: State, owner: Owner) {
    exists i :: 0 <= i < |s.refreshes| && s.refreshes[i].owner == owner
  }

  /** A flush that waits has its refresh in the queue, and that refresh answers the first group of its batch. */
  ghost predicate FlushOwned(s: State, refresh: Refresh) {
    match refresh.owner
    case OfFlush(r) =>
      && r < |s.runtimes|
      && s.runtimes[r].batch != []
      && s.runtimes[r].outcome == Pending
      && refresh.stamps == s.runtimes[r].batch[0].stamps
      && refresh.fallback == s.runtimes[r].batch[0].group.fallback
      && refresh.objects == s.runtimes[r].batch[0].group.objects
    case _ => refresh.fallback && refresh.objects == [] && refresh.stamps == {}
  }

  ghost predicate AllOwned(s: State) {
    forall i | 0 <= i < |s.refreshes| :: FlushOwned(s, s.refreshes[i])
  }

  ghost predicate FlushedOnce(s: State) {
    forall i, j | 0 <= i < j < |s.refreshes| && s.refreshes[i].owner.OfFlush? :: s.refreshes[i].owner != s.refreshes[j].owner
  }

  /** A flush awaits its refresh or has its first group covered. */
  ghost predicate FlushesAwait(s: State) {
    && (forall r | 0 <= r < |s.runtimes| && s.runtimes[r].flushing && s.runtimes[r].outcome == Pending :: InQueue(s, OfFlush(r)))
    && (forall r | 0 <= r < |s.runtimes| && s.runtimes[r].flushing && s.runtimes[r].outcome == Succeeded ::
          s.runtimes[r].batch != [] && s.runtimes[r].batch[0].stamps !! s.uncovered)
  }

  ghost predicate FlushesOk(s: State) {
    AllOwned(s) && FlushedOnce(s) && FlushesAwait(s)
  }

  /** The debt a refresh captured, if it still stands, was recorded before that refresh started. */
  ghost predicate CapturedOk(s: State, captured: Option<nat>, full: bool, startedAt: nat) {
    && startedAt <= s.clock
    && (captured.Some? ==> full && captured.value <= s.debtSequence && (s.debt == captured ==> s.debtAt <= startedAt))
  }

  /** A refresh is full exactly when it was asked to be or has captured a debt. */
  predicate FullRightly(refresh: Refresh, captured: Option<nat>, full: bool) {
    full <==> refresh.fallback || captured.Some?
  }

  ghost predicate ProgressOk(s: State, refresh: Refresh) {
    match refresh.progress
    case Waiting => true
    case Reading(startedAt, captured, full) =>
      && CapturedOk(s, captured, full, startedAt) && FullRightly(refresh, captured, full)
      && (forall t | t in refresh.stamps :: t < startedAt)
    case ReadCatalog(startedAt, captured, full, at) =>
      && CapturedOk(s, captured, full, startedAt) && FullRightly(refresh, captured, full)
      && (forall t | t in refresh.stamps :: t < startedAt)
      && startedAt <= at <= s.clock
    case Published(startedAt, captured, full, at) =>
      && CapturedOk(s, captured, full, startedAt) && FullRightly(refresh, captured, full)
      && startedAt <= at <= s.clock
      && refresh.stamps !! s.uncovered
      && (full ==> at <= s.reflects && forall t | t in s.uncovered :: startedAt <= t)
    case Ended(ok) => ok ==> refresh.stamps !! s.uncovered
  }

  ghost predicate RefreshesOk(s: State) {
    && (forall i | 0 < i < |s.refreshes| :: s.refreshes[i].progress == Waiting)
    && (s.refreshes != [] ==> ProgressOk(s, s.refreshes[0]))
    && (forall i, t | 0 <= i < |s.refreshes| && t in s.refreshes[i].stamps :: t < s.clock)
  }

  ghost predicate DebtOk(s: State) {
    && (s.debt.Some? ==> s.debt.value == s.debtSequence && s.debtAt <= s.clock)
    && s.reflects <= s.clock
  }

  ghost predicate InBatch(batch: seq<Batch>, t: nat) {
    exists b :: b in batch && t in b.stamps
  }

  /** Startup buffer, queue, or the groups of the running flush. */
  ghost predicate Holds(rt: Runtime, t: nat) {
    t in Stamps(rt.startup) || t in Stamps(rt.notes) || InBatch(rt.batch, t)
  }

  ghost predicate Accounted(s: State, t: nat) {
    || (s.listener.Some? && s.listener.value < |s.runtimes| && Holds(s.runtimes[s.listener.value], t))
    || (s.debt.Some? && t < s.debtAt)
  }

  /** No received notification is stranded or lost: a holder or a later debt answers for each uncovered one. */
  ghost predicate AllAccounted(s: State) {
    && (forall t | t in s.uncovered :: t < s.clock)
    && (!s.disposed ==> forall t | t in s.uncovered :: Accounted(s, t))
  }

  /** What a runtime or a batch holds was received before now. */
  ghost predicate HeldBefore(s: State) {
    forall r, t: nat | 0 <= r < |s.runtimes| && Holds(s.runtimes[r], t) :: t < s.clock
  }

  ghost predicate Core(s: State) {
    OneListener(s) && RuntimesOk(s) && FlushesOk(s) && RefreshesOk(s) && DebtOk(s) && AllAccounted(s) && HeldBefore(s)
  }

  ghost predicate Quiet(s: State) {
    forall r | 0 <= r < |s.runtimes| && !s.runtimes[r].closed :: s.runtimes[r].published
  }

  ghost predicate QuietBut(s: State, r: nat) {
    forall q | 0 <= q < |s.runtimes| && !s.runtimes[q].closed && q != r :: s.runtimes[q].published
  }

  /** The only unpublished open runtime belongs to the startup that waits for its refresh. */
  ghost predicate StartupOk(s: State) {
    match s.active
    case Some(StartupRefresh(r, _, _, outcome)) =>
      && r < |s.runtimes| && (!s.runtimes[r].closed ==> !s.runtimes[r].published)
      && QuietBut(s, r)
      && (outcome == Pending ==> InQueue(s, OfStartup(r)))
    case Some(Reactivating(r, outcome)) =>
      Quiet(s) && r < |s.runtimes| && (outcome == Pending ==> InQueue(s, OfReactivation(r)))
    case _ => Quiet(s)
  }

  ghost predicate Inv(s: State) {
    Core(s) && StartupOk(s)
  }

  // ----- Steps that leave the core alone -------------------------------------------------------

  /** Everything the core invariant reads. */
  ghost predicate SameCore(s: State, s': State) {
    && s'.refreshes == s.refreshes && s'.runtimes == s.runtimes && s'.listener == s.listener
    && s'.debt == s.debt && s'.debtSequence == s.debtSequence && s'.debtAt == s.debtAt
    && s'.clock == s.clock && s'.reflects == s.reflects && s'.uncovered == s.uncovered
    && (s.disposed ==> s'.disposed)
  }

  lemma SameCoreKeeps(s: State, s': State)
    requires Core(s) && SameCore(s, s')
    ensures Core(s')
    ensures Quiet(s) ==> Quiet(s')
    ensures StartupOk(s) && s'.active == s.active ==> StartupOk(s')
  {
    hide RuntimeOk, Holds;
    assert forall i | 0 <= i < |s.refreshes| :: FlushOwned(s, s.refreshes[i]) ==> FlushOwned(s', s.refreshes[i]);
    assert forall o :: InQueue(s, o) ==> InQueue(s', o);
    assert s.refreshes != [] ==> ProgressOk(s', s.refreshes[0]);
    assert forall t | t in s.uncovered :: Accounted(s, t) ==> Accounted(s', t);
  }

  /** Time passes. */
  lemma LaterKeeps(s: State, later: nat)
    requires Core(s) && s.clock <= later
    ensures Core(s.(clock := later))
    ensures StartupOk(s) ==> StartupOk(s.(clock := later))
  {
    hide RuntimeOk, Holds;
    var s' := s.(clock := later);
    assert forall i | 0 <= i < |s.refreshes| :: FlushOwned(s, s.refreshes[i]) ==> FlushOwned(s', s.refreshes[i]);
    assert forall o :: InQueue(s, o) ==> InQueue(s', o);
    assert s.refreshes != [] ==> ProgressOk(s', s.refreshes[0]);
    assert forall t | t in s.uncovered :: Accounted(s, t) ==> Accounted(s', t);
  }

  // ----- Recording a debt ----------------------------------------------------------------------

  /** A new debt answers for everything received so far. */
  lemma RecordingKeeps(s: State)
    requires Core(s)
    ensures Core(RequireFullRefresh(s))
    ensures forall t | t in s.uncovered :: t < RequireFullRefresh(s).debtAt
    ensures Quiet(s) ==> Quiet(RequireFullRefresh(s))
    ensures StartupOk(s) ==> StartupOk(RequireFullRefresh(s))
  {
    hide RuntimeOk, Holds;
    var s' := RequireFullRefresh(s);
    assert forall i | 0 <= i < |s.refreshes| :: FlushOwned(s, s.refreshes[i]) ==> FlushOwned(s', s.refreshes[i]);
    assert forall o :: InQueue(s, o) ==> InQueue(s', o);
    assert s.refreshes != [] ==> ProgressOk(s', s.refreshes[0]);
    assert forall t | t in s.uncovered :: Accounted(s', t);
  }

  // ----- Closing a runtime ---------------------------------------------------------------------

  function Closed(s: State, r: nat): State
    requires r < |s.runtimes|
  {
    With(s, r, s.runtimes[r].(closed := true, timer := false)).(listener := if s.listener == Some(r) then None else s.listener)
  }

  /** Closing is safe once a debt answers for what the runtime held, or nothing is owed. */
  /** Closing a runtime takes nothing from the refreshes. */
  lemma ClosingKeepsRefreshes(s: State, r: nat)
    requires RefreshesOk(s) && r < |s.runtimes|
    ensures RefreshesOk(Closed(s, r)) && Closed(s, r).refreshes == s.refreshes
  {
    assert s.refreshes != [] ==> ProgressOk(Closed(s, r), s.refreshes[0]);
  }

  lemma ClosingKeeps(s: State, r: nat)
    requires Core(s) && r < |s.runtimes| && !s.runtimes[r].closed
    requires forall t | t in s.uncovered :: s.debt.Some? && t < s.debtAt
    ensures Core(Closed(s, r)) && Closed(s, r).listener == None && Quiet(Closed(s, r))
  {
    var s' := Closed(s, r);
    assert forall q | 0 <= q < |s.runtimes| && q != r :: s'.runtimes[q] == s.runtimes[q];
    assert forall o :: InQueue(s, o) ==> InQueue(s', o);
    forall i | 0 <= i < |s.refreshes| ensures FlushOwned(s', s'.refreshes[i]) {
      assert FlushOwned(s, s.refreshes[i]);
    }
    ClosingKeepsRefreshes(s, r);
    hide RefreshesOk;
    assert forall t | t in s.uncovered :: Accounted(s', t);
    assert RuntimeOk(s.runtimes[r]);
    forall q, t: nat | 0 <= q < |s'.runtimes| && Holds(s'.runtimes[q], t) ensures t < s'.clock {
      assert Holds(s.runtimes[q], t);
    }
  }

  lemma ListenerClosedKeeps(s: State, r: nat)
    requires Core(s) && r < |s.runtimes|
    ensures Core(OnListenerClosed(s, r))
    ensures !s.disposed && !s.runtimes[r].closed ==> OnListenerClosed(s, r).listener == None && Quiet(OnListenerClosed(s, r))
    ensures Quiet(s) ==> Quiet(OnListenerClosed(s, r))
  {
    if !s.runtimes[r].closed && !s.disposed {
      var owing := RequireFullRefresh(s);
      RecordingKeeps(s);
      ClosingKeeps(owing, r);
      assert SameCore(Closed(owing, r), OnListenerClosed(s, r));
      SameCoreKeeps(Closed(owing, r), OnListenerClosed(s, r));
    }
  }

  lemma StoppingKeeps(s: State, recordDebt: bool)
    requires Core(s)
    ensures Core(StopListener(s, recordDebt)) && StopListener(s, recordDebt).listener == None
    ensures Quiet(StopListener(s, recordDebt))
  {
    hide RuntimeOk, Holds;
    var owing := (if recordDebt then RequireFullRefresh(s) else s.(uncovered := {})).(reconnect := false);
    if recordDebt {
      RecordingKeeps(s);
      SameCoreKeeps(RequireFullRefresh(s), owing);
    } else {
      ForgivingKeeps(s);
      SameCoreKeeps(s.(uncovered := {}), owing);
    }
    if s.listener.Some? {
      ClosingKeeps(owing, s.listener.value);
    }
  }

  lemma ForgivingKeeps(s: State)
    requires Core(s)
    ensures Core(s.(uncovered := {}))
    ensures Quiet(s) ==> Quiet(s.(uncovered := {}))
  {
    hide RuntimeOk, Holds;
    var s' := s.(uncovered := {});
    assert forall i | 0 <= i < |s.refreshes| :: FlushOwned(s, s.refreshes[i]) ==> FlushOwned(s', s.refreshes[i]);
    assert forall o :: InQueue(s, o) ==> InQueue(s', o);
    assert s.refreshes != [] ==> ProgressOk(s', s.refreshes[0]);
  }

  // ----- Changing one runtime without losing what it holds -------------------------------------

  /** `with` takes the place of runtime `r` and still answers for everything uncovered that `r` held. */
  ghost predicate Replaces(s: State, r: nat, rt: Runtime)
    requires r < |s.runtimes|
  {
    && RuntimeOk(rt)
    && rt.closed == s.runtimes[r].closed
    && rt.batch == s.runtimes[r].batch && rt.outcome == s.runtimes[r].outcome && rt.flushing == s.runtimes[r].flushing
    && (!rt.closed ==> forall t: nat | t in s.uncovered && Holds(s.runtimes[r], t) :: Holds(rt, t))
    && (forall t: nat | Holds(rt, t) :: t < s.clock)
  }

  lemma ReplacingKeeps(s: State, r: nat, rt: Runtime)
    requires Core(s) && r < |s.runtimes| && Replaces(s, r, rt)
    ensures Core(With(s, r, rt))
    ensures Quiet(s) && (s.runtimes[r].published ==> rt.published) ==> Quiet(With(s, r, rt))
    ensures StartupOk(s) && rt.published == s.runtimes[r].published ==> StartupOk(With(s, r, rt))
    ensures forall o :: InQueue(s, o) ==> InQueue(With(s, r, rt), o)
  {
    ReplacingAccounts(s, r, rt);
    ReplacingStartup(s, r, rt);
    hide RuntimeOk, Holds, AllAccounted, StartupOk, Quiet;
    var s' := With(s, r, rt);
    assert forall q | 0 <= q < |s.runtimes| && q != r :: s'.runtimes[q] == s.runtimes[q];
    forall i | 0 <= i < |s.refreshes| ensures FlushOwned(s', s'.refreshes[i]) {
      assert FlushOwned(s, s.refreshes[i]);
    }
    assert s.refreshes != [] ==> ProgressOk(s', s.refreshes[0]);
    hide InQueue, FlushOwned, ProgressOk;
  }

  lemma ReplacingStartup(s: State, r: nat, rt: Runtime)
    requires r < |s.runtimes| && Replaces(s, r, rt)
    ensures Quiet(s) && (s.runtimes[r].published ==> rt.published) ==> Quiet(With(s, r, rt))
    ensures StartupOk(s) && rt.published == s.runtimes[r].published ==> StartupOk(With(s, r, rt))
    ensures forall o :: InQueue(s, o) <==> InQueue(With(s, r, rt), o)
  {
    hide RuntimeOk, Holds;
    var s' := With(s, r, rt);
    assert forall q | 0 <= q < |s.runtimes| && q != r :: s'.runtimes[q] == s.runtimes[q];
    assert forall o :: InQueue(s, o) <==> InQueue(s', o);
    hide InQueue;
  }

  lemma ReplacingAccounts(s: State, r: nat, rt: Runtime)
    requires Core(s) && r < |s.runtimes| && Replaces(s, r, rt)
    ensures AllAccounted(With(s, r, rt))
  {
    hide RuntimeOk, Holds, FlushesOk, RefreshesOk, RuntimesOk, HeldBefore;
    var s' := With(s, r, rt);
    forall t | t in s.uncovered && !s.disposed ensures Accounted(s', t) {
      assert Accounted(s, t);
    }
  }

  // ----- Notifications -------------------------------------------------------------------------

  lemma StampsSnoc(notes: seq<Note>, n: Note)
    ensures Stamps(notes + [n]) == Stamps(notes) + {n.at}
  {
    assert forall m :: m in notes + [n] <==> m in notes || m == n;
    assert n in notes + [n];
    assert forall t | t in Stamps(notes) :: t in Stamps(notes + [n]);
  }

  /** The refreshes have not covered any of `u`, and every stamp of `u` is answered for. */
  ghost predicate Fits(s: State, u: set<nat>) {
    && NotCovered(s, u)
    && (forall t | t in u :: t < s.clock)
    && (!s.disposed ==> forall t | t in u :: Accounted(s, t))
  }

  ghost predicate NotCovered(s: State, u: set<nat>) {
    && (forall r | 0 <= r < |s.runtimes| && s.runtimes[r].flushing && s.runtimes[r].outcome == Succeeded ::
          s.runtimes[r].batch != [] && s.runtimes[r].batch[0].stamps !! u)
    && (s.refreshes != [] ==>
          match s.refreshes[0].progress
          case Published(startedAt, _, full, _) =>
            s.refreshes[0].stamps !! u && (full ==> forall t | t in u :: startedAt <= t)
          case Ended(true) => s.refreshes[0].stamps !! u
          case _ => true)
  }

  lemma FittingKeeps(s: State, u: set<nat>)
    requires Core(s) && Fits(s, u)
    ensures Core(s.(uncovered := u))
    ensures StartupOk(s) ==> StartupOk(s.(uncovered := u))
  {
    hide RuntimeOk, Holds;
    var s' := s.(uncovered := u);
    assert forall i | 0 <= i < |s.refreshes| :: FlushOwned(s, s.refreshes[i]) ==> FlushOwned(s', s.refreshes[i]);
    assert forall o :: InQueue(s, o) ==> InQueue(s', o);
    assert s.refreshes != [] ==> ProgressOk(s', s.refreshes[0]);
    assert forall t | t in u :: Accounted(s, t) ==> Accounted(s', t);
  }

  lemma CoreFits(s: State)
    requires Core(s)
    ensures NotCovered(s, s.uncovered)
  {
  }

  /** Adding a notification changes neither the refreshes nor what any flush works on. */
  ghost predicate SameWork(s: State, s': State) {
    && s'.refreshes == s.refreshes && |s'.runtimes| == |s.runtimes| && s'.active == s.active
    && s'.listener == s.listener && s'.clock == s.clock && s'.disposed == s.disposed
    && (forall r | 0 <= r < |s.runtimes| ::
          && s'.runtimes[r].batch == s.runtimes[r].batch && s'.runtimes[r].outcome == s.runtimes[r].outcome
          && s'.runtimes[r].flushing == s.runtimes[r].flushing && s'.runtimes[r].closed == s.runtimes[r].closed
          && s'.runtimes[r].published == s.runtimes[r].published)
    && (s.debt.Some? ==> s'.debt.Some? && s.debtAt <= s'.debtAt)
    && (forall r, t: nat | 0 <= r < |s.runtimes| && Holds(s.runtimes[r], t) :: Holds(s'.runtimes[r], t))
  }

  function Queued(rt: Runtime, note: Note): Runtime {
    rt.(notes := rt.notes + [note], timer := true)
  }

  lemma QueueingHolds(rt: Runtime, note: Note)
    requires RuntimeOk(rt) && note.payload.Usable? && rt.published
    ensures RuntimeOk(Queued(rt, note))
    ensures forall t: nat :: Holds(Queued(rt, note), t) <==> Holds(rt, t) || t == note.at
  {
    StampsSnoc(rt.notes, note);
  }

  lemma QueueingKeeps(s: State, r: nat, note: Note)
    requires Core(s) && r < |s.runtimes| && note.at < s.clock && note.payload.Usable?
    requires s.listener == Some(r) && s.runtimes[r].published
    ensures var s' := With(MarkStale(s), r, Queued(s.runtimes[r], note));
            Core(s') && SameWork(s, s') && Accounted(s', note.at) && (StartupOk(s) ==> StartupOk(s'))
  {
    hide Holds, RuntimeOk, FlushesOk, RefreshesOk, DebtOk, AllAccounted;
    QueueingHolds(s.runtimes[r], note);
    SameCoreKeeps(s, MarkStale(s));
    assert Replaces(MarkStale(s), r, Queued(s.runtimes[r], note));
    ReplacingKeeps(MarkStale(s), r, Queued(s.runtimes[r], note));
  }

  /** A rejected notification records a debt that answers for it. */
  lemma RejectingShape(s: State, schema: string, at: nat)
    requires at < s.clock && DebtOk(s)
    ensures var owing, s' := RequireFullRefresh(s), Reported(MarkStale(RequireFullRefresh(s)), Desynchronized, schema);
            && SameCore(owing, s') && s'.active == owing.active && s'.uncovered == s.uncovered
            && SameWork(s, s') && Accounted(s', at)
  {
    hide Holds;
  }

  lemma SameWorkItself(s: State)
    ensures SameWork(s, s)
  {
    hide Holds;
  }

  /** A listener that takes a notification queues it, or records a debt that answers for it. */
  lemma NotifyingKeeps(s: State, r: nat, note: Note)
    requires Core(s) && r < |s.runtimes| && note.at < s.clock
    requires s.listener == Some(r) ==> s.runtimes[r].published
    ensures Core(OnNotification(s, r, note))
    ensures SameWork(s, OnNotification(s, r, note))
    ensures StartupOk(s) ==> StartupOk(OnNotification(s, r, note))
    ensures s.listener == Some(r) ==> Accounted(OnNotification(s, r, note), note.at)
    ensures OnNotification(s, r, note).uncovered == s.uncovered
  {
    ListenerOpen(s);
    hide Core, SameWork, SameCore, StartupOk, Accounted;
    if s.runtimes[r].closed || s.listener != Some(r) {
      SameWorkItself(s);
    } else if note.payload.Usable? {
      QueueingKeeps(s, r, note);
    } else {
      RecordingKeeps(s);
      RejectingShape(s, s.runtimes[r].schema, note.at);
      SameCoreKeeps(RequireFullRefresh(s), OnNotification(s, r, note));
    }
  }

  lemma ListenerOpen(s: State)
    requires Core(s)
    ensures DebtOk(s)
    ensures s.listener.Some? ==> s.listener.value < |s.runtimes| && !s.runtimes[s.listener.value].closed
  {}

  lemma SameWorkTrans(s0: State, s1: State, s2: State)
    requires SameWork(s0, s1) && SameWork(s1, s2)
    ensures SameWork(s0, s2)
  {
    hide Holds;
  }

  lemma SameWorkAccounts(s: State, s': State, t: nat)
    requires OneListener(s) && SameWork(s, s') && Accounted(s, t)
    ensures Accounted(s', t)
  {
    hide Holds;
  }

  lemma {:induction false} DrainingKeeps(s: State, r: nat, held: seq<Note>)
    requires Core(s) && r < |s.runtimes| && s.listener == Some(r) && s.runtimes[r].published
    requires forall n | n in held :: n.at < s.clock
    ensures var d := DrainStartup(s, r, held);
            && Core(d) && SameWork(s, d) && (StartupOk(s) ==> StartupOk(d))
            && (forall t | t in Stamps(held) :: Accounted(d, t))
            && d.uncovered == s.uncovered
    decreases |held|
  {
    hide OneListener, RuntimesOk, FlushesOk, RefreshesOk, DebtOk, AllAccounted, HeldBefore, StartupOk, Holds, Accounted, OnNotification;
    if held != [] {
      var s1 := OnNotification(s, r, held[0]);
      NotifyingKeeps(s, r, held[0]);
      assert forall n | n in held[1..] :: n in held;
      DrainingKeeps(s1, r, held[1..]);
      var d := DrainStartup(s, r, held);
      SameWorkTrans(s, s1, d);
      forall t | t in Stamps(held) ensures Accounted(d, t) {
        if t == held[0].at {
          SameWorkAccounts(s1, d, t);
        } else {
          assert held == [held[0]] + held[1..];
          assert t in Stamps(held[1..]);
        }
      }
    }
  }

  // ----- New stamps ----------------------------------------------------------------------------

  /** Stamps from now on cannot have been covered by a refresh that already started. */
  lemma NewStampsNotCovered(s: State, fresh_: set<nat>)
    requires Core(s) && forall t | t in fresh_ :: s.clock <= t
    ensures NotCovered(s, s.uncovered + fresh_)
  {
    hide RuntimeOk, FlushOwned;
    forall r | 0 <= r < |s.runtimes| && s.runtimes[r].flushing && s.runtimes[r].outcome == Succeeded
      ensures s.runtimes[r].batch != [] && s.runtimes[r].batch[0].stamps !! (s.uncovered + fresh_)
    {
      forall t | t in s.runtimes[r].batch[0].stamps ensures t < s.clock {
        assert s.runtimes[r].batch[0] in s.runtimes[r].batch && Holds(s.runtimes[r], t);
      }
    }
  }

  lemma SameWorkNotCovered(s: State, s': State, u: set<nat>)
    requires NotCovered(s, u) && SameWork(s, s')
    ensures NotCovered(s', u)
  {
    hide Holds;
  }

  /** After the listener took notification `s.clock`, that stamp joins the uncovered ones. */
  lemma TrackingKeeps(s: State, s1: State)
    requires Core(s) && Inv(s1) && SameWork(s.(clock := s.clock + 1), s1) && s1.uncovered == s.uncovered
    requires Accounted(s1, s.clock)
    ensures Inv(s1.(uncovered := s.uncovered + {s.clock}))
  {
    hide RuntimesOk, FlushesOk, RefreshesOk, DebtOk, HeldBefore, StartupOk, Holds, NotCovered;
    var ticked, u := s.(clock := s.clock + 1), s.uncovered + {s.clock};
    NewStampsNotCovered(s, {s.clock});
    LaterNotCovered(s, s.clock + 1, u);
    SameWorkNotCovered(ticked, s1, u);
    FreshFits(s, s1, u);
    FittingKeeps(s1, u);
  }

  lemma LaterNotCovered(s: State, later: nat, u: set<nat>)
    requires NotCovered(s, u)
    ensures NotCovered(s.(clock := later), u)
  {
  }

  lemma ReceivingKeeps(s: State, r: nat, payload: Payload)
    requires Inv(s) && r < |s.runtimes|
    ensures Inv(Received(s, r, payload))
  {
    hide RuntimesOk, FlushesOk, RefreshesOk, DebtOk, AllAccounted, HeldBefore, StartupOk, Holds, Accounted, SameWork;
    var note, rt := Note(s.clock, payload), s.runtimes[r];
    var ticked := s.(clock := s.clock + 1);
    LaterKeeps(s, s.clock + 1);
    if !rt.closed && s.listener == Some(r) {
      if rt.published {
        NotifyingKeeps(ticked, r, note);
        TrackingKeeps(s, OnNotification(ticked, r, note));
        NotifyingIgnoresUncovered(ticked, s.uncovered + {s.clock}, r, note);
      } else {
        BufferingKeeps(ticked, r, note);
        TrackingKeeps(s, With(ticked, r, rt.(startup := rt.startup + [note])));
      }
    }
  }

  lemma NotifyingIgnoresUncovered(s: State, u: set<nat>, r: nat, note: Note)
    requires r < |s.runtimes|
    ensures OnNotification(s.(uncovered := u), r, note) == OnNotification(s, r, note).(uncovered := u)
  {
    var s' := s.(uncovered := u);
    if s.runtimes[r].closed || s.listener != Some(r) {
    } else if note.payload.Usable? {
      var rt := s.runtimes[r].(notes := s.runtimes[r].notes + [note], timer := true);
      assert With(MarkStale(s'), r, rt) == With(MarkStale(s), r, rt).(uncovered := u);
    } else {
      assert RequireFullRefresh(s') == RequireFullRefresh(s).(uncovered := u);
    }
  }

  lemma FreshFits(s: State, s1: State, u: set<nat>)
    requires AllAccounted(s) && AllAccounted(s1) && s1.uncovered == s.uncovered && s1.clock == s.clock + 1
    requires NotCovered(s1, u) && u == s.uncovered + {s.clock} && Accounted(s1, s.clock)
    ensures Fits(s1, u)
  {
    hide Holds, NotCovered;
  }

  /** A starting listener keeps what it receives in its startup buffer. */
  lemma BufferingKeeps(s: State, r: nat, note: Note)
    requires Core(s) && StartupOk(s) && r < |s.runtimes| && note.at < s.clock
    requires !s.runtimes[r].published && s.listener == Some(r)
    ensures var s' := With(s, r, s.runtimes[r].(startup := s.runtimes[r].startup + [note]));
            Core(s') && SameWork(s, s') && StartupOk(s') && Accounted(s', note.at) && s'.uncovered == s.uncovered
  {
    hide FlushesOk, RefreshesOk, AllAccounted;
    var rt := s.runtimes[r].(startup := s.runtimes[r].startup + [note]);
    StampsSnoc(s.runtimes[r].startup, note);
    assert RuntimeOk(s.runtimes[r]);
    assert forall t: nat :: Holds(rt, t) <==> Holds(s.runtimes[r], t) || t == note.at;
    assert Replaces(s, r, rt);
    ReplacingKeeps(s, r, rt);
    assert forall q | 0 <= q < |s.runtimes| && q != r :: With(s, r, rt).runtimes[q] == s.runtimes[q];
  }

  // ----- Refreshes entering the queue ----------------------------------------------------------

  lemma EnqueueingKeeps(s: State, owner: Owner)
    requires Core(s) && !owner.OfFlush?
    ensures Core(EnqueueRefresh(s, owner, true, [], {}))
    ensures InQueue(EnqueueRefresh(s, owner, true, [], {}), owner)
    ensures forall o :: InQueue(s, o) ==> InQueue(EnqueueRefresh(s, owner, true, [], {}), o)
    ensures Quiet(s) ==> Quiet(EnqueueRefresh(s, owner, true, [], {}))
  {
    hide RuntimeOk, Holds;
    var s' := EnqueueRefresh(s, owner, true, [], {});
    assert forall i | 0 <= i < |s.refreshes| :: s'.refreshes[i] == s.refreshes[i];
    assert s'.refreshes[|s.refreshes|].owner == owner;
    forall o | InQueue(s, o) ensures InQueue(s', o) {
      var i :| 0 <= i < |s.refreshes| && s.refreshes[i].owner == o;
      assert s'.refreshes[i].owner == o;
    }
    forall i | 0 <= i < |s'.refreshes| ensures FlushOwned(s', s'.refreshes[i]) {
      if i < |s.refreshes| {
        assert FlushOwned(s, s.refreshes[i]);
      }
    }
    assert s.refreshes != [] ==> ProgressOk(s', s.refreshes[0]);
    assert forall t | t in s.uncovered :: Accounted(s, t) ==> Accounted(s', t);
  }

  // ----- Flushing ------------------------------------------------------------------------------

  /** Runtime `r` is not waiting for a refresh, and `rt` goes on with everything uncovered it holds. */
  ghost predicate Reworks(s: State, r: nat, rt: Runtime)
    requires r < |s.runtimes|
  {
    && !(s.runtimes[r].flushing && s.runtimes[r].outcome == Pending)
    && RuntimeOk(rt)
    && rt.closed == s.runtimes[r].closed && rt.published == s.runtimes[r].published
    && rt.outcome == Pending
    && (forall t: nat | Holds(rt, t) :: t < s.clock)
    && (!s.disposed && !rt.closed ==> forall t: nat | t in s.uncovered && Holds(s.runtimes[r], t) :: Holds(rt, t))
  }

  function Reworked(s: State, r: nat, rt: Runtime): State
    requires r < |s.runtimes|
  {
    if rt.batch == [] then With(s, r, rt)
    else EnqueueRefresh(With(s, r, rt), OfFlush(r), rt.batch[0].group.fallback, rt.batch[0].group.objects, rt.batch[0].stamps)
  }

  lemma ReworkNotQueued(s: State, r: nat, rt: Runtime)
    requires Core(s) && r < |s.runtimes| && Reworks(s, r, rt)
    ensures forall i | 0 <= i < |s.refreshes| :: s.refreshes[i].owner != OfFlush(r)
  {
    hide Holds;
    assert RuntimeOk(s.runtimes[r]);
    assert forall i | 0 <= i < |s.refreshes| :: FlushOwned(s, s.refreshes[i]);
  }

  lemma ReworkQueues(s: State, r: nat, rt: Runtime)
    requires r < |s.runtimes|
    ensures forall o :: InQueue(s, o) ==> InQueue(Reworked(s, r, rt), o)
    ensures rt.batch != [] ==> InQueue(Reworked(s, r, rt), OfFlush(r))
  {
    var s' := Reworked(s, r, rt);
    forall o | InQueue(s, o) ensures InQueue(s', o) {
      var i :| 0 <= i < |s.refreshes| && s.refreshes[i].owner == o;
      assert s'.refreshes[i].owner == o;
    }
    if rt.batch != [] {
      assert s'.refreshes[|s.refreshes|].owner == OfFlush(r);
    }
  }

  lemma ReworkOwned(s: State, r: nat, rt: Runtime)
    requires Core(s) && r < |s.runtimes| && Reworks(s, r, rt)
    ensures AllOwned(Reworked(s, r, rt))
  {
    hide Holds, RuntimeOk, RefreshesOk, AllAccounted, HeldBefore;
    var s' := Reworked(s, r, rt);
    ReworkNotQueued(s, r, rt);
    forall i | 0 <= i < |s'.refreshes| ensures FlushOwned(s', s'.refreshes[i]) {
      if i < |s.refreshes| {
        assert s'.refreshes[i] == s.refreshes[i] && s.refreshes[i].owner != OfFlush(r);
        assert FlushOwned(s, s.refreshes[i]);
      }
    }
  }

  lemma ReworkOnce(s: State, r: nat, rt: Runtime)
    requires Core(s) && r < |s.runtimes| && Reworks(s, r, rt)
    ensures FlushedOnce(Reworked(s, r, rt))
  {
    ReworkNotQueued(s, r, rt);
    hide Holds, FlushOwned, RefreshesOk, AllAccounted, HeldBefore, InQueue, Reworks, RuntimesOk, OneListener;
    var s' := Reworked(s, r, rt);
    assert forall i | 0 <= i < |s.refreshes| :: s'.refreshes[i] == s.refreshes[i];
  }

  lemma ReworkAwaits(s: State, r: nat, rt: Runtime)
    requires Core(s) && r < |s.runtimes| && Reworks(s, r, rt)
    ensures FlushesAwait(Reworked(s, r, rt))
  {
    ReworkQueues(s, r, rt);
    hide Holds, FlushOwned, RefreshesOk, AllAccounted, HeldBefore, InQueue, RuntimesOk, OneListener, FlushedOnce, AllOwned;
    var s' := Reworked(s, r, rt);
    assert s'.uncovered == s.uncovered && s'.runtimes == s.runtimes[r := rt];
    hide Reworked;
    assert forall q | 0 <= q < |s.runtimes| && q != r :: s'.runtimes[q] == s.runtimes[q];
  }

  lemma ReworkFlushes(s: State, r: nat, rt: Runtime)
    requires Core(s) && r < |s.runtimes| && Reworks(s, r, rt)
    ensures FlushesOk(Reworked(s, r, rt))
  {
    hide Core, Reworks, Reworked, FlushedOnce, FlushesAwait;
    ReworkOwned(s, r, rt);
    ReworkOnce(s, r, rt);
    ReworkAwaits(s, r, rt);
  }

  lemma ReworkStamps(s: State, r: nat, rt: Runtime)
    requires r < |s.runtimes| && Reworks(s, r, rt) && rt.batch != []
    ensures forall t | t in rt.batch[0].stamps :: t < s.clock
  {
    forall t | t in rt.batch[0].stamps ensures t < s.clock {
      assert rt.batch[0] in rt.batch && InBatch(rt.batch, t) && Holds(rt, t);
    }
  }

  lemma ReworkRefreshes(s: State, r: nat, rt: Runtime)
    requires Core(s) && r < |s.runtimes| && Reworks(s, r, rt)
    ensures RefreshesOk(Reworked(s, r, rt))
  {
    if rt.batch != [] {
      ReworkStamps(s, r, rt);
    }
    hide Reworks, OneListener, RuntimesOk, FlushesOk, AllAccounted, HeldBefore, DebtOk;
    var s' := Reworked(s, r, rt);
    assert forall i | 0 <= i < |s.refreshes| :: s'.refreshes[i] == s.refreshes[i];
    assert s.refreshes != [] ==> ProgressOk(s', s.refreshes[0]);
    hide ProgressOk;
  }

  lemma ReworkAccounts(s: State, r: nat, rt: Runtime)
    requires Core(s) && r < |s.runtimes| && Reworks(s, r, rt)
    ensures AllAccounted(Reworked(s, r, rt))
  {
    hide Holds, FlushesOk, RefreshesOk, RuntimeOk, HeldBefore;
    var s' := Reworked(s, r, rt);
    forall t | t in s.uncovered && !s.disposed ensures Accounted(s', t) {
      assert Accounted(s, t);
    }
  }

  lemma ReworkStartup(s: State, r: nat, rt: Runtime)
    requires r < |s.runtimes| && Reworks(s, r, rt)
    ensures Quiet(s) ==> Quiet(Reworked(s, r, rt))
    ensures StartupOk(s) ==> StartupOk(Reworked(s, r, rt))
  {
    ReworkQueues(s, r, rt);
    ReworkedShape(s, r, rt);
    hide Holds, RuntimeOk, InQueue, Reworked, Reworks;
  }

  lemma ReworkedShape(s: State, r: nat, rt: Runtime)
    requires r < |s.runtimes| && Reworks(s, r, rt)
    ensures var s' := Reworked(s, r, rt);
            && s'.active == s.active && |s'.runtimes| == |s.runtimes|
            && forall q | 0 <= q < |s.runtimes| ::
                 s'.runtimes[q].closed == s.runtimes[q].closed && s'.runtimes[q].published == s.runtimes[q].published
  {}

  lemma ReworkedRuntimes(s: State, r: nat, rt: Runtime)
    requires r < |s.runtimes|
    ensures var s' := Reworked(s, r, rt);
            s'.runtimes == s.runtimes[r := rt] && s'.listener == s.listener && s'.clock == s.clock
  {}

  lemma ReworkHolds(s: State, r: nat, rt: Runtime)
    requires Core(s) && r < |s.runtimes| && Reworks(s, r, rt)
    ensures OneListener(Reworked(s, r, rt)) && HeldBefore(Reworked(s, r, rt)) && RuntimesOk(Reworked(s, r, rt))
  {
    hide FlushesOk, RefreshesOk, Holds, AllAccounted, RuntimeOk, DebtOk, Reworked;
    ReworkedRuntimes(s, r, rt);
  }

  lemma ReworkingKeeps(s: State, r: nat, rt: Runtime)
    requires Core(s) && r < |s.runtimes| && Reworks(s, r, rt)
    ensures Core(Reworked(s, r, rt))
    ensures Quiet(s) ==> Quiet(Reworked(s, r, rt))
    ensures StartupOk(s) ==> StartupOk(Reworked(s, r, rt))
  {
    hide OneListener, RuntimesOk, FlushesOk, RefreshesOk, AllAccounted, HeldBefore, Quiet, StartupOk, Reworks;
    ReworkFlushes(s, r, rt);
    ReworkRefreshes(s, r, rt);
    ReworkAccounts(s, r, rt);
    ReworkHolds(s, r, rt);
    ReworkStartup(s, r, rt);
  }

  // The groups of a batch hold exactly the stamps of the notifications they were made of.

  lemma {:induction false} UsablePayloadsHold(notes: seq<Note>, n: Note)
    requires n in notes && n.payload.Usable?
    ensures n.payload.notification in UsablePayloads(notes)
  {
    var last := notes[|notes| - 1];
    if n != last {
      assert n in notes[..|notes| - 1];
      UsablePayloadsHold(notes[..|notes| - 1], n);
    }
  }

  lemma BatchesHold(notes: seq<Note>)
    requires forall n | n in notes :: n.payload.Usable?
    ensures forall t: nat :: InBatch(Batches(notes), t) <==> t in Stamps(notes)
    ensures notes != [] ==> Batches(notes) != []
  {
    var groups := N.Coalesce(UsablePayloads(notes));
    var batch := Batches(notes);
    forall n | n in notes ensures InBatch(batch, n.at) {
      UsablePayloadsHold(notes, n);
      N.CoalesceKeepsEverything(UsablePayloads(notes), n.payload.notification);
      var g :| g in groups && N.GroupKey(g) == N.KeyOf(n.payload.notification);
      var i :| 0 <= i < |groups| && groups[i] == g;
      assert batch[i] == BatchOf(notes, g) && batch[i] in batch && n.at in batch[i].stamps;
    }
    if notes != [] {
      assert InBatch(batch, notes[0].at);
    }
  }

  lemma FlushEndingKeeps(s: State, r: nat)
    requires Core(s) && r < |s.runtimes|
    requires s.runtimes[r].flushing ==> s.runtimes[r].outcome != Pending
    requires !s.disposed && !s.runtimes[r].closed ==>
               forall t: nat | t in s.uncovered :: !InBatch(s.runtimes[r].batch, t)
    ensures Core(FlushEnds(s, r))
    ensures StartupOk(s) ==> StartupOk(FlushEnds(s, r))
  {
    hide FlushesOk, RefreshesOk, AllAccounted, InQueue;
    var rt := s.runtimes[r];
    var ended := rt.(flushing := false, batch := [], outcome := Pending, timer := rt.timer || (!rt.closed && rt.notes != []));
    assert RuntimeOk(rt);
    assert forall t: nat | Holds(ended, t) :: Holds(rt, t);
    assert Reworks(s, r, ended);
    ReworkingKeeps(s, r, ended);
  }

  /** The head of the draining loop, entered by a timer (`timer` was just cleared) or after the last group of a batch. */
  ghost predicate EntersLoop(s: State, r: nat, rt: Runtime)
    requires r < |s.runtimes|
  {
    var was := s.runtimes[r];
    && rt == was.(timer := rt.timer, flushing := true, batch := [], outcome := rt.outcome)
    && (was.flushing ==> was.outcome != Pending)
    && (!was.published ==> !rt.timer)
    && (!s.disposed && !was.closed ==> forall t: nat | t in s.uncovered :: !InBatch(was.batch, t))
  }

  function LoopRuntime(rt: Runtime): Runtime {
    if rt.closed || rt.notes == [] then
      rt.(flushing := false, batch := [], outcome := Pending, timer := rt.timer || (!rt.closed && rt.notes != []))
    else rt.(notes := [], batch := Batches(rt.notes), outcome := Pending)
  }

  lemma LoopReworks(s: State, r: nat, rt: Runtime)
    requires Core(s) && r < |s.runtimes| && EntersLoop(s, r, rt)
    ensures Reworks(s, r, LoopRuntime(rt))
  {
    hide FlushesOk, RefreshesOk, AllAccounted, Batches;
    var was, on := s.runtimes[r], LoopRuntime(rt);
    assert RuntimeOk(was);
    BatchesHold(was.notes);
    assert forall t: nat | Holds(on, t) :: Holds(was, t);
    assert RuntimeOk(on);
  }

  lemma FlushLoopsIs(s: State, r: nat, rt: Runtime)
    requires r < |s.runtimes| && (rt.notes != [] ==> Batches(rt.notes) != [])
    ensures FlushLoops(With(s, r, rt), r) == Reworked(s, r, LoopRuntime(rt))
  {
    hide Batches;
    var on := LoopRuntime(rt);
    assert s.runtimes[r := rt][r := on] == s.runtimes[r := on];
    assert s.runtimes[r := rt][r := rt.(notes := [])][r := on] == s.runtimes[r := on];
  }

  lemma FlushLoopingKeeps(s: State, r: nat, rt: Runtime)
    requires Core(s) && r < |s.runtimes| && EntersLoop(s, r, rt)
    ensures Core(FlushLoops(With(s, r, rt), r))
    ensures StartupOk(s) ==> StartupOk(FlushLoops(With(s, r, rt), r))
  {
    hide FlushesOk, RefreshesOk, AllAccounted, HeldBefore, StartupOk, Reworks, Batches, LoopRuntime, FlushLoops, Reworked;
    LoopReworks(s, r, rt);
    ReworkingKeeps(s, r, LoopRuntime(rt));
    assert RuntimeOk(s.runtimes[r]);
    BatchesHold(rt.notes);
    FlushLoopsIs(s, r, rt);
  }

  lemma FlushStartingKeeps(s: State, r: nat)
    requires Inv(s) && r < |s.runtimes| && s.runtimes[r].timer
    ensures Inv(FlushStarts(s, r))
  {
    hide FlushesOk, RefreshesOk, AllAccounted, StartupOk, FlushLoops;
    var was := s.runtimes[r];
    var rt := was.(timer := false);
    assert RuntimeOk(was);
    if rt.flushing || rt.closed {
      assert forall t: nat :: Holds(rt, t) <==> Holds(was, t);
      assert Replaces(s, r, rt);
      ReplacingKeeps(s, r, rt);
    } else {
      assert EntersLoop(s, r, rt.(flushing := true));
      FlushLoopingKeeps(s, r, rt.(flushing := true));
      assert With(With(s, r, rt), r, rt.(flushing := true)) == With(s, r, rt.(flushing := true));
    }
  }

  /** A covered first group leaves nothing of it uncovered. */
  lemma CoveredGroup(s: State, r: nat)
    requires Core(s) && r < |s.runtimes| && s.runtimes[r].batch != [] && s.runtimes[r].outcome == Succeeded
    ensures forall t: nat | t in s.uncovered && InBatch(s.runtimes[r].batch, t) :: InBatch(s.runtimes[r].batch[1..], t)
  {
    var batch := s.runtimes[r].batch;
    assert RuntimeOk(s.runtimes[r]) && s.runtimes[r].flushing;
    forall t: nat | t in s.uncovered && InBatch(batch, t) ensures InBatch(batch[1..], t) {
      var b :| b in batch && t in b.stamps;
      assert batch == [batch[0]] + batch[1..];
    }
  }

  lemma NextGroupKeeps(s: State, r: nat)
    requires Core(s) && r < |s.runtimes| && |s.runtimes[r].batch| > 1 && s.runtimes[r].outcome == Succeeded
    ensures Core(AwaitBatch(s, r, s.runtimes[r].batch[1..]))
    ensures StartupOk(s) ==> StartupOk(AwaitBatch(s, r, s.runtimes[r].batch[1..]))
  {
    hide FlushesOk, RefreshesOk, AllAccounted, StartupOk;
    var rt := s.runtimes[r].(batch := s.runtimes[r].batch[1..], outcome := Pending);
    CoveredGroup(s, r);
    assert RuntimeOk(s.runtimes[r]);
    forall t: nat | Holds(rt, t) ensures Holds(s.runtimes[r], t) {
      if InBatch(rt.batch, t) {
        var b :| b in rt.batch && t in b.stamps;
        assert b in s.runtimes[r].batch;
      }
    }
    assert Reworks(s, r, rt);
    ReworkingKeeps(s, r, rt);
  }

  lemma FlushFailingKeeps(s: State, r: nat)
    requires Inv(s) && r < |s.runtimes| && s.runtimes[r].batch != [] && s.runtimes[r].outcome == Failed
    ensures Inv(FlushEnds(OnListenerClosed(s, r), r))
  {
    hide FlushesOk, RefreshesOk, AllAccounted, HeldBefore, FlushEnds, Reworks;
    ListenerClosedKeeps(s, r);
    ListenerClosedStartup(s, r);
    FlushEndingKeeps(OnListenerClosed(s, r), r);
  }

  /** A startup whose runtime is closed under it still knows its own runtime. */
  lemma ListenerClosedStartup(s: State, r: nat)
    requires Inv(s) && r < |s.runtimes|
    ensures StartupOk(OnListenerClosed(s, r))
  {
    hide FlushesOk, RefreshesOk, AllAccounted, HeldBefore, RuntimeOk;
    ListenerClosedKeeps(s, r);
    assert OnListenerClosed(s, r).refreshes == s.refreshes;
  }

  lemma FlushContinuingKeeps(s: State, r: nat)
    requires Inv(s) && r < |s.runtimes| && s.runtimes[r].batch != [] && s.runtimes[r].outcome != Pending
    ensures Inv(FlushContinues(s, r))
  {
    hide FlushesOk, RefreshesOk, AllAccounted, HeldBefore, FlushEnds, AwaitBatch, FlushLoops, OnListenerClosed, StartupOk;
    var rt := s.runtimes[r];
    if rt.outcome == Failed {
      assert RuntimeOk(rt);
      FlushFailingKeeps(s, r);
    } else if rt.closed {
      FlushEndingKeeps(s, r);
    } else if |rt.batch| > 1 {
      NextGroupKeeps(s, r);
    } else {
      CoveredGroup(s, r);
      assert EntersLoop(s, r, rt.(batch := [], outcome := Pending));
      FlushLoopingKeeps(s, r, rt.(batch := [], outcome := Pending));
    }
  }

  // ----- The running refresh -------------------------------------------------------------------

  lemma HeadKeeps(s: State, progress: Progress)
    requires Inv(s) && s.refreshes != [] && ProgressOk(s, s.refreshes[0].(progress := progress))
    ensures Inv(Head(s, progress))
  {
    hide RuntimeOk, Holds;
    var s' := Head(s, progress);
    forall i | 0 <= i < |s.refreshes| ensures FlushOwned(s', s'.refreshes[i]) {
      assert FlushOwned(s, s.refreshes[i]);
    }
    forall o | InQueue(s, o) ensures InQueue(s', o) {
      var i :| 0 <= i < |s.refreshes| && s.refreshes[i].owner == o;
      assert s'.refreshes[i].owner == o;
    }
    assert forall t | t in s.uncovered :: Accounted(s, t) ==> Accounted(s', t);
  }

  lemma RefreshStartingKeeps(s: State)
    requires Inv(s) && Enabled(s, RefreshStarts)
    ensures Inv(Next(s, RefreshStarts))
  {
    HeadKeeps(s, Reading(s.clock, s.debt, s.refreshes[0].fallback || s.debt.Some?));
  }

  lemma RefreshReadingKeeps(s: State)
    requires Inv(s) && Enabled(s, RefreshReads)
    ensures Inv(Next(s, RefreshReads))
  {
    hide Core, StartupOk;
    var p := s.refreshes[0].progress;
    var read := ReadCatalog(p.startedAt, p.captured, p.full, s.clock);
    assert ProgressOk(s, s.refreshes[0].(progress := read)) by { ReadingProgress(s); }
    HeadKeeps(s, read);
    MarkingKeeps(Head(s, read));
  }

  lemma ReadingProgress(s: State)
    requires Inv(s) && Enabled(s, RefreshReads)
    ensures var p := s.refreshes[0].progress;
            ProgressOk(s, s.refreshes[0].(progress := ReadCatalog(p.startedAt, p.captured, p.full, s.clock)))
  {
    assert ProgressOk(s, s.refreshes[0]);
  }

  lemma MarkingKeeps(s: State)
    requires Inv(s)
    ensures Inv(MarkStale(s))
  {
    SameCoreKeeps(s, MarkStale(s));
  }

  lemma RefreshFailingKeeps(s: State)
    requires Inv(s) && Enabled(s, RefreshFails)
    ensures Inv(Next(s, RefreshFails))
  {
    HeadKeeps(s, Ended(false));
  }

  function Remaining(s: State): set<nat>
    requires s.refreshes != [] && s.refreshes[0].progress.ReadCatalog?
  {
    var refresh := s.refreshes[0];
    var p := refresh.progress;
    set t | t in s.uncovered && t !in refresh.stamps && !(p.full && t < p.startedAt)
  }

  lemma RemainingFits(s: State)
    requires Core(s) && s.refreshes != [] && s.refreshes[0].progress.ReadCatalog?
    ensures Fits(s, Remaining(s))
  {
    hide RuntimeOk, Holds;
    assert Remaining(s) <= s.uncovered;
  }

  /** The index holds what the refresh read; the progress itself is not yet noted. */
  function Reflecting(s: State, clean: bool): State
    requires s.refreshes != [] && s.refreshes[0].progress.ReadCatalog?
  {
    var p := s.refreshes[0].progress;
    s.(uncovered := Remaining(s)).(reflects := if p.full then Max(s.reflects, p.at) else s.reflects, stale := s.stale && !clean)
  }

  lemma PublishedIs(s: State, clean: bool)
    requires s.refreshes != [] && s.refreshes[0].progress.ReadCatalog?
    ensures var p := s.refreshes[0].progress;
            Publish(s, clean) == Head(Reflecting(s, clean), Published(p.startedAt, p.captured, p.full, p.at))
  {}

  lemma ReflectingAfterReadKeeps(s: State, clean: bool)
    requires Inv(s) && s.refreshes != [] && s.refreshes[0].progress.ReadCatalog?
    ensures Inv(Reflecting(s, clean))
  {
    var p := s.refreshes[0].progress;
    assert ProgressOk(s, s.refreshes[0]);
    assert p.at <= s.clock && s.reflects <= s.clock;
    RemainingFits(s);
    hide Core, StartupOk, Fits, ProgressOk, Remaining;
    FittingKeeps(s, Remaining(s));
    ReflectingKeeps(s.(uncovered := Remaining(s)), Reflecting(s, clean).reflects, Reflecting(s, clean).stale);
  }

  lemma PublishingKeeps(s: State, clean: bool)
    requires Inv(s) && Enabled(s, RefreshPublishes(clean))
    ensures Inv(Next(s, RefreshPublishes(clean)))
  {
    var p := s.refreshes[0].progress;
    ListenerThere(s);
    assert ProgressOk(s, s.refreshes[0]);
    ReflectingAfterReadKeeps(s, clean);
    PublishedProgress(s, Reflecting(s, clean));
    PublishedIs(s, clean);
    assert Reflecting(s, clean).refreshes == s.refreshes;
    hide Inv, ProgressOk, Publish, Head, Reflecting, Remaining;
    HeadKeeps(Reflecting(s, clean), Published(p.startedAt, p.captured, p.full, p.at));
  }

  lemma PublishedProgress(s: State, s': State)
    requires s.refreshes != [] && s.refreshes[0].progress.ReadCatalog? && ProgressOk(s, s.refreshes[0])
    requires s'.clock == s.clock && s'.debt == s.debt && s'.debtSequence == s.debtSequence && s'.debtAt == s.debtAt
    requires s'.uncovered == Remaining(s) && (s.refreshes[0].progress.full ==> s.refreshes[0].progress.at <= s'.reflects)
    ensures var p := s.refreshes[0].progress;
            ProgressOk(s', s.refreshes[0].(progress := Published(p.startedAt, p.captured, p.full, p.at)))
  {}

  lemma ReflectingKeeps(s: State, upTo: nat, stale: bool)
    requires Inv(s) && s.reflects <= upTo <= s.clock
    ensures Inv(s.(reflects := upTo, stale := stale))
  {
    hide RuntimeOk, Holds;
    var s' := s.(reflects := upTo, stale := stale);
    assert forall i | 0 <= i < |s.refreshes| :: FlushOwned(s, s.refreshes[i]) ==> FlushOwned(s', s.refreshes[i]);
    assert forall o :: InQueue(s, o) ==> InQueue(s', o);
    assert s.refreshes != [] ==> ProgressOk(s', s.refreshes[0]);
    assert forall t | t in s.uncovered :: Accounted(s, t) ==> Accounted(s', t);
  }

  /** A debt that a published full refresh captured answers for nothing any more. */
  lemma PayingKeeps(s: State)
    requires Inv(s) && s.refreshes != [] && s.refreshes[0].progress.Published?
    requires s.refreshes[0].progress.captured.Some? && s.debt == s.refreshes[0].progress.captured
    ensures Inv(s.(debt := None))
  {
    hide RuntimeOk, Holds;
    var s' := s.(debt := None);
    assert ProgressOk(s, s.refreshes[0]);
    assert forall i | 0 <= i < |s.refreshes| :: FlushOwned(s, s.refreshes[i]) ==> FlushOwned(s', s.refreshes[i]);
    assert forall o :: InQueue(s, o) ==> InQueue(s', o);
    forall t | t in s.uncovered && !s.disposed ensures Accounted(s', t) {
      assert Accounted(s, t);
    }
  }

  lemma CompletingKeeps(s: State)
    requires Inv(s) && Enabled(s, RefreshCompletes)
    ensures Inv(Next(s, RefreshCompletes))
  {
    hide RuntimesOk, FlushesOk, RefreshesOk, DebtOk, AllAccounted, HeldBefore, StartupOk, ProgressOk;
    var p := s.refreshes[0].progress;
    var paid := s.(debt := if p.captured.Some? && s.debt == p.captured then None else s.debt);
    if p.captured.Some? && s.debt == p.captured {
      PayingKeeps(s);
    }
    assert Inv(paid);
    EndedProgress(paid);
    HeadKeeps(paid, Ended(true));
    CompleteShape(s);
    hide Complete, Head, SameCore;
    SameCoreKeeps(Head(paid, Ended(true)), Complete(s));
  }

  lemma CompleteShape(s: State)
    requires s.refreshes != [] && s.refreshes[0].progress.Published? && ListenerExists(s)
    ensures var p := s.refreshes[0].progress;
            var paid := s.(debt := if p.captured.Some? && s.debt == p.captured then None else s.debt);
            SameCore(Head(paid, Ended(true)), Complete(s)) && Complete(s).active == s.active
  {}

  lemma EndedProgress(s: State)
    requires Inv(s) && s.refreshes != [] && s.refreshes[0].progress.Published?
    ensures ProgressOk(s, s.refreshes[0].(progress := Ended(true)))
  {
    assert ProgressOk(s, s.refreshes[0]);
  }

  lemma PoppedQueue(s: State, s': State)
    requires s.refreshes != [] && s'.refreshes == s.refreshes[1..]
    ensures forall o | o != s.refreshes[0].owner && InQueue(s, o) :: InQueue(s', o)
  {
    forall o | o != s.refreshes[0].owner && InQueue(s, o) ensures InQueue(s', o) {
      var i :| 0 <= i < |s.refreshes| && s.refreshes[i].owner == o;
      assert s'.refreshes[i - 1].owner == o;
    }
  }

  /** What settling changes: the queue loses its head, and the awaiting flush learns its outcome. */
  lemma SettledShape(s: State)
    requires s.refreshes != [] && s.refreshes[0].progress.Ended? && FlushOwned(s, s.refreshes[0])
    ensures var s', head := Settle(s), s.refreshes[0];
            && s'.refreshes == s.refreshes[1..] && |s'.runtimes| == |s.runtimes|
            && s'.listener == s.listener && s'.disposed == s.disposed && s'.clock == s.clock
            && s'.debt == s.debt && s'.debtSequence == s.debtSequence && s'.debtAt == s.debtAt
            && s'.reflects == s.reflects && s'.uncovered == s.uncovered
            && forall r | 0 <= r < |s.runtimes| ::
                 s'.runtimes[r] == if head.owner == OfFlush(r)
                                   then s.runtimes[r].(outcome := if head.progress.ok then Succeeded else Failed)
                                   else s.runtimes[r]
  {
    InformedShape(s.(refreshes := s.refreshes[1..]), s.refreshes[0].owner, if s.refreshes[0].progress.ok then Succeeded else Failed);
    hide Informed;
  }

  lemma InformedShape(s: State, owner: Owner, outcome: Outcome)
    requires owner.OfFlush? ==> owner.runtime < |s.runtimes|
    ensures var s' := Informed(s, owner, outcome);
            && s'.(runtimes := s.runtimes, active := s.active) == s && |s'.runtimes| == |s.runtimes|
            && forall r | 0 <= r < |s.runtimes| ::
                 s'.runtimes[r] == if owner == OfFlush(r) then s.runtimes[r].(outcome := outcome) else s.runtimes[r]
  {
    if owner.OfFlush? {
      InformedFlush(s, owner.runtime, outcome);
    } else {
      InformedOperation(s, owner, outcome);
    }
    hide Informed;
  }

  lemma InformedFlush(s: State, r: nat, outcome: Outcome)
    requires r < |s.runtimes|
    ensures var s' := Informed(s, OfFlush(r), outcome);
            s' == s.(runtimes := s'.runtimes) && s'.runtimes == s.runtimes[r := s.runtimes[r].(outcome := outcome)]
  {}

  lemma InformedOperation(s: State, owner: Owner, outcome: Outcome)
    requires !owner.OfFlush?
    ensures Informed(s, owner, outcome) == s.(active := Informed(s, owner, outcome).active)
  {}

  lemma SettlingOwned(s: State)
    requires Core(s) && s.refreshes != [] && s.refreshes[0].progress.Ended?
    ensures FlushesOk(Settle(s))
  {
    hide RuntimesOk, HeldBefore, DebtOk, OneListener, AllAccounted, InQueue, Settle;
    var s' := Settle(s);
    assert FlushOwned(s, s.refreshes[0]);
    SettledShape(s);
    PoppedQueue(s, s');
    assert FlushOwned(s, s.refreshes[0]) && ProgressOk(s, s.refreshes[0]);
    assert forall i | 0 <= i < |s'.refreshes| :: s'.refreshes[i] == s.refreshes[i + 1] && FlushOwned(s, s.refreshes[i + 1]);
  }

  lemma SettlingRefreshes(s: State)
    requires Core(s) && s.refreshes != [] && s.refreshes[0].progress.Ended?
    ensures RefreshesOk(Settle(s))
  {
    assert FlushOwned(s, s.refreshes[0]);
    hide RuntimesOk, HeldBefore, DebtOk, OneListener, AllAccounted, FlushesOk, Settle;
    var s' := Settle(s);
    SettledShape(s);
    assert forall i | 0 <= i < |s'.refreshes| :: s'.refreshes[i] == s.refreshes[i + 1];
  }

  lemma SettlingHolds(s: State)
    requires Core(s) && s.refreshes != [] && s.refreshes[0].progress.Ended?
    ensures OneListener(Settle(s)) && RuntimesOk(Settle(s)) && AllAccounted(Settle(s)) && HeldBefore(Settle(s)) && DebtOk(Settle(s))
  {
    assert FlushOwned(s, s.refreshes[0]);
    hide FlushesOk, RefreshesOk, Settle;
    var s' := Settle(s);
    SettledShape(s);
    assert forall r, t: nat | 0 <= r < |s.runtimes| :: Holds(s'.runtimes[r], t) <==> Holds(s.runtimes[r], t);
    forall t | t in s.uncovered && !s.disposed ensures Accounted(s', t) {
      assert Accounted(s, t);
    }
    assert forall r | 0 <= r < |s.runtimes| :: RuntimeOk(s.runtimes[r]) && (RuntimeOk(s.runtimes[r]) ==> RuntimeOk(s'.runtimes[r]));
  }

  lemma SettlingQuiet(s: State)
    requires s.refreshes != [] && s.refreshes[0].progress.Ended? && FlushOwned(s, s.refreshes[0])
    ensures Quiet(s) ==> Quiet(Settle(s))
    ensures forall r: nat :: QuietBut(s, r) ==> QuietBut(Settle(s), r)
    ensures forall r | 0 <= r < |s.runtimes| :: Settle(s).runtimes[r].closed == s.runtimes[r].closed
    ensures forall r | 0 <= r < |s.runtimes| :: Settle(s).runtimes[r].published == s.runtimes[r].published
  {
    SettledShape(s);
    hide Settle;
  }

  lemma SettlingStartup(s: State)
    requires StartupOk(s) && s.refreshes != [] && s.refreshes[0].progress.Ended? && FlushOwned(s, s.refreshes[0])
    ensures StartupOk(Settle(s))
  {
    SettledShape(s);
    SettlingQuiet(s);
    PoppedQueue(s, Settle(s));
    SettledActive(s);
    hide InQueue, Quiet, QuietBut, FlushOwned, Settle;
  }

  /** Only the operation that awaits this refresh notices it. */
  lemma SettledActive(s: State)
    requires s.refreshes != [] && s.refreshes[0].progress.Ended?
    ensures var outcome := if s.refreshes[0].progress.ok then Succeeded else Failed;
            match s.active
            case Some(StartupRefresh(r, epoch, schema, was)) =>
              Settle(s).active == Some(StartupRefresh(r, epoch, schema, if s.refreshes[0].owner == OfStartup(r) then outcome else was))
            case Some(Reactivating(r, was)) =>
              Settle(s).active == Some(Reactivating(r, if s.refreshes[0].owner == OfReactivation(r) then outcome else was))
            case _ => Settle(s).active == s.active
  {
    InformedActive(s.(refreshes := s.refreshes[1..]), s.refreshes[0].owner, if s.refreshes[0].progress.ok then Succeeded else Failed);
    hide Informed;
  }

  lemma InformedActive(s: State, owner: Owner, outcome: Outcome)
    ensures Informed(s, owner, outcome).active
            == match s.active
               case Some(StartupRefresh(r, epoch, schema, was)) =>
                 Some(StartupRefresh(r, epoch, schema, if owner == OfStartup(r) then outcome else was))
               case Some(Reactivating(r, was)) => Some(Reactivating(r, if owner == OfReactivation(r) then outcome else was))
               case _ => s.active
  {
    match owner
    case OfFlush(_) =>
    case OfStartup(_) =>
    case OfReactivation(_) =>
  }

  lemma SettlingKeeps(s: State)
    requires Inv(s) && Enabled(s, RefreshSettles)
    ensures Inv(Next(s, RefreshSettles))
  {
    SettlingOwned(s);
    SettlingRefreshes(s);
    SettlingHolds(s);
    assert FlushOwned(s, s.refreshes[0]);
    SettlingStartup(s);
    hide OneListener, RuntimesOk, FlushesOk, RefreshesOk, DebtOk, AllAccounted, HeldBefore, StartupOk, Settle;
  }

  // ----- Lifecycle operations ------------------------------------------------------------------

  /** No startup is under way. */
  ghost predicate Calm(s: State) {
    Core(s) && Quiet(s)
  }

  lemma CalmSuspends(s: State, s': State)
    requires Calm(s) && SameCore(s, s')
    requires s'.active.Some? ==> !s'.active.value.StartupRefresh? && !s'.active.value.Reactivating?
    ensures Inv(s')
  {
    SameCoreKeeps(s, s');
  }

  lemma CalmStops(s: State, recordDebt: bool, s': State)
    requires Core(s) && SameCore(StopListener(s, recordDebt), s')
    requires s'.active.Some? ==> !s'.active.value.StartupRefresh? && !s'.active.value.Reactivating?
    ensures Inv(s')
  {
    StoppingKeeps(s, recordDebt);
    hide Core, Quiet, SameCore;
    CalmSuspends(StopListener(s, recordDebt), s');
  }

  lemma CalmRecords(s: State, s': State)
    requires Calm(s) && SameCore(RequireFullRefresh(s), s')
    requires s'.active.Some? ==> !s'.active.value.StartupRefresh? && !s'.active.value.Reactivating?
    ensures Inv(s')
  {
    hide Core, Quiet, SameCore;
    RecordingKeeps(s);
    CalmSuspends(RequireFullRefresh(s), s');
  }

  lemma SetEnabledCases(s: State, enabled: Option<bool>)
    requires ListenerExists(s)
    ensures var s' := StartSetEnabled(s, enabled);
            && (s'.active.Some? ==> s'.active.value.Stopping? || s'.active.value.Persisting?)
            && (SameCore(s, s') || SameCore(StopListener(s, true), s') || SameCore(RequireFullRefresh(s), s'))
  {
    hide CurrentConfig, Configuration, StopListener, RequireFullRefresh;
    if s.store.Some? {
      var was, desired := CurrentConfig(s), Configuration(s.settings, s.store.value.(enabled := enabled));
      if was.Some? && desired.Some? && !desired.value.enabled {
        assert SameCore(StopListener(s, true), StartSetEnabled(s, enabled));
      } else if was.Some? && desired.Some? && !was.value.enabled {
        assert SameCore(RequireFullRefresh(s), StartSetEnabled(s, enabled));
      } else {
        assert SameCore(s, StartSetEnabled(s, enabled));
      }
    }
  }

  lemma SetEnabledKeeps(s: State, enabled: Option<bool>)
    requires Calm(s)
    ensures Inv(StartSetEnabled(s, enabled))
  {
    assert ListenerExists(s);
    SetEnabledCases(s, enabled);
    hide Quiet, Inv, Core, StartSetEnabled, SameCore;
    if SameCore(s, StartSetEnabled(s, enabled)) {
      CalmSuspends(s, StartSetEnabled(s, enabled));
    } else if SameCore(StopListener(s, true), StartSetEnabled(s, enabled)) {
      CalmStops(s, true, StartSetEnabled(s, enabled));
    } else {
      CalmRecords(s, StartSetEnabled(s, enabled));
    }
  }

  lemma SetSchemaShape(s: State, schema: Option<string>)
    requires ListenerExists(s)
    ensures var s' := StartSetSchema(s, schema);
            && (s'.active.Some? ==> s'.active.value.Stopping? || s'.active.value.Persisting?)
            && (SameCore(s, s') || SameCore(StopListener(s, true), s'))
  {
    hide Configuration, ValidateSupportSchema, StopListener;
    if s.store.Some? && !(schema.Some? && ValidateSupportSchema(schema.value).None?) {
      var override := s.store.value.(schema := if schema.None? then None else ValidateSupportSchema(schema.value));
      var desired := Configuration(s.settings, override);
      if desired.Some? && s.listener.Some? && s.runtimes[s.listener.value].schema != desired.value.schema {
        assert SameCore(StopListener(s, true), StartSetSchema(s, schema));
      } else {
        assert SameCore(s, StartSetSchema(s, schema));
      }
    }
  }

  lemma SetSchemaKeeps(s: State, schema: Option<string>)
    requires Calm(s)
    ensures Inv(StartSetSchema(s, schema))
  {
    assert ListenerExists(s);
    SetSchemaShape(s, schema);
    hide Quiet, Inv, Core, StartSetSchema, SameCore;
    if SameCore(s, StartSetSchema(s, schema)) {
      CalmSuspends(s, StartSetSchema(s, schema));
    } else {
      CalmStops(s, true, StartSetSchema(s, schema));
    }
  }

  lemma ReconcileListenerKeeps(s: State, config: Config, epoch: nat)
    requires Calm(s)
    ensures Inv(ReconcileListener(s, config, epoch))
  {
    ListenerOpen(s);
    hide Core, Quiet, Configuration, CurrentConfig;
    if s.listener.Some? && s.store.Some? && s.stale && s.refreshes == [] {
      ReactivatingKeeps(s, s.listener.value);
    } else {
      hide Inv;
      CalmSuspends(s, ReconcileListener(s, config, epoch));
    }
  }

  lemma ReactivatingKeeps(s: State, r: nat)
    requires Calm(s) && r < |s.runtimes|
    ensures Inv(Suspended(EnqueueRefresh(s, OfReactivation(r), true, [], {}), Reactivating(r, Pending)))
  {
    hide Core, Quiet, InQueue;
    var queued := EnqueueRefresh(s, OfReactivation(r), true, [], {});
    EnqueueingKeeps(s, OfReactivation(r));
    SameCoreKeeps(queued, Suspended(queued, Reactivating(r, Pending)));
    SameQueue(queued, Suspended(queued, Reactivating(r, Pending)), OfReactivation(r));
  }

  lemma SameQueue(s: State, s': State, owner: Owner)
    requires InQueue(s, owner) && s'.refreshes == s.refreshes
    ensures InQueue(s', owner)
  {}

  lemma ReconcileConnectionKeeps(s: State, epoch: nat, restart: bool, requested: bool)
    requires Calm(s)
    ensures Inv(ReconcileConnection(s, epoch, restart, requested))
  {
    hide RuntimesOk, FlushesOk, RefreshesOk, AllAccounted, HeldBefore, DebtOk, Quiet, Configuration, ReconcileListener, Inv;
    var s' := ReconcileConnection(s, epoch, restart, requested);
    if !Intent(s, epoch) {
      CalmSuspends(s, s');
    } else if s.store.None? {
      var told := if s.known then MarkStale(s) else s;
      SameCoreKeeps(s, told);
      CalmStops(told, false, s');
    } else {
      ReconcileSavedKeeps(s, epoch, restart, requested);
    }
  }

  lemma ReconcileSavedKeeps(s: State, epoch: nat, restart: bool, requested: bool)
    requires Calm(s) && Intent(s, epoch) && s.store.Some?
    ensures Inv(ReconcileConnection(s, epoch, restart, requested))
  {
    hide RuntimesOk, FlushesOk, RefreshesOk, AllAccounted, HeldBefore, DebtOk, Quiet, Configuration, ReconcileListener, Inv;
    var s' := ReconcileConnection(s, epoch, restart, requested);
    var told := s.(known := true);
    SameCoreKeeps(s, told);
    {
      var config := CurrentConfig(told);
      if config.Some? && config.value.enabled && !restart
         && !(s.listener.Some? && s.runtimes[s.listener.value].schema != config.value.schema) {
        ReconcileListenerKeeps(told, config.value, epoch);
      } else if s.listener.Some? || (config.Some? && restart) {
        CalmStops(told, true, s');
      } else {
        CalmSuspends(told, s');
      }
    }
  }

  lemma ProvisioningKeeps(s: State, operation: Operation)
    requires Calm(s) && (operation.Provision? || operation.RemoveProvisioning?)
    ensures Inv(StartOperation(s, operation))
  {
    assert ListenerExists(s);
    hide Core, Quiet, Inv, StopListener, CurrentConfig, ReconcileConnection, StartSetEnabled, StartSetSchema;
    var config, s' := CurrentConfig(s), StartOperation(s, operation);
    if config.None? || (operation.Provision? && !config.value.enabled) {
      CalmSuspends(s, s');
    } else {
      CalmStops(s, true, s');
    }
  }

  lemma StartingOperationKeeps(s: State, operation: Operation)
    requires Inv(s) && s.active.None?
    ensures Inv(StartOperation(s, operation))
  {
    hide Quiet, Configuration, ReconcileConnection, StartSetEnabled, StartSetSchema, RuntimesOk, FlushesOk, RefreshesOk, AllAccounted, HeldBefore, DebtOk;
    assert Calm(s);
    var s' := StartOperation(s, operation);
    match operation
    case SetEnabled(enabled) => SetEnabledKeeps(s, enabled);
    case SetSchema(schema) => SetSchemaKeeps(s, schema);
    case Provision => ProvisioningKeeps(s, operation);
    case RemoveProvisioning => ProvisioningKeeps(s, operation);
    case Reconcile(epoch, restart) =>
      if Intent(s, epoch) { ReconcileConnectionKeeps(s, epoch, restart, true); } else { CalmSuspends(s, s'); }
    case ListenerClosed(r, epoch) => CalmSuspends(s, s');
    case DisposeListener => CalmStops(s, false, s');
  }

  lemma ResumingStopKeeps(s: State, next: Then)
    requires Calm(s)
    ensures Inv(ResumeStopping(s, next))
  {
    hide Quiet, Configuration, ReconcileListener, RuntimesOk, FlushesOk, RefreshesOk, AllAccounted, HeldBefore, DebtOk, Inv;
    var s' := ResumeStopping(s, next);
    if next.ThenReconfigured? && Intent(s, next.epoch) && s.store.Some? && CurrentConfig(s).Some? && CurrentConfig(s).value.enabled {
      ReconcileListenerKeeps(s, CurrentConfig(s).value, next.epoch);
    } else {
      CalmSuspends(s, s');
    }
  }

  /** Forgetting a removed connection is safe once its refreshes are done. */
  lemma ForgettingKeeps(s: State)
    requires Calm(s) && s.refreshes == []
    ensures Inv(Finished(Forget(s)))
  {
    hide RuntimeOk, Holds;
  }

  // ----- A listener that starts ----------------------------------------------------------------

  lemma {:induction false} DrainIgnoresUncovered(s: State, u: set<nat>, r: nat, held: seq<Note>)
    requires r < |s.runtimes|
    ensures DrainStartup(s.(uncovered := u), r, held) == DrainStartup(s, r, held).(uncovered := u)
    decreases |held|
  {
    if held != [] {
      DrainIgnoresUncovered(OnNotification(s, r, held[0]), u, r, held[1..]);
      NotifyingIgnoresUncovered(s, u, r, held[0]);
      hide OnNotification;
    }
  }

  lemma {:induction false} DrainOfClosed(s: State, r: nat, held: seq<Note>)
    requires r < |s.runtimes| && s.listener != Some(r)
    ensures DrainStartup(s, r, held) == s
    decreases |held|
  {
    if held != [] {
      DrainOfClosed(s, r, held[1..]);
    }
  }

  /** The runtime that starts to receive: its buffer is drained into its queue, one notification at a time. */
  lemma PublishingListenerKeeps(s: State, r: nat)
    requires Core(s) && r < |s.runtimes| && QuietBut(s, r)
    requires s.listener == Some(r) ==> !s.runtimes[r].published
    ensures Calm(PublishListener(s, r))
  {
    hide RuntimesOk, FlushesOk, RefreshesOk, DebtOk, HeldBefore, AllAccounted, NotCovered;
    var held := s.runtimes[r].startup;
    var listening := With(s, r, s.runtimes[r].(published := true, startup := []));
    if s.listener == Some(r) {
      DrainedKeeps(s, r);
    } else {
      OpeningClosedKeeps(s, r);
      DrainOfClosed(listening, r, held);
    }
  }

  lemma OpeningClosedKeeps(s: State, r: nat)
    requires Core(s) && r < |s.runtimes| && QuietBut(s, r) && s.listener != Some(r)
    ensures Calm(With(s, r, s.runtimes[r].(published := true, startup := [])))
  {
    hide FlushesOk, RefreshesOk, DebtOk, AllAccounted, NotCovered;
    var rt := s.runtimes[r].(published := true, startup := []);
    assert RuntimeOk(s.runtimes[r]);
    assert forall t: nat | Holds(rt, t) :: Holds(s.runtimes[r], t);
    assert Replaces(s, r, rt);
    ReplacingKeeps(s, r, rt);
  }

  /** Setting the buffered stamps aside, the listener may begin to receive. */
  lemma OpeningKeeps(s: State, r: nat)
    requires Core(s) && r < |s.runtimes| && QuietBut(s, r) && s.listener == Some(r) && !s.runtimes[r].published
    ensures var aside := s.(uncovered := s.uncovered - Stamps(s.runtimes[r].startup));
            var listening := With(aside, r, s.runtimes[r].(published := true, startup := []));
            Calm(listening) && NotCovered(listening, s.uncovered)
  {
    hide FlushesOk, RefreshesOk, DebtOk, AllAccounted;
    var rt := s.runtimes[r].(published := true, startup := []);
    var aside := s.(uncovered := s.uncovered - Stamps(s.runtimes[r].startup));
    FewerFit(s, aside.uncovered);
    FittingKeeps(s, aside.uncovered);
    assert RuntimeOk(s.runtimes[r]);
    assert forall t: nat :: !Holds(rt, t);
    assert Replaces(aside, r, rt);
    ReplacingKeeps(aside, r, rt);
    CoreFits(s);
  }

  lemma FewerFit(s: State, u: set<nat>)
    requires Core(s) && u <= s.uncovered
    ensures Fits(s, u)
  {
    hide RuntimeOk, Holds;
  }

  lemma DrainedKeeps(s: State, r: nat)
    requires Core(s) && r < |s.runtimes| && QuietBut(s, r) && s.listener == Some(r) && !s.runtimes[r].published
    ensures Calm(PublishListener(s, r))
  {
    var held := s.runtimes[r].startup;
    var aside := s.(uncovered := s.uncovered - Stamps(held));
    var listening := With(aside, r, s.runtimes[r].(published := true, startup := []));
    OpeningKeeps(s, r);
    HeldStamps(s, r);
    DrainingKeeps(listening, r, held);
    var d := DrainStartup(listening, r, held);
    DrainIgnoresUncovered(listening, s.uncovered, r, held);
    assert listening.(uncovered := s.uncovered) == With(s, r, s.runtimes[r].(published := true, startup := []));
    DrainedFits(s, r);
    hide RuntimesOk, FlushesOk, RefreshesOk, DebtOk, HeldBefore, AllAccounted, NotCovered, Fits;
    FittingKeeps(d, s.uncovered);
    SameWorkQuiet(listening, d);
  }

  lemma SameWorkQuiet(s: State, s': State)
    requires SameWork(s, s') && Quiet(s)
    ensures forall u :: Quiet(s'.(uncovered := u))
  {
    hide Holds;
  }

  lemma HeldStamps(s: State, r: nat)
    requires HeldBefore(s) && r < |s.runtimes|
    ensures forall n | n in s.runtimes[r].startup :: n.at < s.clock
  {
    forall n | n in s.runtimes[r].startup ensures n.at < s.clock {
      assert Holds(s.runtimes[r], n.at);
    }
  }

  lemma DrainedFits(s: State, r: nat)
    requires Core(s) && r < |s.runtimes| && QuietBut(s, r) && s.listener == Some(r) && !s.runtimes[r].published
    ensures var held := s.runtimes[r].startup;
            var listening := With(s.(uncovered := s.uncovered - Stamps(held)), r, s.runtimes[r].(published := true, startup := []));
            Fits(DrainStartup(listening, r, held), s.uncovered)
  {
    hide RuntimesOk, FlushesOk, RefreshesOk, DebtOk, NotCovered, Holds;
    var held := s.runtimes[r].startup;
    var listening := With(s.(uncovered := s.uncovered - Stamps(held)), r, s.runtimes[r].(published := true, startup := []));
    OpeningKeeps(s, r);
    HeldStamps(s, r);
    DrainingKeeps(listening, r, held);
    var d := DrainStartup(listening, r, held);
    SameWorkNotCovered(listening, d, s.uncovered);
    forall t | t in s.uncovered && !d.disposed ensures Accounted(d, t) {
      if t !in Stamps(held) {
        assert t in listening.uncovered && Accounted(listening, t);
        SameWorkAccounts(listening, d, t);
      }
    }
  }

  function Newcomer(schema: string, held: seq<Note>): Runtime {
    Runtime(schema, held, false, false, [], false, false, [], Pending, false)
  }

  lemma AddingRuntimeKeeps(s: State, schema: string, held: seq<Note>)
    requires Calm(s) && s.listener.None? && forall n | n in held :: n.at < s.clock
    ensures Core(WithNewcomer(s, schema, held)) && QuietBut(WithNewcomer(s, schema, held), |s.runtimes|)
  {
    var s' := WithNewcomer(s, schema, held);
    assert forall q | 0 <= q < |s.runtimes| :: s'.runtimes[q] == s.runtimes[q];
    assert forall i | 0 <= i < |s.refreshes| :: FlushOwned(s, s.refreshes[i]) ==> FlushOwned(s', s.refreshes[i]);
    assert forall o :: InQueue(s, o) ==> InQueue(s', o);
    assert s.refreshes != [] ==> ProgressOk(s', s.refreshes[0]);
    hide RuntimeOk;
    NewcomerOk(schema, held);
    forall t | t in s.uncovered && !s.disposed ensures Accounted(s', t) {
      assert Accounted(s, t);
    }
    forall q, t: nat | 0 <= q < |s'.runtimes| && Holds(s'.runtimes[q], t) ensures t < s'.clock {
      if q < |s.runtimes| {
        assert Holds(s.runtimes[q], t);
      }
    }
  }

  lemma AddingNotCovered(s: State, schema: string, held: seq<Note>, u: set<nat>)
    requires NotCovered(s, u)
    ensures NotCovered(WithNewcomer(s, schema, held), u)
  {
    var s' := WithNewcomer(s, schema, held);
    assert forall q | 0 <= q < |s.runtimes| :: s'.runtimes[q] == s.runtimes[q];
  }

  lemma NewcomerOk(schema: string, held: seq<Note>)
    ensures RuntimeOk(Newcomer(schema, held))
  {
  }

  /** The state right after a runtime entered `listeners`. */
  function Entered(s: State, schema: string, buffer: seq<Payload>): State {
    var held := Stamped(s.clock, buffer);
    s.(runtimes := s.runtimes + [Newcomer(schema, held)],
       listener := Some(|s.runtimes|),
       clock := s.clock + |buffer|,
       uncovered := s.uncovered + Stamps(held))
  }

  /** The clock moves past the stamps of what startup held back. */
  function Waited(s: State, buffer: seq<Payload>): State {
    s.(clock := s.clock + |buffer|)
  }

  function WithNewcomer(s: State, schema: string, held: seq<Note>): State {
    s.(runtimes := s.runtimes + [Newcomer(schema, held)], listener := Some(|s.runtimes|))
  }

  lemma StampsAreNew(clock: nat, buffer: seq<Payload>)
    ensures forall n | n in Stamped(clock, buffer) :: clock <= n.at < clock + |buffer|
    ensures forall t | t in Stamps(Stamped(clock, buffer)) :: clock <= t < clock + |buffer|
  {}

  lemma WaitingIsCalm(s: State, buffer: seq<Payload>)
    requires Calm(s)
    ensures Calm(Waited(s, buffer))
    ensures NotCovered(Waited(s, buffer), s.uncovered + Stamps(Stamped(s.clock, buffer)))
  {
    StampsAreNew(s.clock, buffer);
    hide Stamped, Stamps;
    NewStampsNotCovered(s, Stamps(Stamped(s.clock, buffer)));
    LaterNotCovered(s, s.clock + |buffer|, s.uncovered + Stamps(Stamped(s.clock, buffer)));
    hide NotCovered;
    LaterKeeps(s, s.clock + |buffer|);
    hide Core;
  }

  /** What was accounted for still is, and what startup held back is accounted for by the newcomer's buffer. */
  lemma NewcomerAccounts(s: State, schema: string, held: seq<Note>)
    requires Core(WithNewcomer(s, schema, held)) && NotCovered(WithNewcomer(s, schema, held), s.uncovered + Stamps(held))
    requires forall t | t in Stamps(held) :: t < s.clock
    ensures Fits(WithNewcomer(s, schema, held), s.uncovered + Stamps(held))
  {
    var added := WithNewcomer(s, schema, held);
    var u := s.uncovered + Stamps(held);
    hide RuntimesOk, FlushesOk, RefreshesOk, HeldBefore, OneListener, NotCovered;
    forall t | t in u && !added.disposed ensures Accounted(added, t) {
      if t in s.uncovered {
        assert t in added.uncovered;
      } else {
        assert Holds(added.runtimes[|s.runtimes|], t);
      }
    }
  }

  lemma EnteredIs(s: State, schema: string, buffer: seq<Payload>)
    ensures var held := Stamped(s.clock, buffer);
            Entered(s, schema, buffer) == WithNewcomer(Waited(s, buffer), schema, held).(uncovered := s.uncovered + Stamps(held))
    ensures Waited(s, buffer).listener == s.listener && |Waited(s, buffer).runtimes| == |s.runtimes|
    ensures Waited(s, buffer).clock == s.clock + |buffer| && Waited(s, buffer).uncovered == s.uncovered
  {}

  lemma QuietButWhatever(s: State, u: set<nat>, r: nat)
    requires QuietBut(s, r)
    ensures QuietBut(s.(uncovered := u), r)
  {}

  lemma EnteringKeeps(s: State, schema: string, buffer: seq<Payload>)
    requires Calm(s) && s.listener.None?
    ensures Core(Entered(s, schema, buffer)) && QuietBut(Entered(s, schema, buffer), |s.runtimes|)
  {
    EnteredIs(s, schema, buffer);
    hide Core, Calm, NotCovered, Stamps, Stamped, Fits, Entered, WithNewcomer, Waited, QuietBut;
    var held, later := Stamped(s.clock, buffer), Waited(s, buffer);
    var u, added := s.uncovered + Stamps(held), WithNewcomer(later, schema, held);
    StampsAreNew(s.clock, buffer);
    WaitingIsCalm(s, buffer);
    AddingRuntimeKeeps(later, schema, held);
    AddingNotCovered(later, schema, held, u);
    NewcomerAccounts(later, schema, held);
    FittingKeeps(added, u);
    QuietButWhatever(added, u, |s.runtimes|);
  }

  lemma EnteringListenersKeeps(s: State, at: Suspension)
    requires Calm(s) && s.listener.None? && at.Starting?
    ensures Inv(EnterListeners(s, at))
  {
    hide Core, PublishListener, SameCore, Stamped;
    var entered := Entered(s, at.schema, at.buffer);
    EnteringKeeps(s, at.schema, at.buffer);
    var r := |s.runtimes|;
    if s.debt.Some? || s.stale {
      EntersBehindRefresh(s, at);
    } else {
      var told := Reported(entered, Listening, at.schema);
      assert SameCore(entered, told) by { ReportedSameCore(entered, Listening, at.schema); }
      SameCoreKeeps(entered, told);
      PublishingListenerKeeps(told, r);
      FinishingKeeps(PublishListener(told, r));
    }
  }

  lemma ReportedSameCore(s: State, status: Status, schema: string)
    ensures SameCore(s, Reported(s, status, schema))
  {
  }

  lemma FinishingKeeps(s: State)
    requires Calm(s)
    ensures Inv(Finished(s))
  {
    CalmSuspends(s, Finished(s));
  }

  lemma EntersBehindRefresh(s: State, at: Suspension)
    requires Calm(s) && s.listener.None? && at.Starting? && (s.debt.Some? || s.stale)
    ensures Inv(EnterListeners(s, at))
  {
    hide RuntimesOk, FlushesOk, RefreshesOk, DebtOk, AllAccounted, HeldBefore, OneListener, Stamped;
    var r, entered := |s.runtimes|, Entered(s, at.schema, at.buffer);
    EnteringKeeps(s, at.schema, at.buffer);
    EnqueueingKeeps(entered, OfStartup(r));
    var queued := EnqueueRefresh(entered, OfStartup(r), true, [], {});
    SameCoreKeeps(queued, EnterListeners(s, at));
  }

  lemma AnsweringStartKeeps(s: State, at: Suspension, answer: Answer)
    requires Calm(s) && at.Starting?
    ensures Inv(AnswerStarting(s, at, answer))
  {
    hide Core, Quiet, EnterListeners, Configuration, Inv;
    var s' := AnswerStarting(s, at, answer);
    if answer.NoClient? || answer.Refused? || (at.failed && !at.stage.Connecting?)
       || !StartStillRequired(s, at.schema, at.epoch) || !at.stage.Subscribing? {
      CalmSuspends(s, s');
    } else {
      EnteringListenersKeeps(s, at);
    }
  }

  lemma ResumingStartupKeeps(s: State, at: Suspension)
    requires Inv(s) && s.active == Some(at) && at.StartupRefresh? && at.runtime < |s.runtimes|
    ensures Inv(ResumeStartup(s, at))
  {
    hide RuntimesOk, FlushesOk, RefreshesOk, DebtOk, AllAccounted, HeldBefore, PublishListener, OnListenerClosed;
    var r := at.runtime;
    if at.outcome == Succeeded && !s.runtimes[r].startupFailed {
      PublishingListenerKeeps(s, r);
      FinishingKeeps(PublishListener(s, r));
    } else if s.listener == Some(r) {
      FailingStartupKeeps(s, r);
      FinishingKeeps(StartupFailsPublished(s, r));
    } else {
      CalmSuspends(s, ResumeStartup(s, at));
    }
  }

  /** `published` is set without draining the buffer only on the way to closing, where the debt answers for it. */
  lemma FailingStartupKeeps(s: State, r: nat)
    requires Core(s) && r < |s.runtimes| && QuietBut(s, r) && s.listener == Some(r) && !s.runtimes[r].published
    ensures Calm(StartupFailsPublished(s, r))
  {
    hide FlushesOk, RefreshesOk, DebtOk, AllAccounted;
    var rt := s.runtimes[r].(published := true);
    assert RuntimeOk(s.runtimes[r]);
    assert forall t: nat :: Holds(rt, t) <==> Holds(s.runtimes[r], t);
    assert Replaces(s, r, rt);
    ReplacingKeeps(s, r, rt);
    ListenerClosedKeeps(With(s, r, rt), r);
  }

  lemma ResumingFailedStartKeeps(s: State, at: Suspension)
    requires Calm(s) && at.ClosingFailed?
    ensures Inv(ResumeFailedStart(s, at))
  {
    var s' := ResumeFailedStart(s, at);
    hide Core, Quiet, Inv, Configuration;
    if StartStillRequired(s, at.schema, at.epoch) { CalmRecords(s, s'); } else { CalmSuspends(s, s'); }
  }

  lemma ResumingUnprovisionedKeeps(s: State, at: Suspension)
    requires Calm(s) && at.ClosingUnprovisioned?
    ensures Inv(ResumeUnprovisioned(s, at))
  {
    var s' := ResumeUnprovisioned(s, at);
    hide Core, Quiet, Inv, Configuration;
    if StartStillRequired(s, at.schema, at.epoch) { CalmRecords(s, s'); } else { CalmSuspends(s, s'); }
  }

  lemma ResumingReactivationKeeps(s: State, r: nat, outcome: Outcome)
    requires Calm(s) && r < |s.runtimes|
    ensures Inv(Finished(if outcome == Failed then OnListenerClosed(s, r) else s))
  {
    ListenerClosedKeeps(s, r);
    hide Core, Quiet, Inv, OnListenerClosed;
    FinishingKeeps(s);
    FinishingKeeps(OnListenerClosed(s, r));
  }

  lemma ResumingAfterCloseKeeps(s: State, r: nat, epoch: nat)
    requires Calm(s)
    ensures Inv(ResumeAfterClose(s, r, epoch))
  {
    AfterCloseShape(s, r, epoch);
    hide Core, Quiet, Inv, ResumeAfterClose, SameCore;
    CalmSuspends(s, ResumeAfterClose(s, r, epoch));
  }

  lemma AfterCloseShape(s: State, r: nat, epoch: nat)
    ensures SameCore(s, ResumeAfterClose(s, r, epoch)) && ResumeAfterClose(s, r, epoch).active.None?
  {
    hide CurrentConfig, Intent, Finished, SameCore, ScheduleReconnect, Reported, MarkStale;
    FinishedSame(s);
    if CurrentConfig(s).Some? {
      var schema := if r < |s.runtimes| then s.runtimes[r].schema else CurrentConfig(s).value.schema;
      DisabledSame(s, CurrentConfig(s).value.schema);
      DesynchronizedSame(s, schema);
    }
  }

  lemma FinishedSame(s: State)
    ensures SameCore(s, Finished(s)) && Finished(s).active.None?
  {}

  lemma DisabledSame(s: State, schema: string)
    ensures SameCore(s, Finished(Reported(s, Disabled, schema))) && Finished(Reported(s, Disabled, schema)).active.None?
  {}

  lemma DesynchronizedSame(s: State, schema: string)
    ensures var told := ScheduleReconnect(Reported(MarkStale(s), Desynchronized, schema));
            SameCore(s, Finished(told)) && Finished(told).active.None?
  {}

  lemma ResumingKeeps(s: State, at: Suspension)
    requires Inv(s) && s.active == Some(at) && Resumable(s, at)
    ensures Inv(Resume(s, at))
  {
    hide RuntimesOk, FlushesOk, RefreshesOk, DebtOk, AllAccounted, HeldBefore, ResumeStopping, ResumeStartup, OnListenerClosed,
         ResumeFailedStart, ResumeUnprovisioned, ResumeAfterClose, Forget, Quiet, QuietBut;
    match at
    case Stopping(next) => ResumingStopKeeps(s, next);
    case AwaitingRefreshIdle(epoch) =>
      if !Intent(s, epoch) || s.store.Some? { FinishingKeeps(s); } else { ForgettingKeeps(s); }
    case ClosingUnprovisioned(epoch, schema) => ResumingUnprovisionedKeeps(s, at);
    case ClosingFailed(epoch, schema, insufficient) => ResumingFailedStartKeeps(s, at);
    case ClosingSuperseded => FinishingKeeps(s);
    case StartupRefresh(_, _, _, _) => ResumingStartupKeeps(s, at);
    case Reactivating(r, outcome) => ResumingReactivationKeeps(s, r, outcome);
    case EndingClient(r, epoch) => ResumingAfterCloseKeeps(s, r, epoch);
  }

  lemma CalmBetween(s: State)
    requires Inv(s) && (s.active.Some? ==> !s.active.value.StartupRefresh? && !s.active.value.Reactivating?)
    ensures Calm(s)
  {
    hide Core, Quiet;
  }

  lemma ReconciledAfter(s: State, s1: State)
    requires Calm(s) && SameCore(s, s1)
    ensures Inv(ReconcileConnection(s1, s.epoch, false, false))
  {
    SameCoreKeeps(s, s1);
    hide Core, Quiet, SameCore, ReconcileConnection, Inv;
    ReconcileConnectionKeeps(s1, s.epoch, false, false);
  }

  lemma AnsweringKeeps(s: State, at: Suspension, answer: Answer)
    requires Inv(s) && s.active == Some(at) && Answerable(at)
    ensures Inv(AnswerOperation(s, at, answer))
  {
    CalmBetween(s);
    ListenerThere(s);
    hide Core, Quiet, Calm, Inv, AnswerStarting;
    if at.Starting? {
      AnsweringStartKeeps(s, at, answer);
    } else if answer.Done? && at.Persisting? && s.store.Some? {
      hide SameCore, ReconcileConnection;
      StoredSame(s, at.override);
      ReconciledAfter(s, s.(store := Some(at.override)));
    } else if answer.Done? && at.Provisioning? {
      hide SameCore, ReconcileConnection;
      ForgottenReportSame(s);
      ReconciledAfter(s, s.(report := None));
    } else {
      AnsweredShape(s, at, answer);
      hide SameCore, AnswerOperation;
      CalmSuspends(s, AnswerOperation(s, at, answer));
    }
  }

  lemma StoredSame(s: State, override: Override)
    ensures SameCore(s, s.(store := Some(override)))
  {}

  lemma ForgottenReportSame(s: State)
    ensures SameCore(s, s.(report := None))
  {}

  lemma AnsweredShape(s: State, at: Suspension, answer: Answer)
    requires ListenerExists(s) && Answerable(at) && !at.Starting?
    requires !answer.Done? || at.RemovingProvisioning? || (at.Persisting? && s.store.None?)
    ensures SameCore(s, AnswerOperation(s, at, answer)) && AnswerOperation(s, at, answer).active.None?
  {
    hide ReconcileConnection;
  }

  lemma ClosingListenerKeeps(s: State, r: nat)
    requires Inv(s) && r < |s.runtimes|
    ensures Inv(OnListenerClosed(s, r))
  {
    ListenerClosedKeeps(s, r);
    ListenerClosedStartup(s, r);
  }

  lemma RejectionKeeps(s: State)
    requires Inv(s)
    ensures Inv(RejectedReconcile(s))
  {
    hide RuntimesOk, FlushesOk, RefreshesOk, DebtOk, AllAccounted, HeldBefore, OnListenerClosed, StartupOk, Configuration;
    var s' := RejectedReconcile(s);
    if s.disposed || s.store.None? {
    } else if s.listener.Some? {
      ClosingListenerKeeps(s, s.listener.value);
    } else {
      RecordingKeeps(s);
      SameCoreKeeps(RequireFullRefresh(s), s');
    }
  }

  lemma ClientFailingKeeps(s: State, r: nat)
    requires Inv(s) && r < |s.runtimes|
    ensures Inv(Next(s, ClientFails(r)))
  {
    hide FlushesOk, RefreshesOk, DebtOk, AllAccounted, OnListenerClosed;
    if s.runtimes[r].published {
      ClosingListenerKeeps(s, r);
    } else {
      var rt := s.runtimes[r].(startupFailed := true);
      assert RuntimeOk(s.runtimes[r]);
      assert forall t: nat :: Holds(rt, t) <==> Holds(s.runtimes[r], t);
      assert Replaces(s, r, rt);
      ReplacingKeeps(s, r, rt);
    }
  }

  lemma ListenerThere(s: State)
    requires Inv(s)
    ensures ListenerExists(s)
  {
  }

  /** Steps that touch neither the listener nor the refreshes. */
  predicate Peripheral(e: Event) {
    e.SaveConnection? || e.RemoveConnection? || e.ChangeSettings? || e.MarkedStale? || e.Request? || e.RequestReconcile?
    || e.Dispose? || e.ReconnectFires? || e.ReceiveWhileStarting? || e.ClientFailsWhileStarting?
  }

  lemma PeripheralKeeps(s: State, e: Event)
    requires Inv(s) && Enabled(s, e) && Peripheral(e)
    ensures Inv(Next(s, e))
  {
    ListenerThere(s);
    PeripheralSame(s, e);
    hide Core, Quiet, QuietBut, InQueue, SameCore, Next;
    SameCoreKeeps(s, Next(s, e));
    if s.active.Some? && Next(s, e).active != s.active {
      CalmBetween(s);
    }
  }

  lemma PeripheralSame(s: State, e: Event)
    requires ListenerExists(s) && Enabled(s, e) && Peripheral(e)
    ensures SameCore(s, Next(s, e))
    ensures Next(s, e).active == s.active
            || (s.active.Some? && s.active.value.Starting? && Next(s, e).active.Some? && Next(s, e).active.value.Starting?)
  {}

  lemma EnvironmentKeeps(s: State, e: Event)
    requires Inv(s) && Enabled(s, e) && (e.Commit? || e.IndexedElsewhere? || e.ReconcileRejected?)
    ensures Inv(Next(s, e))
  {
    hide Core, StartupOk, RejectedReconcile;
    match e
    case Commit => LaterKeeps(s, s.clock + 1);
    case IndexedElsewhere(upTo, clean) => ReflectingKeeps(s, upTo, s.stale && !clean);
    case ReconcileRejected =>
      SameCoreKeeps(s, s.(failedReconciles := s.failedReconciles - 1));
      RejectionKeeps(s.(failedReconciles := s.failedReconciles - 1));
  }

  lemma LifecycleStartingKeeps(s: State)
    requires Inv(s) && Enabled(s, LifecycleStarts)
    ensures Inv(Next(s, LifecycleStarts))
  {
    ListenerThere(s);
    hide Core, StartupOk, StartOperation;
    SameCoreKeeps(s, s.(lifecycle := s.lifecycle[1..]));
    StartingOperationKeeps(s.(lifecycle := s.lifecycle[1..]), s.lifecycle[0]);
  }

  // ----- Every step, every run -----------------------------------------------------------------

  /** Every atomic step keeps the invariant. */
  lemma NextKeeps(s: State, e: Event)
    requires Inv(s) && Enabled(s, e)
    ensures ListenerExists(s) && Inv(Next(s, e))
  {
    ListenerThere(s);
    hide Inv, Next, Enabled;
    match e
    case Commit => EnvironmentKeeps(s, e);
    case IndexedElsewhere(upTo, clean) => EnvironmentKeeps(s, e);
    case ReconcileRejected => EnvironmentKeeps(s, e);
    case Receive(_, _) => ListenerStepKeeps(s, e);
    case ClientFails(_) => ListenerStepKeeps(s, e);
    case TimerFires(_) => ListenerStepKeeps(s, e);
    case FlushResumes(_) => ListenerStepKeeps(s, e);
    case RefreshStarts => RefreshStartingKeeps(s);
    case RefreshReads => RefreshReadingKeeps(s);
    case RefreshPublishes(clean) => PublishingKeeps(s, clean);
    case RefreshCompletes => CompletingKeeps(s);
    case RefreshFails => RefreshFailingKeeps(s);
    case RefreshSettles => SettlingKeeps(s);
    case LifecycleStarts => LifecycleStartingKeeps(s);
    case LifecycleResumes => LifecycleStepKeeps(s, e);
    case LifecycleAnswers(answer) => LifecycleStepKeeps(s, e);
    case _ => PeripheralKeeps(s, e);
  }

  lemma ListenerStepKeeps(s: State, e: Event)
    requires Inv(s) && Enabled(s, e) && (e.Receive? || e.ClientFails? || e.TimerFires? || e.FlushResumes?)
    ensures Inv(Next(s, e))
  {
    ListenerThere(s);
    hide Inv, Received, FlushStarts, FlushContinues, OnListenerClosed;
    match e
    case Receive(r, payload) => ReceivingKeeps(s, r, payload);
    case ClientFails(r) => ClientFailingKeeps(s, r);
    case TimerFires(r) => FlushStartingKeeps(s, r);
    case FlushResumes(r) => FlushContinuingKeeps(s, r);
  }

  lemma LifecycleStepKeeps(s: State, e: Event)
    requires Inv(s) && Enabled(s, e) && (e.LifecycleResumes? || e.LifecycleAnswers?)
    ensures Inv(Next(s, e))
  {
    ListenerThere(s);
    hide Inv, Resume, AnswerOperation, Resumable;
    match e
    case LifecycleResumes => ResumingKeeps(s, s.active.value);
    case LifecycleAnswers(answer) => AnsweringKeeps(s, s.active.value, answer);
  }

  lemma InitialHolds(s: State)
    requires Initial(s)
    ensures Inv(s)
  {
  }

  /** `s'` is reached from `s` by the events, each enabled when it happens. */
  ghost predicate Run(s: State, events: seq<Event>, s': State)
    decreases |events|
  {
    if events == [] then s' == s
    else ListenerExists(s) && Enabled(s, events[0]) && Run(Next(s, events[0]), events[1..], s')
  }

  /** Every run keeps the invariant. */
  lemma {:induction false} RunKeeps(s: State, events: seq<Event>, s': State)
    requires Inv(s) && Run(s, events, s')
    ensures Inv(s')
    decreases |events|
  {
    if events != [] {
      NextKeeps(s, events[0]);
      RunKeeps(Next(s, events[0]), events[1..], s');
    }
  }

  /** `s` is a state of a controller that began in an initial one. */
  ghost predicate Reachable(s: State) {
    exists start, events :: Initial(start) && Run(start, events, s)
  }

  lemma {:induction false} RunFurther(s: State, events: seq<Event>, s': State, e: Event)
    requires Run(s, events, s') && ListenerExists(s') && Enabled(s', e)
    ensures Run(s, events + [e], Next(s', e))
    decreases |events|
  {
    if events == [] {
      assert [] + [e] == [e] && [e][1..] == [];
    } else {
      assert (events + [e])[1..] == events[1..] + [e];
      hide Next, Enabled;
      RunFurther(Next(s, events[0]), events[1..], s', e);
    }
  }

  lemma ReachableInitially(s: State)
    requires Initial(s)
    ensures Reachable(s)
  {
    assert Run(s, [], s);
  }

  lemma ReachableNext(s: State, e: Event)
    requires Reachable(s) && ListenerExists(s) && Enabled(s, e)
    ensures Reachable(Next(s, e))
  {
    hide Next, Enabled, Initial, Run;
    var start, events :| Initial(start) && Run(start, events, s);
    RunFurther(start, events, s, e);
  }

  /** Every reachable state satisfies the invariant. */
  lemma ReachableHolds(s: State)
    requires Reachable(s)
    ensures Inv(s)
  {
    hide Inv;
    var start, events :| Initial(start) && Run(start, events, s);
    InitialHolds(start);
    RunKeeps(start, events, s);
  }
}
