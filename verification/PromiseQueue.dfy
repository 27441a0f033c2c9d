/**
 * The promise chain that serialises lifecycle operations, refreshes, index runs and parses
 * (packages/catalog/src/ddlSync.ts, packages/catalog/src/indexController.ts,
 * packages/sql/src/localCodeMonikerSyntax.ts).
 *
 * An operation is chained behind the tail found in a Map when it is enqueued; the Map entry is
 * dropped by a later microtask once its tail has settled, and two further containers count the
 * pending operations and name the running one. `Chain` is that state and `Next` its atomic steps,
 * in any interleaving. `ChainRefinesFifo` shows that every such run is a run of a plain FIFO queue
 * which runs one operation at a time. So the models of schema synchronisation and of the index hold
 * their waiting operations in plain sequences; `DdlSyncQueues` runs the chain beside the former.
 */
module PromiseQueue {
  import opened Options

  /** Where the promise of one operation stands. */
  datatype Stage = Queued | Running | Ran | Settled | Cleaned

  /** `previous` is the tail found at enqueue time; `None` stands for `Promise.resolve()`. */
  datatype Operation = Operation(previous: Option<nat>, stage: Stage) {
    predicate Started() { !stage.Queued? }
    predicate Finished() { stage.Ran? || stage.Settled? || stage.Cleaned? }
    predicate TailResolved() { stage.Settled? || stage.Cleaned? }
  }

  /** `tail` is the Map entry, `pending` the counter (0 when its entry is absent), `active` the Set membership. */
  datatype Chain = Chain(operations: seq<Operation>, tail: Option<nat>, pending: nat, active: bool)

  datatype Event =
    | Enqueue
    | Start(i: nat)
    | Finish(i: nat)
    | Settle(i: nat)
    | Cleanup(i: nat)

  const EMPTY := Chain([], None, 0, false)

  predicate Enabled(c: Chain, e: Event) {
    match e
    case Enqueue => true
    case Start(i) =>
      && i < |c.operations| && c.operations[i].stage == Queued
      && (c.operations[i].previous.None?
          || (c.operations[i].previous.value < |c.operations| && c.operations[c.operations[i].previous.value].TailResolved()))
    case Finish(i) => i < |c.operations| && c.operations[i].stage == Running
    case Settle(i) => i < |c.operations| && c.operations[i].stage == Ran
    case Cleanup(i) => i < |c.operations| && c.operations[i].stage == Settled
  }

  function At(c: Chain, i: nat, stage: Stage): seq<Operation>
    requires i < |c.operations|
  {
    c.operations[i := c.operations[i].(stage := stage)]
  }

  function Next(c: Chain, e: Event): Chain
    requires Enabled(c, e)
  {
    match e
    case Enqueue =>
      Chain(c.operations + [Operation(c.tail, Queued)], Some(|c.operations|), c.pending + 1, c.active)
    case Start(i) => c.(operations := At(c, i, Running), active := true)
    case Finish(i) =>
      var pending := (if c.pending == 0 then 1 else c.pending) - 1;
      c.(operations := At(c, i, Ran), active := false, pending := pending)
    case Settle(i) => c.(operations := At(c, i, Settled))
    case Cleanup(i) =>
      c.(operations := At(c, i, Cleaned), tail := if c.tail == Some(i) then None else c.tail)
  }

  ghost predicate Run(c: Chain, events: seq<Event>, c': Chain)
    decreases |events|
  {
    if events == [] then c' == c
    else Enabled(c, events[0]) && Run(Next(c, events[0]), events[1..], c')
  }

  // ----- The plain queue -----------------------------------------------------------------------

  /** The unfinished operations in order of arrival, and whether the first of them runs. */
  datatype Fifo = Fifo(order: seq<nat>, running: bool, arrivals: nat)

  predicate FifoEnabled(q: Fifo, e: Event) {
    match e
    case Enqueue => true
    case Start(i) => q.order != [] && q.order[0] == i && !q.running
    case Finish(i) => q.order != [] && q.order[0] == i && q.running
    case Settle(_) => true
    case Cleanup(_) => true
  }

  function FifoNext(q: Fifo, e: Event): Fifo
    requires FifoEnabled(q, e)
  {
    match e
    case Enqueue => Fifo(q.order + [q.arrivals], q.running, q.arrivals + 1)
    case Start(_) => q.(running := true)
    case Finish(_) => q.(order := q.order[1..], running := false)
    case Settle(_) => q
    case Cleanup(_) => q
  }

  ghost predicate FifoRun(q: Fifo, events: seq<Event>, q': Fifo)
    decreases |events|
  {
    if events == [] then q' == q
    else FifoEnabled(q, events[0]) && FifoRun(FifoNext(q, events[0]), events[1..], q')
  }

  function Interval(lo: nat, hi: nat): (s: seq<nat>)
    requires lo <= hi
  {
    seq(hi - lo, k requires 0 <= k < hi - lo => lo + k)
  }

  function Abstract(c: Chain): Fifo
    requires c.pending <= |c.operations|
  {
    Fifo(Interval(|c.operations| - c.pending, |c.operations|), c.active, |c.operations|)
  }

  // ----- The invariant -------------------------------------------------------------------------

  ghost predicate Inv(c: Chain) {
    && c.pending <= |c.operations|
    && (forall i | 0 <= i < |c.operations| :: c.operations[i].Finished() <==> i < |c.operations| - c.pending)
    && (forall i | 0 <= i < |c.operations| && c.operations[i].stage == Running :: i == |c.operations| - c.pending)
    && (c.active <==> c.pending > 0 && c.operations[|c.operations| - c.pending].stage == Running)
    && (forall i, j | 0 <= j < i < |c.operations| && c.operations[i].Started() :: c.operations[j].TailResolved())
    && (forall i | 0 <= i < |c.operations| :: Chained(c, i))
    && (c.tail.Some? ==> c.tail.value + 1 == |c.operations|)
    && (c.tail.None? ==> forall i | 0 <= i < |c.operations| :: c.operations[i].TailResolved())
  }

  /** An operation is chained behind its predecessor, or behind nothing when all before it had settled. */
  ghost predicate Chained(c: Chain, i: nat)
    requires i < |c.operations|
  {
    match c.operations[i].previous
    case Some(p) => p + 1 == i
    case None => forall j | 0 <= j < i :: c.operations[j].TailResolved()
  }

  lemma StepKeepsChaining(c: Chain, e: Event)
    requires Inv(c) && Enabled(c, e)
    ensures forall k | 0 <= k < |Next(c, e).operations| :: Chained(Next(c, e), k)
  {
    var c' := Next(c, e);
    assert forall k | 0 <= k < |c.operations| :: c'.operations[k].previous == c.operations[k].previous;
    assert forall k | 0 <= k < |c.operations| && c.operations[k].TailResolved() :: c'.operations[k].TailResolved();
    forall k | 0 <= k < |c'.operations| ensures Chained(c', k) {
      if k < |c.operations| {
        assert Chained(c, k);
      }
    }
  }

  lemma EnqueueKeepsInv(c: Chain)
    requires Inv(c)
    ensures Inv(Next(c, Enqueue))
  {
    StepKeepsChaining(c, Enqueue);
    hide Chained;
    assert forall k | 0 <= k < |c.operations| :: Next(c, Enqueue).operations[k] == c.operations[k];
  }

  lemma MoveKeepsInv(c: Chain, e: Event)
    requires Inv(c) && Enabled(c, e) && !e.Enqueue?
    ensures Inv(Next(c, e))
  {
    StepKeepsChaining(c, e);
    if e.Start? {
      StartsTheHead(c, e.i);
    }
    hide Chained;
    assert forall k | 0 <= k < |c.operations| && k != e.i :: Next(c, e).operations[k] == c.operations[k];
  }

  /** One step keeps the invariant and is the same step of the plain queue. */
  lemma StepRefines(c: Chain, e: Event)
    requires Inv(c) && Enabled(c, e)
    ensures Inv(Next(c, e))
    ensures FifoEnabled(Abstract(c), e)
    ensures Abstract(Next(c, e)) == FifoNext(Abstract(c), e)
  {
    if e.Enqueue? {
      EnqueueKeepsInv(c);
    } else {
      MoveKeepsInv(c, e);
    }
    if e.Start? {
      StartsTheHead(c, e.i);
    }
    hide Chained;
  }

  lemma StartsTheHead(c: Chain, i: nat)
    requires Inv(c) && Enabled(c, Start(i))
    ensures forall j | 0 <= j < i :: c.operations[j].TailResolved()
    ensures i == |c.operations| - c.pending && !c.active
  {
    assert Chained(c, i);
    if c.operations[i].previous.Some? {
      assert c.operations[i - 1].Started();
    }
  }

  /** Every run of the chain, in any interleaving of its microtasks, is a run of the FIFO queue. */
  lemma {:induction false} ChainRefinesFifo(c: Chain, events: seq<Event>, c': Chain)
    requires Inv(c) && Run(c, events, c')
    ensures Inv(c')
    ensures FifoRun(Abstract(c), events, Abstract(c'))
    decreases |events|
  {
    if events != [] {
      StepRefines(c, events[0]);
      ChainRefinesFifo(Next(c, events[0]), events[1..], c');
    }
  }

  lemma EmptyChain()
    ensures Inv(EMPTY) && Abstract(EMPTY) == Fifo([], false, 0)
  {
  }

  function CountUnfinished(operations: seq<Operation>): nat {
    if operations == [] then 0
    else CountUnfinished(operations[..|operations| - 1])
         + if operations[|operations| - 1].Finished() then 0 else 1
  }

  lemma {:induction false} CountOfSuffix(operations: seq<Operation>, first: nat)
    requires first <= |operations|
    requires forall i | 0 <= i < |operations| :: operations[i].Finished() <==> i < first
    ensures CountUnfinished(operations) == |operations| - first
  {
    if operations != [] {
      CountOfSuffix(operations[..|operations| - 1], if first == |operations| then first - 1 else first);
    }
  }

  /** Over every run, the counter is the number of unfinished operations, and at most one operation runs. */
  lemma PendingCountsUnfinished(events: seq<Event>, c: Chain)
    requires Run(EMPTY, events, c)
    ensures c.pending == CountUnfinished(c.operations)
    ensures forall i, j | 0 <= i < |c.operations| && 0 <= j < |c.operations|
                          && c.operations[i].stage == Running && c.operations[j].stage == Running :: i == j
  {
    EmptyChain();
    ChainRefinesFifo(EMPTY, events, c);
    CountOfSuffix(c.operations, |c.operations| - c.pending);
  }

  /** A waiting operation is never stuck: the first unfinished one runs, may start, or waits for one settling microtask. */
  lemma NeverStuck(c: Chain)
    requires Inv(c) && c.pending > 0
    ensures var head := |c.operations| - c.pending;
            Enabled(c, Finish(head)) || Enabled(c, Start(head)) || (head > 0 && Enabled(c, Settle(head - 1)))
  {
    assert Chained(c, |c.operations| - c.pending);
  }

  /** What `waitForLifecycleIdle` and `waitForRefreshIdle` return on: no tail, or a settled tail that is still the newest. */
  lemma IdleMeansNothingPending(c: Chain)
    requires Inv(c)
    requires c.tail.None? || c.operations[c.tail.value].TailResolved()
    ensures c.pending == 0
  {
    assert c.operations != [] ==> c.operations[|c.operations| - 1].Finished();
  }

  // ----- The object ----------------------------------------------------------------------------

  /** The Map entries and Set membership of one connection, updated in place. */
  class OperationQueue {
    var operations: seq<Operation>
    var tail: Option<nat>
    var pending: nat
    var active: bool

    ghost function View(): Chain
      reads this
    {
      Chain(operations, tail, pending, active)
    }

    constructor ()
      ensures View() == EMPTY
    {
      operations, tail, pending, active := [], None, 0, false;
    }

    method EnqueueOperation() returns (id: nat)
      requires Inv(View())
      modifies this
      ensures View() == Next(old(View()), Enqueue) && Inv(View())
      ensures Abstract(View()).order == Abstract(old(View())).order + [id]
    {
      StepRefines(View(), Enqueue);
      id := |operations|;
      var previous := tail;
      pending := pending + 1;
      operations := operations + [Operation(previous, Queued)];
      tail := Some(id);
    }

    method StartOperation(id: nat)
      requires Inv(View()) && Enabled(View(), Start(id))
      modifies this
      ensures View() == Next(old(View()), Start(id)) && Inv(View())
      ensures Abstract(old(View())).order[0] == id && !old(active) && active
    {
      StepRefines(View(), Start(id));
      active := true;
      operations := operations[id := operations[id].(stage := Running)];
    }

    method FinishOperation(id: nat)
      requires Inv(View()) && Enabled(View(), Finish(id))
      modifies this
      ensures View() == Next(old(View()), Finish(id)) && Inv(View())
      ensures Abstract(old(View())).order == [id] + Abstract(View()).order && !active
    {
      StepRefines(View(), Finish(id));
      active := false;
      pending := (if pending == 0 then 1 else pending) - 1;
      operations := operations[id := operations[id].(stage := Ran)];
    }

    method SettleTail(id: nat)
      requires Inv(View()) && Enabled(View(), Settle(id))
      modifies this
      ensures View() == Next(old(View()), Settle(id)) && Inv(View())
      ensures Abstract(View()) == Abstract(old(View()))
    {
      StepRefines(View(), Settle(id));
      operations := operations[id := operations[id].(stage := Settled)];
    }

    method ClearTail(id: nat)
      requires Inv(View()) && Enabled(View(), Cleanup(id))
      modifies this
      ensures View() == Next(old(View()), Cleanup(id)) && Inv(View())
      ensures Abstract(View()) == Abstract(old(View()))
    {
      StepRefines(View(), Cleanup(id));
      operations := operations[id := operations[id].(stage := Cleaned)];
      if tail == Some(id) {
        tail := None;
      }
    }
  }
}
