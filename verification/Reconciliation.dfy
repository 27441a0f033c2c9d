/**
 * Reconciling the changes of two schema snapshots (packages/catalog/src/postgresSchemaComparison.ts):
 * equivalent constraints that were removed and added cancel, and one-sided references are balanced.
 */
module Reconciliation {
  import opened Options

  // ----- Constraints ---------------------------------------------------------------------------------

  /** One side of a change: for a constraint its structure key, and whether its signature says just `NULL`. */
  datatype Side = Side(constraint: bool, key: string, isNull: bool)
  datatype ChangeKind = Added | Removed | Modified
  datatype Change = Change(kind: ChangeKind, old_: Option<Side>, new_: Option<Side>)

  predicate AddedAs(c: Change, key: string) {
    c.kind.Added? && c.new_.Some? && c.new_.value.constraint && c.new_.value.key == key
  }

  predicate RemovedAs(c: Change, key: string) {
    c.kind.Removed? && c.old_.Some? && c.old_.value.constraint && c.old_.value.key == key
  }

  predicate AddsConstraint(c: Change) {
    c.kind.Added? && c.new_.Some? && c.new_.value.constraint
  }

  predicate RemovesConstraint(c: Change) {
    c.kind.Removed? && c.old_.Some? && c.old_.value.constraint
  }

  /** A removed `NULL` constraint is an artefact of how PostgreSQL stores columns. */
  predicate IsArtefact(c: Change) {
    RemovesConstraint(c) && c.old_.value.isNull
  }

  function CountAdded(changes: seq<Change>, key: string): nat {
    if changes == [] then 0
    else CountAdded(changes[..|changes| - 1], key) + if AddedAs(changes[|changes| - 1], key) then 1 else 0
  }

  function CountRemoved(changes: seq<Change>, key: string): nat {
    if changes == [] then 0
    else CountRemoved(changes[..|changes| - 1], key) + if RemovedAs(changes[|changes| - 1], key) then 1 else 0
  }

  /**
   * Whether the change cancels: a removal while additions of its key are left, counted from the first
   * removal on, and an addition while removals are left, counted from the last addition back.
   */
  predicate Cancels(changes: seq<Change>, i: nat)
    requires i < |changes|
  {
    var c := changes[i];
    || (RemovesConstraint(c) && CountRemoved(changes[..i], c.old_.value.key) < CountAdded(changes, c.old_.value.key))
    || (AddsConstraint(c) && CountAdded(changes, c.new_.value.key) - CountAdded(changes[..i + 1], c.new_.value.key)
                             < CountRemoved(changes, c.new_.value.key))
  }

  /** What survives of the first `n` changes, in order. */
  function Survivors(changes: seq<Change>, n: nat): seq<Change>
    requires n <= |changes|
  {
    if n == 0 then []
    else Survivors(changes, n - 1) + if Cancels(changes, n - 1) || IsArtefact(changes[n - 1]) then [] else [changes[n - 1]]
  }

  function Min(a: int, b: int): int {
    if a < b then a else b
  }

  function Max(a: int, b: int): int {
    if a < b then b else a
  }

  // ----- How many cancel -----------------------------------------------------------------------------

  function CancelledRemovals(changes: seq<Change>, key: string, n: nat): nat
    requires n <= |changes|
  {
    if n == 0 then 0
    else CancelledRemovals(changes, key, n - 1) + if RemovedAs(changes[n - 1], key) && Cancels(changes, n - 1) then 1 else 0
  }

  function CancelledAdditions(changes: seq<Change>, key: string, n: nat): nat
    requires n <= |changes|
  {
    if n == 0 then 0
    else CancelledAdditions(changes, key, n - 1) + if AddedAs(changes[n - 1], key) && Cancels(changes, n - 1) then 1 else 0
  }

  lemma {:induction false} RemovalsCancelled(changes: seq<Change>, key: string, n: nat)
    requires n <= |changes|
    ensures CancelledRemovals(changes, key, n) == Min(CountRemoved(changes[..n], key), CountAdded(changes, key))
  {
    if n > 0 {
      RemovalsCancelled(changes, key, n - 1);
      assert changes[..n][..n - 1] == changes[..n - 1];
    }
  }

  lemma {:induction false} CountsGrow(changes: seq<Change>, key: string, i: nat)
    requires i <= |changes|
    ensures CountAdded(changes[..i], key) <= CountAdded(changes, key) && CountRemoved(changes[..i], key) <= CountRemoved(changes, key)
  {
    if i < |changes| {
      var n := |changes| - 1;
      CountsGrow(changes[..n], key, i);
      assert changes[..n][..i] == changes[..i];
    } else {
      assert changes[..i] == changes;
    }
  }

  /** Of `a` additions the first `a - r` stay, when there are `r` removals. */
  lemma {:induction false} AdditionsCancelled(changes: seq<Change>, key: string, n: nat)
    requires n <= |changes|
    ensures CancelledAdditions(changes, key, n)
            == Max(0, CountAdded(changes[..n], key) - Max(0, CountAdded(changes, key) - CountRemoved(changes, key)))
  {
    if n > 0 {
      AdditionsCancelled(changes, key, n - 1);
      assert changes[..n][..n - 1] == changes[..n - 1];
      CountsGrow(changes, key, n);
    }
  }

  /** For every structure key exactly min(removed, added) removals and as many additions cancel. */
  lemma PairsCancel(changes: seq<Change>, key: string)
    ensures CancelledRemovals(changes, key, |changes|) == Min(CountRemoved(changes, key), CountAdded(changes, key))
    ensures CancelledAdditions(changes, key, |changes|) == Min(CountRemoved(changes, key), CountAdded(changes, key))
  {
    RemovalsCancelled(changes, key, |changes|);
    AdditionsCancelled(changes, key, |changes|);
    assert changes[..|changes|] == changes;
  }

  lemma CountsSnoc(before: seq<Change>, c: Change, key: string)
    ensures CountAdded(before + [c], key) == CountAdded(before, key) + if AddedAs(c, key) then 1 else 0
    ensures CountRemoved(before + [c], key) == CountRemoved(before, key) + if RemovedAs(c, key) then 1 else 0
  {
    assert (before + [c])[..|before|] == before;
  }

  lemma SurvivorsStep(changes: seq<Change>, n: nat)
    requires 0 < n <= |changes|
    ensures Survivors(changes, n) == if Cancels(changes, n - 1) || IsArtefact(changes[n - 1]) then Survivors(changes, n - 1)
                                     else Survivors(changes, n - 1) + [changes[n - 1]]
  {}

  lemma NothingSurvives(changes: seq<Change>, key: string)
    ensures Survivors(changes, 0) == [] && CountAdded([], key) == 0 && CountRemoved([], key) == 0 && changes[..0] == []
  {}

  lemma {:induction false} SurvivingAdditions(changes: seq<Change>, key: string, n: nat)
    requires n <= |changes|
    ensures CountAdded(Survivors(changes, n), key) == CountAdded(changes[..n], key) - CancelledAdditions(changes, key, n)
  {
    hide CountAdded, CountRemoved, Cancels, Survivors;
    if n > 0 {
      SurvivingAdditions(changes, key, n - 1);
      var before, c := Survivors(changes, n - 1), changes[n - 1];
      assert changes[..n] == changes[..n - 1] + [c];
      CountsSnoc(before, c, key);
      CountsSnoc(changes[..n - 1], c, key);
      SurvivorsStep(changes, n);
    } else {
      NothingSurvives(changes, key);
    }
  }

  lemma {:induction false} SurvivingRemovals(changes: seq<Change>, key: string, n: nat)
    requires n <= |changes| && forall c | c in changes && RemovedAs(c, key) :: !IsArtefact(c)
    ensures CountRemoved(Survivors(changes, n), key) == CountRemoved(changes[..n], key) - CancelledRemovals(changes, key, n)
  {
    hide CountAdded, CountRemoved, Cancels, Survivors;
    if n > 0 {
      SurvivingRemovals(changes, key, n - 1);
      var before, c := Survivors(changes, n - 1), changes[n - 1];
      assert changes[..n] == changes[..n - 1] + [c] && c in changes;
      CountsSnoc(before, c, key);
      CountsSnoc(changes[..n - 1], c, key);
      SurvivorsStep(changes, n);
    } else {
      NothingSurvives(changes, key);
    }
  }

  /**
   * Reconciliation is multiset difference: of a key's additions exactly those in excess of its removals
   * survive, and of its removals those in excess of its additions; a removed `NULL` constraint never does.
   */
  lemma SurvivorsAreDifference(changes: seq<Change>, key: string)
    ensures var left := Survivors(changes, |changes|);
            && CountAdded(left, key) == Max(0, CountAdded(changes, key) - CountRemoved(changes, key))
            && ((forall c | c in changes && RemovedAs(c, key) :: !c.old_.value.isNull) ==>
                  CountRemoved(left, key) == Max(0, CountRemoved(changes, key) - CountAdded(changes, key)))
            && (forall c | c in left && RemovedAs(c, key) :: !c.old_.value.isNull)
  {
    ArtefactsVanish(changes, |changes|);
    hide Survivors, CountAdded, CountRemoved, AddedAs, CancelledRemovals, CancelledAdditions;
    PairsCancel(changes, key);
    SurvivingAdditions(changes, key, |changes|);
    if forall c | c in changes && RemovedAs(c, key) :: !c.old_.value.isNull {
      SurvivingRemovals(changes, key, |changes|);
    }
    assert changes[..|changes|] == changes;
  }

  lemma {:induction false} ArtefactsVanish(changes: seq<Change>, n: nat)
    requires n <= |changes|
    ensures forall c | c in Survivors(changes, n) :: !IsArtefact(c)
  {
    if n > 0 {
      ArtefactsVanish(changes, n - 1);
      hide Cancels;
    }
  }

  function OtherChanges(changes: seq<Change>): seq<Change> {
    if changes == [] then []
    else
      var last := changes[|changes| - 1];
      OtherChanges(changes[..|changes| - 1]) + if AddsConstraint(last) || RemovesConstraint(last) then [] else [last]
  }

  /** All other changes survive untouched, in order. */
  lemma {:induction false} OthersSurvive(changes: seq<Change>, n: nat)
    requires n <= |changes|
    ensures OtherChanges(Survivors(changes, n)) == OtherChanges(changes[..n])
  {
    if n > 0 {
      OthersSurvive(changes, n - 1);
      var before, c := Survivors(changes, n - 1), changes[n - 1];
      assert changes[..n][..n - 1] == changes[..n - 1];
      assert (before + [c])[..|before|] == before && before + [] == before;
      assert OtherChanges(changes[..n - 1]) + [] == OtherChanges(changes[..n - 1]);
      assert Cancels(changes, n - 1) || IsArtefact(c) ==> AddsConstraint(c) || RemovesConstraint(c);
    }
  }

  // ----- reconcileEquivalentConstraints --------------------------------------------------------------

  /** The positions of the additions of a key, in order. */
  ghost predicate Positions(changes: seq<Change>, key: string, positions: seq<nat>) {
    && |positions| == CountAdded(changes, key)
    && (forall t :: 0 <= t < |positions| ==>
          positions[t] < |changes| && AddedAs(changes[positions[t]], key) && CountAdded(changes[..positions[t]], key) == t)
  }

  function At(index: map<string, seq<nat>>, key: string): seq<nat> {
    if key in index then index[key] else []
  }

  method IndexAdditions(changes: seq<Change>) returns (addedByStructure: map<string, seq<nat>>)
    ensures forall key :: Positions(changes, key, At(addedByStructure, key))
  {
    addedByStructure := map[];
    for i := 0 to |changes|
      invariant forall key :: Positions(changes[..i], key, At(addedByStructure, key))
    {
      var change := changes[i];
      ghost var before := addedByStructure;
      if AddsConstraint(change) {
        var key := change.new_.value.key;
        addedByStructure := addedByStructure[key := At(addedByStructure, key) + [i]];
      }
      forall key ensures Positions(changes[..i + 1], key, At(addedByStructure, key)) {
        OneMorePosition(changes, i, key, At(before, key));
      }
    }
    assert changes[..|changes|] == changes;
  }

  lemma OneMorePosition(changes: seq<Change>, i: nat, key: string, positions: seq<nat>)
    requires i < |changes| && Positions(changes[..i], key, positions)
    ensures Positions(changes[..i + 1], key, if AddedAs(changes[i], key) then positions + [i] else positions)
  {
    assert changes[..i + 1][..i] == changes[..i];
    forall t | 0 <= t < |positions|
      ensures changes[..i + 1][..positions[t]] == changes[..i][..positions[t]] && changes[..i + 1][positions[t]] == changes[..i][positions[t]]
    {}
  }

  /** Before removal `i` is looked at: how many additions of the key have been popped. */
  function Popped(changes: seq<Change>, key: string, i: nat): nat
    requires i <= |changes|
  {
    var removed, added := CountRemoved(changes[..i], key), CountAdded(changes, key);
    if removed < added then removed else added
  }

  /** What has been ignored when the removals before `i` are done. */
  predicate IgnoredBefore(changes: seq<Change>, i: nat, j: nat)
    requires i <= |changes| && j < |changes|
  {
    var c := changes[j];
    || (RemovesConstraint(c) && j < i && CountRemoved(changes[..j], c.old_.value.key) < CountAdded(changes, c.old_.value.key))
    || (AddsConstraint(c) && CountAdded(changes, c.new_.value.key) - CountAdded(changes[..j + 1], c.new_.value.key)
                             < CountRemoved(changes[..i], c.new_.value.key))
  }

  lemma AdditionAt(changes: seq<Change>, key: string, positions: seq<nat>, t: nat, j: nat)
    requires Positions(changes, key, positions) && t < |positions| && j < |changes| && AddedAs(changes[j], key)
    ensures CountAdded(changes[..j + 1], key) == CountAdded(changes[..j], key) + 1
    ensures CountAdded(changes[..j], key) == t <==> j == positions[t]
  {
    assert changes[..j + 1][..j] == changes[..j];
    if j < positions[t] {
      StrictlyMore(changes, key, j, positions[t]);
    } else if positions[t] < j {
      StrictlyMore(changes, key, positions[t], j);
    }
  }

  lemma {:induction false} StrictlyMore(changes: seq<Change>, key: string, i: nat, j: nat)
    requires i < j <= |changes| && AddedAs(changes[i], key)
    ensures CountAdded(changes[..i], key) < CountAdded(changes[..j], key)
    decreases j
  {
    assert changes[..j][..j - 1] == changes[..j - 1];
    if i < j - 1 {
      StrictlyMore(changes, key, i, j - 1);
    }
  }

  /** The step of one removal, for the set of ignored positions. */
  lemma OneMoreRemoval(changes: seq<Change>, i: nat, j: nat, positions: seq<nat>)
    requires i < |changes| && j < |changes| && RemovesConstraint(changes[i])
    requires Positions(changes, changes[i].old_.value.key, positions)
    ensures var key := changes[i].old_.value.key;
            var p := CountRemoved(changes[..i], key);
            IgnoredBefore(changes, i + 1, j)
            <==> IgnoredBefore(changes, i, j) || (p < |positions| && (j == i || j == positions[|positions| - 1 - p]))
  {
    var key := changes[i].old_.value.key;
    var p := CountRemoved(changes[..i], key);
    assert changes[..i + 1][..i] == changes[..i];
    if AddedAs(changes[j], key) && p < |positions| {
      AdditionAt(changes, key, positions, |positions| - 1 - p, j);
    }
    if AddedAs(changes[j], key) {
      assert changes[..j + 1][..j] == changes[..j];
    }
  }

  lemma NoRemoval(changes: seq<Change>, i: nat, j: nat)
    requires i < |changes| && j < |changes| && !RemovesConstraint(changes[i])
    ensures IgnoredBefore(changes, i + 1, j) <==> IgnoredBefore(changes, i, j)
  {
    assert changes[..i + 1][..i] == changes[..i];
  }

  lemma NothingIgnored(changes: seq<Change>, j: nat)
    requires j < |changes|
    ensures !IgnoredBefore(changes, 0, j)
  {
    assert changes[..0] == [];
    if AddsConstraint(changes[j]) {
      CountsGrow(changes, changes[j].new_.value.key, j + 1);
    }
  }

  lemma PoppedStep(changes: seq<Change>, key: string, i: nat)
    requires i < |changes|
    ensures Popped(changes, key, 0) == 0
    ensures Popped(changes, key, i + 1) == Popped(changes, key, i)
            + if RemovedAs(changes[i], key) && Popped(changes, key, i) < CountAdded(changes, key) then 1 else 0
    ensures CountRemoved(changes[..i], key) < CountAdded(changes, key) <==> Popped(changes, key, i) < CountAdded(changes, key)
    ensures CountRemoved(changes[..i], key) < CountAdded(changes, key) ==> Popped(changes, key, i) == CountRemoved(changes[..i], key)
  {
    assert changes[..0] == [];
    assert changes[..i + 1][..i] == changes[..i];
  }

  lemma WholeIgnored(changes: seq<Change>, j: nat)
    requires j < |changes|
    ensures IgnoredBefore(changes, |changes|, j) <==> Cancels(changes, j)
  {
    assert changes[..|changes|] == changes;
  }

  /** The additions of each key that no removal has popped yet. */
  ghost predicate Unpopped(changes: seq<Change>, i: nat, positions: map<string, seq<nat>>, matches: map<string, seq<nat>>)
    requires i <= |changes|
  {
    forall key :: UnpoppedAt(changes, i, key, At(positions, key), At(matches, key))
  }

  ghost predicate UnpoppedAt(changes: seq<Change>, i: nat, key: string, all: seq<nat>, left: seq<nat>)
    requires i <= |changes|
  {
    Popped(changes, key, i) <= |all| && left == all[..|all| - Popped(changes, key, i)]
  }

  method IgnoredPositions(changes: seq<Change>) returns (ignored: set<nat>)
    ensures forall j :: 0 <= j < |changes| ==> (j in ignored <==> Cancels(changes, j))
  {
    var matches := IndexAdditions(changes);
    ghost var positions := matches;
    ignored := {};
    StartUnpopped(changes, positions);
    for i := 0 to |changes|
      invariant forall key :: Positions(changes, key, At(positions, key))
      invariant Unpopped(changes, i, positions, matches)
      invariant forall j :: 0 <= j < |changes| ==> (j in ignored <==> IgnoredBefore(changes, i, j))
    {
      matches, ignored := PopMatch(changes, i, positions, matches, ignored);
    }
    forall j | 0 <= j < |changes| ensures j in ignored <==> Cancels(changes, j) {
      WholeIgnored(changes, j);
    }
  }

  lemma StartUnpopped(changes: seq<Change>, positions: map<string, seq<nat>>)
    ensures Unpopped(changes, 0, positions, positions)
    ensures forall j :: 0 <= j < |changes| ==> !IgnoredBefore(changes, 0, j)
  {
    assert changes[..0] == [];
    forall j | 0 <= j < |changes| ensures !IgnoredBefore(changes, 0, j) {
      NothingIgnored(changes, j);
    }
    forall key ensures UnpoppedAt(changes, 0, key, At(positions, key), At(positions, key)) {
      assert changes[..0] == [] && Popped(changes, key, 0) == 0;
    }
  }

  /** One turn of the second loop: a removal pops the last addition of its key, if one is left. */
  method PopMatch(changes: seq<Change>, i: nat, ghost positions: map<string, seq<nat>>, before: map<string, seq<nat>>, ignored_: set<nat>)
    returns (matches: map<string, seq<nat>>, ignored: set<nat>)
    requires i < |changes| && (forall key :: Positions(changes, key, At(positions, key)))
    requires Unpopped(changes, i, positions, before)
    requires forall j :: 0 <= j < |changes| ==> (j in ignored_ <==> IgnoredBefore(changes, i, j))
    ensures Unpopped(changes, i + 1, positions, matches)
    ensures forall j :: 0 <= j < |changes| ==> (j in ignored <==> IgnoredBefore(changes, i + 1, j))
  {
    hide IgnoredBefore, Popped, CountAdded, CountRemoved, Positions, Unpopped;
    var change := changes[i];
    matches, ignored := before, ignored_;
    UnpoppedNext(changes, i, positions, before);
    if RemovesConstraint(change) {
      var key := change.old_.value.key;
      var left := At(before, key);
      if left != [] {
        ignored := ignored + {i, left[|left| - 1]};
        matches := matches[key := left[..|left| - 1]];
      }
      forall j | 0 <= j < |changes| ensures j in ignored <==> IgnoredBefore(changes, i + 1, j) {
        RemovalIgnores(changes, i, j, positions, before);
      }
    } else {
      forall j | 0 <= j < |changes| ensures j in ignored <==> IgnoredBefore(changes, i + 1, j) {
        NoRemoval(changes, i, j);
      }
    }
  }

  lemma UnpoppedNext(changes: seq<Change>, i: nat, positions: map<string, seq<nat>>, before: map<string, seq<nat>>)
    requires i < |changes| && (forall key :: Positions(changes, key, At(positions, key)))
    requires Unpopped(changes, i, positions, before)
    ensures var change := changes[i];
            var left := if RemovesConstraint(change) then At(before, change.old_.value.key) else [];
            Unpopped(changes, i + 1, positions, if left == [] then before else before[change.old_.value.key := left[..|left| - 1]])
  {
    var change := changes[i];
    var left := if RemovesConstraint(change) then At(before, change.old_.value.key) else [];
    var after := if left == [] then before else before[change.old_.value.key := left[..|left| - 1]];
    hide Popped, CountAdded, CountRemoved, Positions, UnpoppedAt;
    forall key ensures UnpoppedAt(changes, i + 1, key, At(positions, key), At(after, key)) {
      UnpoppedAtNext(changes, i, key, At(positions, key), At(before, key));
    }
  }

  lemma UnpoppedAtNext(changes: seq<Change>, i: nat, key: string, all: seq<nat>, left: seq<nat>)
    requires i < |changes| && Positions(changes, key, all) && UnpoppedAt(changes, i, key, all, left)
    ensures UnpoppedAt(changes, i + 1, key, all, if RemovedAs(changes[i], key) && left != [] then left[..|left| - 1] else left)
  {
    PoppedStep(changes, key, i);
    assert |all| == CountAdded(changes, key);
    hide Popped, CountAdded, CountRemoved, Positions;
  }

  lemma RemovalIgnores(changes: seq<Change>, i: nat, j: nat, positions: map<string, seq<nat>>, before: map<string, seq<nat>>)
    requires i < |changes| && j < |changes| && RemovesConstraint(changes[i])
    requires forall key :: Positions(changes, key, At(positions, key))
    requires Unpopped(changes, i, positions, before)
    ensures var left := At(before, changes[i].old_.value.key);
            IgnoredBefore(changes, i + 1, j) <==> IgnoredBefore(changes, i, j) || (left != [] && (j == i || j == left[|left| - 1]))
  {
    var key := changes[i].old_.value.key;
    OneMoreRemoval(changes, i, j, At(positions, key));
    PoppedStep(changes, key, i);
    assert UnpoppedAt(changes, i, key, At(positions, key), At(before, key));
    hide Unpopped, IgnoredBefore, Popped, CountAdded, CountRemoved;
  }

  method ReconcileEquivalentConstraints(changes: seq<Change>) returns (remaining: seq<Change>)
    ensures remaining == Survivors(changes, |changes|)
  {
    var ignored := IgnoredPositions(changes);
    remaining := [];
    for i := 0 to |changes|
      invariant remaining == Survivors(changes, i)
    {
      if i !in ignored && !IsArtefact(changes[i]) {
        remaining := remaining + [changes[i]];
      }
    }
  }

  // ----- structuralReferenceDifferences ----------------------------------------------------------------

  /** A reference change, its compact names already preferred to the full ones. */
  datatype RefChange = RefChange(kind: string, refKind: string, oldSource: Option<string>, newSource: Option<string>,
                                 oldTarget: Option<string>, newTarget: Option<string>)
  datatype Difference = Retargeted(kind: string, oldTarget: string, newTarget: string) | RefRemoved(target: string) | RefAdded(target: string)
  datatype RefKey = RefKey(source: string, target: string)

  /** JavaScript's truth of an optional string. */
  predicate Says(text: Option<string>) {
    text.Some? && text.value != ""
  }

  predicate Mentions(text: Option<string>, part: string) {
    text.Some? && exists i | 0 <= i <= |text.value| :: part <= text.value[i..]
  }

  predicate IndexMember(c: RefChange) {
    c.refKind == "member_of" && (Mentions(c.oldSource, "/index:") || Mentions(c.newSource, "/index:"))
  }

  predicate TwoSided(c: RefChange) {
    IndexMember(c) && Says(c.oldTarget) && Says(c.newTarget)
  }

  /** The key of a one-sided reference, with its direction: gone, or new. */
  function OneSided(c: RefChange): Option<(RefKey, bool)> {
    if !IndexMember(c) || TwoSided(c) then None
    else
      var target := if c.oldTarget.Some? then c.oldTarget else c.newTarget;
      if !Says(target) then None
      else
        var source := if c.oldSource.Some? then c.oldSource.value else c.newSource.GetOr("");
        Some((RefKey(source, target.value), Says(c.oldTarget)))
  }

  function Retargets(changes: seq<RefChange>): seq<Difference> {
    if changes == [] then []
    else
      var last := changes[|changes| - 1];
      Retargets(changes[..|changes| - 1])
      + if TwoSided(last) && last.oldTarget != last.newTarget
        then [Retargeted(last.kind, last.oldTarget.value, last.newTarget.value)] else []
  }

  /** New references of the key less those gone. */
  function Balance(changes: seq<RefChange>, key: RefKey): int {
    if changes == [] then 0
    else
      var last := OneSided(changes[|changes| - 1]);
      Balance(changes[..|changes| - 1], key) + if last.Some? && last.value.0 == key then if last.value.1 then -1 else 1 else 0
  }

  function Abs(n: int): nat {
    if n < 0 then -n else n
  }

  /** The differences of one key: as many as its balance, of its sign. */
  function Emitted(key: RefKey, balance: int): seq<Difference> {
    seq(Abs(balance), _ => if balance < 0 then RefRemoved(key.target) else RefAdded(key.target))
  }

  function EmittedAll(changes: seq<RefChange>, keys: seq<RefKey>): seq<Difference> {
    if keys == [] then []
    else EmittedAll(changes, keys[..|keys| - 1]) + Emitted(keys[|keys| - 1], Balance(changes, keys[|keys| - 1]))
  }

  ghost predicate OneSidedKey(changes: seq<RefChange>, key: RefKey) {
    exists c | c in changes :: OneSided(c).Some? && OneSided(c).value.0 == key
  }

  ghost predicate TotalOrder(leq: (RefKey, RefKey) -> bool) {
    && (forall a, b :: leq(a, b) || leq(b, a))
    && (forall a, b, c :: leq(a, b) && leq(b, c) ==> leq(a, c))
  }

  /** Each key of a one-sided reference, once, in the order of the keys' texts. */
  ghost predicate SortedKeys(leq: (RefKey, RefKey) -> bool, changes: seq<RefChange>, keys: seq<RefKey>) {
    && (forall i, j :: 0 <= i < j < |keys| ==> leq(keys[i], keys[j]) && keys[i] != keys[j])
    && (forall key :: key in keys <==> OneSidedKey(changes, key))
  }

  ghost predicate Balanced(changes: seq<RefChange>, balances: map<RefKey, int>) {
    && (forall key :: key in balances <==> OneSidedKey(changes, key))
    && (forall key | key in balances :: balances[key] == Balance(changes, key))
    && (forall key :: key !in balances ==> Balance(changes, key) == 0)
  }

  lemma RetargetsSnoc(changes: seq<RefChange>, change: RefChange)
    ensures Retargets(changes + [change])
            == Retargets(changes) + if TwoSided(change) && change.oldTarget != change.newTarget
                                    then [Retargeted(change.kind, change.oldTarget.value, change.newTarget.value)] else []
  {
    assert (changes + [change])[..|changes|] == changes;
  }

  lemma BalanceSnoc(changes: seq<RefChange>, change: RefChange, key: RefKey)
    ensures Balance(changes + [change], key)
            == Balance(changes, key) + if OneSided(change).Some? && OneSided(change).value.0 == key then if OneSided(change).value.1 then -1 else 1 else 0
    ensures OneSidedKey(changes + [change], key) <==> OneSidedKey(changes, key) || (OneSided(change).Some? && OneSided(change).value.0 == key)
  {
    var more := changes + [change];
    assert more[..|changes|] == changes;
    hide OneSided;
    if OneSidedKey(changes, key) {
      var c :| c in changes && OneSided(c).Some? && OneSided(c).value.0 == key;
      assert c in more;
    }
    assert change in more;
  }

  lemma OneMoreReference(changes: seq<RefChange>, change: RefChange, balances: map<RefKey, int>)
    requires Balanced(changes, balances)
    ensures var one := OneSided(change);
            Balanced(changes + [change],
                     if one.None? then balances
                     else balances[one.value.0 := (if one.value.0 in balances then balances[one.value.0] else 0) + if one.value.1 then -1 else 1])
  {
    var one := OneSided(change);
    forall key
      ensures Balance(changes + [change], key)
              == Balance(changes, key) + if one.Some? && one.value.0 == key then if one.value.1 then -1 else 1 else 0
      ensures OneSidedKey(changes + [change], key) <==> OneSidedKey(changes, key) || (one.Some? && one.value.0 == key)
    {
      BalanceSnoc(changes, change, key);
    }
    hide OneSided, Balance, OneSidedKey;
  }

  method BalanceReferences(changes: seq<RefChange>) returns (differences: seq<Difference>, balances: map<RefKey, int>)
    ensures differences == Retargets(changes) && Balanced(changes, balances)
  {
    differences, balances := [], map[];
    for i := 0 to |changes|
      invariant differences == Retargets(changes[..i]) && Balanced(changes[..i], balances)
    {
      var change := changes[i];
      assert changes[..i + 1] == changes[..i] + [change];
      OneMoreReference(changes[..i], change, balances);
      RetargetsSnoc(changes[..i], change);
      hide Retargets, Balanced, OneSided, TwoSided;
      differences, balances := AddReference(change, differences, balances);
    }
    assert changes[..|changes|] == changes;
  }

  /** One turn of the loop: a retargeted reference is a difference, a one-sided one moves its balance. */
  method AddReference(change: RefChange, before: seq<Difference>, was: map<RefKey, int>)
    returns (differences: seq<Difference>, balances: map<RefKey, int>)
    ensures differences == before + if TwoSided(change) && change.oldTarget != change.newTarget
                                    then [Retargeted(change.kind, change.oldTarget.value, change.newTarget.value)] else []
    ensures var one := OneSided(change);
            balances == if one.None? then was
                        else was[one.value.0 := (if one.value.0 in was then was[one.value.0] else 0) + if one.value.1 then -1 else 1]
  {
    differences, balances := before, was;
    hide IndexMember, Says;
    var one := OneSided(change);
    if TwoSided(change) {
      assert Says(change.oldTarget) && Says(change.newTarget);
      TwoSidedSays(change);
      if change.oldTarget.value != change.newTarget.value {
        differences := differences + [Retargeted(change.kind, change.oldTarget.value, change.newTarget.value)];
      }
    } else if one.Some? {
      var (key, gone) := one.value;
      balances := balances[key := (if key in balances then balances[key] else 0) + if gone then -1 else 1];
    }
  }

  lemma TwoSidedSays(change: RefChange)
    requires TwoSided(change)
    ensures change.oldTarget.Some? && change.newTarget.Some?
  {}

  lemma HasLeast(leq: (RefKey, RefKey) -> bool, keys: set<RefKey>)
    requires TotalOrder(leq) && keys != {}
    ensures exists k :: k in keys && forall o | o in keys :: leq(k, o)
  {
    var k :| k in keys;
    var rest := keys - {k};
    if rest == {} {
      assert keys == {k};
      assert leq(k, k);
    } else {
      HasLeast(leq, rest);
      var m :| m in rest && forall o | o in rest :: leq(m, o);
      var least := if leq(k, m) then k else m;
      forall o | o in keys ensures leq(least, o) {
        assert o == k || o in rest;
        Compares(leq, k, m, o);
      }
    }
  }

  lemma Compares(leq: (RefKey, RefKey) -> bool, k: RefKey, m: RefKey, o: RefKey)
    requires TotalOrder(leq)
    ensures leq(k, m) || leq(m, k)
    ensures leq(k, m) && leq(m, o) ==> leq(k, o)
    ensures leq(k, k)
  {}

  method EmitKey(key: RefKey, balance: int, before: seq<Difference>) returns (differences: seq<Difference>)
    ensures differences == before + Emitted(key, balance)
  {
    differences := before;
    var emitted := 0;
    while emitted < Abs(balance)
      invariant emitted <= Abs(balance)
      invariant differences == before + Emitted(key, balance)[..emitted]
    {
      differences := differences + [if balance < 0 then RefRemoved(key.target) else RefAdded(key.target)];
      emitted := emitted + 1;
    }
    assert Emitted(key, balance)[..emitted] == Emitted(key, balance);
  }

  /**
   * Changed references in order, then for each key of a one-sided one, in key order, exactly the absolute
   * balance of differences with its sign.
   */
  method StructuralReferenceDifferences(leq: (RefKey, RefKey) -> bool, changes: seq<RefChange>)
    returns (differences: seq<Difference>, keys: seq<RefKey>)
    requires TotalOrder(leq)
    ensures SortedKeys(leq, changes, keys)
    ensures differences == Retargets(changes) + EmittedAll(changes, keys)
  {
    var balances;
    differences, balances := BalanceReferences(changes);
    hide Retargets, Balance, Emitted, OneSidedKey, TotalOrder, KeysSoFar;
    keys := [];
    var rest := balances.Keys;
    NoKeysYet(leq, balances.Keys);
    assert differences == Retargets(changes) + [];
    while rest != {}
      invariant rest <= balances.Keys
      invariant KeysSoFar(leq, balances.Keys, rest, keys)
      invariant differences == Retargets(changes) + EmittedAll(changes, keys)
    {
      HasLeast(leq, rest);
      var key :| key in rest && forall o | o in rest :: leq(key, o);
      EmittedSnoc(changes, keys, key, Retargets(changes));
      OneMoreKey(leq, balances.Keys, rest, keys, key);
      differences := EmitKey(key, balances[key], differences);
      keys := keys + [key];
      rest := rest - {key};
    }
    AllKeys(leq, balances.Keys, keys);
  }

  /** The least keys, in order; those that remain follow them. */
  ghost predicate KeysSoFar(leq: (RefKey, RefKey) -> bool, all: set<RefKey>, rest: set<RefKey>, keys: seq<RefKey>) {
    && (forall i, j :: 0 <= i < j < |keys| ==> leq(keys[i], keys[j]) && keys[i] != keys[j])
    && (forall key :: key in keys <==> key in all && key !in rest)
    && (forall i, key :: 0 <= i < |keys| && key in rest ==> leq(keys[i], key))
  }

  lemma NoKeysYet(leq: (RefKey, RefKey) -> bool, all: set<RefKey>)
    ensures KeysSoFar(leq, all, all, [])
  {}

  lemma OneMoreKey(leq: (RefKey, RefKey) -> bool, all: set<RefKey>, rest: set<RefKey>, keys: seq<RefKey>, key: RefKey)
    requires KeysSoFar(leq, all, rest, keys) && rest <= all && key in rest && forall o | o in rest :: leq(key, o)
    ensures KeysSoFar(leq, all, rest - {key}, keys + [key])
  {
    var more := keys + [key];
    forall i, j | 0 <= i < j < |more| ensures leq(more[i], more[j]) && more[i] != more[j] {
      assert more[i] == keys[i] && keys[i] in keys;
      if j < |keys| {
        assert more[j] == keys[j];
      }
    }
    forall k ensures k in more <==> k in keys || k == key {
      if k == key {
        assert more[|keys|] == key;
      }
      if k in keys {
        var i :| 0 <= i < |keys| && keys[i] == k;
        assert more[i] == k;
      }
    }
  }

  lemma AllKeys(leq: (RefKey, RefKey) -> bool, all: set<RefKey>, keys: seq<RefKey>)
    requires KeysSoFar(leq, all, {}, keys)
    ensures forall i, j :: 0 <= i < j < |keys| ==> leq(keys[i], keys[j]) && keys[i] != keys[j]
    ensures forall key :: key in keys <==> key in all
  {}

  lemma EmittedSnoc(changes: seq<RefChange>, keys: seq<RefKey>, key: RefKey, before: seq<Difference>)
    ensures before + EmittedAll(changes, keys) + Emitted(key, Balance(changes, key)) == before + EmittedAll(changes, keys + [key])
  {
    assert (keys + [key])[..|keys|] == keys;
  }

  /** What a key emits, counted: additions when its balance is positive, removals when it is negative. */
  lemma {:induction false} EmittedCount(key: RefKey, balance: int)
    ensures multiset(Emitted(key, balance))[RefAdded(key.target)] == Max(0, balance)
    ensures multiset(Emitted(key, balance))[RefRemoved(key.target)] == Max(0, -balance)
    decreases Abs(balance)
  {
    if balance != 0 {
      var less := if balance < 0 then balance + 1 else balance - 1;
      EmittedCount(key, less);
      var d := if balance < 0 then RefRemoved(key.target) else RefAdded(key.target);
      if less == 0 {
        assert Emitted(key, balance) == [d];
      } else {
        assert Emitted(key, balance) == Emitted(key, less) + [d];
      }
    }
  }
}
