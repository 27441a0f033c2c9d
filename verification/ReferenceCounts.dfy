/**
 * The reference differences counted (`structuralReferenceDifferences`,
 * packages/catalog/src/postgresSchemaComparison.ts), and which constraints cancel.
 */
module ReferenceCounts {
  import opened Options
  import opened Reconciliation

  // ----- Constraints ---------------------------------------------------------------------------------

  /** Of the additions of a key the last ones cancel, of its removals the first ones. */
  lemma LastAdditionsCancel(changes: seq<Change>, key: string, i: nat, j: nat)
    requires i < j < |changes|
    ensures AddedAs(changes[i], key) && AddedAs(changes[j], key) && Cancels(changes, i) ==> Cancels(changes, j)
    ensures RemovedAs(changes[i], key) && RemovedAs(changes[j], key) && Cancels(changes, j) ==> Cancels(changes, i)
  {
    CountsGrow(changes[..j + 1], key, i + 1);
    CountsGrow(changes[..j], key, i);
    assert changes[..j + 1][..i + 1] == changes[..i + 1] && changes[..j][..i] == changes[..i];
  }

  // ----- References ----------------------------------------------------------------------------------

  predicate IndexAt(text: string, i: nat) {
    i + 7 <= |text| && text[i..i + 7] == "/index:"
  }

  ghost predicate NamesIndex(source: Option<string>) {
    source.Some? && exists i: nat :: IndexAt(source.value, i)
  }

  ghost predicate IsIndexMember(c: RefChange) {
    c.refKind == "member_of" && (NamesIndex(c.oldSource) || NamesIndex(c.newSource))
  }

  predicate Names(text: Option<string>, name: string) {
    text == Some(name) && name != ""
  }

  /** The source of a one-sided change: the old one if there is one. */
  predicate HasSource(c: RefChange, source: string) {
    if c.oldSource.Some? then source == c.oldSource.value
    else if c.newSource.Some? then source == c.newSource.value
    else source == ""
  }

  /** The reference of the key is gone: only its old target is named. */
  ghost predicate Loses(c: RefChange, key: RefKey) {
    IsIndexMember(c) && HasSource(c, key.source) && Names(c.oldTarget, key.target) && (c.newTarget.None? || c.newTarget.value == "")
  }

  /** It is new: it has no old target and its new one is named. */
  ghost predicate Gains(c: RefChange, key: RefKey) {
    IsIndexMember(c) && HasSource(c, key.source) && c.oldTarget.None? && Names(c.newTarget, key.target)
  }

  ghost predicate RetargetsFrom(c: RefChange, d: Difference) {
    && d.Retargeted? && IsIndexMember(c) && c.kind == d.kind
    && Names(c.oldTarget, d.oldTarget) && Names(c.newTarget, d.newTarget) && d.oldTarget != d.newTarget
  }

  lemma SevenCharacters(source: Option<string>)
    ensures Mentions(source, "/index:") <==> NamesIndex(source)
  {
    if source.Some? {
      AtMeans(source.value);
    }
  }

  lemma AtMeans(text: string)
    ensures (exists i | 0 <= i <= |text| :: "/index:" <= text[i..]) <==> exists i: nat :: IndexAt(text, i)
  {
    forall i: nat | i <= |text| ensures "/index:" <= text[i..] <==> IndexAt(text, i) {
      if i + 7 <= |text| {
        assert text[i..][..7] == text[i..i + 7];
      }
    }
  }

  lemma MemberMeans(c: RefChange)
    ensures IndexMember(c) <==> IsIndexMember(c)
  {
    SevenCharacters(c.oldSource);
    SevenCharacters(c.newSource);
  }

  lemma OneSidedMeans(c: RefChange, key: RefKey)
    ensures OneSided(c) == Some((key, true)) <==> Loses(c, key)
    ensures OneSided(c) == Some((key, false)) <==> Gains(c, key)
  {
    MemberMeans(c);
    hide IndexMember, IsIndexMember;
  }

  ghost function Losses(changes: seq<RefChange>, key: RefKey): set<nat> {
    set i: nat | i < |changes| && Loses(changes[i], key)
  }

  ghost function Gainings(changes: seq<RefChange>, key: RefKey): set<nat> {
    set i: nat | i < |changes| && Gains(changes[i], key)
  }

  lemma LossesSnoc(changes: seq<RefChange>, key: RefKey)
    requires changes != []
    ensures |Losses(changes, key)| == |Losses(changes[..|changes| - 1], key)| + if Loses(changes[|changes| - 1], key) then 1 else 0
  {
    hide Loses;
    var n := |changes| - 1;
    var all, before := Losses(changes, key), Losses(changes[..n], key);
    forall i: nat ensures i in all <==> i in before || (i == n && Loses(changes[n], key)) {}
    hide Losses;
    if Loses(changes[n], key) {
      assert all == before + {n};
    } else {
      assert all == before;
    }
  }

  lemma GainingsSnoc(changes: seq<RefChange>, key: RefKey)
    requires changes != []
    ensures |Gainings(changes, key)| == |Gainings(changes[..|changes| - 1], key)| + if Gains(changes[|changes| - 1], key) then 1 else 0
  {
    hide Gains;
    var n := |changes| - 1;
    var all, before := Gainings(changes, key), Gainings(changes[..n], key);
    forall i: nat ensures i in all <==> i in before || (i == n && Gains(changes[n], key)) {}
    hide Gainings;
    if Gains(changes[n], key) {
      assert all == before + {n};
    } else {
      assert all == before;
    }
  }

  /** The balance of a key is the number of its new references less the number of those gone. */
  lemma {:induction false} BalanceCounts(changes: seq<RefChange>, key: RefKey)
    ensures Balance(changes, key) == |Gainings(changes, key)| - |Losses(changes, key)|
  {
    if changes == [] {
      assert Losses(changes, key) == {} && Gainings(changes, key) == {};
    } else {
      var n := |changes| - 1;
      BalanceCounts(changes[..n], key);
      OneSidedMeans(changes[n], key);
      LossesSnoc(changes, key);
      GainingsSnoc(changes, key);
      hide Loses, Gains, OneSided, Losses, Gainings;
    }
  }

  ghost function Retargetings(changes: seq<RefChange>, d: Difference): set<nat> {
    set i: nat | i < |changes| && RetargetsFrom(changes[i], d)
  }

  lemma RetargetingsSnoc(changes: seq<RefChange>, d: Difference)
    requires changes != []
    ensures |Retargetings(changes, d)| == |Retargetings(changes[..|changes| - 1], d)| + if RetargetsFrom(changes[|changes| - 1], d) then 1 else 0
  {
    hide RetargetsFrom;
    var n := |changes| - 1;
    var all, before := Retargetings(changes, d), Retargetings(changes[..n], d);
    forall i: nat ensures i in all <==> i in before || (i == n && RetargetsFrom(changes[n], d)) {}
    hide Retargetings;
    if RetargetsFrom(changes[n], d) {
      assert all == before + {n};
    } else {
      assert all == before;
    }
  }

  /** Each change that names two different targets is one difference with both in their places, and nothing else is. */
  lemma {:induction false} RetargetsCount(changes: seq<RefChange>, d: Difference)
    ensures multiset(Retargets(changes))[d] == |Retargetings(changes, d)|
  {
    if changes == [] {
      assert Retargetings(changes, d) == {};
    } else {
      var n := |changes| - 1;
      RetargetsCount(changes[..n], d);
      RetargetsMeans(changes[n], d);
      RetargetingsSnoc(changes, d);
      RetargetsSnoc(changes[..n], changes[n]);
      assert changes == changes[..n] + [changes[n]];
      hide RetargetsFrom, TwoSided, Retargets, Retargetings;
    }
  }

  lemma RetargetsMeans(c: RefChange, d: Difference)
    ensures RetargetsFrom(c, d) <==> TwoSided(c) && c.oldTarget != c.newTarget && d == Retargeted(c.kind, c.oldTarget.value, c.newTarget.value)
  {
    MemberMeans(c);
    hide IndexMember, IsIndexMember;
  }

  /** How often a difference is due for the one-sided references of the keys. */
  ghost function Due(changes: seq<RefChange>, keys: seq<RefKey>, d: Difference): nat {
    if keys == [] then 0
    else
      var n := |keys| - 1;
      var gained, lost := |Gainings(changes, keys[n])|, |Losses(changes, keys[n])|;
      Due(changes, keys[..n], d)
      + if d == RefAdded(keys[n].target) && gained > lost then gained - lost
        else if d == RefRemoved(keys[n].target) && lost > gained then lost - gained
        else 0
  }

  lemma {:induction false} EmittedAreDue(changes: seq<RefChange>, keys: seq<RefKey>, d: Difference)
    ensures multiset(EmittedAll(changes, keys))[d] == Due(changes, keys, d)
  {
    if keys != [] {
      var n := |keys| - 1;
      EmittedAreDue(changes, keys[..n], d);
      BalanceCounts(changes, keys[n]);
      var balance := Balance(changes, keys[n]);
      EmittedCount(keys[n], balance);
      OnlyOneKind(keys[n], balance, d);
      hide Balance, Emitted, Gainings, Losses;
      assert EmittedAll(changes, keys) == EmittedAll(changes, keys[..n]) + Emitted(keys[n], balance);
    }
  }

  lemma OnlyOneKind(key: RefKey, balance: int, d: Difference)
    ensures d != RefAdded(key.target) && d != RefRemoved(key.target) ==> multiset(Emitted(key, balance))[d] == 0
  {
    if d in Emitted(key, balance) {
      var i :| 0 <= i < |Emitted(key, balance)| && Emitted(key, balance)[i] == d;
    }
  }

  /**
   * Every difference counted: a retargeting once for each change that names both targets, an addition and a
   * removal as often as the references of the keys to that target are out of balance.
   */
  lemma DifferencesAreDue(changes: seq<RefChange>, keys: seq<RefKey>, d: Difference)
    ensures multiset(Retargets(changes) + EmittedAll(changes, keys))[d] == |Retargetings(changes, d)| + Due(changes, keys, d)
  {
    RetargetsCount(changes, d);
    EmittedAreDue(changes, keys, d);
    hide Retargets, EmittedAll, Due, Retargetings;
  }
}
