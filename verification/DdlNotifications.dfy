/**
 * DDL notifications and their coalescing by transaction
 * (packages/catalog/src/postgresDdlSync.ts).
 *
 * The source fills a Map whose groups it changes in place. The loop is the method
 * `CoalesceNotifications`; `Coalesce` is the function it computes, and `CoalesceIsGroupBy` says
 * what that function means without mentioning the loop: one group per key, in order of first
 * appearance, holding the first object of every identity its notifications carry.
 */
module DdlNotifications {
  import opened Options

  datatype DdlObject = DdlObject(
    classId: nat,
    objectId: nat,
    objectSubId: nat,
    objectType: string,
    objectIdentity: string,
    original: Option<bool>)

  datatype Notification = Notification(
    databaseOid: nat,
    transactionId: string,
    objects: seq<DdlObject>,
    fallback: bool,
    reason: Option<string>)

  datatype Group = Group(
    databaseOid: nat,
    transactionId: string,
    objects: seq<DdlObject>,
    fallback: bool,
    reasons: seq<string>)

  /** What the source joins with colons. Numbers hold no colon, so only the last two texts run together. */
  datatype Identity = Identity(classId: nat, objectId: nat, objectSubId: nat, text: string, original: bool)
  datatype Key = Key(databaseOid: nat, transactionId: string)

  function IdentityOf(o: DdlObject): Identity {
    Identity(o.classId, o.objectId, o.objectSubId, o.objectType + ":" + o.objectIdentity, o.original == Some(true))
  }

  function KeyOf(n: Notification): Key {
    Key(n.databaseOid, n.transactionId)
  }

  function GroupKey(g: Group): Key {
    Key(g.databaseOid, g.transactionId)
  }

  /**
   * Objects are the same by class, object, column, whether they are the original ones, and the joined text of
   * type and identity; transactions by database and id.
   */
  lemma SameMeans(a: DdlObject, b: DdlObject, m: Notification, n: Notification)
    ensures IdentityOf(a) == IdentityOf(b)
            <==> && a.classId == b.classId && a.objectId == b.objectId && a.objectSubId == b.objectSubId
                 && a.objectType + ":" + a.objectIdentity == b.objectType + ":" + b.objectIdentity
                 && (a.original == Some(true) <==> b.original == Some(true))
    ensures KeyOf(m) == KeyOf(n) <==> m.databaseOid == n.databaseOid && m.transactionId == n.transactionId
  {}

  // ----- One step of the loop ------------------------------------------------------------------

  function Identities(objects: seq<DdlObject>): set<Identity> {
    set o | o in objects :: IdentityOf(o)
  }

  /** Appends each object whose identity the group does not hold yet. */
  function AddObjects(held: seq<DdlObject>, more: seq<DdlObject>): seq<DdlObject>
    decreases |more|
  {
    if more == [] then held
    else if IdentityOf(more[0]) in Identities(held) then AddObjects(held, more[1..])
    else AddObjects(held + [more[0]], more[1..])
  }

  function AddReason(reasons: seq<string>, reason: Option<string>): seq<string> {
    if reason.None? || reason.value == "" || reason.value in reasons then reasons else reasons + [reason.value]
  }

  function Absorb(g: Group, n: Notification): Group {
    g.(fallback := g.fallback || n.fallback,
       reasons := AddReason(g.reasons, n.reason),
       objects := AddObjects(g.objects, n.objects))
  }

  function EmptyGroup(k: Key): Group {
    Group(k.databaseOid, k.transactionId, [], false, [])
  }

  /** The index of the group with key `k`, or the number of groups when there is none. */
  function Find(groups: seq<Group>, k: Key): (i: nat)
    ensures i <= |groups|
    ensures i < |groups| ==> GroupKey(groups[i]) == k
    ensures forall j | 0 <= j < i :: GroupKey(groups[j]) != k
  {
    if groups == [] || GroupKey(groups[0]) == k then 0 else 1 + Find(groups[1..], k)
  }

  function Upsert(groups: seq<Group>, n: Notification): seq<Group> {
    var i := Find(groups, KeyOf(n));
    if i < |groups| then groups[i := Absorb(groups[i], n)]
    else groups + [Absorb(EmptyGroup(KeyOf(n)), n)]
  }

  function Coalesce(ns: seq<Notification>): seq<Group> {
    if ns == [] then [] else Upsert(Coalesce(ns[..|ns| - 1]), ns[|ns| - 1])
  }

  // ----- The loop ------------------------------------------------------------------------------

  /** The source's nested loop: a Map in insertion order, whose groups' arrays and flags change in place. */
  method CoalesceNotifications(notifications: seq<Notification>) returns (grouped: seq<Group>)
    ensures grouped == Coalesce(notifications)
  {
    grouped := [];
    for n := 0 to |notifications|
      invariant grouped == Coalesce(notifications[..n])
    {
      var notification := notifications[n];
      assert notifications[..n + 1][..n] == notifications[..n];
      var at := Find(grouped, KeyOf(notification));
      var group := if at < |grouped| then grouped[at] else EmptyGroup(KeyOf(notification));
      group := group.(fallback := group.fallback || notification.fallback);
      if notification.reason.Some? && notification.reason.value != "" && notification.reason.value !in group.reasons {
        group := group.(reasons := group.reasons + [notification.reason.value]);
      }
      var objects := group.objects;
      var identities := Identities(objects);
      for i := 0 to |notification.objects|
        invariant identities == Identities(objects)
        invariant AddObjects(objects, notification.objects[i..]) == AddObjects(group.objects, notification.objects)
      {
        var object_ := notification.objects[i];
        assert notification.objects[i..][1..] == notification.objects[i + 1..];
        if IdentityOf(object_) !in identities {
          IdentitiesSnoc(objects, object_);
          identities := identities + {IdentityOf(object_)};
          objects := objects + [object_];
        }
      }
      group := group.(objects := objects);
      grouped := if at < |grouped| then grouped[at := group] else grouped + [group];
    }
    assert notifications[..|notifications|] == notifications;
  }

  lemma IdentitiesSnoc(objects: seq<DdlObject>, o: DdlObject)
    ensures Identities(objects + [o]) == Identities(objects) + {IdentityOf(o)}
  {
    forall id ensures id in Identities(objects + [o]) <==> id in Identities(objects) + {IdentityOf(o)} {
      if id in Identities(objects) {
        var p :| p in objects && IdentityOf(p) == id;
        assert p in objects + [o];
      }
      if id == IdentityOf(o) {
        assert o in objects + [o];
      }
    }
  }

  // ----- What it means -------------------------------------------------------------------------

  /** The notifications of one key, in order. */
  function Members(ns: seq<Notification>, k: Key): seq<Notification> {
    if ns == [] then []
    else Members(ns[..|ns| - 1], k) + if KeyOf(ns[|ns| - 1]) == k then [ns[|ns| - 1]] else []
  }

  /** Every object those notifications carry, in order, repetitions included. */
  function ObjectsOf(ns: seq<Notification>): seq<DdlObject> {
    if ns == [] then [] else ObjectsOf(ns[..|ns| - 1]) + ns[|ns| - 1].objects
  }

  /** The keys in order of first appearance. */
  function Keys(ns: seq<Notification>): seq<Key> {
    if ns == [] then []
    else
      var before := Keys(ns[..|ns| - 1]);
      var k := KeyOf(ns[|ns| - 1]);
      if k in before then before else before + [k]
  }

  ghost predicate Distinct<T>(s: seq<T>) {
    forall i, j | 0 <= i < j < |s| :: s[i] != s[j]
  }

  /** Keeps exactly the first object of each identity. */
  ghost predicate FirstOfEach(kept: seq<DdlObject>, all: seq<DdlObject>) {
    && Identities(kept) == Identities(all)
    && (forall i, j | 0 <= i < j < |kept| :: IdentityOf(kept[i]) != IdentityOf(kept[j]))
    && (forall o | o in kept :: exists i :: 0 <= i < |all| && all[i] == o && IdentityOf(o) !in Identities(all[..i]))
  }

  /** What one group must be: the whole of its key's notifications, and nothing else. */
  ghost predicate Summarises(g: Group, ns: seq<Notification>) {
    && (g.fallback <==> exists n :: n in ns && n.fallback)
    && FirstOfEach(g.objects, ObjectsOf(ns))
    && Distinct(g.reasons)
    && (forall r :: r in g.reasons <==> r != "" && exists n :: n in ns && n.reason == Some(r))
  }

  lemma {:induction false} AddObjectsKeepsFirsts(held: seq<DdlObject>, all: seq<DdlObject>, more: seq<DdlObject>)
    requires FirstOfEach(held, all)
    ensures FirstOfEach(AddObjects(held, more), all + more)
    decreases |more|
  {
    if more == [] {
      assert all + more == all;
    } else {
      var o := more[0];
      var all' := all + [o];
      IdentitiesSnoc(all, o);
      assert all'[..|all|] == all;
      if IdentityOf(o) in Identities(held) {
        FirstsExtend(held, all, o);
        AddObjectsKeepsFirsts(held, all', more[1..]);
      } else {
        var held' := held + [o];
        IdentitiesSnoc(held, o);
        FirstsExtend(held, all, o);
        assert all'[|all|] == o && IdentityOf(o) !in Identities(all'[..|all|]);
        forall i, j | 0 <= i < j < |held'| ensures IdentityOf(held'[i]) != IdentityOf(held'[j]) {
          if j == |held| {
            assert held[i] in held && IdentityOf(held[i]) in Identities(held);
          }
        }
        AddObjectsKeepsFirsts(held', all', more[1..]);
      }
      assert all' + more[1..] == all + more;
    }
  }

  lemma FirstsExtend(held: seq<DdlObject>, all: seq<DdlObject>, o: DdlObject)
    requires FirstOfEach(held, all)
    ensures forall h | h in held ::
              exists i :: 0 <= i < |all + [o]| && (all + [o])[i] == h && IdentityOf(h) !in Identities((all + [o])[..i])
  {
    forall h | h in held
      ensures exists i :: 0 <= i < |all + [o]| && (all + [o])[i] == h && IdentityOf(h) !in Identities((all + [o])[..i])
    {
      var i :| 0 <= i < |all| && all[i] == h && IdentityOf(h) !in Identities(all[..i]);
      assert (all + [o])[..i] == all[..i] && (all + [o])[i] == h;
    }
  }

  lemma AbsorbSummarises(g: Group, ns: seq<Notification>, n: Notification)
    requires Summarises(g, ns)
    ensures Summarises(Absorb(g, n), ns + [n])
  {
    var ns' := ns + [n];
    assert ns'[..|ns|] == ns && ns'[|ns|] == n;
    AddObjectsKeepsFirsts(g.objects, ObjectsOf(ns), n.objects);
    assert forall m :: m in ns' <==> m in ns || m == n;
    var g' := Absorb(g, n);
    if g'.fallback {
      if n.fallback {
        assert n in ns';
      } else {
        var m :| m in ns && m.fallback;
        assert m in ns';
      }
    }
    forall r ensures r in g'.reasons <==> r != "" && exists m :: m in ns' && m.reason == Some(r) {
      if r in g.reasons {
        var m :| m in ns && m.reason == Some(r);
        assert m in ns';
      } else if r in g'.reasons {
        assert n in ns' && n.reason == Some(r);
      }
    }
  }

  /** `groups` is the coalescing of `ns`, said without the fold. */
  ghost predicate GroupsBy(groups: seq<Group>, ns: seq<Notification>) {
    && |groups| == |Keys(ns)|
    && forall i | 0 <= i < |groups| ::
         GroupKey(groups[i]) == Keys(ns)[i] && Summarises(groups[i], Members(ns, Keys(ns)[i]))
  }

  lemma {:induction false} KeysAre(ns: seq<Notification>)
    ensures Distinct(Keys(ns))
    ensures forall k :: k in Keys(ns) <==> exists n :: n in ns && KeyOf(n) == k
  {
    if ns != [] {
      var before, last := ns[..|ns| - 1], ns[|ns| - 1];
      KeysAre(before);
      assert forall m :: m in ns <==> m in before || m == last;
    }
  }

  lemma KeysSnoc(before: seq<Notification>, n: Notification)
    ensures Keys(before + [n]) == if KeyOf(n) in Keys(before) then Keys(before) else Keys(before) + [KeyOf(n)]
  {
    assert (before + [n])[..|before|] == before;
  }

  lemma MembersSnoc(before: seq<Notification>, n: Notification, k: Key)
    ensures Members(before + [n], k) == if KeyOf(n) == k then Members(before, k) + [n] else Members(before, k)
  {
    assert (before + [n])[..|before|] == before;
    assert Members(before, k) + [] == Members(before, k);
  }

  /** Where the notification's group is, and that it summarises what it should afterwards. */
  lemma AbsorbingSummarises(groups: seq<Group>, before: seq<Notification>, n: Notification)
    requires GroupsBy(groups, before)
    ensures var at, k := Find(groups, KeyOf(n)), KeyOf(n);
            var g := if at < |groups| then groups[at] else EmptyGroup(k);
            && (at < |groups| <==> k in Keys(before)) && (at < |groups| ==> Keys(before)[at] == k)
            && GroupKey(Absorb(g, n)) == k && Summarises(Absorb(g, n), Members(before, k) + [n])
  {
    var k, at := KeyOf(n), Find(groups, KeyOf(n));
    KeysAre(before);
    AbsorbKeepsKey(if at < |groups| then groups[at] else EmptyGroup(k), n);
    hide Summarises, Absorb, EmptyGroup, Keys, Members;
    if k in Keys(before) {
      var j :| 0 <= j < |groups| && Keys(before)[j] == k;
      assert GroupKey(groups[j]) == k;
      AbsorbSummarises(groups[at], Members(before, k), n);
    } else {
      NoMembers(before, k);
      EmptyGroupSummarisesNothing(k);
      AbsorbSummarises(EmptyGroup(k), [], n);
    }
  }

  lemma UpsertGroupsBy(groups: seq<Group>, before: seq<Notification>, n: Notification)
    requires GroupsBy(groups, before)
    ensures GroupsBy(Upsert(groups, n), before + [n])
  {
    AbsorbingSummarises(groups, before, n);
    KeysSnoc(before, n);
    KeysAre(before);
    hide Summarises, Absorb, EmptyGroup, Keys, Members;
    var after, keys, at := Upsert(groups, n), Keys(before + [n]), Find(groups, KeyOf(n));
    MembersSnoc(before, n, KeyOf(n));
    hide IdentityOf;
    forall i | 0 <= i < |groups| && i != at
      ensures GroupKey(after[i]) == keys[i] && Summarises(after[i], Members(before + [n], keys[i]))
    {
      assert after[i] == groups[i] && keys[i] == Keys(before)[i] && keys[i] != KeyOf(n);
      MembersSnoc(before, n, keys[i]);
    }
    assert keys[at] == KeyOf(n) && |after| == |keys|;
  }

  lemma AbsorbKeepsKey(g: Group, n: Notification)
    ensures GroupKey(Absorb(g, n)) == GroupKey(g)
    ensures forall k :: GroupKey(EmptyGroup(k)) == k
  {
  }

  lemma EmptyGroupSummarisesNothing(k: Key)
    ensures Summarises(EmptyGroup(k), [])
  {
  }

  /**
   * Coalescing is a group-by: its groups are exactly the keys in order of first appearance, and the
   * group of a key summarises all of that key's notifications.
   */
  lemma {:induction false} CoalesceIsGroupBy(ns: seq<Notification>)
    ensures GroupsBy(Coalesce(ns), ns)
  {
    if ns != [] {
      CoalesceIsGroupBy(ns[..|ns| - 1]);
      UpsertGroupsBy(Coalesce(ns[..|ns| - 1]), ns[..|ns| - 1], ns[|ns| - 1]);
      assert ns[..|ns| - 1] + [ns[|ns| - 1]] == ns;
    }
  }

  lemma {:induction false} NoMembers(ns: seq<Notification>, k: Key)
    requires forall n | n in ns :: KeyOf(n) != k
    ensures Members(ns, k) == []
  {
    if ns != [] {
      assert ns[|ns| - 1] in ns;
      NoMembers(ns[..|ns| - 1], k);
    }
  }

  lemma {:induction false} MembersAre(ns: seq<Notification>, k: Key)
    ensures forall n :: n in Members(ns, k) <==> n in ns && KeyOf(n) == k
  {
    if ns != [] {
      MembersAre(ns[..|ns| - 1], k);
      assert ns == ns[..|ns| - 1] + [ns[|ns| - 1]];
    }
  }

  lemma {:induction false} ObjectsOfHolds(ns: seq<Notification>, n: Notification, o: DdlObject)
    requires n in ns && o in n.objects
    ensures o in ObjectsOf(ns)
  {
    var last := ns[|ns| - 1];
    if n != last || o !in last.objects {
      assert n in ns[..|ns| - 1];
      ObjectsOfHolds(ns[..|ns| - 1], n, o);
    }
  }

  /** Nothing is lost: every notification finds the group of its transaction, its objects' identities and its fallback flag there. */
  lemma CoalesceKeepsEverything(ns: seq<Notification>, n: Notification)
    requires n in ns
    ensures exists g :: g in Coalesce(ns) && GroupKey(g) == KeyOf(n)
              && (n.fallback ==> g.fallback)
              && (forall o | o in n.objects :: IdentityOf(o) in Identities(g.objects))
  {
    CoalesceIsGroupBy(ns);
    KeysAre(ns);
    assert KeyOf(n) in Keys(ns);
    var i :| 0 <= i < |Keys(ns)| && Keys(ns)[i] == KeyOf(n);
    var g := Coalesce(ns)[i];
    var members := Members(ns, KeyOf(n));
    MembersAre(ns, KeyOf(n));
    assert n in members;
    forall o | o in n.objects ensures IdentityOf(o) in Identities(g.objects) {
      ObjectsOfHolds(members, n, o);
    }
    assert g in Coalesce(ns);
  }

  /** Nothing is invented: a group's objects and flag come from notifications of its own transaction. */
  lemma CoalesceInventsNothing(ns: seq<Notification>, g: Group)
    requires g in Coalesce(ns)
    ensures g.fallback ==> exists n :: n in ns && KeyOf(n) == GroupKey(g) && n.fallback
    ensures forall o | o in g.objects :: exists n :: n in ns && KeyOf(n) == GroupKey(g) && o in n.objects
  {
    CoalesceIsGroupBy(ns);
    var i :| 0 <= i < |Coalesce(ns)| && Coalesce(ns)[i] == g;
    var members := Members(ns, GroupKey(g));
    MembersAre(ns, GroupKey(g));
    if g.fallback {
      var n :| n in members && n.fallback;
      assert n in ns && KeyOf(n) == GroupKey(g) && n.fallback;
    }
    forall o | o in g.objects ensures exists n :: n in ns && KeyOf(n) == GroupKey(g) && o in n.objects {
      assert o in ObjectsOf(members);
      var n := OwnerOf(members, o);
      assert n in ns && KeyOf(n) == GroupKey(g) && o in n.objects;
    }
  }

  lemma {:induction false} OwnerOf(ns: seq<Notification>, o: DdlObject) returns (n: Notification)
    requires o in ObjectsOf(ns)
    ensures n in ns && o in n.objects
  {
    if o in ns[|ns| - 1].objects {
      n := ns[|ns| - 1];
    } else {
      n := OwnerOf(ns[..|ns| - 1], o);
    }
  }
}
