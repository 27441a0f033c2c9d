/**
 * Which source routines a pgTAP test depends on (packages/coverage/src/pgtap.ts): a worklist first reads
 * every routine that can be reached by name from any test, then each test's own routines are resolved.
 */
module DependencyClosure {
  import opened Options
  import opened Sequences

  datatype Routine = Routine(oid: nat, schema: string, name: string, arguments: string)

  /** The PL/pgSQL routines of the database that are neither system nor extension members, and the names each calls. */
  datatype Database = Database(routines: seq<Routine>, calls: map<nat, set<string>>)

  function KeyOf(r: Routine): string {
    r.schema + "." + r.name
  }

  function CallsOf(db: Database, oid: nat): set<string> {
    if oid in db.calls then db.calls[oid] else {}
  }

  ghost predicate DistinctOids(db: Database) {
    forall i, j :: 0 <= i < j < |db.routines| ==> db.routines[i].oid != db.routines[j].oid
  }

  /** The routines of these names that are not tests, in catalog order: `querySourceRoutines`. */
  function SourceRoutines(routines: seq<Routine>, names: set<string>, testOids: set<nat>): (r: seq<Routine>)
    ensures forall x :: x in r <==> x in routines && x.schema + "." + x.name in names && x.oid !in testOids
  {
    if routines == [] then []
    else
      SourceRoutines(routines[..|routines| - 1], names, testOids)
      + if KeyOf(routines[|routines| - 1]) in names && routines[|routines| - 1].oid !in testOids
        then [routines[|routines| - 1]] else []
  }

  // ----- Reachability --------------------------------------------------------------------------------

  /** A routine of one name calls the other name. */
  ghost predicate Calls(db: Database, testOids: set<nat>, from: string, to: string) {
    exists r | r in db.routines :: r.schema + "." + r.name == from && r.oid !in testOids && r.oid in db.calls && to in db.calls[r.oid]
  }

  /** A chain of calls that begins with one of the given names. */
  ghost predicate Chain(db: Database, testOids: set<nat>, start: set<string>, path: seq<string>) {
    && path != [] && path[0] in start
    && forall i :: 0 <= i < |path| - 1 ==> Calls(db, testOids, path[i], path[i + 1])
  }

  ghost predicate Reachable(db: Database, testOids: set<nat>, start: set<string>, name: string) {
    exists path :: Chain(db, testOids, start, path) && path[|path| - 1] == name
  }

  /** The given names are in the set, and so is whatever a routine of the set calls. */
  ghost predicate Closed(db: Database, testOids: set<nat>, start: set<string>, names: set<string>) {
    start <= names && forall a, b :: a in names && Calls(db, testOids, a, b) ==> b in names
  }

  lemma {:induction false} ChainStaysInside(db: Database, testOids: set<nat>, start: set<string>, names: set<string>, path: seq<string>)
    requires Closed(db, testOids, start, names) && Chain(db, testOids, start, path)
    ensures path[|path| - 1] in names
    decreases |path|
  {
    var n := |path| - 1;
    if n > 0 {
      ChainStaysInside(db, testOids, start, names, path[..n]);
      assert Calls(db, testOids, path[n - 1], path[n]);
    }
  }

  lemma StartIsReachable(db: Database, testOids: set<nat>, start: set<string>, name: string)
    requires name in start
    ensures Reachable(db, testOids, start, name)
  {
    assert Chain(db, testOids, start, [name]);
  }

  lemma CalledIsReachable(db: Database, testOids: set<nat>, start: set<string>, from: string, to: string)
    requires Reachable(db, testOids, start, from) && Calls(db, testOids, from, to)
    ensures Reachable(db, testOids, start, to)
  {
    var path :| Chain(db, testOids, start, path) && path[|path| - 1] == from;
    assert Chain(db, testOids, start, path + [to]);
  }

  lemma MoreStartsReachMore(db: Database, testOids: set<nat>, start: set<string>, more: set<string>, name: string)
    requires start <= more && Reachable(db, testOids, start, name)
    ensures Reachable(db, testOids, more, name)
  {
    var path :| Chain(db, testOids, start, path) && path[|path| - 1] == name;
    assert Chain(db, testOids, more, path);
  }

  /** A closed set of reachable names is the set of all reachable names. */
  lemma ClosedIsReachable(db: Database, testOids: set<nat>, start: set<string>, names: set<string>)
    requires Closed(db, testOids, start, names)
    requires forall n | n in names :: Reachable(db, testOids, start, n)
    ensures forall n :: n in names <==> Reachable(db, testOids, start, n)
  {
    forall n | Reachable(db, testOids, start, n) ensures n in names {
      var path :| Chain(db, testOids, start, path) && path[|path| - 1] == n;
      ChainStaysInside(db, testOids, start, names, path);
    }
  }

  // ----- The catalog worklist --------------------------------------------------------------------------

  /** `sourcesByName` and `dependenciesByOid`. */
  datatype Catalog = Catalog(sourcesByName: map<string, seq<Routine>>, dependenciesByOid: map<nat, set<string>>)

  function SourcesOf(c: Catalog, name: string): seq<Routine> {
    if name in c.sourcesByName then c.sourcesByName[name] else []
  }

  /** The catalog holds exactly the routines of these names, each once, and their calls. */
  ghost predicate Holds(db: Database, testOids: set<nat>, names: set<string>, c: Catalog) {
    && (forall name, r :: r in SourcesOf(c, name) <==> name in names && r in SourceRoutines(db.routines, {name}, testOids))
    && (forall name | name in names :: forall r | r in SourcesOf(c, name) ::
          r.oid in c.dependenciesByOid && c.dependenciesByOid[r.oid] == CallsOf(db, r.oid))
  }

  /** All names that occur anywhere: the worklist cannot leave them. */
  ghost function AllNames(db: Database, start: set<string>): set<string> {
    start + set oid, n | oid in db.calls && n in db.calls[oid] :: n
  }

  lemma CallsAreNames(db: Database, start: set<string>, oid: nat)
    ensures CallsOf(db, oid) <= AllNames(db, start)
  {}

  lemma FewerLeft(visited: set<string>, all: set<string>, name: string)
    requires name in all && name !in visited
    ensures |all - (visited + {name})| < |all - visited|
  {
    assert all - (visited + {name}) == (all - visited) - {name};
  }

  /** One routine into the catalog. */
  function Recorded(db: Database, c: Catalog, r: Routine): Catalog {
    Catalog(c.sourcesByName[KeyOf(r) := SourcesOf(c, KeyOf(r)) + [r]], c.dependenciesByOid[r.oid := CallsOf(db, r.oid)])
  }

  /** What a round of the worklist leaves: everything the queried routines call is visited or pending. */
  method RecordRoutines(db: Database, testOids: set<nat>, routines: seq<Routine>, before: Catalog, visited: set<string>)
    returns (c: Catalog, pending: set<string>)
    ensures forall name, r :: r in SourcesOf(c, name) <==> r in SourcesOf(before, name) || (r in routines && KeyOf(r) == name)
    ensures forall oid | oid in before.dependenciesByOid && (forall r | r in routines :: r.oid != oid) ::
              oid in c.dependenciesByOid && c.dependenciesByOid[oid] == before.dependenciesByOid[oid]
    ensures forall r | r in routines :: r.oid in c.dependenciesByOid && c.dependenciesByOid[r.oid] == CallsOf(db, r.oid)
    ensures forall n :: n in pending <==> n !in visited && exists r | r in routines :: n in CallsOf(db, r.oid)
  {
    c, pending := before, {};
    for i := 0 to |routines|
      invariant forall name, r :: r in SourcesOf(c, name) <==> r in SourcesOf(before, name) || (r in routines[..i] && KeyOf(r) == name)
      invariant forall oid | oid in before.dependenciesByOid && (forall r | r in routines[..i] :: r.oid != oid) ::
                  oid in c.dependenciesByOid && c.dependenciesByOid[oid] == before.dependenciesByOid[oid]
      invariant forall r | r in routines[..i] :: r.oid in c.dependenciesByOid && c.dependenciesByOid[r.oid] == CallsOf(db, r.oid)
      invariant forall n :: n in pending <==> n !in visited && exists r | r in routines[..i] :: n in CallsOf(db, r.oid)
    {
      var r := routines[i];
      assert routines[..i + 1] == routines[..i] + [r];
      c := Recorded(db, c, r);
      pending := pending + (CallsOf(db, r.oid) - visited);
    }
    assert routines[..|routines|] == routines;
  }

  /** Visited and pending names: all of them reachable, the start among them, and the calls of the visited ones too. */
  ghost predicate Explores(db: Database, testOids: set<nat>, start: set<string>, visited: set<string>, pending: set<string>) {
    && start <= visited + pending
    && (forall n | n in visited + pending :: Reachable(db, testOids, start, n))
    && (forall a, b :: a in visited && Calls(db, testOids, a, b) ==> b in visited + pending)
  }

  lemma StartExplores(db: Database, testOids: set<nat>, start: set<string>)
    ensures Explores(db, testOids, start, {}, start) && Holds(db, testOids, {}, Catalog(map[], map[]))
  {
    forall n | n in start ensures Reachable(db, testOids, start, n) {
      StartIsReachable(db, testOids, start, n);
    }
  }

  lemma ExploredAll(db: Database, testOids: set<nat>, start: set<string>, visited: set<string>, pending: set<string>)
    requires Explores(db, testOids, start, visited, pending) && pending <= visited
    ensures forall n :: n in visited <==> Reachable(db, testOids, start, n)
  {
    assert visited + pending == visited;
    hide Reachable;
    ClosedIsReachable(db, testOids, start, visited);
  }

  /** One round: the routines of the new names are queried and recorded. */
  method Round(db: Database, testOids: set<nat>, ghost start: set<string>, before: Catalog, known: set<string>, pending: set<string>)
    returns (c: Catalog, visited: set<string>, wanted: set<string>)
    requires DistinctOids(db) && !(pending <= known)
    requires Explores(db, testOids, start, known, pending) && Holds(db, testOids, known, before)
    ensures visited == known + pending
    ensures Explores(db, testOids, start, visited, wanted) && Holds(db, testOids, visited, c)
    ensures wanted <= AllNames(db, start)
  {
    hide Explores, Holds, DistinctOids;
    var names := pending - known;
    visited := known + names;
    var routines := SourceRoutines(db.routines, names, testOids);
    c, wanted := RecordRoutines(db, testOids, routines, before, visited);
    RoundHolds(db, testOids, known, names, before, c, routines);
    RoundExplores(db, testOids, start, known, pending, names, wanted);
    forall n | n in wanted ensures n in AllNames(db, start) {
      var r :| r in routines && n in CallsOf(db, r.oid);
      CallsAreNames(db, start, r.oid);
    }
  }

  lemma FewerAfter(known: set<string>, pending: set<string>, all: set<string>)
    requires pending <= all && !(pending <= known)
    ensures |all - (known + pending)| < |all - known|
  {
    var name :| name in pending && name !in known;
    FewerLeft(known, all, name);
    SubsetSize(all - (known + pending), all - (known + {name}));
  }

  /** The worklist ends, with the routines of exactly the names that can be reached, however the calls cycle. */
  method QueryDependencyCatalog(db: Database, initial: set<string>, testOids: set<nat>) returns (c: Catalog, ghost names: set<string>)
    requires DistinctOids(db)
    ensures forall name, r :: r in SourcesOf(c, name) <==>
                                (&& r in db.routines && r.oid !in testOids && KeyOf(r) == name
                                 && Reachable(db, testOids, initial, name))
    ensures Holds(db, testOids, names, c)
    ensures forall n :: n in names <==> Reachable(db, testOids, initial, n)
  {
    hide Explores, Holds, DistinctOids, Reachable, AllNames;
    c := Catalog(map[], map[]);
    var pending := initial;
    var visited: set<string> := {};
    ghost var all := AllNames(db, initial);
    StartExplores(db, testOids, initial);
    StartAreNames(db, initial);
    while pending != {} && !(pending <= visited)
      invariant pending <= all
      invariant Explores(db, testOids, initial, visited, pending)
      invariant Holds(db, testOids, visited, c)
      decreases |all - visited|
    {
      FewerAfter(visited, pending, all);
      c, visited, pending := Round(db, testOids, initial, c, visited, pending);
    }
    names := visited;
    ExploredAll(db, testOids, initial, visited, pending);
    HeldRoutines(db, testOids, initial, visited, c);
  }

  lemma HeldRoutines(db: Database, testOids: set<nat>, start: set<string>, names: set<string>, c: Catalog)
    requires Holds(db, testOids, names, c) && forall n :: n in names <==> Reachable(db, testOids, start, n)
    ensures forall name, r :: r in SourcesOf(c, name) <==>
                                (&& r in db.routines && r.oid !in testOids && KeyOf(r) == name
                                 && Reachable(db, testOids, start, name))
  {
    hide Reachable;
    forall name, r
      ensures r in SourcesOf(c, name) <==>
                (&& r in db.routines && r.oid !in testOids && KeyOf(r) == name && Reachable(db, testOids, start, name))
    {
      assert r in SourcesOf(c, name) <==> name in names && r in SourceRoutines(db.routines, {name}, testOids);
    }
  }

  lemma StartAreNames(db: Database, start: set<string>)
    ensures start <= AllNames(db, start)
  {}

  lemma SameOidSameRoutine(db: Database, a: Routine, b: Routine)
    requires DistinctOids(db) && a in db.routines && b in db.routines && a.oid == b.oid
    ensures a == b
  {
    var i :| 0 <= i < |db.routines| && db.routines[i] == a;
    var j :| 0 <= j < |db.routines| && db.routines[j] == b;
  }

  lemma RoundHolds(db: Database, testOids: set<nat>, known: set<string>, names: set<string>, before: Catalog, c: Catalog, routines: seq<Routine>)
    requires DistinctOids(db) && Holds(db, testOids, known, before) && known * names == {}
    requires routines == SourceRoutines(db.routines, names, testOids)
    requires forall name, r :: r in SourcesOf(c, name) <==> r in SourcesOf(before, name) || (r in routines && KeyOf(r) == name)
    requires forall oid | oid in before.dependenciesByOid && (forall r | r in routines :: r.oid != oid) ::
               oid in c.dependenciesByOid && c.dependenciesByOid[oid] == before.dependenciesByOid[oid]
    requires forall r | r in routines :: r.oid in c.dependenciesByOid && c.dependenciesByOid[r.oid] == CallsOf(db, r.oid)
    ensures Holds(db, testOids, known + names, c)
  {
    forall name, r ensures r in SourcesOf(c, name) <==> name in known + names && r in SourceRoutines(db.routines, {name}, testOids) {
      assert r in SourcesOf(c, name) <==> r in SourcesOf(before, name) || (r in routines && KeyOf(r) == name);
    }
    hide DistinctOids, SourcesOf, CallsOf;
    forall name, r | name in known + names && r in SourcesOf(c, name)
      ensures r.oid in c.dependenciesByOid && c.dependenciesByOid[r.oid] == CallsOf(db, r.oid)
    {
      CallsRecorded(db, testOids, known, before, c, routines, name, r);
    }
  }

  lemma CallsRecorded(db: Database, testOids: set<nat>, known: set<string>, before: Catalog, c: Catalog, routines: seq<Routine>,
                      name: string, r: Routine)
    requires DistinctOids(db) && Holds(db, testOids, known, before) && r in db.routines
    requires r in SourcesOf(before, name) || r in routines
    requires forall q | q in routines :: q in db.routines
    requires forall oid | oid in before.dependenciesByOid && (forall q | q in routines :: q.oid != oid) ::
               oid in c.dependenciesByOid && c.dependenciesByOid[oid] == before.dependenciesByOid[oid]
    requires forall q | q in routines :: q.oid in c.dependenciesByOid && c.dependenciesByOid[q.oid] == CallsOf(db, q.oid)
    ensures r.oid in c.dependenciesByOid && c.dependenciesByOid[r.oid] == CallsOf(db, r.oid)
  {
    hide DistinctOids, SourcesOf, CallsOf;
    if q :| q in routines && q.oid == r.oid {
      SameOidSameRoutine(db, q, r);
    }
  }

  lemma RoundExplores(db: Database, testOids: set<nat>, start: set<string>, visited: set<string>, pending: set<string>, names: set<string>, wanted: set<string>)
    requires Explores(db, testOids, start, visited, pending) && names == pending - visited
    requires forall n :: n in wanted <==>
                           (n !in visited + names && exists r | r in SourceRoutines(db.routines, names, testOids) :: n in CallsOf(db, r.oid))
    ensures Explores(db, testOids, start, visited + names, wanted)
  {
    assert visited + names == visited + pending;
    forall n | n in wanted ensures Reachable(db, testOids, start, n) {
      var r :| r in SourceRoutines(db.routines, names, testOids) && n in CallsOf(db, r.oid);
      assert Calls(db, testOids, KeyOf(r), n);
      CalledIsReachable(db, testOids, start, KeyOf(r), n);
    }
    hide Reachable;
    forall a, b | a in names && Calls(db, testOids, a, b) ensures b in visited + names + wanted {
      var r :| r in db.routines && r.schema + "." + r.name == a && r.oid !in testOids && b in CallsOf(db, r.oid);
      assert r in SourceRoutines(db.routines, names, testOids);
    }
  }

  // ----- One test's routines ---------------------------------------------------------------------------

  /** The source routines of a test: reachable by name, no tests themselves, and outside the test schemas. */
  ghost predicate IsSource(db: Database, testOids: set<nat>, testSchemas: set<string>, start: set<string>, r: Routine) {
    r in db.routines && r.oid !in testOids && r.schema !in testSchemas && Reachable(db, testOids, start, KeyOf(r))
  }

  method Listed(names: set<string>) returns (list: seq<string>)
    ensures forall n :: n in list <==> n in names
  {
    list := [];
    var rest := names;
    while rest != {}
      invariant rest <= names && forall n :: n in list <==> n in names && n !in rest
    {
      var n :| n in rest;
      list := list + [n];
      rest := rest - {n};
    }
  }

  ghost predicate DistinctRoutines(routines: seq<Routine>) {
    forall i, j :: 0 <= i < j < |routines| ==> routines[i].oid != routines[j].oid
  }

  /** The inner loop of `resolveSourceRoutines`: one name's routines, none of them seen before. */
  method VisitName(db: Database, routines: seq<Routine>, calls: map<nat, set<string>>, visitedOids: set<nat>, testSchemas: set<string>)
    returns (found: seq<Routine>, visited: set<nat>, called: seq<string>)
    requires DistinctOids(db) && forall r | r in routines :: r in db.routines && r.oid in calls && r.oid !in visitedOids
    ensures forall oid :: oid in visited <==> oid in visitedOids || exists r | r in routines :: r.oid == oid
    ensures forall r :: r in found <==> r in routines && r.schema !in testSchemas
    ensures DistinctRoutines(found)
    ensures forall n :: n in called <==> exists r | r in routines :: n in calls[r.oid]
  {
    found, visited, called := [], visitedOids, [];
    hide DistinctOids;
    for i := 0 to |routines|
      invariant forall oid :: oid in visited <==> oid in visitedOids || exists r | r in routines[..i] :: r.oid == oid
      invariant forall r :: r in found <==> r in routines[..i] && r.schema !in testSchemas
      invariant DistinctRoutines(found)
      invariant forall n :: n in called <==> exists r | r in routines[..i] :: n in calls[r.oid]
    {
      var r := routines[i];
      assert routines[..i + 1] == routines[..i] + [r];
      if r.oid in visited {
        ghost var q :| q in routines[..i] && q.oid == r.oid;
        SameOidSameRoutine(db, q, r);
      } else {
        visited := visited + {r.oid};
        if r.schema !in testSchemas {
          found := found + [r];
        }
        var more := Listed(calls[r.oid]);
        called := called + more;
      }
    }
    assert routines[..|routines|] == routines;
  }

  /** What the resolution has done: the names visited so far are explored, and their routines found. */
  ghost predicate Resolving(db: Database, testOids: set<nat>, testSchemas: set<string>, start: set<string>, c: Catalog,
                            visitedNames: set<string>, visitedOids: set<nat>, pending: seq<string>, resolved: seq<Routine>) {
    && start <= visitedNames + (set n | n in pending) + {""}
    && (forall n | n in visitedNames || n in pending :: Reachable(db, testOids, start, n))
    && (forall a, b :: a in visitedNames && Calls(db, testOids, a, b) ==> b in visitedNames || b in pending || b == "")
    && (forall oid :: oid in visitedOids <==> exists r | r in db.routines :: r.oid == oid && r.oid !in testOids && KeyOf(r) in visitedNames)
    && (forall r :: r in resolved <==> r in db.routines && r.oid !in testOids && KeyOf(r) in visitedNames && r.schema !in testSchemas)
    && DistinctRoutines(resolved)
  }

  lemma NamesOf(db: Database, testOids: set<nat>, names: set<string>, c: Catalog, name: string)
    requires Holds(db, testOids, names, c) && name in names
    ensures forall r :: r in SourcesOf(c, name) <==> r in db.routines && r.oid !in testOids && KeyOf(r) == name
    ensures forall r | r in SourcesOf(c, name) :: r.oid in c.dependenciesByOid && c.dependenciesByOid[r.oid] == CallsOf(db, r.oid)
  {}

  lemma SkipKeeps(db: Database, testOids: set<nat>, testSchemas: set<string>, start: set<string>, c: Catalog,
                  visitedNames: set<string>, visitedOids: set<nat>, pending: seq<string>, resolved: seq<Routine>)
    requires Resolving(db, testOids, testSchemas, start, c, visitedNames, visitedOids, pending, resolved)
    requires pending != [] && (pending[0] == "" || pending[0] in visitedNames)
    ensures Resolving(db, testOids, testSchemas, start, c, visitedNames, visitedOids, pending[1..], resolved)
  {
    assert pending == [pending[0]] + pending[1..];
  }

  /** The explored names after one more: what it calls is pending. */
  lemma NameKeeps(db: Database, testOids: set<nat>, start: set<string>, visitedNames: set<string>, pending: seq<string>,
                  routines: seq<Routine>, called: seq<string>)
    requires pending != []
    requires start <= visitedNames + (set n | n in pending) + {""}
    requires forall n | n in visitedNames || n in pending :: Reachable(db, testOids, start, n)
    requires forall a, b :: a in visitedNames && Calls(db, testOids, a, b) ==> b in visitedNames || b in pending || b == ""
    requires forall r :: r in routines <==> r in db.routines && r.oid !in testOids && KeyOf(r) == pending[0]
    requires forall n :: n in called <==> exists r | r in routines :: n in CallsOf(db, r.oid)
    ensures var visited, rest := visitedNames + {pending[0]}, pending[1..] + called;
            && start <= visited + (set n | n in rest) + {""}
            && (forall n | n in visited || n in rest :: Reachable(db, testOids, start, n))
            && (forall a, b :: a in visited && Calls(db, testOids, a, b) ==> b in visited || b in rest || b == "")
  {
    var name := pending[0];
    assert pending == [name] + pending[1..];
    forall n | n in called ensures Reachable(db, testOids, start, n) {
      var r :| r in routines && n in CallsOf(db, r.oid);
      assert Calls(db, testOids, name, n);
      CalledIsReachable(db, testOids, start, name, n);
    }
    hide Reachable;
    forall b | Calls(db, testOids, name, b) ensures b in called {
      var r :| r in db.routines && KeyOf(r) == name && r.oid !in testOids && b in CallsOf(db, r.oid);
      assert r in routines;
    }
  }

  lemma FoundKeep(db: Database, testOids: set<nat>, testSchemas: set<string>, visitedNames: set<string>, name: string,
                  routines: seq<Routine>, resolved: seq<Routine>, found: seq<Routine>)
    requires DistinctOids(db) && name !in visitedNames
    requires forall r :: r in routines <==> r in db.routines && r.oid !in testOids && KeyOf(r) == name
    requires forall r :: r in resolved <==> r in db.routines && r.oid !in testOids && KeyOf(r) in visitedNames && r.schema !in testSchemas
    requires forall r :: r in found <==> r in routines && r.schema !in testSchemas
    requires DistinctRoutines(resolved) && DistinctRoutines(found)
    ensures forall r :: r in resolved + found <==> r in db.routines && r.oid !in testOids && KeyOf(r) in visitedNames + {name} && r.schema !in testSchemas
    ensures DistinctRoutines(resolved + found)
  {
    forall a, b | a in resolved && b in found ensures a.oid != b.oid {
      if a.oid == b.oid {
        SameOidSameRoutine(db, a, b);
      }
    }
    hide DistinctOids;
    var all := resolved + found;
    forall i, j | 0 <= i < j < |all| ensures all[i].oid != all[j].oid {
      if i < |resolved| && |resolved| <= j {
        assert all[i] in resolved && all[j] in found;
      }
    }
  }

  /**
   * `resolveSourceRoutines`: exactly the routines that the test's calls reach, through helpers in test
   * schemas too, and that lie outside those schemas; each once. (The final sort is not modelled.)
   */
  method ResolveSourceRoutines(db: Database, testOids: set<nat>, testSchemas: set<string>, dependencies: set<string>,
                               ghost names: set<string>, c: Catalog)
    returns (resolved: seq<Routine>)
    requires DistinctOids(db) && Holds(db, testOids, names, c)
    requires forall n | Reachable(db, testOids, dependencies, n) :: n in names
    ensures forall r :: r in resolved <==> IsSource(db, testOids, testSchemas, dependencies, r)
    ensures DistinctRoutines(resolved)
  {
    hide Reachable, Holds, DistinctOids, DistinctRoutines, AllNames, Resolving;
    resolved := [];
    var pending := Listed(dependencies);
    var visitedNames: set<string> := {};
    var visitedOids: set<nat> := {};
    ghost var all := AllNames(db, dependencies);
    ResolvingStarts(db, testOids, testSchemas, dependencies, c, pending);
    StartAreNames(db, dependencies);
    while pending != []
      invariant Resolving(db, testOids, testSchemas, dependencies, c, visitedNames, visitedOids, pending, resolved)
      invariant forall n | n in pending :: n in all
      decreases |all - visitedNames|, |pending|
    {
      var dependency := pending[0];
      if dependency == "" || dependency in visitedNames {
        SkipKeeps(db, testOids, testSchemas, dependencies, c, visitedNames, visitedOids, pending, resolved);
        pending := pending[1..];
      } else {
        ReachedName(db, testOids, testSchemas, dependencies, c, visitedNames, visitedOids, pending, resolved, names);
        var found, oids, called := VisitName(db, SourcesOf(c, dependency), c.dependenciesByOid, visitedOids, testSchemas);
        VisitKeeps(db, testOids, testSchemas, dependencies, c, visitedNames, visitedOids, pending, resolved, found, oids, called);
        CalledAreNames(db, dependencies, SourcesOf(c, dependency), called);
        FewerLeft(visitedNames, all, dependency);
        resolved, visitedOids, visitedNames := resolved + found, oids, visitedNames + {dependency};
        pending := pending[1..] + called;
      }
    }
    ResolvedAll(db, testOids, testSchemas, dependencies, c, visitedNames, visitedOids, resolved);
  }

  lemma ResolvingStarts(db: Database, testOids: set<nat>, testSchemas: set<string>, start: set<string>, c: Catalog, pending: seq<string>)
    requires forall n :: n in pending <==> n in start
    ensures Resolving(db, testOids, testSchemas, start, c, {}, {}, pending, [])
  {
    forall n | n in start ensures Reachable(db, testOids, start, n) {
      StartIsReachable(db, testOids, start, n);
    }
  }

  lemma CalledAreNames(db: Database, start: set<string>, routines: seq<Routine>, called: seq<string>)
    requires forall n | n in called :: exists r | r in routines :: n in CallsOf(db, r.oid)
    ensures forall n | n in called :: n in AllNames(db, start)
  {}

  /** The catalog knows the routines of the next name, and none of them has been seen. */
  lemma ReachedName(db: Database, testOids: set<nat>, testSchemas: set<string>, start: set<string>, c: Catalog,
                    visitedNames: set<string>, visitedOids: set<nat>, pending: seq<string>, resolved: seq<Routine>, names: set<string>)
    requires DistinctOids(db) && Holds(db, testOids, names, c)
    requires Resolving(db, testOids, testSchemas, start, c, visitedNames, visitedOids, pending, resolved)
    requires forall n | Reachable(db, testOids, start, n) :: n in names
    requires pending != [] && pending[0] !in visitedNames
    ensures var routines := SourcesOf(c, pending[0]);
            && (forall r :: r in routines <==> r in db.routines && r.oid !in testOids && KeyOf(r) == pending[0])
            && (forall r | r in routines :: r.oid in c.dependenciesByOid && c.dependenciesByOid[r.oid] == CallsOf(db, r.oid) && r.oid !in visitedOids)
  {
    hide Reachable, DistinctRoutines;
    NamesOf(db, testOids, names, c, pending[0]);
    hide Holds;
    forall r | r in SourcesOf(c, pending[0]) ensures r.oid !in visitedOids {
      forall q | q in db.routines && q.oid == r.oid ensures q == r {
        SameOidSameRoutine(db, q, r);
      }
    }
  }

  lemma VisitKeeps(db: Database, testOids: set<nat>, testSchemas: set<string>, start: set<string>, c: Catalog,
                   visitedNames: set<string>, visitedOids: set<nat>, pending: seq<string>, resolved: seq<Routine>,
                   found: seq<Routine>, oids: set<nat>, called: seq<string>)
    requires DistinctOids(db) && Resolving(db, testOids, testSchemas, start, c, visitedNames, visitedOids, pending, resolved)
    requires pending != [] && pending[0] !in visitedNames
    requires var routines := SourcesOf(c, pending[0]);
             && (forall r :: r in routines <==> r in db.routines && r.oid !in testOids && KeyOf(r) == pending[0])
             && (forall r | r in routines :: r.oid in c.dependenciesByOid && c.dependenciesByOid[r.oid] == CallsOf(db, r.oid))
             && (forall oid :: oid in oids <==> oid in visitedOids || exists r | r in routines :: r.oid == oid)
             && (forall r :: r in found <==> r in routines && r.schema !in testSchemas)
             && (forall n :: n in called <==> exists r | r in routines :: n in c.dependenciesByOid[r.oid])
    requires DistinctRoutines(found)
    ensures Resolving(db, testOids, testSchemas, start, c, visitedNames + {pending[0]}, oids, pending[1..] + called, resolved + found)
  {
    var routines := SourcesOf(c, pending[0]);
    forall n ensures n in called <==> exists r | r in routines :: n in CallsOf(db, r.oid) {}
    NameKeeps(db, testOids, start, visitedNames, pending, routines, called);
    FoundKeep(db, testOids, testSchemas, visitedNames, pending[0], routines, resolved, found);
    hide Reachable, Calls, DistinctOids, DistinctRoutines, CallsOf;
  }

  lemma ResolvedAll(db: Database, testOids: set<nat>, testSchemas: set<string>, start: set<string>, c: Catalog,
                    visitedNames: set<string>, visitedOids: set<nat>, resolved: seq<Routine>)
    requires Resolving(db, testOids, testSchemas, start, c, visitedNames, visitedOids, [], resolved)
    ensures forall r :: r in resolved <==> IsSource(db, testOids, testSchemas, start, r)
    ensures DistinctRoutines(resolved)
  {
    var closed := visitedNames + {""};
    forall a, b | a in closed && Calls(db, testOids, a, b) ensures b in closed {
      KeysHaveDots(db, testOids, a, b);
    }
    forall r | r in db.routines && Reachable(db, testOids, start, KeyOf(r)) ensures KeyOf(r) in visitedNames {
      var path :| Chain(db, testOids, start, path) && path[|path| - 1] == KeyOf(r);
      ChainStaysInside(db, testOids, start, closed, path);
      assert KeyOf(r) != "";
    }
    hide Reachable;
  }

  lemma KeysHaveDots(db: Database, testOids: set<nat>, from: string, to: string)
    requires Calls(db, testOids, from, to)
    ensures from != ""
  {}

  // ----- Both together -----------------------------------------------------------------------------------

  /** For each test, from one catalog read for all of them: exactly its own reachable source routines. */
  method SourceRoutinesOfTests(db: Database, testOids: set<nat>, testSchemas: set<string>, tests: seq<set<string>>)
    returns (sources: seq<seq<Routine>>)
    requires DistinctOids(db)
    ensures |sources| == |tests|
    ensures forall i :: 0 <= i < |tests| ==>
              && DistinctRoutines(sources[i])
              && forall r :: r in sources[i] <==> IsSource(db, testOids, testSchemas, tests[i], r)
  {
    var initial: set<string> := {};
    for i := 0 to |tests|
      invariant forall j :: 0 <= j < i ==> tests[j] <= initial
    {
      initial := initial + tests[i];
    }
    var c;
    ghost var names;
    c, names := QueryDependencyCatalog(db, initial, testOids);
    sources := [];
    for i := 0 to |tests|
      invariant |sources| == i
      invariant forall j :: 0 <= j < i ==>
                  && DistinctRoutines(sources[j])
                  && forall r :: r in sources[j] <==> IsSource(db, testOids, testSchemas, tests[j], r)
    {
      forall n | Reachable(db, testOids, tests[i], n) ensures n in names {
        MoreStartsReachMore(db, testOids, tests[i], initial, n);
      }
      var found := ResolveSourceRoutines(db, testOids, testSchemas, tests[i], names, c);
      sources := sources + [found];
    }
  }
}
