/** A targeted read followed by its patch agrees with a full read of the new catalog. */
module CatalogPatchTheorems {
  import opened Options
  import opened Sequences
  import opened CatalogModel
  import opened CatalogPatch
  import CatalogRows

  // ----- Hypotheses ----------------------------------------------------------------------------

  /** What PostgreSQL guarantees of a catalog: oids are positive, rows are distinct, constraints have their owner. */
  ghost predicate Wellformed(c: Catalog) {
    && DistinctUris(Resources(c)) && DistinctTables(c)
    && (forall s | s in c.schemas :: s.oid > 0)
    && (forall t | t in c.tables :: t.oid > 0)
    && (forall v | v in c.views :: v.oid > 0)
    && (forall d | d in c.routines :: d.oid > 0)
    && (forall d | d in c.triggers :: d.oid > 0)
    && (forall k | k in c.constraints :: k.referenced != Some(0) && k.oid in c.owners && c.owners[k.oid] == k.tableOid)
  }

  function UriOf(r: Resource): Uri {
    r.document.uri
  }

  /** Whether the targeted read re-reads the object: by kind and oid, and never a type or an index. */
  predicate Reread(c: Catalog, ids: Ids, r: Resource) {
    r.document.postgres.Some? &&
    var d := r.document.postgres.value;
    match d.kind
    case SchemaKind => d.oid in NumericList(ids.schemas)
    case TableKind => RelationSelected(c, ids, d.oid)
    case ViewKind => RelationSelected(c, ids, d.oid)
    case RoutineKind => d.oid in NumericList(ids.routines)
    case TriggerKind => d.oid in NumericList(ids.triggers)
    case _ => false
  }

  /** Every resource in which the catalogs differ is requested by its old URI or selected by oid as new. */
  ghost predicate Covered(old_: Catalog, new_: Catalog, uris: set<Uri>, ids: Ids) {
    && (forall r | r in Resources(old_) && r !in Resources(new_) :: UriOf(r) in uris)
    && (forall r | r in Resources(new_) && r !in Resources(old_) :: Reread(new_, ids, r))
  }

  // ----- The targeted read returns exactly the selected resources --------------------------------

  lemma SchemaGroup(c: Catalog, ids: Ids, r: Resource)
    ensures r in Schemas(Selected(c, ids).schemas) <==> r in Schemas(c.schemas) && Reread(c, ids, r)
  {
    MapMembers(SchemaResource, Selected(c, ids).schemas, r);
    MapMembers(SchemaResource, c.schemas, r);
  }

  lemma DefinitionGroup(c: Catalog, ids: Ids, kind: Kind, all: seq<Definition>, some: seq<Definition>, r: Resource)
    requires forall d | d in some :: d in all && Reread(c, ids, DefinitionResource(kind, d))
    requires forall d | d in all && Reread(c, ids, DefinitionResource(kind, d)) :: d in some
    ensures r in Definitions(kind, some) <==> r in Definitions(kind, all) && Reread(c, ids, r)
  {
    MapMembers((d: Definition) => DefinitionResource(kind, d), some, r);
    MapMembers((d: Definition) => DefinitionResource(kind, d), all, r);
  }

  /** A re-read table has all its columns and constraints, and only its own. */
  lemma TableIsWhole(c: Catalog, ids: Ids, oid: nat)
    requires RelationSelected(c, ids, oid)
    ensures ColumnsOf(Selected(c, ids), oid) == ColumnsOf(c, oid)
    ensures ConstraintsOf(Selected(c, ids), oid) == ConstraintsOf(c, oid)
  {
    FilterTwice((k: Column) => RelationSelected(c, ids, k.tableOid), (k: Column) => k.tableOid == oid, c.columns);
    FilterTwice((k: Constraint) => ConstraintSelected(c, ids, k), (k: Constraint) => k.tableOid == oid, c.constraints);
  }

  lemma TableMember(c: Catalog, r: Resource)
    ensures r in TableResources(c)
            <==> exists t | t in c.tables :: TableResource(t, ColumnsOf(c, t.oid), ConstraintsOf(c, t.oid)) == r
  {
    MapMembers((t: Table) => TableResource(t, ColumnsOf(c, t.oid), ConstraintsOf(c, t.oid)), c.tables, r);
  }

  lemma TableGroup(c: Catalog, ids: Ids, r: Resource)
    ensures r in TableResources(Selected(c, ids)) <==> r in TableResources(c) && Reread(c, ids, r)
  {
    var read := Selected(c, ids);
    TableMember(c, r);
    TableMember(read, r);
    hide TableResources, ColumnsOf, ConstraintsOf;
    forall t | t in read.tables
      ensures t in c.tables && RelationSelected(c, ids, t.oid)
      ensures ColumnsOf(read, t.oid) == ColumnsOf(c, t.oid) && ConstraintsOf(read, t.oid) == ConstraintsOf(c, t.oid)
    {
      TableIsWhole(c, ids, t.oid);
    }
    forall t | t in c.tables && RelationSelected(c, ids, t.oid) ensures t in read.tables {}
  }

  lemma Grouped(c: Catalog, r: Resource)
    ensures r in Resources(c) <==>
            || r in Schemas(c.schemas) || r in Definitions(TypeKind, c.types) || r in TableResources(c)
            || r in Definitions(ViewKind, c.views) || r in Definitions(IndexKind, c.indexes)
            || r in Definitions(RoutineKind, c.routines) || r in Definitions(TriggerKind, c.triggers)
  {
    hide Schemas, Definitions, TableResources;
  }

  lemma NeverReread(c: Catalog, ids: Ids, kind: Kind, rows: seq<Definition>, r: Resource)
    requires kind.TypeKind? || kind.IndexKind?
    requires r in Definitions(kind, rows)
    ensures !Reread(c, ids, r)
  {
    MapMembers((d: Definition) => DefinitionResource(kind, d), rows, r);
  }

  /** The targeted read projects exactly the resources its ids select. */
  lemma SelectedResources(c: Catalog, ids: Ids, r: Resource)
    ensures r in Resources(Selected(c, ids)) <==> r in Resources(c) && Reread(c, ids, r)
  {
    var read := Selected(c, ids);
    Grouped(c, r);
    Grouped(read, r);
    SchemaGroup(c, ids, r);
    TableGroup(c, ids, r);
    DefinitionGroup(c, ids, ViewKind, c.views, read.views, r);
    DefinitionGroup(c, ids, RoutineKind, c.routines, read.routines, r);
    DefinitionGroup(c, ids, TriggerKind, c.triggers, read.triggers, r);
    hide Resources, Schemas, TableResources;
    if r in Definitions(TypeKind, c.types) {
      NeverReread(c, ids, TypeKind, c.types, r);
    }
    if r in Definitions(IndexKind, c.indexes) {
      NeverReread(c, ids, IndexKind, c.indexes, r);
    }
  }

  // ----- Requested documents are selected --------------------------------------------------------

  /** The oids are added only ever to one list each. */
  lemma {:induction false} IdsHold(selectors: seq<Selector>, s: Selector)
    requires s in selectors && s.target.Of? && !NeedsFullRead(s.target)
    ensures var ids := AddIds(NoIds, selectors);
            match s.target.kind
            case SchemaKind => s.oid in ids.schemas
            case TableKind => s.oid in ids.relations
            case ViewKind => s.oid in ids.relations
            case RoutineKind => s.oid in ids.routines
            case TriggerKind => s.oid in ids.triggers
            case _ => false
  {
    var n := |selectors| - 1;
    if s != selectors[n] {
      assert s in selectors[..n];
      IdsHold(selectors[..n], s);
    }
  }

  lemma RequestedIsReread(c: Catalog, existing: seq<Document>, uris: set<Uri>, selectors: seq<Selector>, r: Resource)
    requires !Refuses(existing, uris, selectors)
    requires r.document in existing && UriOf(r) in uris
    ensures Reread(c, IdsFor(existing, uris, selectors), r)
  {
    var requested := Requested(existing, uris);
    assert r.document in requested;
    var i :| 0 <= i < |requested| && requested[i] == r.document;
    var asked := SelectorsOf(requested);
    assert asked[i] in asked + selectors;
    IdsHold(asked + selectors, asked[i]);
  }

  // ----- Documents and origins -------------------------------------------------------------------

  ghost predicate OnePerUri(resources: seq<Resource>) {
    forall a, b | a in resources && b in resources && UriOf(a) == UriOf(b) :: a == b
  }

  lemma DistinctMeansOne(resources: seq<Resource>)
    requires DistinctUris(resources)
    ensures OnePerUri(resources)
  {
    forall a, b | a in resources && b in resources && UriOf(a) == UriOf(b) ensures a == b {
      var i :| 0 <= i < |resources| && resources[i] == a;
      var j :| 0 <= j < |resources| && resources[j] == b;
      assert !(i < j) && !(j < i);
    }
  }

  lemma BuiltMembers(leq: (Uri, Uri) -> bool, c: Catalog, d: Document)
    requires TotalOrder(leq)
    ensures d in BuiltDocuments(leq, c) <==> exists r | r in Resources(c) :: r.document == d
  {
    var docs := Documents(Resources(c));
    SortSorts(leq, docs);
    assert d in docs <==> d in multiset(docs);
    assert d in BuiltDocuments(leq, c) <==> d in multiset(BuiltDocuments(leq, c));
    MapMembers((r: Resource) => r.document, Resources(c), d);
  }

  /** What the two maps of a catalog hold at a URI. */
  ghost predicate MapsHold(documents: map<Uri, Document>, origins: map<Uri, Origin>, resources: seq<Resource>) {
    && (forall r | r in resources :: UriOf(r) in documents && documents[UriOf(r)] == r.document
                                    && UriOf(r) in origins && origins[UriOf(r)] == r.origin)
    && (forall u | u in documents :: exists r | r in resources :: UriOf(r) == u)
    && (forall u | u in origins :: exists r | r in resources :: UriOf(r) == u)
  }

  lemma ReadMapsHold(leq: (Uri, Uri) -> bool, c: Catalog)
    requires TotalOrder(leq) && OnePerUri(Resources(c))
    ensures MapsHold(ByUri(BuiltDocuments(leq, c)), OriginsByUri(Resources(c)), Resources(c))
  {
    var documents, origins := ByUri(BuiltDocuments(leq, c)), OriginsByUri(Resources(c));
    hide Resources;
    forall r | r in Resources(c)
      ensures UriOf(r) in documents && documents[UriOf(r)] == r.document
    {
      BuiltMembers(leq, c, r.document);
      var d := documents[UriOf(r)];
      BuiltMembers(leq, c, d);
      hide BuiltDocuments, ByUri;
      var q :| q in Resources(c) && q.document == d;
      assert UriOf(q) == UriOf(r);
    }
    forall u | u in documents ensures exists r | r in Resources(c) :: UriOf(r) == u {
      BuiltMembers(leq, c, documents[u]);
      hide BuiltDocuments, ByUri;
      var q :| q in Resources(c) && q.document == documents[u];
      assert UriOf(q) == u;
    }
    forall u | u in origins ensures exists r | r in Resources(c) :: UriOf(r) == u {
      var q :| q in Resources(c) && q.document.uri == u && q.origin == origins[u];
      assert UriOf(q) == u;
    }
    forall r | r in Resources(c) ensures UriOf(r) in origins && origins[UriOf(r)] == r.origin {
      var q :| q in Resources(c) && q.document.uri == UriOf(r) && q.origin == origins[UriOf(r)];
      assert UriOf(q) == UriOf(r);
    }
  }

  lemma MapsAreUnique(d1: map<Uri, Document>, o1: map<Uri, Origin>, d2: map<Uri, Document>, o2: map<Uri, Origin>, rs: seq<Resource>)
    requires MapsHold(d1, o1, rs) && MapsHold(d2, o2, rs)
    ensures d1 == d2 && o1 == o2
  {
    forall u ensures u in d1 <==> u in d2 {}
    forall u ensures u in o1 <==> u in o2 {}
    forall u | u in d1 ensures d1[u] == d2[u] {
      var r :| r in rs && UriOf(r) == u;
    }
    forall u | u in o1 ensures o1[u] == o2[u] {
      var r :| r in rs && UriOf(r) == u;
    }
  }

  /** What the steps of the patch know: what was, what is now, what was read, what was requested. */
  ghost predicate PatchSituation(registry: Registry, patch: Patch, was: seq<Resource>, now: seq<Resource>, read: seq<Resource>, uris: set<Uri>) {
    && MapsHold(registry.documents, registry.origins, was) && OnePerUri(was) && OnePerUri(now)
    && MapsHold(ByUri(patch.upserts), patch.origins, read)
    && patch.removed == uris - UrisOf(patch.upserts)
    && (forall r | r in read :: r in now)
    && (forall r | r in was && r !in now :: UriOf(r) in uris)
    && (forall r | r in now && r !in read :: r in was && UriOf(r) !in uris)
  }

  lemma UpsertedUris(docs: seq<Document>, u: Uri)
    ensures u in UrisOf(docs) <==> u in ByUri(docs)
  {
    if u in ByUri(docs) { assert ByUri(docs)[u] in docs; }
  }

  lemma NewResourceHeld(registry: Registry, patch: Patch, was: seq<Resource>, now: seq<Resource>, read: seq<Resource>, uris: set<Uri>, r: Resource)
    requires PatchSituation(registry, patch, was, now, read, uris) && r in now
    ensures UriOf(r) in PatchedDocuments(registry, patch) && PatchedDocuments(registry, patch)[UriOf(r)] == r.document
    ensures UriOf(r) in PatchedOrigins(registry, patch) && PatchedOrigins(registry, patch)[UriOf(r)] == r.origin
  {
    var u, up := UriOf(r), ByUri(patch.upserts);
    hide ByUri;
    if r !in read {
      forall q | q in read && UriOf(q) == u ensures q == r { assert q in now; }
      assert u !in up && u !in patch.origins;
      assert u !in patch.removed;
      assert u in Without(registry.documents, patch.removed);
    }
  }

  lemma HeldUriIsNew(registry: Registry, patch: Patch, was: seq<Resource>, now: seq<Resource>, read: seq<Resource>, uris: set<Uri>, u: Uri)
    requires PatchSituation(registry, patch, was, now, read, uris)
    requires u in PatchedDocuments(registry, patch) || u in PatchedOrigins(registry, patch)
    ensures exists r | r in now :: UriOf(r) == u
  {
    var up := ByUri(patch.upserts);
    UpsertedUris(patch.upserts, u);
    hide ByUri, OnePerUri;
    if u in up || u in patch.origins {
      var r :| r in read && UriOf(r) == u;
      assert r in now;
    } else {
      var r :| r in was && UriOf(r) == u;
      assert u !in patch.removed;
      assert r in now;
    }
  }

  /** The patched maps hold the new resources, given what was read and what was requested. */
  lemma PatchedMapsHold(registry: Registry, patch: Patch, was: seq<Resource>, now: seq<Resource>, read: seq<Resource>, uris: set<Uri>)
    requires PatchSituation(registry, patch, was, now, read, uris)
    ensures MapsHold(PatchedDocuments(registry, patch), PatchedOrigins(registry, patch), now)
  {
    hide PatchSituation, PatchedDocuments, PatchedOrigins;
    forall r | r in now
      ensures UriOf(r) in PatchedDocuments(registry, patch) && PatchedDocuments(registry, patch)[UriOf(r)] == r.document
      ensures UriOf(r) in PatchedOrigins(registry, patch) && PatchedOrigins(registry, patch)[UriOf(r)] == r.origin
    {
      NewResourceHeld(registry, patch, was, now, read, uris, r);
    }
    forall u | u in PatchedDocuments(registry, patch) || u in PatchedOrigins(registry, patch)
      ensures exists r | r in now :: UriOf(r) == u
    {
      HeldUriIsNew(registry, patch, was, now, read, uris, u);
    }
  }

  /**
   * Incremental equals full, for documents and origins: when the request covers every difference, the
   * patched registry holds the documents and the origins of a full read of the new catalog.
   */
  lemma IncrementalDocumentsAreFull(leq: (Uri, Uri) -> bool, old_: Catalog, new_: Catalog, existing: seq<Document>,
                                    uris: set<Uri>, selectors: seq<Selector>)
    requires TotalOrder(leq) && Wellformed(old_) && Wellformed(new_)
    requires forall d :: d in existing <==> d in BuiltDocuments(leq, old_)
    requires !Refuses(existing, uris, selectors) && Covered(old_, new_, uris, IdsFor(existing, uris, selectors))
    ensures var registry := Registered(FullRead(leq, old_));
            var patch := PatchFrom(leq, Selected(new_, IdsFor(existing, uris, selectors)), uris);
            && PatchedDocuments(registry, patch) == ByUri(BuiltDocuments(leq, new_))
            && PatchedOrigins(registry, patch) == OriginsByUri(Resources(new_))
  {
    var ids := IdsFor(existing, uris, selectors);
    var read := Selected(new_, ids);
    var registry := Registered(FullRead(leq, old_));
    var patch := PatchFrom(leq, read, uris);
    CoveredSituation(leq, old_, new_, existing, uris, selectors);
    DistinctMeansOne(Resources(new_));
    ReadMapsHold(leq, new_);
    hide IdsFor, Selected, Refuses, MapsHold, PatchSituation, Wellformed, Resources, Covered, BuiltDocuments;
    PatchedMapsHold(registry, patch, Resources(old_), Resources(new_), Resources(read), uris);
    MapsAreUnique(PatchedDocuments(registry, patch), PatchedOrigins(registry, patch),
                  ByUri(BuiltDocuments(leq, new_)), OriginsByUri(Resources(new_)), Resources(new_));
  }

  lemma CoveredSituation(leq: (Uri, Uri) -> bool, old_: Catalog, new_: Catalog, existing: seq<Document>,
                         uris: set<Uri>, selectors: seq<Selector>)
    requires TotalOrder(leq) && Wellformed(old_) && Wellformed(new_)
    requires forall d :: d in existing <==> d in BuiltDocuments(leq, old_)
    requires !Refuses(existing, uris, selectors) && Covered(old_, new_, uris, IdsFor(existing, uris, selectors))
    ensures var read := Selected(new_, IdsFor(existing, uris, selectors));
            PatchSituation(Registered(FullRead(leq, old_)), PatchFrom(leq, read, uris),
                           Resources(old_), Resources(new_), Resources(read), uris)
  {
    var ids := IdsFor(existing, uris, selectors);
    hide IdsFor, Selected, Refuses, Resources, Covered, MapsHold, BuiltDocuments, DistinctUris, DistinctTables, OnePerUri;
    DistinctMeansOne(Resources(old_));
    DistinctMeansOne(Resources(new_));
    ReadMapsHold(leq, old_);
    TargetedMapsHold(leq, new_, ids);
    UnreadAreOld(leq, old_, new_, existing, uris, selectors);
  }

  lemma UnreadAreOld(leq: (Uri, Uri) -> bool, old_: Catalog, new_: Catalog, existing: seq<Document>,
                     uris: set<Uri>, selectors: seq<Selector>)
    requires TotalOrder(leq) && Wellformed(old_) && Wellformed(new_)
    requires forall d :: d in existing <==> d in BuiltDocuments(leq, old_)
    requires !Refuses(existing, uris, selectors) && Covered(old_, new_, uris, IdsFor(existing, uris, selectors))
    ensures var read := Selected(new_, IdsFor(existing, uris, selectors));
            forall r | r in Resources(new_) && r !in Resources(read) :: r in Resources(old_) && UriOf(r) !in uris
  {
    var ids := IdsFor(existing, uris, selectors);
    hide IdsFor, Selected, Refuses, Resources, Reread, Covered, BuiltDocuments, Wellformed, TotalOrder;
    forall r | r in Resources(new_) && r !in Resources(Selected(new_, ids)) ensures r in Resources(old_) && UriOf(r) !in uris {
      SelectedResources(new_, ids, r);
      NotRereadIsOld(leq, old_, new_, existing, uris, selectors, r);
    }
  }

  lemma TargetedMapsHold(leq: (Uri, Uri) -> bool, c: Catalog, ids: Ids)
    requires TotalOrder(leq) && OnePerUri(Resources(c))
    ensures MapsHold(ByUri(BuiltDocuments(leq, Selected(c, ids))), OriginsByUri(Resources(Selected(c, ids))), Resources(Selected(c, ids)))
    ensures forall r | r in Resources(Selected(c, ids)) :: r in Resources(c)
  {
    var read := Selected(c, ids);
    hide Selected, Resources, Reread;
    forall r | r in Resources(read) ensures r in Resources(c) {
      SelectedResources(c, ids, r);
    }
    forall a, b | a in Resources(read) && b in Resources(read) && UriOf(a) == UriOf(b) ensures a == b {
      assert a in Resources(c) && b in Resources(c);
    }
    ReadMapsHold(leq, read);
  }

  /** A resource of the new catalog that is not re-read is an old one whose URI was not requested. */
  lemma NotRereadIsOld(leq: (Uri, Uri) -> bool, old_: Catalog, new_: Catalog, existing: seq<Document>,
                       uris: set<Uri>, selectors: seq<Selector>, r: Resource)
    requires TotalOrder(leq)
    requires forall d :: d in existing <==> d in BuiltDocuments(leq, old_)
    requires !Refuses(existing, uris, selectors) && Covered(old_, new_, uris, IdsFor(existing, uris, selectors))
    requires r in Resources(new_) && !Reread(new_, IdsFor(existing, uris, selectors), r)
    ensures r in Resources(old_) && UriOf(r) !in uris
  {
    hide Resources, Reread, IdsFor, Refuses;
    assert r in Resources(old_);
    BuiltMembers(leq, old_, r.document);
    hide BuiltDocuments;
    if UriOf(r) in uris {
      RequestedIsReread(new_, existing, uris, selectors, r);
    }
  }

  // ----- Source-set order ------------------------------------------------------------------------

  lemma {:induction false} ListingIsUnique(leq: (Uri, Uri) -> bool, a: seq<Document>, b: seq<Document>, m: map<Uri, Document>)
    requires TotalOrder(leq) && IsListing(leq, a, m) && IsListing(leq, b, m)
    ensures a == b
  {
    OnlyEmptyIsEmpty(leq, a, m);
    OnlyEmptyIsEmpty(leq, b, m);
    if a != [] {
      assert a[0] in a && b[0] in b;
      assert m[a[0].uri] in b && m[b[0].uri] in a;
      assert leq(a[0].uri, b[0].uri) && leq(b[0].uri, a[0].uri);
      assert a[0] == b[0];
      TailLists(leq, a, m);
      TailLists(leq, b, m);
      ListingIsUnique(leq, a[1..], b[1..], m - {a[0].uri});
    }
  }

  lemma OnlyEmptyIsEmpty(leq: (Uri, Uri) -> bool, a: seq<Document>, m: map<Uri, Document>)
    requires IsListing(leq, a, m)
    ensures a == [] <==> m == map[]
  {
    if a != [] { assert a[0] in a; }
  }

  lemma TailLists(leq: (Uri, Uri) -> bool, a: seq<Document>, m: map<Uri, Document>)
    requires IsListing(leq, a, m) && a != []
    ensures IsListing(leq, a[1..], m - {a[0].uri})
  {
    assert a == [a[0]] + a[1..];
    forall u | u in m - {a[0].uri} ensures m[u] in a[1..] {
      assert m[u] in a && m[u].uri == u;
    }
  }

  lemma BuiltIsListing(leq: (Uri, Uri) -> bool, c: Catalog)
    requires TotalOrder(leq) && DistinctUris(Resources(c))
    ensures IsListing(leq, BuiltDocuments(leq, c), ByUri(BuiltDocuments(leq, c)))
  {
    var docs := Documents(Resources(c));
    var built := BuiltDocuments(leq, c);
    hide Resources;
    SortSorts(leq, docs);
    DistinctKeepsUnderSort(docs, built);
    hide BuiltDocuments, Documents;
    forall d | d in built ensures ByUri(built)[d.uri] == d {
      OncePerUri(built, d, ByUri(built)[d.uri]);
    }
  }

  // ----- Foreign keys and view dependencies ------------------------------------------------------

  lemma {:induction false} SelectedForeignKeys(c: Catalog, ids: Ids, rows: seq<Constraint>)
    requires forall k | k in rows :: k.referenced != Some(0) && k.oid in c.owners && c.owners[k.oid] == k.tableOid
    ensures ForeignKeys(Filter((k: Constraint) => ConstraintSelected(c, ids, k), rows))
            == Filter((e: Edge) => EdgeSelected(c, ids, e), ForeignKeys(rows))
  {
    if rows != [] {
      var k := rows[0];
      SelectedForeignKeys(c, ids, rows[1..]);
      FilterAppend((e: Edge) => EdgeSelected(c, ids, e), EdgeOf(k), ForeignKeys(rows[1..]));
      if k.referenced.Some? {
        assert ConstraintSelected(c, ids, k) <==> EdgeSelected(c, ids, EdgeOf(k)[0]);
      }
      var rest := Filter((k: Constraint) => ConstraintSelected(c, ids, k), rows[1..]);
      assert ([k] + rest)[1..] == rest;
    }
  }

  lemma {:induction false} SelectedDependencies(c: Catalog, ids: Ids, rows: seq<Dependency>)
    ensures ViewDependencies(Filter((d: Dependency) => RelationSelected(c, ids, d.view) || RelationSelected(c, ids, d.target), rows))
            == Filter((e: Edge) => EdgeSelected(c, ids, e), ViewDependencies(rows))
  {
    if rows != [] {
      SelectedDependencies(c, ids, rows[1..]);
      var d := rows[0];
      var rest := Filter((d: Dependency) => RelationSelected(c, ids, d.view) || RelationSelected(c, ids, d.target), rows[1..]);
      assert ([d] + rest)[1..] == rest;
    }
  }

  /** Each edge joins relations that the catalog lists. */
  ghost predicate EdgesInside(c: Catalog, edges: seq<Edge>) {
    forall e | e in edges :: e.source in RelationOids(c) && e.target in RelationOids(c)
  }

  /** Each edge whose number of occurrences changed touches a relation the read selects. */
  ghost predicate ChangesAreSelected(new_: Catalog, ids: Ids, was: seq<Edge>, now: seq<Edge>) {
    forall e :: multiset(was)[e] != multiset(now)[e] ==> EdgeSelected(new_, ids, e)
  }

  lemma SelectedIsReadBack(c: Catalog, ids: Ids, oid: nat)
    ensures oid in RelationOids(Selected(c, ids)) <==> oid in RelationOids(c) && RelationSelected(c, ids, oid)
  {
    var read := Selected(c, ids);
    if oid in RelationOids(c) && RelationSelected(c, ids, oid) {
      if t :| t in c.tables && t.oid == oid {
        assert t in read.tables;
      } else {
        var v :| v in c.views && v.oid == oid;
        assert v in read.views;
      }
    }
  }

  lemma MergeCounts(edges: seq<Edge>, affected: set<nat>, new_: Catalog, ids: Ids, now: seq<Edge>, e: Edge)
    ensures multiset(Merge(edges, affected, Filter((e: Edge) => EdgeSelected(new_, ids, e), now)))[e]
            == (if Touches(affected, e) then 0 else multiset(edges)[e]) + (if EdgeSelected(new_, ids, e) then multiset(now)[e] else 0)
  {
    FilterCount((e: Edge) => !Touches(affected, e), edges, e);
    FilterCount((e: Edge) => EdgeSelected(new_, ids, e), now, e);
  }

  /**
   * The merged edges are those of a full read exactly when the relations the patch drops edges of are,
   * on the old edges, the relations it re-read edges of.
   */
  lemma MergeIsExactIff(new_: Catalog, ids: Ids, removedOids: set<nat>, was: seq<Edge>, now: seq<Edge>)
    requires EdgesInside(new_, now) && ChangesAreSelected(new_, ids, was, now)
    ensures var affected := RelationOids(Selected(new_, ids)) + removedOids;
            var merged := Merge(was, affected, Filter((e: Edge) => EdgeSelected(new_, ids, e), now));
            multiset(merged) == multiset(now)
            <==> forall e | e in was :: Touches(affected, e) <==> EdgeSelected(new_, ids, e)
  {
    var affected := RelationOids(Selected(new_, ids)) + removedOids;
    var merged := Merge(was, affected, Filter((e: Edge) => EdgeSelected(new_, ids, e), now));
    forall e
      ensures multiset(merged)[e] == (if Touches(affected, e) then 0 else multiset(was)[e])
                                    + (if EdgeSelected(new_, ids, e) then multiset(now)[e] else 0)
      ensures e in now && EdgeSelected(new_, ids, e) ==> Touches(affected, e)
    {
      MergeCounts(was, affected, new_, ids, now, e);
      SelectedIsReadBack(new_, ids, e.source);
      SelectedIsReadBack(new_, ids, e.target);
    }
    hide Merge, Selected, RelationSelected, RelationOids, EdgeSelected, Touches;
    assert forall e :: e in was <==> multiset(was)[e] > 0;
    assert forall e :: e in now <==> multiset(now)[e] > 0;
    if multiset(merged) == multiset(now) {
      forall e | e in was ensures Touches(affected, e) <==> EdgeSelected(new_, ids, e) {
        assert multiset(merged)[e] == multiset(now)[e];
      }
    }
    if forall e | e in was :: Touches(affected, e) <==> EdgeSelected(new_, ids, e) {
      forall e ensures multiset(merged)[e] == multiset(now)[e] {}
    }
  }

  // ----- When the condition holds ------------------------------------------------------------------

  predicate IsRelation(r: Resource) {
    r.document.postgres.Some? && (r.document.postgres.value.kind.TableKind? || r.document.postgres.value.kind.ViewKind?)
  }

  /** No URI of a dropped relation names another object of the new catalog. */
  ghost predicate NoUriReused(old_: Catalog, new_: Catalog) {
    forall r, q | r in Resources(old_) && IsRelation(r) && q in Resources(new_) && UriOf(q) == UriOf(r)
      :: r.document.postgres.value.oid in RelationOids(new_)
  }

  /** A relation shares its oid with no schema, routine or trigger. PostgreSQL keeps oids distinct only per kind. */
  ghost predicate NoOidShared(old_: Catalog) {
    forall r, q | r in Resources(old_) && q in Resources(old_) && IsRelation(r)
                  && q.document.postgres.Some? && q.document.postgres.value.oid == r.document.postgres.value.oid
      :: IsRelation(q)
  }

  lemma RelationHasResource(c: Catalog, oid: nat)
    requires oid in RelationOids(c)
    ensures exists r | r in Resources(c) :: IsRelation(r) && r.document.postgres.value.oid == oid
  {
    if t :| t in c.tables && t.oid == oid {
      var r := TableResource(t, ColumnsOf(c, t.oid), ConstraintsOf(c, t.oid));
      TableMember(c, r);
      Grouped(c, r);
    } else {
      var v :| v in c.views && v.oid == oid;
      var r := DefinitionResource(ViewKind, v);
      MapMembers((d: Definition) => DefinitionResource(ViewKind, d), c.views, r);
      Grouped(c, r);
    }
  }

  lemma DefinitionKinds(kind: Kind, rows: seq<Definition>, r: Resource)
    requires r in Definitions(kind, rows)
    ensures r.document.postgres.Some? && r.document.postgres.value.kind == kind
    ensures exists d | d in rows :: d.oid == r.document.postgres.value.oid
  {
    MapMembers((d: Definition) => DefinitionResource(kind, d), rows, r);
  }

  lemma SchemaKinds(rows: seq<Schema>, r: Resource)
    requires r in Schemas(rows)
    ensures r.document.postgres.Some? && r.document.postgres.value.kind == SchemaKind
  {
    MapMembers(SchemaResource, rows, r);
  }

  lemma RelationOfResource(c: Catalog, r: Resource)
    requires r in Resources(c) && IsRelation(r)
    ensures r.document.postgres.value.oid in RelationOids(c)
  {
    Grouped(c, r);
    TableMember(c, r);
    hide Resources, TableResources, Schemas, Definitions;
    if r in Schemas(c.schemas) { SchemaKinds(c.schemas, r); }
    if r in TableResources(c) {
      var t :| t in c.tables && TableResource(t, ColumnsOf(c, t.oid), ConstraintsOf(c, t.oid)) == r;
      assert r.document.postgres.value.oid == t.oid;
    }
    if r in Definitions(TypeKind, c.types) { DefinitionKinds(TypeKind, c.types, r); }
    if r in Definitions(ViewKind, c.views) { DefinitionKinds(ViewKind, c.views, r); }
    if r in Definitions(IndexKind, c.indexes) { DefinitionKinds(IndexKind, c.indexes, r); }
    if r in Definitions(RoutineKind, c.routines) { DefinitionKinds(RoutineKind, c.routines, r); }
    if r in Definitions(TriggerKind, c.triggers) { DefinitionKinds(TriggerKind, c.triggers, r); }
  }

  /** A request that was not refused, over the registry a full read of the old catalog left. */
  ghost predicate Request(leq: (Uri, Uri) -> bool, old_: Catalog, new_: Catalog, existing: seq<Document>,
                          uris: set<Uri>, selectors: seq<Selector>) {
    && TotalOrder(leq) && Wellformed(old_) && Wellformed(new_)
    && (forall d :: d in existing <==> d in BuiltDocuments(leq, old_))
    && !Refuses(existing, uris, selectors) && Covered(old_, new_, uris, IdsFor(existing, uris, selectors))
  }

  lemma RegisteredAt(leq: (Uri, Uri) -> bool, old_: Catalog, r: Resource)
    requires TotalOrder(leq) && Wellformed(old_) && r in Resources(old_)
    ensures var m := ByUri(BuiltDocuments(leq, old_)); UriOf(r) in m && m[UriOf(r)] == r.document
  {
    DistinctMeansOne(Resources(old_));
    ReadMapsHold(leq, old_);
  }

  /** A removed oid that belongs to an old relation was selected. */
  lemma RemovedWasSelected(leq: (Uri, Uri) -> bool, old_: Catalog, new_: Catalog, existing: seq<Document>,
                           uris: set<Uri>, selectors: seq<Selector>, removed: set<Uri>, oid: nat)
    requires Request(leq, old_, new_, existing, uris, selectors) && NoOidShared(old_) && removed <= uris
    requires oid in RelationOids(old_) && oid in RemovedOids(ByUri(BuiltDocuments(leq, old_)), removed)
    ensures RelationSelected(new_, IdsFor(existing, uris, selectors), oid)
  {
    hide Resources, RelationSelected, RelationOids, IdsFor, Refuses, Covered;
    RelationHasResource(old_, oid);
    var m := ByUri(BuiltDocuments(leq, old_));
    var u :| u in removed && u in m && m[u].postgres.Some? && m[u].postgres.value.oid == oid;
    BuiltMembers(leq, old_, m[u]);
    var q :| q in Resources(old_) && q.document == m[u];
    hide BuiltDocuments;
    assert IsRelation(q);
    RequestedIsReread(new_, existing, uris, selectors, q);
  }

  /** A relation that was selected and is gone has been removed, unless its URI came back. */
  lemma GoneWasRemoved(leq: (Uri, Uri) -> bool, old_: Catalog, new_: Catalog, existing: seq<Document>,
                       uris: set<Uri>, selectors: seq<Selector>, oid: nat)
    requires Request(leq, old_, new_, existing, uris, selectors) && NoUriReused(old_, new_)
    requires oid in RelationOids(old_) && oid !in RelationOids(new_)
    ensures var patch := PatchFrom(leq, Selected(new_, IdsFor(existing, uris, selectors)), uris);
            oid in RemovedOids(ByUri(BuiltDocuments(leq, old_)), patch.removed)
  {
    hide Resources, RelationSelected, RelationOids, IdsFor, Refuses, Selected, Wellformed;
    var ids := IdsFor(existing, uris, selectors);
    var read := Selected(new_, ids);
    var upserts := BuiltDocuments(leq, read);
    RelationHasResource(old_, oid);
    var r :| r in Resources(old_) && IsRelation(r) && r.document.postgres.value.oid == oid;
    if r in Resources(new_) {
      RelationOfResource(new_, r);
    }
    RegisteredAt(leq, old_, r);
    assert UriOf(r) in uris;
    forall d | d in upserts ensures d.uri != UriOf(r) {
      BuiltMembers(leq, read, d);
      var q :| q in Resources(read) && q.document == d;
      SelectedResources(new_, ids, q);
      assert q in Resources(new_);
      assert UriOf(q) == d.uri;
    }
    assert UriOf(r) !in UrisOf(upserts);
  }

  /** Without a reused URI or a shared oid the patch drops exactly the edges it re-read. */
  lemma DroppedEdgesAreReread(leq: (Uri, Uri) -> bool, old_: Catalog, new_: Catalog, existing: seq<Document>,
                              uris: set<Uri>, selectors: seq<Selector>, oid: nat)
    requires Request(leq, old_, new_, existing, uris, selectors) && NoUriReused(old_, new_) && NoOidShared(old_)
    requires oid in RelationOids(old_)
    ensures var ids := IdsFor(existing, uris, selectors);
            var patch := PatchFrom(leq, Selected(new_, ids), uris);
            oid in Affected(Registered(FullRead(leq, old_)), patch) <==> RelationSelected(new_, ids, oid)
  {
    var ids := IdsFor(existing, uris, selectors);
    var patch := PatchFrom(leq, Selected(new_, ids), uris);
    SelectedIsReadBack(new_, ids, oid);
    hide Resources, RelationSelected, RelationOids, IdsFor, Selected, Request, BuiltDocuments, NoUriReused, NoOidShared;
    if oid in RemovedOids(ByUri(BuiltDocuments(leq, old_)), patch.removed) {
      RemovedWasSelected(leq, old_, new_, existing, uris, selectors, patch.removed, oid);
    }
    if oid !in RelationOids(new_) {
      GoneWasRemoved(leq, old_, new_, existing, uris, selectors, oid);
      assert oid in Affected(Registered(FullRead(leq, old_)), patch);
      GoneWasSelected(leq, old_, new_, existing, uris, selectors, oid);
    }
  }

  lemma GoneWasSelected(leq: (Uri, Uri) -> bool, old_: Catalog, new_: Catalog, existing: seq<Document>,
                        uris: set<Uri>, selectors: seq<Selector>, oid: nat)
    requires Request(leq, old_, new_, existing, uris, selectors)
    requires oid in RelationOids(old_) && oid !in RelationOids(new_)
    ensures RelationSelected(new_, IdsFor(existing, uris, selectors), oid)
  {
    hide Resources, RelationSelected, RelationOids, IdsFor, Refuses, Wellformed;
    RelationHasResource(old_, oid);
    var r :| r in Resources(old_) && IsRelation(r) && r.document.postgres.value.oid == oid;
    if r in Resources(new_) {
      RelationOfResource(new_, r);
    }
    BuiltMembers(leq, old_, r.document);
    hide BuiltDocuments;
    RequestedIsReread(new_, existing, uris, selectors, r);
  }

  /** Incremental equals full for one kind of edge: `was` and `now` are its rows in the old and the new catalog. */
  lemma IncrementalEdgesAreFull(leq: (Uri, Uri) -> bool, old_: Catalog, new_: Catalog, existing: seq<Document>,
                                uris: set<Uri>, selectors: seq<Selector>, was: seq<Edge>, now: seq<Edge>)
    requires Request(leq, old_, new_, existing, uris, selectors) && NoUriReused(old_, new_) && NoOidShared(old_)
    requires EdgesInside(old_, was) && EdgesInside(new_, now)
    requires ChangesAreSelected(new_, IdsFor(existing, uris, selectors), was, now)
    ensures var ids := IdsFor(existing, uris, selectors);
            var patch := PatchFrom(leq, Selected(new_, ids), uris);
            multiset(Merge(was, Affected(Registered(FullRead(leq, old_)), patch),
                           Filter((e: Edge) => EdgeSelected(new_, ids, e), now)))
            == multiset(now)
  {
    var ids := IdsFor(existing, uris, selectors);
    var patch := PatchFrom(leq, Selected(new_, ids), uris);
    var registry := Registered(FullRead(leq, old_));
    MergeIsExactIff(new_, ids, RemovedOids(registry.documents, patch.removed), was, now);
    forall e | e in was ensures Touches(Affected(registry, patch), e) <==> EdgeSelected(new_, ids, e) {
      DroppedEdgesAreReread(leq, old_, new_, existing, uris, selectors, e.source);
      DroppedEdgesAreReread(leq, old_, new_, existing, uris, selectors, e.target);
    }
  }

  // ----- The whole refresh -------------------------------------------------------------------------

  /** What the two catalogs must satisfy for the edges to agree as well. */
  ghost predicate EdgesCovered(leq: (Uri, Uri) -> bool, old_: Catalog, new_: Catalog, ids: Ids) {
    && NoUriReused(old_, new_) && NoOidShared(old_)
    && EdgesInside(old_, ForeignKeys(old_.constraints)) && EdgesInside(new_, ForeignKeys(new_.constraints))
    && EdgesInside(old_, ViewDependencies(old_.dependencies)) && EdgesInside(new_, ViewDependencies(new_.dependencies))
    && ChangesAreSelected(new_, ids, ForeignKeys(old_.constraints), ForeignKeys(new_.constraints))
    && ChangesAreSelected(new_, ids, ViewDependencies(old_.dependencies), ViewDependencies(new_.dependencies))
  }

  /**
   * Incremental equals full: reading the requested documents and patching the registry yields the source
   * set of a full read, document for document in the same order, and, as multisets, its edges.
   */
  method RefreshIncrementally(leq: (Uri, Uri) -> bool, ghost old_: Catalog, database: Catalog, registry: Registry,
                              existing: seq<Document>, uris: set<Uri>, selectors: seq<Selector>)
    returns (snapshot: Snapshot)
    requires Request(leq, old_, database, existing, uris, selectors)
    requires registry == Registered(FullRead(leq, old_))
    ensures snapshot.documents == FullRead(leq, database).documents
    ensures snapshot.origins == FullRead(leq, database).origins
    ensures EdgesCovered(leq, old_, database, IdsFor(existing, uris, selectors)) ==>
              && multiset(snapshot.foreignKeys) == multiset(FullRead(leq, database).foreignKeys)
              && multiset(snapshot.viewDependencies) == multiset(FullRead(leq, database).viewDependencies)
              && CatalogRows.EdgesAreRows(snapshot.foreignKeys, snapshot.viewDependencies, database)
  {
    hide Resources, BuiltDocuments, IdsFor, Selected, IsListing, Merge, Affected, PatchedDocuments, PatchedOrigins;
    var result := ReadCatalogDocuments(leq, database, existing, uris, selectors);
    snapshot := ApplyCatalogPatch(leq, registry, result.patch);
    IncrementalDocumentsAreFull(leq, old_, database, existing, uris, selectors);
    BuiltIsListing(leq, database);
    ListingIsUnique(leq, snapshot.documents, BuiltDocuments(leq, database), ByUri(BuiltDocuments(leq, database)));
    if EdgesCovered(leq, old_, database, IdsFor(existing, uris, selectors)) {
      EdgesAgree(leq, old_, database, existing, uris, selectors, result.patch);
      CatalogRows.FullReadEdges(leq, database);
    }
  }

  lemma EdgesAgree(leq: (Uri, Uri) -> bool, old_: Catalog, new_: Catalog, existing: seq<Document>,
                   uris: set<Uri>, selectors: seq<Selector>, patch: Patch)
    requires Request(leq, old_, new_, existing, uris, selectors)
    requires EdgesCovered(leq, old_, new_, IdsFor(existing, uris, selectors))
    requires patch == PatchFrom(leq, Selected(new_, IdsFor(existing, uris, selectors)), uris)
    ensures var affected := Affected(Registered(FullRead(leq, old_)), patch);
            && multiset(Merge(ForeignKeys(old_.constraints), affected, patch.foreignKeys)) == multiset(ForeignKeys(new_.constraints))
            && multiset(Merge(ViewDependencies(old_.dependencies), affected, patch.viewDependencies))
               == multiset(ViewDependencies(new_.dependencies))
  {
    var ids := IdsFor(existing, uris, selectors);
    SelectedForeignKeys(new_, ids, new_.constraints);
    SelectedDependencies(new_, ids, new_.dependencies);
    IncrementalEdgesAreFull(leq, old_, new_, existing, uris, selectors, ForeignKeys(old_.constraints), ForeignKeys(new_.constraints));
    IncrementalEdgesAreFull(leq, old_, new_, existing, uris, selectors,
                            ViewDependencies(old_.dependencies), ViewDependencies(new_.dependencies));
  }

  // ----- A dropped relation whose URI is reused ------------------------------------------------------

  /** A catalog of one table, with at most a foreign key from the table to itself. */
  function OneTable(oid: nat, selfReference: bool): Catalog {
    Catalog([], [], [Table(oid, "s", "a", None)], [],
            if selfReference then [Constraint(oid, 10, "k", "f", Some(oid), "fk")] else [], [], [], [], [], [],
            if selfReference then map[10 := oid] else map[])
  }

  lemma OneTableIs(leq: (Uri, Uri) -> bool, oid: nat, selfReference: bool)
    requires oid > 0
    ensures var c := OneTable(oid, selfReference);
            var r := TableResource(c.tables[0], ColumnsOf(c, oid), ConstraintsOf(c, oid));
            && Resources(c) == [r]
            && BuiltDocuments(leq, c) == [r.document]
            && Wellformed(c)
            && RelationOids(c) == {oid}
  {
    var c := OneTable(oid, selfReference);
    var r := TableResource(c.tables[0], ColumnsOf(c, oid), ConstraintsOf(c, oid));
    hide ColumnsOf, ConstraintsOf;
    assert TableResources(c) == [r];
    assert Schemas(c.schemas) == [] && Definitions(TypeKind, c.types) == [] && Definitions(ViewKind, c.views) == [];
    assert Definitions(IndexKind, c.indexes) == [] && Definitions(RoutineKind, c.routines) == [] && Definitions(TriggerKind, c.triggers) == [];
    hide Schemas, Definitions, TableResources;
    assert Resources(c) == [r];
    assert Documents([r]) == [r.document];
    var docs := [r.document];
    assert docs[1..] == [];
    assert SortByUri(leq, docs[1..]) == [];
    assert SortByUri(leq, docs) == [r.document];
    assert c.views == [] && c.tables == [Table(oid, "s", "a", None)];
    assert c.tables[0] in c.tables;
    assert RelationOids(c) == {oid};
  }

  const ReusedUris: set<Uri> := {Uri("s", TableKind, "a")}
  const ReusedSelectors := [Selector(AnyRelation, 3)]

  /** Both tables are asked for: the old one by its document, the new one by its oid. */
  lemma ReusedIds(existing: seq<Document>)
    requires |existing| == 1 && existing[0].uri == Uri("s", TableKind, "a")
    requires existing[0].postgres == Some(Descriptor(TableKind, 1, "s", "a", ""))
    ensures !Refuses(existing, ReusedUris, ReusedSelectors)
    ensures IdsFor(existing, ReusedUris, ReusedSelectors).relations == [1, 3]
  {
    FilterOne((d: Document) => d.uri in ReusedUris, existing[0]);
    assert existing == [existing[0]];
    assert Requested(existing, ReusedUris) == existing;
    hide Requested;
    assert SelectorsOf(existing) == [Selector(Of(TableKind), 1)];
    var all := [Selector(Of(TableKind), 1), Selector(AnyRelation, 3)];
    assert SelectorsOf(existing) + ReusedSelectors == all && all[..1] == [Selector(Of(TableKind), 1)] && all[..1][..0] == [];
    assert AddIds(NoIds, all[..1]) == NoIds.(relations := [1]);
    assert AddIds(NoIds, all) == NoIds.(relations := [1, 3]);
  }

  lemma ReusedRequest(leq: (Uri, Uri) -> bool)
    requires TotalOrder(leq)
    ensures var existing := BuiltDocuments(leq, OneTable(1, true));
            && Request(leq, OneTable(1, true), OneTable(3, false), existing, ReusedUris, ReusedSelectors)
            && IdsFor(existing, ReusedUris, ReusedSelectors).relations == [1, 3]
  {
    var existing := BuiltDocuments(leq, OneTable(1, true));
    OneTableIs(leq, 1, true);
    OneTableIs(leq, 3, false);
    hide Resources, BuiltDocuments, ColumnsOf, ConstraintsOf, Wellformed, RelationOids, OneTable;
    ReusedIds(existing);
    ReusedCovered(leq, IdsFor(existing, ReusedUris, ReusedSelectors));
    hide IdsFor, Refuses, Covered;
  }

  lemma CoveredByOne(was: Catalog, now: Catalog, r: Resource, q: Resource, uris: set<Uri>, ids: Ids)
    requires Resources(was) == [r] && Resources(now) == [q] && UriOf(r) in uris && Reread(now, ids, q)
    ensures Covered(was, now, uris, ids)
  {
    hide Resources, Reread;
  }

  lemma ReusedCovered(leq: (Uri, Uri) -> bool, ids: Ids)
    requires ids.relations == [1, 3]
    ensures Covered(OneTable(1, true), OneTable(3, false), ReusedUris, ids)
  {
    OneTableIs(leq, 1, true);
    OneTableIs(leq, 3, false);
    hide Resources, BuiltDocuments, ColumnsOf, ConstraintsOf, Wellformed, RelationOids, Covered;
    CoveredByOne(OneTable(1, true), OneTable(3, false), Resources(OneTable(1, true))[0], Resources(OneTable(3, false))[0], ReusedUris, ids);
  }

  /**
   * `NoUriReused` cannot be dropped: a table with a foreign key to itself is dropped and created again
   * under the same name. Both documents are requested, yet the dead foreign key survives the patch.
   */
  lemma ReusedUriKeepsDeadEdge(leq: (Uri, Uri) -> bool)
    requires TotalOrder(leq)
    ensures var was, now := OneTable(1, true), OneTable(3, false);
            var existing := BuiltDocuments(leq, was);
            && Request(leq, was, now, existing, ReusedUris, ReusedSelectors)
            && var patch := PatchFrom(leq, Selected(now, IdsFor(existing, ReusedUris, ReusedSelectors)), ReusedUris);
            Edge(1, 1, "fk") in Merge(ForeignKeys(was.constraints), Affected(Registered(FullRead(leq, was)), patch), patch.foreignKeys)
    ensures ForeignKeys(OneTable(3, false).constraints) == []
  {
    var was, now := OneTable(1, true), OneTable(3, false);
    var existing := BuiltDocuments(leq, was);
    ReusedRequest(leq);
    DeadOidIsNotAffected(leq);
    DeadEdge(was, now);
    hide BuiltDocuments, Request, IdsFor, Selected, Affected, PatchFrom;
  }

  lemma DeadOidIsNotAffected(leq: (Uri, Uri) -> bool)
    requires TotalOrder(leq)
    requires !Refuses(BuiltDocuments(leq, OneTable(1, true)), ReusedUris, ReusedSelectors)
    ensures var existing := BuiltDocuments(leq, OneTable(1, true));
            var patch := PatchFrom(leq, Selected(OneTable(3, false), IdsFor(existing, ReusedUris, ReusedSelectors)), ReusedUris);
            1 !in Affected(Registered(FullRead(leq, OneTable(1, true))), patch)
  {
    ReusedRequest(leq);
    var now := OneTable(3, false);
    var ids := IdsFor(BuiltDocuments(leq, OneTable(1, true)), ReusedUris, ReusedSelectors);
    var read := Selected(now, ids);
    NewTableIsReadBack(leq, now, ids);
    hide Resources, BuiltDocuments, ColumnsOf, ConstraintsOf, Wellformed, IdsFor, Selected, Request, RelationOids, Refuses;
    var patch := PatchFrom(leq, read, ReusedUris);
    assert patch.removed == {};
    hide PatchFrom, OneTable;
    assert RemovedOids(Registered(FullRead(leq, OneTable(1, true))).documents, {}) == {};
  }

  /** The new table takes the URI of the old one, so that URI does not count as removed. */
  lemma NewTableIsReadBack(leq: (Uri, Uri) -> bool, now: Catalog, ids: Ids)
    requires TotalOrder(leq) && now == OneTable(3, false) && ids.relations == [1, 3]
    ensures 1 !in RelationOids(Selected(now, ids)) && ReusedUris <= UrisOf(BuiltDocuments(leq, Selected(now, ids)))
  {
    OneTableIs(leq, 3, false);
    SelectedIsReadBack(now, ids, 1);
    var r := Resources(now)[0];
    SelectedResources(now, ids, r);
    BuiltMembers(leq, Selected(now, ids), r.document);
    hide Resources, BuiltDocuments, ColumnsOf, ConstraintsOf, Wellformed, Selected, RelationOids;
    assert r.document.uri in UrisOf(BuiltDocuments(leq, Selected(now, ids)));
  }

  lemma DeadEdge(was: Catalog, now: Catalog)
    requires was == OneTable(1, true) && now == OneTable(3, false)
    ensures ForeignKeys(was.constraints) == [Edge(1, 1, "fk")] && ForeignKeys(now.constraints) == []
  {
    assert was.constraints[1..] == [];
  }

  // ----- A removed schema with the oid of a relation ---------------------------------------------------

  /** A table that references itself, and a schema that happens to have the table's oid. */
  function SharedOid(): Catalog {
    OneTable(1, true).(schemas := [Schema(1, "x")])
  }

  const DroppedSchema: Resource := SchemaResource(Schema(1, "x"))
  const KeptTable: Resource := TableResource(Table(1, "s", "a", None), [], [Constraint(1, 10, "k", "f", Some(1), "fk")])
  const DroppedUris: set<Uri> := {Uri("x", SchemaKind, "x")}

  lemma KeptTableIs()
    ensures Resources(OneTable(1, true)) == [KeptTable] && Wellformed(OneTable(1, true))
    ensures TableResources(OneTable(1, true)) == [KeptTable]
  {
    var c := OneTable(1, true);
    OneTableIs((a, b) => true, 1, true);
    var k := Constraint(1, 10, "k", "f", Some(1), "fk");
    FilterOne((k: Constraint) => k.tableOid == 1, k);
    assert ConstraintsOf(c, 1) == [k] && ColumnsOf(c, 1) == [];
    assert TableResources(c) == [KeptTable];
  }

  lemma SharedOidIs()
    ensures Resources(SharedOid()) == [DroppedSchema, KeptTable] && Wellformed(SharedOid())
  {
    SharedOidResources();
    KeptTableIs();
    hide Resources, TableResources;
  }

  lemma SharedOidResources()
    ensures Resources(SharedOid()) == [DroppedSchema, KeptTable]
  {
    var c := SharedOid();
    KeptTableIs();
    hide Wellformed;
    assert Schemas(c.schemas) == [DroppedSchema];
    assert TableResources(c) == TableResources(OneTable(1, true));
    assert Definitions(TypeKind, c.types) == [] && Definitions(ViewKind, c.views) == [];
    assert Definitions(IndexKind, c.indexes) == [] && Definitions(RoutineKind, c.routines) == [] && Definitions(TriggerKind, c.triggers) == [];
    hide Schemas, Definitions, TableResources;
    assert Resources(c) == [DroppedSchema, KeptTable];
  }

  lemma DroppedIds(existing: seq<Document>)
    requires existing == [DroppedSchema.document, KeptTable.document]
    ensures !Refuses(existing, DroppedUris, []) && IdsFor(existing, DroppedUris, []) == NoIds.(schemas := [1])
  {
    var asked := (d: Document) => d.uri in DroppedUris;
    FilterOne(asked, existing[0]);
    FilterOne(asked, existing[1]);
    FilterAppend(asked, [existing[0]], [existing[1]]);
    assert existing == [existing[0]] + [existing[1]];
    var requested := Requested(existing, DroppedUris);
    assert requested == [DroppedSchema.document];
    hide Requested;
    var all := [Selector(Of(SchemaKind), 1)];
    assert SelectorsOf(requested) == all && all + [] == all && all[..0] == [];
    assert AddIds(NoIds, all) == NoIds.(schemas := [1]);
  }

  lemma DroppedRequest(leq: (Uri, Uri) -> bool, existing: seq<Document>)
    requires TotalOrder(leq) && existing == [DroppedSchema.document, KeptTable.document]
    ensures Request(leq, SharedOid(), OneTable(1, true), existing, DroppedUris, [])
  {
    SharedOidIs();
    KeptTableIs();
    DroppedIds(existing);
    DroppedListing(leq, existing);
    hide Resources, BuiltDocuments, IdsFor, Refuses, Wellformed;
    assert UriOf(DroppedSchema) in DroppedUris;
  }

  lemma DroppedListing(leq: (Uri, Uri) -> bool, existing: seq<Document>)
    requires TotalOrder(leq) && existing == [DroppedSchema.document, KeptTable.document]
    ensures forall d :: d in existing <==> d in BuiltDocuments(leq, SharedOid())
  {
    SharedOidResources();
    hide Resources, BuiltDocuments;
    var resources := Resources(SharedOid());
    assert resources[0] in resources && resources[1] in resources;
    forall d ensures d in existing <==> d in BuiltDocuments(leq, SharedOid()) {
      BuiltMembers(leq, SharedOid(), d);
    }
  }

  lemma NothingIsReadBack(now: Catalog, ids: Ids)
    requires now == OneTable(1, true) && ids == NoIds.(schemas := [1])
    ensures Selected(now, ids).constraints == [] && RelationOids(Selected(now, ids)) == {} && Resources(Selected(now, ids)) == []
  {
    assert !RelationSelected(now, ids, 1);
    FilterOne((k: Constraint) => ConstraintSelected(now, ids, k), now.constraints[0]);
    FilterOne((t: Table) => RelationSelected(now, ids, t.oid), now.tables[0]);
    assert now.constraints == [now.constraints[0]] && now.tables == [now.tables[0]];
    var read := Selected(now, ids);
    assert read.tables == [] && read.views == [] && read.schemas == [] && read.routines == [] && read.triggers == [];
  }

  /**
   * Neither can `NoOidShared`: `removedOids` does not tell kinds apart. A schema with the oid of a table is
   * dropped, and the table's foreign key disappears from the patched edges although nothing about it changed.
   */
  lemma SharedOidDropsLiveEdge(leq: (Uri, Uri) -> bool)
    requires TotalOrder(leq)
    ensures var was, now := SharedOid(), OneTable(1, true);
            var existing := [DroppedSchema.document, KeptTable.document];
            && Request(leq, was, now, existing, DroppedUris, []) && NoUriReused(was, now)
            && ForeignKeys(was.constraints) == ForeignKeys(now.constraints) == [Edge(1, 1, "fk")]
            && var patch := PatchFrom(leq, Selected(now, IdsFor(existing, DroppedUris, [])), DroppedUris);
            Merge(ForeignKeys(was.constraints), Affected(Registered(FullRead(leq, was)), patch), patch.foreignKeys) == []
  {
    var was, now := SharedOid(), OneTable(1, true);
    var existing := [DroppedSchema.document, KeptTable.document];
    DroppedRequest(leq, existing);
    DroppedIds(existing);
    DeadEdge(now, OneTable(3, false));
    NoneReused();
    var ids := IdsFor(existing, DroppedUris, []);
    NothingIsReadBack(now, ids);
    SharedOidIs();
    RegisteredAt(leq, was, DroppedSchema);
    NothingPatched(leq, now, ids);
    hide Selected, BuiltDocuments, IdsFor, Request, Resources, RelationOids, NoUriReused, PatchFrom;
    DroppedAffects(leq, was, PatchFrom(leq, Selected(now, ids), DroppedUris));
    FilterOne((e: Edge) => !Touches(Affected(Registered(FullRead(leq, was)), PatchFrom(leq, Selected(now, ids), DroppedUris)), e),
              Edge(1, 1, "fk"));
  }

  lemma NothingPatched(leq: (Uri, Uri) -> bool, now: Catalog, ids: Ids)
    requires TotalOrder(leq) && Resources(Selected(now, ids)) == [] && Selected(now, ids).constraints == []
             && RelationOids(Selected(now, ids)) == {}
    ensures var patch := PatchFrom(leq, Selected(now, ids), DroppedUris);
            patch.upserts == [] && patch.removed == DroppedUris && patch.foreignKeys == []
  {}

  lemma DroppedAffects(leq: (Uri, Uri) -> bool, was: Catalog, patch: Patch)
    requires patch.removed == DroppedUris && UriOf(DroppedSchema) in Registered(FullRead(leq, was)).documents
    requires Registered(FullRead(leq, was)).documents[UriOf(DroppedSchema)] == DroppedSchema.document
    ensures 1 in Affected(Registered(FullRead(leq, was)), patch)
  {
    hide FullRead, BuiltDocuments;
    assert UriOf(DroppedSchema) in patch.removed;
  }

  lemma NoneReused()
    ensures NoUriReused(SharedOid(), OneTable(1, true))
  {
    KeptTableIs();
    SharedOidIs();
    assert OneTable(1, true).tables[0] in OneTable(1, true).tables;
  }
}
