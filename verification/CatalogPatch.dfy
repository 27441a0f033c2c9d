/**
 * The targeted catalog read and the patch it yields: `readPostgresCatalogDocuments`
 * (packages/catalog/src/postgresCatalog.ts) and `applyCatalogPatch`
 * (packages/catalog/src/indexController.ts).
 */
module CatalogPatch {
  import opened Options
  import opened Sequences
  import opened CatalogModel

  // ----- Edges ---------------------------------------------------------------------------------

  /** A foreign key or a view dependency, from the relation that holds it to the one it names. */
  datatype Edge = Edge(source: nat, target: nat, detail: string)

  function EdgeOf(k: Constraint): seq<Edge> {
    if k.referenced.Some? then [Edge(k.tableOid, k.referenced.value, k.keys)] else []
  }

  function ForeignKeys(constraints: seq<Constraint>): seq<Edge> {
    if constraints == [] then [] else EdgeOf(constraints[0]) + ForeignKeys(constraints[1..])
  }

  function ViewDependencies(rows: seq<Dependency>): seq<Edge> {
    if rows == [] then [] else [Edge(rows[0].view, rows[0].target, "")] + ViewDependencies(rows[1..])
  }

  // ----- Snapshots -----------------------------------------------------------------------------

  /** A source set's revision is a hash of `documents` and `origins`; equal values give equal revisions. */
  datatype Snapshot = Snapshot(documents: seq<Document>, origins: map<Uri, Origin>,
                               foreignKeys: seq<Edge>, viewDependencies: seq<Edge>)

  datatype Registry = Registry(documents: map<Uri, Document>, origins: map<Uri, Origin>,
                               foreignKeys: seq<Edge>, viewDependencies: seq<Edge>)

  /** `readPostgresCatalog`. */
  function FullRead(leq: (Uri, Uri) -> bool, c: Catalog): Snapshot {
    Snapshot(BuiltDocuments(leq, c), OriginsByUri(Resources(c)), ForeignKeys(c.constraints), ViewDependencies(c.dependencies))
  }

  function Registered(s: Snapshot): Registry {
    Registry(ByUri(s.documents), s.origins, s.foreignKeys, s.viewDependencies)
  }

  // ----- The targeted read ---------------------------------------------------------------------

  datatype Target = Of(kind: Kind) | AnyRelation | AnyConstraint
  datatype Selector = Selector(target: Target, oid: nat)
  datatype Ids = Ids(relations: seq<nat>, routines: seq<nat>, triggers: seq<nat>, constraints: seq<nat>, schemas: seq<nat>)

  predicate NeedsFullRead(target: Target) {
    target == Of(TypeKind) || target == Of(IndexKind)
  }

  function AddId(ids: Ids, target: Target, oid: nat): Ids {
    match target
    case AnyRelation => ids.(relations := ids.relations + [oid])
    case AnyConstraint => ids.(constraints := ids.constraints + [oid])
    case Of(kind) =>
      match kind
      case TableKind => ids.(relations := ids.relations + [oid])
      case ViewKind => ids.(relations := ids.relations + [oid])
      case RoutineKind => ids.(routines := ids.routines + [oid])
      case TriggerKind => ids.(triggers := ids.triggers + [oid])
      case _ => ids.(schemas := ids.schemas + [oid])
  }

  function AddIds(ids: Ids, selectors: seq<Selector>): Ids {
    if selectors == [] then ids
    else
      var last := selectors[|selectors| - 1];
      AddId(AddIds(ids, selectors[..|selectors| - 1]), last.target, last.oid)
  }

  const NoIds := Ids([], [], [], [], [])

  /** Each requested document as a selector of its own kind and oid. */
  function SelectorsOf(requested: seq<Document>): seq<Selector>
    requires forall d | d in requested :: d.postgres.Some?
  {
    seq(|requested|, i requires 0 <= i < |requested| =>
      Selector(Of(requested[i].postgres.value.kind), requested[i].postgres.value.oid))
  }

  /** `values.join(", ")`, or the list of 0 alone when there are none. */
  function NumericList(values: seq<nat>): seq<nat> {
    if values == [] then [0] else values
  }

  predicate RelationSelected(c: Catalog, ids: Ids, oid: nat) {
    oid in NumericList(ids.relations)
    || exists k | k in NumericList(ids.constraints) :: k in c.owners && c.owners[k] == oid
  }

  predicate ConstraintSelected(c: Catalog, ids: Ids, k: Constraint) {
    RelationSelected(c, ids, k.tableOid) || RelationSelected(c, ids, k.referenced.GetOr(0)) || k.oid in NumericList(ids.constraints)
  }

  predicate EdgeSelected(c: Catalog, ids: Ids, e: Edge) {
    RelationSelected(c, ids, e.source) || RelationSelected(c, ids, e.target)
  }

  /** What `incrementalCatalogSql` answers: every catalog query with its filter. */
  function Selected(c: Catalog, ids: Ids): Catalog {
    Catalog(
      Filter((s: Schema) => s.oid in NumericList(ids.schemas), c.schemas),
      [],
      Filter((t: Table) => RelationSelected(c, ids, t.oid), c.tables),
      Filter((k: Column) => RelationSelected(c, ids, k.tableOid), c.columns),
      Filter((k: Constraint) => ConstraintSelected(c, ids, k), c.constraints),
      [],
      Filter((d: Definition) => RelationSelected(c, ids, d.oid), c.views),
      Filter((d: Definition) => d.oid in NumericList(ids.routines), c.routines),
      Filter((d: Definition) => d.oid in NumericList(ids.triggers), c.triggers),
      Filter((d: Dependency) => RelationSelected(c, ids, d.view) || RelationSelected(c, ids, d.target), c.dependencies),
      c.owners)
  }

  datatype Patch = Patch(
    upserts: seq<Document>, removed: set<Uri>, origins: map<Uri, Origin>, affected: set<nat>,
    foreignKeys: seq<Edge>, viewDependencies: seq<Edge>)

  datatype PatchResult = Patched(patch: Patch) | FullRefreshRequired

  function UrisOf(docs: seq<Document>): set<Uri> {
    set d | d in docs :: d.uri
  }

  function RelationOids(c: Catalog): set<nat> {
    (set t | t in c.tables :: t.oid) + (set v | v in c.views :: v.oid)
  }

  function PatchFrom(leq: (Uri, Uri) -> bool, read: Catalog, uris: set<Uri>): Patch {
    var upserts := BuiltDocuments(leq, read);
    Patch(upserts, uris - UrisOf(upserts), OriginsByUri(Resources(read)), RelationOids(read),
          ForeignKeys(read.constraints), ViewDependencies(read.dependencies))
  }

  function Requested(existing: seq<Document>, uris: set<Uri>): seq<Document> {
    Filter((d: Document) => d.uri in uris, existing)
  }

  /** Why the source gives up on a targeted read before it queries PostgreSQL. */
  predicate Refuses(existing: seq<Document>, uris: set<Uri>, selectors: seq<Selector>) {
    var requested := Requested(existing, uris);
    || |requested| != |uris|
    || (exists d | d in requested :: d.postgres.None?)
    || (exists d | d in requested :: d.postgres.Some? && NeedsFullRead(Of(d.postgres.value.kind)))
    || (exists s | s in selectors :: NeedsFullRead(s.target))
  }

  function IdsFor(existing: seq<Document>, uris: set<Uri>, selectors: seq<Selector>): Ids
    requires !Refuses(existing, uris, selectors)
  {
    AddIds(NoIds, SelectorsOf(Requested(existing, uris)) + selectors)
  }

  lemma AddIdsSnoc(ids: Ids, selectors: seq<Selector>, s: Selector)
    ensures AddIds(ids, selectors + [s]) == AddId(AddIds(ids, selectors), s.target, s.oid)
  {
    assert (selectors + [s])[..|selectors|] == selectors;
  }

  method CollectIds(selectors: seq<Selector>, before: Ids, done: seq<Selector>) returns (ids: Option<Ids>)
    requires before == AddIds(NoIds, done)
    ensures ids.None? <==> exists s | s in selectors :: NeedsFullRead(s.target)
    ensures ids.Some? ==> ids.value == AddIds(NoIds, done + selectors)
  {
    var all := before;
    assert done + selectors[..0] == done;
    for i := 0 to |selectors|
      invariant all == AddIds(NoIds, done + selectors[..i])
      invariant forall s | s in selectors[..i] :: !NeedsFullRead(s.target)
    {
      var s := selectors[i];
      if NeedsFullRead(s.target) {
        return None;
      }
      AddIdsSnoc(NoIds, done + selectors[..i], s);
      assert done + selectors[..i + 1] == done + selectors[..i] + [s];
      all := AddId(all, s.target, s.oid);
    }
    assert done + selectors[..|selectors|] == done + selectors;
    return Some(all);
  }

  /** `database` is the catalog at the moment of the query. */
  method ReadCatalogDocuments(leq: (Uri, Uri) -> bool, database: Catalog, existing: seq<Document>, uris: set<Uri>, selectors: seq<Selector>)
    returns (result: PatchResult)
    ensures result.FullRefreshRequired? <==> Refuses(existing, uris, selectors)
    ensures result.Patched? ==>
              result.patch == PatchFrom(leq, Selected(database, IdsFor(existing, uris, selectors)), uris)
  {
    hide BuiltDocuments, Selected, OriginsByUri, PatchFrom, AddIds, NeedsFullRead;
    var requested := Requested(existing, uris);
    if |requested| != |uris| || exists d | d in requested :: d.postgres.None? {
      return FullRefreshRequired;
    }
    KindsAsked(requested);
    var ids := FindIds(requested, selectors);
    if ids.None? {
      return FullRefreshRequired;
    }
    var patch := ProjectPatch(leq, Selected(database, ids.value), uris);
    return Patched(patch);
  }

  /** The two loops that collect the ids to read: of the requested documents, then of the new resources. */
  method FindIds(requested: seq<Document>, selectors: seq<Selector>) returns (ids: Option<Ids>)
    requires forall d | d in requested :: d.postgres.Some?
    ensures ids.None? <==> (exists s | s in SelectorsOf(requested) :: NeedsFullRead(s.target)) || exists s | s in selectors :: NeedsFullRead(s.target)
    ensures ids.Some? ==> ids.value == AddIds(NoIds, SelectorsOf(requested) + selectors)
  {
    var asked := SelectorsOf(requested);
    assert [] + asked == asked;
    ids := CollectIds(asked, NoIds, []);
    if ids.Some? {
      ids := CollectIds(selectors, ids.value, asked);
    }
  }

  /** What is made of the rows that were read. */
  method ProjectPatch(leq: (Uri, Uri) -> bool, read: Catalog, uris: set<Uri>) returns (patch: Patch)
    ensures patch == PatchFrom(leq, read, uris)
  {
    var upserts := BuiltDocuments(leq, read);
    patch := Patch(upserts, uris - UrisOf(upserts), OriginsByUri(Resources(read)), RelationOids(read),
                   ForeignKeys(read.constraints), ViewDependencies(read.dependencies));
  }

  lemma KindsAsked(requested: seq<Document>)
    requires forall d | d in requested :: d.postgres.Some?
    ensures (exists s | s in SelectorsOf(requested) :: NeedsFullRead(s.target))
            <==> exists d | d in requested :: NeedsFullRead(Of(d.postgres.value.kind))
  {
    var asked := SelectorsOf(requested);
    if s :| s in asked && NeedsFullRead(s.target) {
      var i :| 0 <= i < |asked| && asked[i] == s;
      assert requested[i] in requested;
    }
    if d :| d in requested && NeedsFullRead(Of(d.postgres.value.kind)) {
      var i :| 0 <= i < |requested| && requested[i] == d;
      assert asked[i] in asked;
    }
  }

  // ----- Applying a patch ----------------------------------------------------------------------

  predicate Touches(oids: set<nat>, e: Edge) {
    e.source in oids || e.target in oids
  }

  /** `mergePostgresCatalogRelations`, for foreign keys and for view dependencies alike. */
  function Merge(edges: seq<Edge>, affected: set<nat>, read: seq<Edge>): seq<Edge> {
    Filter((e: Edge) => !Touches(affected, e), edges) + read
  }

  function RemovedOids(documents: map<Uri, Document>, removed: set<Uri>): set<nat> {
    set u | u in removed && u in documents && documents[u].postgres.Some? :: documents[u].postgres.value.oid
  }

  function Without<T>(m: map<Uri, T>, removed: set<Uri>): map<Uri, T> {
    map u | u in m && u !in removed :: m[u]
  }

  function PatchedDocuments(registry: Registry, patch: Patch): map<Uri, Document> {
    Without(registry.documents, patch.removed) + ByUri(patch.upserts)
  }

  function PatchedOrigins(registry: Registry, patch: Patch): map<Uri, Origin> {
    Without(registry.origins, patch.removed) + patch.origins
  }

  function Affected(registry: Registry, patch: Patch): set<nat> {
    patch.affected + RemovedOids(registry.documents, patch.removed)
  }

  /** The documents of a map, each once, in URI order: the only such sequence (`ListingIsUnique`). */
  ghost predicate IsListing(leq: (Uri, Uri) -> bool, docs: seq<Document>, m: map<Uri, Document>) {
    && Sorted(leq, docs)
    && (forall i, j :: 0 <= i < j < |docs| ==> docs[i].uri != docs[j].uri)
    && (forall d | d in docs :: d.uri in m && m[d.uri] == d)
    && (forall u | u in m :: m[u].uri == u && m[u] in docs)
  }

  method RemoveDocuments(registry: Registry, removed: set<Uri>)
    returns (documents: map<Uri, Document>, origins: map<Uri, Origin>, oids: set<nat>)
    ensures documents == Without(registry.documents, removed) && origins == Without(registry.origins, removed)
    ensures oids == RemovedOids(registry.documents, removed)
  {
    documents, origins, oids := registry.documents, registry.origins, {};
    var rest := removed;
    while rest != {}
      invariant rest <= removed
      invariant documents == Without(registry.documents, removed - rest)
      invariant origins == Without(registry.origins, removed - rest)
      invariant oids == RemovedOids(registry.documents, removed - rest)
    {
      var uri :| uri in rest;
      if uri in documents && documents[uri].postgres.Some? {
        oids := oids + {documents[uri].postgres.value.oid};
      }
      documents := documents - {uri};
      origins := origins - {uri};
      rest := rest - {uri};
    }
    assert removed - {} == removed;
  }

  lemma ByUriSnoc(docs: seq<Document>, i: nat)
    requires i < |docs|
    ensures ByUri(docs[..i + 1]) == ByUri(docs[..i])[docs[i].uri := docs[i]]
  {
    assert docs[..i + 1][..i] == docs[..i];
  }

  lemma UpsertOne(before: map<Uri, Document>, m: map<Uri, Document>, d: Document)
    ensures (before + m)[d.uri := d] == before + m[d.uri := d]
  {}

  method Upsert(before: map<Uri, Document>, upserts: seq<Document>) returns (documents: map<Uri, Document>)
    ensures documents == before + ByUri(upserts)
  {
    documents := before;
    assert ByUri(upserts[..0]) == map[];
    for i := 0 to |upserts|
      invariant documents == before + ByUri(upserts[..i])
    {
      ByUriSnoc(upserts, i);
      hide ByUri;
      UpsertOne(before, ByUri(upserts[..i]), upserts[i]);
      documents := documents[upserts[i].uri := upserts[i]];
    }
    assert upserts[..|upserts|] == upserts;
  }

  /** `[...documents.values()]` in any order; the sort that follows makes the order irrelevant. */
  method Values(m: map<Uri, Document>) returns (docs: seq<Document>)
    requires forall u | u in m :: m[u].uri == u
    ensures forall i, j :: 0 <= i < j < |docs| ==> docs[i].uri != docs[j].uri
    ensures forall d | d in docs :: d.uri in m && m[d.uri] == d
    ensures forall u | u in m :: m[u] in docs
  {
    docs := [];
    var rest := m.Keys;
    while rest != {}
      invariant rest <= m.Keys
      invariant forall i, j :: 0 <= i < j < |docs| ==> docs[i].uri != docs[j].uri
      invariant forall d | d in docs :: d.uri in m && d.uri !in rest && m[d.uri] == d
      invariant forall u | u in m && u !in rest :: m[u] in docs
    {
      var u :| u in rest;
      docs := docs + [m[u]];
      rest := rest - {u};
    }
  }

  lemma {:induction false} DistinctKeepsUnderSort(docs: seq<Document>, sorted: seq<Document>)
    requires multiset(docs) == multiset(sorted)
    requires forall i, j :: 0 <= i < j < |docs| ==> docs[i].uri != docs[j].uri
    ensures forall i, j :: 0 <= i < j < |sorted| ==> sorted[i].uri != sorted[j].uri
    ensures forall d :: d in docs <==> d in sorted
  {
    forall d ensures d in docs <==> d in sorted {
      assert d in docs <==> d in multiset(docs);
      assert d in sorted <==> d in multiset(sorted);
    }
    forall i, j | 0 <= i < j < |sorted| ensures sorted[i].uri != sorted[j].uri {
      if sorted[i].uri == sorted[j].uri {
        OncePerUri(docs, sorted[i], sorted[j]);
        CountedTwice(sorted, i, j);
      }
    }
  }

  lemma CountedTwice(docs: seq<Document>, i: nat, j: nat)
    requires i < j < |docs| && docs[i] == docs[j]
    ensures multiset(docs)[docs[i]] >= 2
  {
    assert docs == docs[..j] + docs[j..] && docs[i] == docs[..j][i] && docs[j] == docs[j..][0];
    assert docs[i] in multiset(docs[..j]) && docs[i] in multiset(docs[j..]);
  }

  /** In documents with distinct URIs, equal URIs mean the same document, held once. */
  lemma {:induction false} OncePerUri(docs: seq<Document>, d: Document, e: Document)
    requires forall i, j :: 0 <= i < j < |docs| ==> docs[i].uri != docs[j].uri
    requires d in docs && e in docs && d.uri == e.uri
    ensures d == e && multiset(docs)[d] == 1
  {
    var rest := docs[1..];
    assert docs == [docs[0]] + rest;
    if d in rest || e in rest {
      assert d != docs[0] && e != docs[0];
      OncePerUri(rest, d, e);
    } else {
      assert multiset(rest)[d] == 0;
    }
  }

  method ApplyCatalogPatch(leq: (Uri, Uri) -> bool, registry: Registry, patch: Patch) returns (snapshot: Snapshot)
    requires TotalOrder(leq)
    requires forall u | u in registry.documents :: registry.documents[u].uri == u
    ensures IsListing(leq, snapshot.documents, PatchedDocuments(registry, patch))
    ensures snapshot.origins == PatchedOrigins(registry, patch)
    ensures snapshot.foreignKeys == Merge(registry.foreignKeys, Affected(registry, patch), patch.foreignKeys)
    ensures snapshot.viewDependencies == Merge(registry.viewDependencies, Affected(registry, patch), patch.viewDependencies)
  {
    var documents, origins, removedOids := RemoveDocuments(registry, patch.removed);
    documents := Upsert(documents, patch.upserts);
    origins := origins + patch.origins;
    var affected := patch.affected + removedOids;
    var values := Values(documents);
    var ordered := SortByUri(leq, values);
    SortSorts(leq, values);
    DistinctKeepsUnderSort(values, ordered);
    return Snapshot(ordered, origins, Merge(registry.foreignKeys, affected, patch.foreignKeys),
                    Merge(registry.viewDependencies, affected, patch.viewDependencies));
  }
}
