/**
 * What a snapshot says of the rows it was read from, row by row (packages/catalog/src/postgresCatalog.ts):
 * its edges, its documents and their origins, and which targeted reads are refused.
 */
module CatalogRows {
  import opened Options
  import opened Sequences
  import opened CatalogModel
  import opened CatalogPatch

  // ----- Edges ---------------------------------------------------------------------------------------

  /** The constraints that reference `e.target` from the table `e.source` by the columns of `e`. */
  function ReferencesLike(rows: seq<Constraint>, e: Edge): set<nat> {
    set i | 0 <= i < |rows| && rows[i].tableOid == e.source && rows[i].referenced == Some(e.target) && rows[i].keys == e.detail
  }

  /** The dependencies of the view `e.source` on the relation `e.target`; they have no detail. */
  function DependenciesLike(rows: seq<Dependency>, e: Edge): set<nat> {
    set i | 0 <= i < |rows| && rows[i].view == e.source && rows[i].target == e.target && e.detail == ""
  }

  /** The first row counts or not, and the others move up by one. */
  lemma CountSplits(all: set<nat>, rest: set<nat>, first: bool)
    requires forall i :: i in all <==> (i == 0 && first) || (i > 0 && i - 1 in rest)
    ensures |all| == |rest| + if first then 1 else 0
  {
    var moved := set i | i in rest :: i + 1;
    Shifted(rest, moved);
    if first {
      assert all == moved + {0};
    } else {
      assert all == moved;
    }
  }

  lemma {:induction false} Shifted(s: set<nat>, moved: set<nat>)
    requires forall i :: i in moved <==> i > 0 && i - 1 in s
    ensures |moved| == |s|
    decreases |s|
  {
    if s == {} {
      assert moved == {};
    } else {
      var x :| x in s;
      Shifted(s - {x}, moved - {x + 1});
      assert x + 1 in moved;
    }
  }

  /** A foreign key runs from the table that holds the constraint to the one it references, once for each constraint. */
  lemma {:induction false} ForeignKeysAreConstraints(rows: seq<Constraint>, e: Edge)
    ensures multiset(ForeignKeys(rows))[e] == |ReferencesLike(rows, e)|
  {
    if rows != [] {
      var k, rest := rows[0], rows[1..];
      ForeignKeysAreConstraints(rest, e);
      OneReference(rows, e);
      assert EdgeOf(k) + ForeignKeys(rest) == ForeignKeys(rows);
      hide EdgeOf, ReferencesLike, ForeignKeys;
      assert multiset(EdgeOf(k) + ForeignKeys(rest))[e] == multiset(EdgeOf(k))[e] + multiset(ForeignKeys(rest))[e];
    }
  }

  lemma OneReference(rows: seq<Constraint>, e: Edge)
    requires rows != []
    ensures |ReferencesLike(rows, e)| == |ReferencesLike(rows[1..], e)| + multiset(EdgeOf(rows[0]))[e]
  {
    CountSplits(ReferencesLike(rows, e), ReferencesLike(rows[1..], e), 0 in ReferencesLike(rows, e));
  }

  /** A view dependency runs from the view to the relation it reads, once for each row. */
  lemma {:induction false} ViewDependenciesAreRows(rows: seq<Dependency>, e: Edge)
    ensures multiset(ViewDependencies(rows))[e] == |DependenciesLike(rows, e)|
  {
    if rows != [] {
      var rest := rows[1..];
      ViewDependenciesAreRows(rest, e);
      CountSplits(DependenciesLike(rows, e), DependenciesLike(rest, e), 0 in DependenciesLike(rows, e));
      assert ViewDependencies(rows) == [Edge(rows[0].view, rows[0].target, "")] + ViewDependencies(rest);
    }
  }

  /** The edges are those of the catalog's rows, each as often as there are rows for it. */
  ghost predicate EdgesAreRows(foreignKeys: seq<Edge>, viewDependencies: seq<Edge>, c: Catalog) {
    && (forall e :: multiset(foreignKeys)[e] == |ReferencesLike(c.constraints, e)|)
    && (forall e :: multiset(viewDependencies)[e] == |DependenciesLike(c.dependencies, e)|)
  }

  lemma FullReadEdges(leq: (Uri, Uri) -> bool, c: Catalog)
    ensures EdgesAreRows(FullRead(leq, c).foreignKeys, FullRead(leq, c).viewDependencies, c)
  {
    forall e ensures multiset(ForeignKeys(c.constraints))[e] == |ReferencesLike(c.constraints, e)| {
      ForeignKeysAreConstraints(c.constraints, e);
    }
    forall e ensures multiset(ViewDependencies(c.dependencies))[e] == |DependenciesLike(c.dependencies, e)| {
      ViewDependenciesAreRows(c.dependencies, e);
    }
  }

  /** So are the edges of a patch, of the rows that were read. */
  lemma PatchEdges(leq: (Uri, Uri) -> bool, read: Catalog, uris: set<Uri>)
    ensures EdgesAreRows(PatchFrom(leq, read, uris).foreignKeys, PatchFrom(leq, read, uris).viewDependencies, read)
  {
    FullReadEdges(leq, read);
  }

  // ----- Documents -----------------------------------------------------------------------------------

  /** Where the document stands, and of which object it says it is. */
  predicate Names(d: Document, kind: Kind, oid: nat, schema: string, shown: string, name: string, signature: string) {
    && d.uri.kind == kind && d.uri.schema == schema && d.uri.name == shown
    && d.postgres.Some? && d.postgres.value.kind == kind && d.postgres.value.oid == oid
    && d.postgres.value.schema == schema && d.postgres.value.name == name && d.postgres.value.signature == signature
  }

  predicate ShowsSchema(d: Document, s: Schema) {
    Names(d, SchemaKind, s.oid, s.name, s.name, s.name, "") && d.content == SchemaContent(s.name)
  }

  ghost predicate ShowsTable(c: Catalog, d: Document, t: Table) {
    && Names(d, TableKind, t.oid, t.schema, t.name, t.name, "")
    && d.content.TableContent? && d.content.schema == t.schema && d.content.name == t.name
    && (forall k :: multiset(d.content.columns)[k] == if k.tableOid == t.oid then multiset(c.columns)[k] else 0)
    && (forall k :: multiset(d.content.constraints)[k] == if k.tableOid == t.oid then multiset(c.constraints)[k] else 0)
  }

  predicate ShowsView(d: Document, v: Definition) {
    Names(d, ViewKind, v.oid, v.schema, v.name, v.name, "") && d.content == ViewContent(v.schema, v.name, v.text)
  }

  predicate ShowsRoutine(d: Document, r: Definition) {
    Names(d, RoutineKind, r.oid, r.schema, r.name + "(" + r.arguments + ")", r.name, r.arguments) && d.content == Statement(r.text)
  }

  predicate ShowsTrigger(d: Document, t: Definition) {
    && Names(d, TriggerKind, t.oid, t.schema, (if t.relation.GetOr("") == "" then "" else t.relation.value + ".") + t.name, t.name, t.arguments)
    && d.content == Statement(t.text)
  }

  /** Types and indexes. */
  predicate ShowsPlain(d: Document, kind: Kind, row: Definition) {
    Names(d, kind, row.oid, row.schema, row.name, row.name, row.arguments) && d.content == Statement(row.text)
  }

  ghost predicate ShowsRow(c: Catalog, d: Document) {
    || (exists s | s in c.schemas :: ShowsSchema(d, s))
    || (exists t | t in c.tables :: ShowsTable(c, d, t))
    || (exists v | v in c.views :: ShowsView(d, v))
    || (exists r | r in c.routines :: ShowsRoutine(d, r))
    || (exists t | t in c.triggers :: ShowsTrigger(d, t))
    || (exists t | t in c.types :: ShowsPlain(d, TypeKind, t))
    || (exists i | i in c.indexes :: ShowsPlain(d, IndexKind, i))
  }

  /** Every row is shown by a document. */
  ghost predicate EachRowShown(c: Catalog, docs: seq<Document>) {
    && (forall s | s in c.schemas :: exists d | d in docs :: ShowsSchema(d, s))
    && (forall t | t in c.tables :: exists d | d in docs :: ShowsTable(c, d, t))
    && (forall v | v in c.views :: exists d | d in docs :: ShowsView(d, v))
    && (forall r | r in c.routines :: exists d | d in docs :: ShowsRoutine(d, r))
    && (forall t | t in c.triggers :: exists d | d in docs :: ShowsTrigger(d, t))
    && (forall t | t in c.types :: exists d | d in docs :: ShowsPlain(d, TypeKind, t))
    && (forall i | i in c.indexes :: exists d | d in docs :: ShowsPlain(d, IndexKind, i))
  }

  lemma SchemaShown(s: Schema)
    ensures ShowsSchema(SchemaResource(s).document, s)
  {}

  lemma DefinitionShown(row: Definition)
    ensures ShowsView(DefinitionResource(ViewKind, row).document, row)
    ensures ShowsRoutine(DefinitionResource(RoutineKind, row).document, row)
    ensures ShowsTrigger(DefinitionResource(TriggerKind, row).document, row)
    ensures ShowsPlain(DefinitionResource(TypeKind, row).document, TypeKind, row)
    ensures ShowsPlain(DefinitionResource(IndexKind, row).document, IndexKind, row)
  {}

  lemma TableShown(c: Catalog, t: Table)
    ensures ShowsTable(c, TableResource(t, ColumnsOf(c, t.oid), ConstraintsOf(c, t.oid)).document, t)
  {
    forall k ensures multiset(ColumnsOf(c, t.oid))[k] == if k.tableOid == t.oid then multiset(c.columns)[k] else 0 {
      FilterCount((k: Column) => k.tableOid == t.oid, c.columns, k);
    }
    forall k ensures multiset(ConstraintsOf(c, t.oid))[k] == if k.tableOid == t.oid then multiset(c.constraints)[k] else 0 {
      FilterCount((k: Constraint) => k.tableOid == t.oid, c.constraints, k);
    }
  }

  /** Where a resource comes from. */
  lemma ResourceRow(c: Catalog, r: Resource)
    ensures r in Resources(c) <==>
            || (exists s | s in c.schemas :: SchemaResource(s) == r)
            || (exists t | t in c.types :: DefinitionResource(TypeKind, t) == r)
            || (exists t | t in c.tables :: TableResource(t, ColumnsOf(c, t.oid), ConstraintsOf(c, t.oid)) == r)
            || (exists v | v in c.views :: DefinitionResource(ViewKind, v) == r)
            || (exists i | i in c.indexes :: DefinitionResource(IndexKind, i) == r)
            || (exists f | f in c.routines :: DefinitionResource(RoutineKind, f) == r)
            || (exists g | g in c.triggers :: DefinitionResource(TriggerKind, g) == r)
  {
    MapMembers(SchemaResource, c.schemas, r);
    MapMembers((t: Table) => TableResource(t, ColumnsOf(c, t.oid), ConstraintsOf(c, t.oid)), c.tables, r);
    DefinitionRow(TypeKind, c.types, r);
    DefinitionRow(ViewKind, c.views, r);
    DefinitionRow(IndexKind, c.indexes, r);
    DefinitionRow(RoutineKind, c.routines, r);
    DefinitionRow(TriggerKind, c.triggers, r);
    hide Definitions, DefinitionResource, TableResource, SchemaResource, ColumnsOf, ConstraintsOf;
  }

  lemma DefinitionRow(kind: Kind, rows: seq<Definition>, r: Resource)
    ensures r in Definitions(kind, rows) <==> exists d | d in rows :: DefinitionResource(kind, d) == r
  {
    MapMembers((d: Definition) => DefinitionResource(kind, d), rows, r);
  }

  lemma ResourceShown(c: Catalog, r: Resource)
    requires r in Resources(c)
    ensures ShowsRow(c, r.document)
  {
    ResourceRow(c, r);
    forall s: Schema ensures ShowsSchema(SchemaResource(s).document, s) { SchemaShown(s); }
    forall t: Table ensures ShowsTable(c, TableResource(t, ColumnsOf(c, t.oid), ConstraintsOf(c, t.oid)).document, t) { TableShown(c, t); }
    hide Resources, SchemaResource, TableResource, DefinitionResource, ShowsSchema, ShowsTable, ShowsView, ShowsRoutine, ShowsTrigger,
         ShowsPlain, ColumnsOf, ConstraintsOf;
    forall row: Definition
      ensures ShowsView(DefinitionResource(ViewKind, row).document, row)
      ensures ShowsRoutine(DefinitionResource(RoutineKind, row).document, row)
      ensures ShowsTrigger(DefinitionResource(TriggerKind, row).document, row)
      ensures ShowsPlain(DefinitionResource(TypeKind, row).document, TypeKind, row)
      ensures ShowsPlain(DefinitionResource(IndexKind, row).document, IndexKind, row)
    {
      DefinitionShown(row);
    }
  }

  lemma BuiltMember(leq: (Uri, Uri) -> bool, c: Catalog, d: Document)
    requires TotalOrder(leq)
    ensures d in BuiltDocuments(leq, c) <==> exists r | r in Resources(c) :: r.document == d
  {
    var docs := Documents(Resources(c));
    MapMembers((r: Resource) => r.document, Resources(c), d);
    SortSorts(leq, docs);
    assert d in BuiltDocuments(leq, c) <==> d in multiset(SortByUri(leq, docs));
    assert d in docs <==> d in multiset(docs);
  }

  /** The documents of a full read: each shows one row of the catalog, and each row is shown. */
  lemma FullReadDocuments(leq: (Uri, Uri) -> bool, c: Catalog)
    requires TotalOrder(leq)
    ensures forall d | d in FullRead(leq, c).documents :: ShowsRow(c, d)
    ensures EachRowShown(c, FullRead(leq, c).documents)
  {
    var docs := BuiltDocuments(leq, c);
    hide Resources, BuiltDocuments, SchemaResource, TableResource, DefinitionResource, ShowsRow, ShowsSchema, ShowsTable, ShowsView,
         ShowsRoutine, ShowsTrigger, ShowsPlain, ColumnsOf, ConstraintsOf, TotalOrder;
    forall d | d in docs ensures ShowsRow(c, d) {
      BuiltMember(leq, c, d);
      var r :| r in Resources(c) && r.document == d;
      ResourceShown(c, r);
    }
    forall s | s in c.schemas ensures exists d | d in docs :: ShowsSchema(d, s) {
      SchemaShown(s);
      Built(leq, c, SchemaResource(s));
    }
    forall t | t in c.tables ensures exists d | d in docs :: ShowsTable(c, d, t) {
      TableShown(c, t);
      Built(leq, c, TableResource(t, ColumnsOf(c, t.oid), ConstraintsOf(c, t.oid)));
    }
    forall v | v in c.views ensures exists d | d in docs :: ShowsView(d, v) {
      DefinitionShown(v);
      Built(leq, c, DefinitionResource(ViewKind, v));
    }
    forall r | r in c.routines ensures exists d | d in docs :: ShowsRoutine(d, r) {
      DefinitionShown(r);
      Built(leq, c, DefinitionResource(RoutineKind, r));
    }
    forall t | t in c.triggers ensures exists d | d in docs :: ShowsTrigger(d, t) {
      DefinitionShown(t);
      Built(leq, c, DefinitionResource(TriggerKind, t));
    }
    forall t | t in c.types ensures exists d | d in docs :: ShowsPlain(d, TypeKind, t) {
      DefinitionShown(t);
      Built(leq, c, DefinitionResource(TypeKind, t));
    }
    forall i | i in c.indexes ensures exists d | d in docs :: ShowsPlain(d, IndexKind, i) {
      DefinitionShown(i);
      Built(leq, c, DefinitionResource(IndexKind, i));
    }
  }

  lemma Built(leq: (Uri, Uri) -> bool, c: Catalog, r: Resource)
    requires TotalOrder(leq)
    requires || (exists s | s in c.schemas :: SchemaResource(s) == r)
             || (exists t | t in c.types :: DefinitionResource(TypeKind, t) == r)
             || (exists t | t in c.tables :: TableResource(t, ColumnsOf(c, t.oid), ConstraintsOf(c, t.oid)) == r)
             || (exists v | v in c.views :: DefinitionResource(ViewKind, v) == r)
             || (exists i | i in c.indexes :: DefinitionResource(IndexKind, i) == r)
             || (exists f | f in c.routines :: DefinitionResource(RoutineKind, f) == r)
             || (exists g | g in c.triggers :: DefinitionResource(TriggerKind, g) == r)
    ensures r in Resources(c) && r.document in BuiltDocuments(leq, c)
  {
    ResourceRow(c, r);
    BuiltMember(leq, c, r.document);
  }

  // ----- Origins -------------------------------------------------------------------------------------

  /** The origin of an object that belongs to the extension of that name, or to none. */
  predicate ComesFrom(origins: map<Uri, Origin>, uri: Uri, extension: Option<string>) {
    uri in origins && origins[uri] == if extension.GetOr("") == "" then Database else Extension(extension.value)
  }

  lemma OriginOfResource(c: Catalog, r: Resource)
    requires DistinctUris(Resources(c)) && r in Resources(c)
    ensures r.document.uri in OriginsByUri(Resources(c)) && OriginsByUri(Resources(c))[r.document.uri] == r.origin
  {
    var all := Resources(c);
    hide Resources, OriginsByUri;
    var q :| q in all && q.document.uri == r.document.uri && q.origin == OriginsByUri(all)[r.document.uri];
    var i :| 0 <= i < |all| && all[i] == q;
    var j :| 0 <= j < |all| && all[j] == r;
  }

  /** Every object's origin is its extension, if it has one; schemas belong to the database. */
  lemma FullReadOrigins(leq: (Uri, Uri) -> bool, c: Catalog)
    requires DistinctUris(Resources(c))
    ensures var origins := FullRead(leq, c).origins;
            && (forall s | s in c.schemas :: ComesFrom(origins, Uri(s.name, SchemaKind, s.name), None))
            && (forall t | t in c.tables :: ComesFrom(origins, Uri(t.schema, TableKind, t.name), t.extension))
            && (forall kind, d | d in RowsOf(c, kind) :: ComesFrom(origins, Uri(d.schema, kind, IdentityName(kind, d)), d.extension))
  {
    hide Resources, OriginsByUri, ColumnsOf, ConstraintsOf;
    forall s | s in c.schemas ensures ComesFrom(OriginsByUri(Resources(c)), Uri(s.name, SchemaKind, s.name), None) {
      ResourceRow(c, SchemaResource(s));
      OriginOfResource(c, SchemaResource(s));
    }
    forall t | t in c.tables ensures ComesFrom(OriginsByUri(Resources(c)), Uri(t.schema, TableKind, t.name), t.extension) {
      var r := TableResource(t, ColumnsOf(c, t.oid), ConstraintsOf(c, t.oid));
      ResourceRow(c, r);
      OriginOfResource(c, r);
    }
    forall kind, d | d in RowsOf(c, kind)
      ensures ComesFrom(OriginsByUri(Resources(c)), Uri(d.schema, kind, IdentityName(kind, d)), d.extension)
    {
      DefinitionOrigin(c, kind, d);
    }
  }

  function RowsOf(c: Catalog, kind: Kind): seq<Definition> {
    match kind
    case TypeKind => c.types
    case ViewKind => c.views
    case IndexKind => c.indexes
    case RoutineKind => c.routines
    case TriggerKind => c.triggers
    case _ => []
  }

  lemma DefinitionOrigin(c: Catalog, kind: Kind, d: Definition)
    requires DistinctUris(Resources(c)) && d in RowsOf(c, kind)
    ensures ComesFrom(OriginsByUri(Resources(c)), Uri(d.schema, kind, IdentityName(kind, d)), d.extension)
  {
    hide Resources, OriginsByUri;
    var r := DefinitionResource(kind, d);
    ResourceRow(c, r);
    OriginOfResource(c, r);
  }

  // ----- Which targeted reads are refused ------------------------------------------------------------

  predicate TypeOrIndex(target: Target) {
    target.Of? && (target.kind.TypeKind? || target.kind.IndexKind?)
  }

  /** The URI has a document, and that document can be re-read by its kind and oid. */
  predicate CanBeReread(existing: seq<Document>, uri: Uri) {
    exists d | d in existing && d.uri == uri :: d.postgres.Some? && !TypeOrIndex(Of(d.postgres.value.kind))
  }

  ghost predicate DistinctDocuments(docs: seq<Document>) {
    forall i, j :: 0 <= i < j < |docs| ==> docs[i].uri != docs[j].uri
  }

  lemma {:induction false} RequestedOnce(existing: seq<Document>, uris: set<Uri>)
    requires DistinctDocuments(existing)
    ensures DistinctDocuments(Requested(existing, uris))
  {
    if existing != [] {
      var rest := Requested(existing[1..], uris);
      RequestedOnce(existing[1..], uris);
      if existing[0].uri in uris {
        assert Requested(existing, uris) == [existing[0]] + rest;
        forall k | 0 <= k < |rest| ensures rest[k].uri != existing[0].uri {
          assert rest[k] in existing[1..];
        }
      }
    }
  }

  lemma {:induction false} UrisCount(docs: seq<Document>)
    requires DistinctDocuments(docs)
    ensures |UrisOf(docs)| == |docs|
  {
    if docs == [] {
      assert UrisOf(docs) == {};
    } else {
      UrisCount(docs[1..]);
      assert docs == [docs[0]] + docs[1..];
      assert UrisOf(docs) == {docs[0].uri} + UrisOf(docs[1..]);
      assert docs[0].uri !in UrisOf(docs[1..]);
    }
  }

  lemma AllOfThem(part: set<Uri>, whole: set<Uri>)
    requires part <= whole
    ensures |part| == |whole| <==> part == whole
  {
    if part != whole {
      var u :| u in whole && u !in part;
      SubsetSize(part, whole - {u});
    }
  }

  /** A URI that was requested has a document exactly when the counts agree. */
  lemma EveryUriFound(existing: seq<Document>, uris: set<Uri>)
    requires DistinctDocuments(existing)
    ensures |Requested(existing, uris)| == |uris| <==> forall u | u in uris :: exists d | d in existing :: d.uri == u
  {
    var requested := Requested(existing, uris);
    RequestedOnce(existing, uris);
    UrisCount(requested);
    AllOfThem(UrisOf(requested), uris);
    if forall u | u in uris :: exists d | d in existing :: d.uri == u {
      forall u | u in uris ensures u in UrisOf(requested) {
        var d :| d in existing && d.uri == u;
        assert d in requested;
      }
    }
    if UrisOf(requested) == uris {
      forall u | u in uris ensures exists d | d in existing :: d.uri == u {
        var d :| d in requested && d.uri == u;
      }
    }
  }

  /** With one document for each URI, a read is refused exactly for a URI that cannot be re-read or a new type or index. */
  lemma RefusedExactlyWhen(existing: seq<Document>, uris: set<Uri>, selectors: seq<Selector>)
    requires DistinctDocuments(existing)
    ensures Refuses(existing, uris, selectors)
            <==> (exists u | u in uris :: !CanBeReread(existing, u)) || exists s | s in selectors :: TypeOrIndex(s.target)
  {
    EveryUriFound(existing, uris);
    if u :| u in uris && !CanBeReread(existing, u) {
      UnreadableIsRefused(existing, uris, selectors, u);
    }
    if forall u | u in uris :: CanBeReread(existing, u) {
      forall d | d in Requested(existing, uris) ensures d.postgres.Some? && !NeedsFullRead(Of(d.postgres.value.kind)) {
        var e :| e in existing && e.uri == d.uri && e.postgres.Some? && !TypeOrIndex(Of(e.postgres.value.kind));
        var i :| 0 <= i < |existing| && existing[i] == d;
        var j :| 0 <= j < |existing| && existing[j] == e;
      }
    }
    if exists s | s in selectors :: TypeOrIndex(s.target) {
      var s :| s in selectors && TypeOrIndex(s.target);
      assert NeedsFullRead(s.target);
    }
  }

  lemma UnreadableIsRefused(existing: seq<Document>, uris: set<Uri>, selectors: seq<Selector>, u: Uri)
    requires DistinctDocuments(existing) && u in uris && !CanBeReread(existing, u)
    ensures Refuses(existing, uris, selectors)
  {
    EveryUriFound(existing, uris);
    if |Requested(existing, uris)| == |uris| {
      var d :| d in existing && d.uri == u;
      assert d in Requested(existing, uris);
    }
  }
}
