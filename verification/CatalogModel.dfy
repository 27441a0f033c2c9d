/**
 * The PostgreSQL catalog as `readPostgresCatalog` sees it, and the virtual documents and origins
 * projected from it (packages/catalog/src/postgresCatalog.ts). SQL text is abstracted to the values
 * it is rendered from: two documents differ exactly when what they render differs.
 */
module CatalogModel {
  import opened Options
  import opened Sequences

  datatype Kind = SchemaKind | TypeKind | TableKind | ViewKind | IndexKind | RoutineKind | TriggerKind

  datatype Schema = Schema(oid: nat, name: string)
  datatype Table = Table(oid: nat, schema: string, name: string, extension: Option<string>)
  datatype Column = Column(tableOid: nat, number: nat, name: string, text: string, comment: Option<string>)
  datatype Constraint = Constraint(tableOid: nat, oid: nat, name: string, definition: string,
                                   referenced: Option<nat>, keys: string)
  datatype Definition = Definition(oid: nat, schema: string, name: string, text: string, extension: Option<string>,
                                   arguments: string, relation: Option<string>)
  datatype Dependency = Dependency(view: nat, target: nat)

  /** The rows of one catalog snapshot, in query order. `owners` is `conrelid` of every constraint of the database. */
  datatype Catalog = Catalog(
    schemas: seq<Schema>, types: seq<Definition>, tables: seq<Table>, columns: seq<Column>,
    constraints: seq<Constraint>, indexes: seq<Definition>, views: seq<Definition>,
    routines: seq<Definition>, triggers: seq<Definition>, dependencies: seq<Dependency>,
    owners: map<nat, nat>)

  // ----- Documents -----------------------------------------------------------------------------

  datatype Uri = Uri(schema: string, kind: Kind, name: string)

  datatype Content =
    | SchemaContent(name: string)
    | Statement(text: string)
    | ViewContent(schema: string, name: string, text: string)
    | TableContent(schema: string, name: string, columns: seq<Column>, constraints: seq<Constraint>)

  datatype Descriptor = Descriptor(kind: Kind, oid: nat, schema: string, name: string, signature: string)
  datatype Document = Document(uri: Uri, content: Content, postgres: Option<Descriptor>)
  datatype Origin = Database | Extension(name: string)

  /** One projected object: its document and its origin. */
  datatype Resource = Resource(document: Document, origin: Origin)

  function OriginOf(extension: Option<string>): Origin {
    if extension.Some? && extension.value != "" then Extension(extension.value) else Database
  }

  function IdentityName(kind: Kind, d: Definition): string {
    match kind
    case RoutineKind => d.name + "(" + d.arguments + ")"
    case TriggerKind => (if d.relation.Some? && d.relation.value != "" then d.relation.value + "." else "") + d.name
    case _ => d.name
  }

  function SchemaResource(s: Schema): Resource {
    Resource(Document(Uri(s.name, SchemaKind, s.name), SchemaContent(s.name),
                      Some(Descriptor(SchemaKind, s.oid, s.name, s.name, ""))), Database)
  }

  function DefinitionResource(kind: Kind, d: Definition): Resource {
    var content := if kind.ViewKind? then ViewContent(d.schema, d.name, d.text) else Statement(d.text);
    var signature := if kind.ViewKind? then "" else d.arguments;
    Resource(Document(Uri(d.schema, kind, IdentityName(kind, d)), content,
                      Some(Descriptor(kind, d.oid, d.schema, d.name, signature))), OriginOf(d.extension))
  }

  function ColumnsIn(columns: seq<Column>, oid: nat): seq<Column> {
    Filter((k: Column) => k.tableOid == oid, columns)
  }

  function ConstraintsIn(constraints: seq<Constraint>, oid: nat): seq<Constraint> {
    Filter((k: Constraint) => k.tableOid == oid, constraints)
  }

  function ColumnsOf(c: Catalog, oid: nat): seq<Column> {
    ColumnsIn(c.columns, oid)
  }

  function ConstraintsOf(c: Catalog, oid: nat): seq<Constraint> {
    ConstraintsIn(c.constraints, oid)
  }

  /** `renderTable` orders the members it is given by itself, so the two lists determine the text. */
  function TableResource(t: Table, columns: seq<Column>, constraints: seq<Constraint>): Resource {
    Resource(Document(Uri(t.schema, TableKind, t.name), TableContent(t.schema, t.name, columns, constraints),
                      Some(Descriptor(TableKind, t.oid, t.schema, t.name, ""))), OriginOf(t.extension))
  }

  function TableResources(c: Catalog): seq<Resource> {
    Map((t: Table) => TableResource(t, ColumnsOf(c, t.oid), ConstraintsOf(c, t.oid)), c.tables)
  }

  function Definitions(kind: Kind, rows: seq<Definition>): seq<Resource> {
    Map((d: Definition) => DefinitionResource(kind, d), rows)
  }

  function Schemas(rows: seq<Schema>): seq<Resource> {
    Map(SchemaResource, rows)
  }

  /** Everything projected from the catalog, in the order the source builds it. */
  function Resources(c: Catalog): seq<Resource> {
    Schemas(c.schemas) + Definitions(TypeKind, c.types) + TableResources(c) + Definitions(ViewKind, c.views)
    + Definitions(IndexKind, c.indexes) + Definitions(RoutineKind, c.routines) + Definitions(TriggerKind, c.triggers)
  }

  function Documents(resources: seq<Resource>): seq<Document> {
    Map((r: Resource) => r.document, resources)
  }

  ghost predicate DistinctUris(resources: seq<Resource>) {
    forall i, j :: 0 <= i < j < |resources| ==> resources[i].document.uri != resources[j].document.uri
  }

  ghost predicate DistinctTables(c: Catalog) {
    forall i, j :: 0 <= i < j < |c.tables| ==> c.tables[i].oid != c.tables[j].oid
  }

  // ----- Listings in URI order -----------------------------------------------------------------

  ghost predicate TotalOrder(leq: (Uri, Uri) -> bool) {
    && (forall a, b :: leq(a, b) || leq(b, a))
    && (forall a, b, c :: leq(a, b) && leq(b, c) ==> leq(a, c))
    && (forall a, b :: leq(a, b) && leq(b, a) ==> a == b)
  }

  function Insert(leq: (Uri, Uri) -> bool, d: Document, docs: seq<Document>): seq<Document> {
    if docs == [] || leq(d.uri, docs[0].uri) then [d] + docs else [docs[0]] + Insert(leq, d, docs[1..])
  }

  /** `documents.sort((left, right) => left.uri.localeCompare(right.uri))`. */
  function SortByUri(leq: (Uri, Uri) -> bool, docs: seq<Document>): seq<Document> {
    if docs == [] then [] else Insert(leq, docs[0], SortByUri(leq, docs[1..]))
  }

  ghost predicate Sorted(leq: (Uri, Uri) -> bool, docs: seq<Document>) {
    forall i, j :: 0 <= i < j < |docs| ==> leq(docs[i].uri, docs[j].uri)
  }

  lemma {:induction false} InsertAdds(leq: (Uri, Uri) -> bool, d: Document, docs: seq<Document>)
    ensures multiset(Insert(leq, d, docs)) == multiset{d} + multiset(docs)
  {
    if docs != [] && !leq(d.uri, docs[0].uri) {
      InsertAdds(leq, d, docs[1..]);
      assert docs == [docs[0]] + docs[1..];
    }
  }

  lemma SortedCons(leq: (Uri, Uri) -> bool, d: Document, docs: seq<Document>)
    requires Sorted(leq, docs) && forall e | e in docs :: leq(d.uri, e.uri)
    ensures Sorted(leq, [d] + docs)
  {}

  lemma {:induction false} InsertSorts(leq: (Uri, Uri) -> bool, d: Document, docs: seq<Document>)
    requires TotalOrder(leq) && Sorted(leq, docs)
    ensures Sorted(leq, Insert(leq, d, docs))
    ensures multiset(Insert(leq, d, docs)) == multiset{d} + multiset(docs)
  {
    InsertAdds(leq, d, docs);
    if docs == [] || leq(d.uri, docs[0].uri) {
      SortedCons(leq, d, docs);
    } else {
      var rest := Insert(leq, d, docs[1..]);
      InsertSorts(leq, d, docs[1..]);
      InsertAdds(leq, d, docs[1..]);
      forall e | e in rest ensures leq(docs[0].uri, e.uri) {
        assert e in multiset(rest);
        assert e == d || e in docs[1..];
      }
      hide TotalOrder, Sorted;
      SortedCons(leq, docs[0], rest);
    }
  }

  lemma {:induction false} SortSorts(leq: (Uri, Uri) -> bool, docs: seq<Document>)
    requires TotalOrder(leq)
    ensures Sorted(leq, SortByUri(leq, docs)) && multiset(SortByUri(leq, docs)) == multiset(docs)
  {
    if docs != [] {
      SortSorts(leq, docs[1..]);
      InsertSorts(leq, docs[0], SortByUri(leq, docs[1..]));
      assert docs == [docs[0]] + docs[1..];
    }
  }

  lemma SameMembers(a: seq<Document>, b: seq<Document>)
    requires multiset(a) == multiset(b)
    ensures |a| == |b| && forall d :: d in a <==> d in b
  {
    assert |a| == |multiset(a)| == |b|;
    assert forall d :: d in a <==> d in multiset(a);
    assert forall d :: d in b <==> d in multiset(b);
  }

  lemma FirstsAgree(leq: (Uri, Uri) -> bool, a: seq<Document>, b: seq<Document>)
    requires TotalOrder(leq) && Sorted(leq, a) && Sorted(leq, b) && a != [] && b != []
    requires a[0] in b && b[0] in a
    ensures a[0].uri == b[0].uri
  {
    assert leq(a[0].uri, b[0].uri) && leq(b[0].uri, a[0].uri);
  }

  lemma RestsAgree(a: seq<Document>, b: seq<Document>)
    requires multiset(a) == multiset(b) && a != [] && b != [] && a[0] == b[0]
    ensures multiset(a[1..]) == multiset(b[1..])
  {
    assert a == [a[0]] + a[1..] && b == [b[0]] + b[1..];
    assert multiset(a[1..]) == multiset(a) - multiset{a[0]};
    assert multiset(b[1..]) == multiset(b) - multiset{b[0]};
  }

  /** Two sorted sequences of the same documents are the same when each URI names one document. */
  lemma {:induction false} SortedIsUnique(leq: (Uri, Uri) -> bool, a: seq<Document>, b: seq<Document>)
    requires TotalOrder(leq) && Sorted(leq, a) && Sorted(leq, b)
    requires multiset(a) == multiset(b)
    requires forall d, e | d in a && e in a && d.uri == e.uri :: d == e
    ensures a == b
  {
    SameMembers(a, b);
    if a != [] {
      FirstsAgree(leq, a, b);
      SortedTails(leq, a);
      SortedTails(leq, b);
      hide TotalOrder, Sorted;
      assert a[0] == b[0];
      RestsAgree(a, b);
      SortedIsUnique(leq, a[1..], b[1..]);
      assert a == [a[0]] + a[1..] && b == [b[0]] + b[1..];
    }
  }

  lemma SortedTails(leq: (Uri, Uri) -> bool, docs: seq<Document>)
    requires Sorted(leq, docs) && docs != []
    ensures Sorted(leq, docs[1..])
  {}

  /** The documents, keyed by URI. */
  function ByUri(docs: seq<Document>): (m: map<Uri, Document>)
    ensures forall u | u in m :: m[u] in docs && m[u].uri == u
    ensures forall d | d in docs :: d.uri in m
  {
    if docs == [] then map[] else ByUri(docs[..|docs| - 1])[docs[|docs| - 1].uri := docs[|docs| - 1]]
  }

  function OriginsByUri(resources: seq<Resource>): (m: map<Uri, Origin>)
    ensures forall u | u in m :: exists r | r in resources :: r.document.uri == u && r.origin == m[u]
    ensures forall r | r in resources :: r.document.uri in m
  {
    if resources == [] then map[]
    else
      var last := resources[|resources| - 1];
      OriginsByUri(resources[..|resources| - 1])[last.document.uri := last.origin]
  }

  // ----- buildDocuments ------------------------------------------------------------------------

  datatype TableDefinition = TableDefinition(table: Table, columns: seq<Column>, constraints: seq<Constraint>)

  lemma OneMoreColumn(columns: seq<Column>, k: Column)
    ensures forall oid :: ColumnsIn(columns + [k], oid)
                          == if k.tableOid == oid then ColumnsIn(columns, oid) + [k] else ColumnsIn(columns, oid)
  {
    forall oid: nat {:trigger ColumnsIn(columns, oid)}
      ensures ColumnsIn(columns + [k], oid)
              == if k.tableOid == oid then ColumnsIn(columns, oid) + [k] else ColumnsIn(columns, oid)
    {
      FilterAppend((k: Column) => k.tableOid == oid, columns, [k]);
    }
  }

  lemma OneMoreConstraint(constraints: seq<Constraint>, k: Constraint)
    ensures forall oid :: ConstraintsIn(constraints + [k], oid)
                          == if k.tableOid == oid then ConstraintsIn(constraints, oid) + [k] else ConstraintsIn(constraints, oid)
  {
    forall oid: nat {:trigger ConstraintsIn(constraints, oid)}
      ensures ConstraintsIn(constraints + [k], oid)
              == if k.tableOid == oid then ConstraintsIn(constraints, oid) + [k] else ConstraintsIn(constraints, oid)
    {
      FilterAppend((k: Constraint) => k.tableOid == oid, constraints, [k]);
    }
  }

  ghost predicate Collected(tables: map<nat, TableDefinition>, rows: seq<Table>, columns: seq<Column>, constraints: seq<Constraint>) {
    && (forall oid :: oid in tables <==> exists t | t in rows :: t.oid == oid)
    && (forall t | t in rows :: t.oid in tables
                                && tables[t.oid] == TableDefinition(t, ColumnsIn(columns, t.oid), ConstraintsIn(constraints, t.oid)))
  }

  /** The `Map` of tables, and the loops that hand each column and constraint to its table if it was read. */
  method CollectTables(c: Catalog) returns (tables: map<nat, TableDefinition>)
    requires DistinctTables(c)
    ensures Collected(tables, c.tables, c.columns, c.constraints)
  {
    tables := map[];
    for i := 0 to |c.tables|
      invariant Collected(tables, c.tables[..i], [], [])
    {
      assert c.tables[..i + 1] == c.tables[..i] + [c.tables[i]];
      tables := tables[c.tables[i].oid := TableDefinition(c.tables[i], [], [])];
    }
    assert c.tables[..|c.tables|] == c.tables;
    tables := HandOutColumns(c, tables);
    tables := HandOutConstraints(c, tables);
  }

  lemma ColumnHandedOut(tables: map<nat, TableDefinition>, rows: seq<Table>, columns: seq<Column>, constraints: seq<Constraint>, k: Column)
    requires Collected(tables, rows, columns, constraints)
    ensures k.tableOid !in tables ==> Collected(tables, rows, columns + [k], constraints)
    ensures k.tableOid in tables ==>
              Collected(tables[k.tableOid := tables[k.tableOid].(columns := tables[k.tableOid].columns + [k])], rows, columns + [k], constraints)
  {
    OneMoreColumn(columns, k);
    hide ColumnsIn, ConstraintsIn;
  }

  lemma ConstraintHandedOut(tables: map<nat, TableDefinition>, rows: seq<Table>, columns: seq<Column>, constraints: seq<Constraint>,
                            k: Constraint)
    requires Collected(tables, rows, columns, constraints)
    ensures k.tableOid !in tables ==> Collected(tables, rows, columns, constraints + [k])
    ensures k.tableOid in tables ==>
              Collected(tables[k.tableOid := tables[k.tableOid].(constraints := tables[k.tableOid].constraints + [k])],
                        rows, columns, constraints + [k])
  {
    OneMoreConstraint(constraints, k);
    hide ColumnsIn, ConstraintsIn;
  }

  method HandOutColumns(c: Catalog, empty: map<nat, TableDefinition>) returns (tables: map<nat, TableDefinition>)
    requires DistinctTables(c) && Collected(empty, c.tables, [], [])
    ensures Collected(tables, c.tables, c.columns, [])
  {
    hide Collected;
    tables := empty;
    for i := 0 to |c.columns|
      invariant Collected(tables, c.tables, c.columns[..i], [])
    {
      var k := c.columns[i];
      assert c.columns[..i + 1] == c.columns[..i] + [k];
      ColumnHandedOut(tables, c.tables, c.columns[..i], [], k);
      if k.tableOid in tables {
        tables := tables[k.tableOid := tables[k.tableOid].(columns := tables[k.tableOid].columns + [k])];
      }
    }
    assert c.columns[..|c.columns|] == c.columns;
  }

  method HandOutConstraints(c: Catalog, empty: map<nat, TableDefinition>) returns (tables: map<nat, TableDefinition>)
    requires DistinctTables(c) && Collected(empty, c.tables, c.columns, [])
    ensures Collected(tables, c.tables, c.columns, c.constraints)
  {
    hide Collected;
    tables := empty;
    for i := 0 to |c.constraints|
      invariant Collected(tables, c.tables, c.columns, c.constraints[..i])
    {
      var k := c.constraints[i];
      assert c.constraints[..i + 1] == c.constraints[..i] + [k];
      ConstraintHandedOut(tables, c.tables, c.columns, c.constraints[..i], k);
      if k.tableOid in tables {
        tables := tables[k.tableOid := tables[k.tableOid].(constraints := tables[k.tableOid].constraints + [k])];
      }
    }
    assert c.constraints[..|c.constraints|] == c.constraints;
  }

  function BuiltDocuments(leq: (Uri, Uri) -> bool, c: Catalog): seq<Document> {
    SortByUri(leq, Documents(Resources(c)))
  }

  lemma DocumentsAppend(a: seq<Resource>, b: seq<Resource>)
    ensures Documents(a + b) == Documents(a) + Documents(b)
  {}

  lemma DocumentsOfResources(c: Catalog)
    ensures Documents(Resources(c))
            == Documents(Schemas(c.schemas)) + Documents(Definitions(TypeKind, c.types)) + Documents(TableResources(c))
               + Documents(Definitions(ViewKind, c.views)) + Documents(Definitions(IndexKind, c.indexes))
               + Documents(Definitions(RoutineKind, c.routines)) + Documents(Definitions(TriggerKind, c.triggers))
  {
    hide Documents, Schemas, Definitions, TableResources;
    var a, b, t, v := Schemas(c.schemas), Definitions(TypeKind, c.types), TableResources(c), Definitions(ViewKind, c.views);
    var i, r, g := Definitions(IndexKind, c.indexes), Definitions(RoutineKind, c.routines), Definitions(TriggerKind, c.triggers);
    DocumentsAppend(a, b);
    DocumentsAppend(a + b, t);
    DocumentsAppend(a + b + t, v);
    DocumentsAppend(a + b + t + v, i);
    DocumentsAppend(a + b + t + v + i, r);
    DocumentsAppend(a + b + t + v + i + r, g);
  }

  /** `for (const table of tables.values()) documents.push(...)`, in the order the tables were read. */
  method TableDocuments(c: Catalog) returns (documents: seq<Document>)
    requires DistinctTables(c)
    ensures documents == Documents(TableResources(c))
  {
    var tables := CollectTables(c);
    documents := [];
    for i := 0 to |c.tables|
      invariant documents == Documents(TableResources(c))[..i]
    {
      assert c.tables[i] in c.tables;
      var t := tables[c.tables[i].oid];
      documents := documents + [TableResource(t.table, t.columns, t.constraints).document];
    }
  }

  method BuildDocuments(leq: (Uri, Uri) -> bool, c: Catalog) returns (documents: seq<Document>)
    requires DistinctTables(c)
    ensures documents == BuiltDocuments(leq, c)
  {
    hide Documents, Definitions, Schemas, TableResources, Resources, SortByUri;
    var tables := TableDocuments(c);
    documents := Documents(Schemas(c.schemas)) + Documents(Definitions(TypeKind, c.types)) + tables
                 + Documents(Definitions(ViewKind, c.views)) + Documents(Definitions(IndexKind, c.indexes))
                 + Documents(Definitions(RoutineKind, c.routines)) + Documents(Definitions(TriggerKind, c.triggers));
    DocumentsOfResources(c);
    documents := SortByUri(leq, documents);
  }
}
