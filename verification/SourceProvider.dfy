/**
 * From a batch of DDL objects to the request of a targeted read
 * (packages/catalog/src/postgresSourceProvider.ts).
 */
module SourceProvider {
  import opened Options
  import opened Sequences
  import opened CatalogModel
  import opened CatalogPatch
  import opened CatalogPatchTheorems

  /** `resourceKind` as the notification carries it, or derived from the PostgreSQL object type. */
  datatype Projection = To(target: Target) | Ignored | Unmapped
  /** `original`: the object was dropped and this is its last identity. */
  datatype DdlObject = DdlObject(objectType: string, resourceKind: Option<Target>, oid: nat, inExtension: bool, original: bool)

  function LowerChar(c: char): char {
    if 'A' <= c <= 'Z' then c - 'A' + 'a' else c
  }

  predicate Includes(text: string, part: string) {
    exists i | 0 <= i <= |text| :: part <= text[i..]
  }

  function ProjectedResourceKind(objectType: string): Projection {
    var t := Map(LowerChar, objectType);
    if t == "table" || t == "partitioned table" || t == "foreign table" || t == "view" || Includes(t, "column") then To(AnyRelation)
    else if t == "function" || t == "procedure" || t == "routine" then To(Of(RoutineKind))
    else if t == "trigger" then To(Of(TriggerKind))
    else if t == "schema" then To(Of(SchemaKind))
    else if Includes(t, "constraint") then To(AnyConstraint)
    else if t in ["index", "type", "sequence", "toast table", "policy", "rule", "comment", "default value"] then Ignored
    else Unmapped
  }

  function ProjectionOf(o: DdlObject): Projection {
    if o.resourceKind.Some? then To(o.resourceKind.value) else ProjectedResourceKind(o.objectType)
  }

  // ----- The resource index ----------------------------------------------------------------------

  datatype Symbol = Symbol(file: Uri, kind: string, name: string)
  datatype ResourceKey = ResourceKey(kind: Kind, oid: nat)

  function KeyOf(d: Descriptor): ResourceKey {
    ResourceKey(d.kind, d.oid)
  }

  predicate Expected(kind: Kind, symbolKind: string) {
    match kind
    case SchemaKind => symbolKind == "schema"
    case TypeKind => symbolKind == "type"
    case TableKind => symbolKind == "table"
    case ViewKind => symbolKind == "view"
    case IndexKind => symbolKind == "index"
    case RoutineKind => symbolKind == "function" || symbolKind == "procedure"
    case TriggerKind => symbolKind == "trigger"
  }

  /** Whether the document's own symbol can be told among those of its file. */
  predicate HasSymbol(d: Document, symbols: seq<Symbol>)
    requires d.postgres.Some?
  {
    var candidates := Filter((s: Symbol) => s.file == d.uri && Expected(d.postgres.value.kind, s.kind), symbols);
    (exists s | s in candidates :: s.name == d.postgres.value.name) || |candidates| == 1
  }

  /** The index points each key at a document with that kind and oid, and omits only documents without a symbol. */
  ghost predicate Indexes(resources: map<ResourceKey, Uri>, documents: seq<Document>, symbols: seq<Symbol>) {
    && (forall key | key in resources ::
          exists d | d in documents :: d.postgres.Some? && KeyOf(d.postgres.value) == key && d.uri == resources[key])
    && (forall d | d in documents && d.postgres.Some? && HasSymbol(d, symbols) :: KeyOf(d.postgres.value) in resources)
  }

  method BuildResourceIndex(documents: seq<Document>, symbols: seq<Symbol>) returns (resources: map<ResourceKey, Uri>)
    ensures Indexes(resources, documents, symbols)
  {
    resources := map[];
    for i := 0 to |documents|
      invariant Indexes(resources, documents[..i], symbols)
    {
      var d := documents[i];
      assert documents[..i + 1] == documents[..i] + [d];
      if d.postgres.Some? && HasSymbol(d, symbols) {
        ghost var before := resources;
        resources := resources[KeyOf(d.postgres.value) := d.uri];
        forall key | key in resources
          ensures exists e | e in documents[..i + 1] :: e.postgres.Some? && KeyOf(e.postgres.value) == key && e.uri == resources[key]
        {
          if key == KeyOf(d.postgres.value) {
            assert d in documents[..i + 1];
          } else {
            var e :| e in documents[..i] && e.postgres.Some? && KeyOf(e.postgres.value) == key && e.uri == before[key];
            assert e in documents[..i + 1];
          }
        }
      }
    }
    assert documents[..|documents|] == documents;
  }

  // ----- changedPostgresResources ----------------------------------------------------------------

  function PreviousResource(resources: map<ResourceKey, Uri>, target: Target, oid: nat): Option<ResourceKey> {
    match target
    case AnyRelation =>
      if ResourceKey(TableKind, oid) in resources then Some(ResourceKey(TableKind, oid))
      else if ResourceKey(ViewKind, oid) in resources then Some(ResourceKey(ViewKind, oid))
      else None
    case AnyConstraint => None
    case Of(kind) => if ResourceKey(kind, oid) in resources then Some(ResourceKey(kind, oid)) else None
  }

  /** What one object contributes. */
  datatype Contribution = Nothing | Refusal | DroppedConstraint | New(selector: Selector) | Changed(key: ResourceKey)

  function Contribute(resources: map<ResourceKey, Uri>, o: DdlObject): Contribution {
    if o.inExtension then Refusal
    else match ProjectionOf(o)
      case Ignored => Nothing
      case Unmapped => Refusal
      case To(target) =>
        if target.AnyConstraint? then
          if o.original then DroppedConstraint else New(Selector(target, o.oid))
        else match PreviousResource(resources, target, o.oid)
          case Some(key) => Changed(key)
          case None => if o.original then Refusal else New(Selector(target, o.oid))
  }

  datatype Selection = Selection(documentUris: set<Uri>, newResources: seq<Selector>)

  ghost predicate Contributes(resources: map<ResourceKey, Uri>, objects: seq<DdlObject>, what: Contribution) {
    exists o | o in objects :: Contribute(resources, o) == what
  }

  ghost predicate ChangesARelation(resources: map<ResourceKey, Uri>, objects: seq<DdlObject>) {
    exists o | o in objects ::
      Contribute(resources, o).Changed? && (Contribute(resources, o).key.kind.TableKind? || Contribute(resources, o).key.kind.ViewKind?)
  }

  /** Exactly when the batch cannot be applied incrementally. */
  ghost predicate Unselectable(resources: map<ResourceKey, Uri>, objects: seq<DdlObject>) {
    || Contributes(resources, objects, Refusal)
    || (Contributes(resources, objects, DroppedConstraint) && !ChangesARelation(resources, objects))
    || (forall o | o in objects :: !Contribute(resources, o).Changed? && !Contribute(resources, o).New?)
  }

  ghost predicate SelectedSoFar(resources: map<ResourceKey, Uri>, objects: seq<DdlObject>, keys: set<ResourceKey>, selectors: seq<Selector>) {
    && (forall k :: k in keys <==> Contributes(resources, objects, Changed(k)))
    && (forall s :: s in selectors <==> Contributes(resources, objects, New(s)))
    && (forall i, j :: 0 <= i < j < |selectors| ==> selectors[i] != selectors[j])
  }

  lemma OneMore(resources: map<ResourceKey, Uri>, objects: seq<DdlObject>, o: DdlObject, what: Contribution)
    ensures Contributes(resources, objects + [o], what) <==> Contributes(resources, objects, what) || Contribute(resources, o) == what
  {
    if e :| e in objects && Contribute(resources, e) == what {
      assert e in objects + [o];
    }
    if Contribute(resources, o) == what {
      assert o in objects + [o];
    }
  }

  /** The loop of `changedPostgresResources`, as the keys of its two Maps. */
  method ChangedResources(resources: map<ResourceKey, Uri>, objects: seq<DdlObject>)
    returns (refused: bool, keys: set<ResourceKey>, selectors: seq<Selector>)
    ensures refused <==> Unselectable(resources, objects)
    ensures !refused ==> SelectedSoFar(resources, objects, keys, selectors)
  {
    keys, selectors := {}, [];
    var hasDroppedConstraint, changedRelation := false, false;
    for i := 0 to |objects|
      invariant SelectedSoFar(resources, objects[..i], keys, selectors)
      invariant !Contributes(resources, objects[..i], Refusal)
      invariant hasDroppedConstraint <==> Contributes(resources, objects[..i], DroppedConstraint)
    {
      var o := objects[i];
      assert objects[..i + 1] == objects[..i] + [o];
      forall what ensures Contributes(resources, objects[..i + 1], what)
                          <==> Contributes(resources, objects[..i], what) || Contribute(resources, o) == what {
        OneMore(resources, objects[..i], o, what);
      }
      hide Contributes, Contribute;
      match Contribute(resources, o)
      case Nothing =>
      case Refusal =>
        RefusalStays(resources, objects, o);
        return true, {}, [];
      case DroppedConstraint => hasDroppedConstraint := true;
      case New(s) =>
        if s !in selectors {
          selectors := selectors + [s];
        }
      case Changed(key) => keys := keys + {key};
    }
    assert objects[..|objects|] == objects;
    changedRelation := exists k | k in keys :: k.kind.TableKind? || k.kind.ViewKind?;
    refused := (hasDroppedConstraint && !changedRelation) || (keys == {} && selectors == []);
    Verdict(resources, objects, keys, selectors);
  }

  lemma RefusalStays(resources: map<ResourceKey, Uri>, objects: seq<DdlObject>, o: DdlObject)
    requires o in objects && Contribute(resources, o) == Refusal
    ensures Unselectable(resources, objects)
  {}

  lemma Verdict(resources: map<ResourceKey, Uri>, objects: seq<DdlObject>, keys: set<ResourceKey>, selectors: seq<Selector>)
    requires SelectedSoFar(resources, objects, keys, selectors)
    ensures ChangesARelation(resources, objects) <==> exists k | k in keys :: k.kind.TableKind? || k.kind.ViewKind?
    ensures keys == {} && selectors == [] <==> forall o | o in objects :: !Contribute(resources, o).Changed? && !Contribute(resources, o).New?
  {
    if o :| o in objects && Contribute(resources, o).Changed? {
      assert Contributes(resources, objects, Changed(Contribute(resources, o).key));
    }
    forall o | o in objects && Contribute(resources, o).Changed? ensures Contribute(resources, o).key in keys {
      assert Contributes(resources, objects, Changed(Contribute(resources, o).key));
    }
    forall o | o in objects && Contribute(resources, o).New? ensures Contribute(resources, o).selector in selectors {
      assert Contributes(resources, objects, New(Contribute(resources, o).selector));
    }
    forall k | k in keys ensures exists o | o in objects :: Contribute(resources, o) == Changed(k) {
      assert Contributes(resources, objects, Changed(k));
    }
    if selectors != [] {
      assert selectors[0] in selectors;
      assert Contributes(resources, objects, New(selectors[0]));
    }
  }

  /** The pages of the answer to the usage query of a symbol, up to the one without a next cursor. */
  type Usages = ResourceKey -> seq<seq<Uri>>

  ghost predicate Uses(usages: Usages, key: ResourceKey, u: Uri) {
    exists page | page in usages(key) :: u in page
  }

  /** The document of the changed resource itself, or a known document that uses its symbol. */
  ghost predicate Touched(resources: map<ResourceKey, Uri>, documents: set<Uri>, usages: Usages, key: ResourceKey, u: Uri) {
    (key in resources && u == resources[key]) || (u in documents && Uses(usages, key, u))
  }

  ghost predicate DirectUris(resources: map<ResourceKey, Uri>, documents: set<Uri>, usages: Usages, objects: seq<DdlObject>, uris: set<Uri>) {
    forall u :: u in uris <==> exists key :: Contributes(resources, objects, Changed(key)) && Touched(resources, documents, usages, key, u)
  }

  /** The `do ... while` over the pages of one symbol's usages. */
  method AddUsages(documents: set<Uri>, usages: Usages, key: ResourceKey, uris: set<Uri>) returns (more: set<Uri>)
    ensures forall u :: u in more <==> u in uris || (u in documents && Uses(usages, key, u))
  {
    more := uris;
    var pages := usages(key);
    for i := 0 to |pages|
      invariant forall u :: u in more <==> u in uris || (u in documents && exists page | page in pages[..i] :: u in page)
    {
      var page := pages[i];
      assert pages[..i + 1] == pages[..i] + [page];
      for j := 0 to |page|
        invariant forall u :: u in more <==> || u in uris || (u in documents && exists p | p in pages[..i] :: u in p)
                                             || (u in documents && u in page[..j])
      {
        assert page[..j + 1] == page[..j] + [page[j]];
        if page[j] in documents {
          more := more + {page[j]};
        }
      }
      assert page[..|page|] == page;
    }
    assert pages[..|pages|] == pages;
  }

  /** `directPostgresDocumentUris`: exactly the documents of the changed resources and those that use their symbols. */
  method DirectDocumentUris(resources: map<ResourceKey, Uri>, documents: set<Uri>, usages: Usages, objects: seq<DdlObject>)
    returns (refused: bool, selection: Selection)
    ensures refused <==> Unselectable(resources, objects)
    ensures !refused ==>
              && DirectUris(resources, documents, usages, objects, selection.documentUris)
              && (forall s :: s in selection.newResources <==> Contributes(resources, objects, New(s)))
              && (forall i, j :: 0 <= i < j < |selection.newResources| ==> selection.newResources[i] != selection.newResources[j])
              && (forall o | o in objects && Contribute(resources, o).Changed? :: resources[Contribute(resources, o).key] in selection.documentUris)
              && (forall o | o in objects && Contribute(resources, o).New? :: Contribute(resources, o).selector in selection.newResources)
  {
    var keys, selectors;
    refused, keys, selectors := ChangedResources(resources, objects);
    if refused {
      return refused, Selection({}, []);
    }
    ContributionsSelected(resources, objects, keys, selectors);
    hide Contributes, Contribute;
    var uris := set k | k in keys && k in resources :: resources[k];
    var rest := keys;
    while rest != {}
      invariant rest <= keys
      invariant forall u :: u in uris <==> || (exists k | k in keys && k in resources :: u == resources[k])
                                           || (exists k | k in keys - rest :: u in documents && Uses(usages, k, u))
    {
      var k :| k in rest;
      rest := rest - {k};
      uris := AddUsages(documents, usages, k, uris);
    }
    DirectlyTouched(resources, documents, usages, objects, keys, uris);
    selection := Selection(uris, selectors);
  }

  lemma DirectlyTouched(resources: map<ResourceKey, Uri>, documents: set<Uri>, usages: Usages, objects: seq<DdlObject>,
                        keys: set<ResourceKey>, uris: set<Uri>)
    requires forall k :: k in keys <==> Contributes(resources, objects, Changed(k))
    requires forall u :: u in uris <==> || (exists k | k in keys && k in resources :: u == resources[k])
                                        || (exists k | k in keys :: u in documents && Uses(usages, k, u))
    ensures DirectUris(resources, documents, usages, objects, uris)
  {
    forall u ensures u in uris <==> exists key :: Contributes(resources, objects, Changed(key)) && Touched(resources, documents, usages, key, u) {
      if u in uris {
        if k :| k in keys && k in resources && u == resources[k] {
          assert Touched(resources, documents, usages, k, u);
        } else {
          var k :| k in keys && u in documents && Uses(usages, k, u);
          assert Touched(resources, documents, usages, k, u);
        }
      }
    }
  }

  lemma ContributionsSelected(resources: map<ResourceKey, Uri>, objects: seq<DdlObject>, keys: set<ResourceKey>, selectors: seq<Selector>)
    requires SelectedSoFar(resources, objects, keys, selectors)
    ensures forall o | o in objects && Contribute(resources, o).Changed? :: Contribute(resources, o).key in keys && Contribute(resources, o).key in resources
    ensures forall o | o in objects && Contribute(resources, o).New? :: Contribute(resources, o).selector in selectors
  {
    forall o | o in objects && Contribute(resources, o).Changed? ensures Contribute(resources, o).key in keys {
      assert Contributes(resources, objects, Changed(Contribute(resources, o).key));
    }
    forall o | o in objects && Contribute(resources, o).New? ensures Contribute(resources, o).selector in selectors {
      assert Contributes(resources, objects, New(Contribute(resources, o).selector));
    }
  }

  // ----- Every object a batch names is re-read -----------------------------------------------------

  predicate Listed(ids: Ids, target: Target, oid: nat) {
    match target
    case AnyRelation => oid in ids.relations
    case AnyConstraint => oid in ids.constraints
    case Of(kind) =>
      match kind
      case SchemaKind => oid in ids.schemas
      case TableKind => oid in ids.relations
      case ViewKind => oid in ids.relations
      case RoutineKind => oid in ids.routines
      case TriggerKind => oid in ids.triggers
      case _ => false
  }

  lemma {:induction false} SelectorsAreListed(selectors: seq<Selector>, s: Selector)
    requires s in selectors && !NeedsFullRead(s.target)
    ensures Listed(AddIds(NoIds, selectors), s.target, s.oid)
  {
    var n := |selectors| - 1;
    if s != selectors[n] {
      assert s in selectors[..n];
      SelectorsAreListed(selectors[..n], s);
    }
  }

  /** The resource is what the notification named: the object itself, or the relation a constraint belongs to. */
  predicate Names(c: Catalog, target: Target, oid: nat, d: Descriptor) {
    match target
    case AnyRelation => (d.kind.TableKind? || d.kind.ViewKind?) && d.oid == oid
    case AnyConstraint => (d.kind.TableKind? || d.kind.ViewKind?) && oid in c.owners && c.owners[oid] == d.oid
    case Of(kind) => d.kind == kind && d.oid == oid
  }

  /** The index entry of an object leads to a document whose own selector names the same object. */
  lemma IndexedSelector(documents: seq<Document>, symbols: seq<Symbol>, resources: map<ResourceKey, Uri>,
                        uris: set<Uri>, selectors: seq<Selector>, o: DdlObject)
    requires Indexes(resources, documents, symbols) && !Refuses(documents, uris, selectors)
    requires Contribute(resources, o).Changed? && resources[Contribute(resources, o).key] in uris
    ensures Listed(IdsFor(documents, uris, selectors), ProjectionOf(o).target, o.oid)
  {
    var key := Contribute(resources, o).key;
    var d :| d in documents && d.postgres.Some? && KeyOf(d.postgres.value) == key && d.uri == resources[key];
    var requested := Requested(documents, uris);
    assert d in requested;
    var i :| 0 <= i < |requested| && requested[i] == d;
    var asked := SelectorsOf(requested);
    assert asked[i] in asked + selectors;
    SelectorsAreListed(asked + selectors, asked[i]);
  }

  /**
   * When a batch is applied incrementally, each object it names is re-read under its new identity: through
   * its indexed document, or as a new resource. (Ignored kinds and dropped constraints name none.)
   */
  lemma NamedObjectsAreReread(database: Catalog, documents: seq<Document>, symbols: seq<Symbol>, resources: map<ResourceKey, Uri>,
                              objects: seq<DdlObject>, selection: Selection, o: DdlObject, r: Resource)
    requires Indexes(resources, documents, symbols)
    requires forall p | p in objects && Contribute(resources, p).Changed? :: resources[Contribute(resources, p).key] in selection.documentUris
    requires forall p | p in objects && Contribute(resources, p).New? :: Contribute(resources, p).selector in selection.newResources
    requires !Refuses(documents, selection.documentUris, selection.newResources)
    requires o in objects && (Contribute(resources, o).Changed? || Contribute(resources, o).New?)
    requires r in Resources(database) && r.document.postgres.Some?
    requires Names(database, ProjectionOf(o).target, o.oid, r.document.postgres.value)
    ensures Reread(database, IdsFor(documents, selection.documentUris, selection.newResources), r)
  {
    var ids := IdsFor(documents, selection.documentUris, selection.newResources);
    if Contribute(resources, o).Changed? {
      IndexedSelector(documents, symbols, resources, selection.documentUris, selection.newResources, o);
    } else {
      var asked := SelectorsOf(Requested(documents, selection.documentUris));
      var s := Contribute(resources, o).selector;
      assert s in asked + selection.newResources;
      SelectorsAreListed(asked + selection.newResources, s);
    }
    assert Listed(ids, ProjectionOf(o).target, o.oid);
  }
}
