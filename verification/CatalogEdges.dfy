/**
 * When the foreign keys and view dependencies of a patched index are those of a full read, told from the two
 * catalogs and the request alone (packages/catalog/src/indexController.ts, packages/catalog/src/postgresCatalog.ts).
 */
module CatalogEdges {
  import opened Options
  import opened Sequences
  import opened CatalogModel
  import opened CatalogPatch
  import opened CatalogPatchTheorems

  /** A requested object with this oid is gone, and so is its URI. Kinds are not told apart. */
  ghost predicate Dropped(old_: Catalog, new_: Catalog, uris: set<Uri>, oid: nat) {
    exists r | r in Resources(old_) && r.document.postgres.Some? && r.document.postgres.value.oid == oid && UriOf(r) in uris ::
      UriGone(new_, UriOf(r))
  }

  ghost predicate UriGone(new_: Catalog, uri: Uri) {
    forall q | q in Resources(new_) :: UriOf(q) != uri
  }

  /** A selected relation that is gone although its URI came back. */
  ghost predicate Revived(old_: Catalog, new_: Catalog, uris: set<Uri>, ids: Ids, oid: nat) {
    RelationSelected(new_, ids, oid) && oid !in RelationOids(new_) && !Dropped(old_, new_, uris, oid)
  }

  /** A relation that was not selected and has the oid of a dropped object. */
  ghost predicate Shadowed(old_: Catalog, new_: Catalog, uris: set<Uri>, ids: Ids, oid: nat) {
    !RelationSelected(new_, ids, oid) && Dropped(old_, new_, uris, oid)
  }

  /** The edge is read again but not dropped: every selected relation it touches was revived. */
  ghost predicate StaysDead(old_: Catalog, new_: Catalog, uris: set<Uri>, ids: Ids, e: Edge) {
    && EdgeSelected(new_, ids, e)
    && (forall oid | oid == e.source || oid == e.target ::
          !Shadowed(old_, new_, uris, ids, oid) && (RelationSelected(new_, ids, oid) ==> Revived(old_, new_, uris, ids, oid)))
  }

  /** The edge is dropped but not read again: it touches no selected relation, and a shadowed one. */
  ghost predicate GetsLost(old_: Catalog, new_: Catalog, uris: set<Uri>, ids: Ids, e: Edge) {
    && !EdgeSelected(new_, ids, e)
    && (Shadowed(old_, new_, uris, ids, e.source) || Shadowed(old_, new_, uris, ids, e.target))
  }

  // ----- What a patch removes ------------------------------------------------------------------------

  /** Whatever stands under a requested URI in the new catalog is read. */
  lemma RequestedUriIsReread(leq: (Uri, Uri) -> bool, old_: Catalog, new_: Catalog, existing: seq<Document>,
                             uris: set<Uri>, selectors: seq<Selector>, r: Resource, q: Resource)
    requires Request(leq, old_, new_, existing, uris, selectors)
    requires r in Resources(old_) && UriOf(r) in uris && q in Resources(new_) && UriOf(q) == UriOf(r)
    ensures Reread(new_, IdsFor(existing, uris, selectors), q)
  {
    if q in Resources(old_) {
      DistinctMeansOne(Resources(old_));
      BuiltMembers(leq, old_, r.document);
      hide Resources, BuiltDocuments, IdsFor, Refuses, Reread;
      RequestedIsReread(new_, existing, uris, selectors, r);
    }
  }

  lemma BuiltUris(leq: (Uri, Uri) -> bool, c: Catalog, uri: Uri)
    requires TotalOrder(leq)
    ensures uri in UrisOf(BuiltDocuments(leq, c)) <==> exists q | q in Resources(c) :: UriOf(q) == uri
  {
    hide Resources, BuiltDocuments;
    if d :| d in BuiltDocuments(leq, c) && d.uri == uri {
      BuiltMembers(leq, c, d);
    }
    if q :| q in Resources(c) && UriOf(q) == uri {
      BuiltMembers(leq, c, q.document);
    }
  }

  lemma RemovedUris(leq: (Uri, Uri) -> bool, old_: Catalog, new_: Catalog, existing: seq<Document>,
                    uris: set<Uri>, selectors: seq<Selector>, r: Resource)
    requires Request(leq, old_, new_, existing, uris, selectors) && r in Resources(old_)
    ensures var patch := PatchFrom(leq, Selected(new_, IdsFor(existing, uris, selectors)), uris);
            UriOf(r) in patch.removed <==> UriOf(r) in uris && UriGone(new_, UriOf(r))
  {
    var ids := IdsFor(existing, uris, selectors);
    BuiltUris(leq, Selected(new_, ids), UriOf(r));
    hide Resources, BuiltDocuments, IdsFor, Refuses, Reread, Wellformed, Covered, Selected;
    forall q ensures q in Resources(Selected(new_, ids)) <==> q in Resources(new_) && Reread(new_, ids, q) {
      SelectedResources(new_, ids, q);
    }
    if q :| q in Resources(new_) && UriOf(q) == UriOf(r) && UriOf(r) in uris {
      RequestedUriIsReread(leq, old_, new_, existing, uris, selectors, r, q);
    }
  }

  lemma RemovedMeansDropped(leq: (Uri, Uri) -> bool, old_: Catalog, new_: Catalog, existing: seq<Document>,
                            uris: set<Uri>, selectors: seq<Selector>, oid: nat)
    requires Request(leq, old_, new_, existing, uris, selectors)
    ensures var patch := PatchFrom(leq, Selected(new_, IdsFor(existing, uris, selectors)), uris);
            oid in RemovedOids(ByUri(BuiltDocuments(leq, old_)), patch.removed) <==> Dropped(old_, new_, uris, oid)
  {
    var patch := PatchFrom(leq, Selected(new_, IdsFor(existing, uris, selectors)), uris);
    var m := ByUri(BuiltDocuments(leq, old_));
    assert patch.removed <= uris;
    hide Resources, BuiltDocuments, IdsFor, Refuses, Selected, PatchFrom, UriGone, Wellformed, Covered;
    if u :| u in patch.removed && u in m && m[u].postgres.Some? && m[u].postgres.value.oid == oid {
      BuiltMembers(leq, old_, m[u]);
      var r :| r in Resources(old_) && r.document == m[u];
      RemovedUris(leq, old_, new_, existing, uris, selectors, r);
    }
    if Dropped(old_, new_, uris, oid) {
      var r :| r in Resources(old_) && r.document.postgres.Some? && r.document.postgres.value.oid == oid && UriOf(r) in uris
               && UriGone(new_, UriOf(r));
      RegisteredAt(leq, old_, r);
      RemovedUris(leq, old_, new_, existing, uris, selectors, r);
    }
  }

  // ----- The theorem ---------------------------------------------------------------------------------

  /** Which relations' edges the patch drops, told from the catalogs. */
  lemma AffectedMeans(leq: (Uri, Uri) -> bool, old_: Catalog, new_: Catalog, existing: seq<Document>,
                      uris: set<Uri>, selectors: seq<Selector>, oid: nat)
    requires Request(leq, old_, new_, existing, uris, selectors)
    ensures var ids := IdsFor(existing, uris, selectors);
            oid in Affected(Registered(FullRead(leq, old_)), PatchFrom(leq, Selected(new_, ids), uris))
            <==> if RelationSelected(new_, ids, oid) then !Revived(old_, new_, uris, ids, oid) else Shadowed(old_, new_, uris, ids, oid)
  {
    var ids := IdsFor(existing, uris, selectors);
    RemovedMeansDropped(leq, old_, new_, existing, uris, selectors, oid);
    SelectedIsReadBack(new_, ids, oid);
    hide Resources, BuiltDocuments, IdsFor, Refuses, Selected, Dropped, RelationSelected, RelationOids, Wellformed, Covered, RemovedOids;
  }

  /**
   * The patched edges are those of a full read exactly when no old edge stays dead, because a relation it
   * touches was dropped and its URI came back, and none gets lost, because a relation it touches shares its
   * oid with another object that was dropped.
   */
  lemma EdgesAreFullIff(leq: (Uri, Uri) -> bool, old_: Catalog, new_: Catalog, existing: seq<Document>,
                        uris: set<Uri>, selectors: seq<Selector>, was: seq<Edge>, now: seq<Edge>)
    requires Request(leq, old_, new_, existing, uris, selectors)
    requires EdgesInside(new_, now) && ChangesAreSelected(new_, IdsFor(existing, uris, selectors), was, now)
    ensures var ids := IdsFor(existing, uris, selectors);
            var patch := PatchFrom(leq, Selected(new_, ids), uris);
            multiset(Merge(was, Affected(Registered(FullRead(leq, old_)), patch), Filter((e: Edge) => EdgeSelected(new_, ids, e), now)))
            == multiset(now)
            <==> forall e | e in was :: !StaysDead(old_, new_, uris, ids, e) && !GetsLost(old_, new_, uris, ids, e)
  {
    var ids := IdsFor(existing, uris, selectors);
    var patch := PatchFrom(leq, Selected(new_, ids), uris);
    var registry := Registered(FullRead(leq, old_));
    MergeIsExactIff(new_, ids, RemovedOids(registry.documents, patch.removed), was, now);
    forall e | e in was
      ensures (Touches(Affected(registry, patch), e) <==> EdgeSelected(new_, ids, e))
              <==> !StaysDead(old_, new_, uris, ids, e) && !GetsLost(old_, new_, uris, ids, e)
    {
      AffectedMeans(leq, old_, new_, existing, uris, selectors, e.source);
      AffectedMeans(leq, old_, new_, existing, uris, selectors, e.target);
      hide Revived, Shadowed, Affected, RelationSelected, IdsFor, Selected, PatchFrom, Request, Merge;
      AffectedOrNot(old_, new_, uris, ids, Affected(registry, patch), e);
    }
    hide Merge, IdsFor, Selected, PatchFrom, Request, StaysDead, GetsLost, Touches, EdgeSelected, RemovedOids;
  }

  lemma AffectedOrNot(old_: Catalog, new_: Catalog, uris: set<Uri>, ids: Ids, affected: set<nat>, e: Edge)
    requires forall oid | oid == e.source || oid == e.target ::
               oid in affected <==> if RelationSelected(new_, ids, oid) then !Revived(old_, new_, uris, ids, oid)
                                    else Shadowed(old_, new_, uris, ids, oid)
    ensures (Touches(affected, e) <==> EdgeSelected(new_, ids, e))
            <==> !StaysDead(old_, new_, uris, ids, e) && !GetsLost(old_, new_, uris, ids, e)
  {
    hide Dropped, RelationOids;
    assert forall oid :: RelationSelected(new_, ids, oid) ==> !Shadowed(old_, new_, uris, ids, oid);
    assert forall oid :: Revived(old_, new_, uris, ids, oid) ==> RelationSelected(new_, ids, oid);
    hide RelationSelected, Revived, Shadowed;
  }

  /** A revived relation: what stood under its URI is gone, and something else stands there. */
  lemma RevivedMeans(old_: Catalog, new_: Catalog, uris: set<Uri>, ids: Ids, r: Resource)
    requires Covered(old_, new_, uris, ids) && r in Resources(old_) && IsRelation(r)
    requires Revived(old_, new_, uris, ids, r.document.postgres.value.oid)
    ensures r !in Resources(new_) && exists q | q in Resources(new_) :: UriOf(q) == UriOf(r)
  {
    hide Resources, RelationSelected, RelationOids, Reread;
    if r in Resources(new_) {
      RelationOfResource(new_, r);
    }
  }
}
