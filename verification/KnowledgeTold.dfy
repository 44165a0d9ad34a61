/** What a cognify reads is what its rows say: each extracted entity and relation row by row, and no row besides. */
module KnowledgeTold {
  import opened Ordering
  import opened GraphProjection
  import opened KnowledgeStore
  import opened KnowledgeCognify
  import opened KnowledgeCognifySafety
  import opened KnowledgeCognifySource
  import opened KnowledgeCognifyBatch
  import opened KnowledgeCognifyTheorems
  import opened KnowledgeMerging
  import opened KnowledgeExtraction
  import opened KnowledgeArrivals

  /* ----- mentions and evidence only grow ----- */

  predicate Grows(a: Db, b: Db) {
    a.mentions <= b.mentions && a.evidence <= b.evidence
  }

  lemma EvolvingGrows(a: Db, b: Db)
    requires Evolves(a, b)
    ensures Grows(a, b)
  {
  }

  lemma SameGraphGrows(a: Db, b: Db)
    requires SameGraph(a, b)
    ensures Grows(a, b)
  {
  }

  lemma OneGrows(db: Db, r: Resolver, plan: SourcePlan, rollsBack: bool)
    requires SourceReady(db, r, plan)
    ensures Grows(db, PersistOne(db, r, plan, rollsBack))
  {
    if rollsBack {
      MarkingKeeps(db, [plan.source], Failed, 1);
      SameGraphGrows(db, PersistOne(db, r, plan, rollsBack));
    } else {
      var w := SourceWork(db, r, plan);
      SourceWorkOk(db, r, plan);
      EvolvingGrows(WithAdded(db, plan), w.db);
      FinishedSameGraph(w, plan);
      SameGraphGrows(w.db, Finished(w, plan));
    }
  }

  lemma {:induction false} PersistFromGrows(db: Db, r: Resolver, plans: seq<SourcePlan>, rollbacks: Rollbacks, n: nat)
    requires PersistReady(db, r, plans, n) && n <= |plans|
    ensures Grows(db, PersistFrom(db, r, plans, rollbacks, n))
    decreases |plans| - n
  {
    if n < |plans| {
      OneGrows(db, r, plans[n], rollbacks(n));
      PersistOneKeeps(db, r, plans, rollbacks(n), n);
      PersistFromGrows(PersistOne(db, r, plans[n], rollbacks(n)), r, plans, rollbacks, n + 1);
    }
  }

  lemma BatchGrows(db: Db, b: Batch, rollbacks: Rollbacks)
    requires BatchGood(db, b)
    ensures Grows(db, PersistBatch(db, b, rollbacks))
  {
    PersistFromGrows(Reserved(db, b.resolver), b.resolver, b.plans, rollbacks, 0);
    BatchStatuses(db, b, rollbacks);
  }

  /** A cognify takes no mention and no evidence away. */
  lemma CognifyGrows(db: Db, requested: seq<Id>, allowFailed: bool, p: Provider, rollbacks: Rollbacks)
    requires Inv(db) && ValidProvider(p)
    ensures Grows(db, Cognify(db, requested, allowFailed, p, rollbacks))
  {
    if BatchFor(db, requested, allowFailed, p).Some? {
      BatchReady(db, requested, allowFailed, p);
      BatchGrows(db, BatchFor(db, requested, allowFailed, p).value, rollbacks);
    }
  }

  /* ----- rows by key and by identity ----- */

  /** An active entity row with the key. */
  predicate KeyedEntity(db: Db, id: Id, key: Key) {
    LiveEntity(db, id) && db.entities[id].key == key
  }

  /** An active relation row from an active entity with the one key to an active entity with the other. */
  predicate KeyedRelation(db: Db, id: Id, source: Key, target: Key, predicateName: string) {
    && LiveRelation(db, id) && db.relations[id].predicateName == predicateName
    && KeyedEntity(db, db.relations[id].source, source) && KeyedEntity(db, db.relations[id].target, target)
  }

  lemma MentionedRow(db: Db, key: Key, c: Id) returns (id: Id)
    requires KeyMentioned(db, key, c)
    ensures KeyedEntity(db, id, key) && HasMention(db, id, c)
  {
    id := ActiveByKey(db, key).value;
  }

  lemma EvidencedRow(db: Db, i: Identity, c: Id) returns (id: Id)
    requires IdentityEvidenced(db, i, c)
    ensures KeyedRelation(db, id, i.source, i.target, i.predicateName) && Evidence(id, c) in db.evidence
  {
    id := RelationOf(db, i);
  }

  lemma RowIsMentioned(db: Db, id: Id, key: Key, c: Id)
    requires UniqueKeys(db) && KeyedEntity(db, id, key)
    ensures KeyMentioned(db, key, c) <==> HasMention(db, id, c)
  {
    KeyLookup(db, id);
  }

  lemma RowIsEvidenced(db: Db, id: Id, i: Identity, c: Id)
    requires UniqueKeys(db) && UniqueIdentities(db) && KeyedRelation(db, id, i.source, i.target, i.predicateName)
    ensures IdentityEvidenced(db, i, c) <==> Evidence(id, c) in db.evidence
    ensures HasIdentity(db, i) && RelationOf(db, i) == id
  {
    KeyLookup(db, db.relations[id].source);
    KeyLookup(db, db.relations[id].target);
    IdentityLookup(db, id);
  }

  /** A row of before is found under the same key afterwards. */
  lemma KeyedStays(a: Db, b: Db, id: Id, key: Key)
    requires Enriches(a, b) && KeyedEntity(a, id, key)
    ensures KeyedEntity(b, id, key)
  {
    assert Richer(a.entities[id], b.entities[id]);
  }

  lemma KeyedRelationStays(a: Db, b: Db, id: Id, i: Identity)
    requires Enriches(a, b) && KeyedRelation(a, id, i.source, i.target, i.predicateName)
    ensures KeyedRelation(b, id, i.source, i.target, i.predicateName)
  {
    assert Firmer(a.relations[id], b.relations[id]);
    KeyedStays(a, b, a.relations[id].source, i.source);
    KeyedStays(a, b, a.relations[id].target, i.target);
  }

  /* ----- what is said arrives ----- */

  /** What every cognify makes of the rows it was started on. */
  ghost predicate Follows(db: Db, after: Db) {
    Inv(db) && Inv(after) && Enriches(db, after) && Grows(db, after)
  }

  lemma CognifyFollows(db: Db, requested: seq<Id>, allowFailed: bool, p: Provider, rollbacks: Rollbacks, after: Db)
    requires Inv(db) && ValidProvider(p) && after == Cognify(db, requested, allowFailed, p, rollbacks)
    ensures Follows(db, after)
  {
    CognifyKeeps(db, requested, allowFailed, p, rollbacks, after);
    CognifyEnriches(db, requested, allowFailed, p, rollbacks, after);
    CognifyGrows(db, requested, allowFailed, p, rollbacks);
  }

  /** Every entity the extraction of a chunk declares has an active row under its key, mentioned in that chunk. */
  lemma SaidEntityArrives(
      db: Db, requested: seq<Id>, allowFailed: bool, p: Provider, rollbacks: Rollbacks, after: Db, c: Id,
      e: ExtractedEntity) returns (id: Id)
    requires Inv(db) && ValidProvider(p) && after == Cognify(db, requested, allowFailed, p, rollbacks)
    requires NewlyRead(db.chunks, after.chunks, c) && e in Said(p, after.chunks[c]).entities
    ensures KeyedEntity(after, id, e.key) && HasMention(after, id, c)
  {
    CognifyTells(db, requested, allowFailed, p, rollbacks, after, e.key, Identity(e.key, e.key, ""), c);
    id := MentionedRow(after, e.key, c);
  }

  /**
   Every relation it states has an active row, from the row of the entity declared under its source id to the row of
   the one declared under its target id, with evidence on that chunk.
  */
  lemma SaidRelationArrives(
      db: Db, requested: seq<Id>, allowFailed: bool, p: Provider, rollbacks: Rollbacks, after: Db, c: Id,
      r: ExtractedRelation, source: ExtractedEntity, target: ExtractedEntity) returns (id: Id)
    requires Inv(db) && ValidProvider(p) && after == Cognify(db, requested, allowFailed, p, rollbacks)
    requires NewlyRead(db.chunks, after.chunks, c)
    requires var x := Said(p, after.chunks[c]);
             r in x.relations && source in x.entities && target in x.entities
    requires source.localId == r.sourceLocal && target.localId == r.targetLocal
    ensures KeyedRelation(after, id, source.key, target.key, r.predicateName) && Evidence(id, c) in after.evidence
  {
    var x, i := Said(p, after.chunks[c]), Identity(source.key, target.key, r.predicateName);
    assert RelatesBy(x, r, i);
    CognifyTells(db, requested, allowFailed, p, rollbacks, after, source.key, i, c);
    id := EvidencedRow(after, i, c);
  }

  /* ----- nothing else does ----- */

  lemma OldMentionKnown(db: Db, after: Db, m: Mention, key: Key)
    requires Follows(db, after) && m in after.mentions && KeyedEntity(after, m.entity, key)
    requires KeyMentioned(db, key, m.chunk)
    ensures m in db.mentions
  {
    var id := MentionedRow(db, key, m.chunk);
    KeyedStays(db, after, id, key);
    var known :| known in db.mentions && known.entity == id && known.chunk == m.chunk;
    assert known in after.mentions;
    assert UniqueKeys(after) && UniqueMentions(after);
    assert id == m.entity;
  }

  /** A mention that was not there is of a chunk the cognify read, by an entity its extraction declares. */
  lemma NewMentionWasSaid(
      db: Db, requested: seq<Id>, allowFailed: bool, p: Provider, rollbacks: Rollbacks, after: Db, m: Mention)
    requires Inv(db) && ValidProvider(p) && after == Cognify(db, requested, allowFailed, p, rollbacks)
    requires m in after.mentions && m !in db.mentions && LiveEntity(after, m.entity)
    ensures NewlyRead(db.chunks, after.chunks, m.chunk)
    ensures Says(Said(p, after.chunks[m.chunk]), after.entities[m.entity].key)
  {
    var key := after.entities[m.entity].key;
    CognifyFollows(db, requested, allowFailed, p, rollbacks, after);
    CognifyTells(db, requested, allowFailed, p, rollbacks, after, key, Identity(key, key, ""), m.chunk);
    RowIsMentioned(after, m.entity, key, m.chunk);
    if KeyMentioned(db, key, m.chunk) { OldMentionKnown(db, after, m, key); }
  }

  lemma OldEvidenceKnown(db: Db, after: Db, v: Evidence, i: Identity)
    requires Follows(db, after) && KeyedRelation(after, v.relation, i.source, i.target, i.predicateName)
    requires IdentityEvidenced(db, i, v.chunk)
    ensures v in db.evidence
  {
    var id := EvidencedRow(db, i, v.chunk);
    KeyedRelationStays(db, after, id, i);
    RowIsEvidenced(after, id, i, v.chunk);
    RowIsEvidenced(after, v.relation, i, v.chunk);
  }

  /** The identity of an active relation row. */
  function IdentityOfRow(db: Db, id: Id): (i: Identity)
    requires RowsOk(db) && LiveRelation(db, id)
    ensures KeyedRelation(db, id, i.source, i.target, i.predicateName)
  {
    assert ListedRelation(db, id);
    var row := db.relations[id];
    Identity(db.entities[row.source].key, db.entities[row.target].key, row.predicateName)
  }

  /** Evidence that was not there is of a chunk the cognify read, for a relation its extraction states. */
  lemma NewEvidenceWasSaid(
      db: Db, requested: seq<Id>, allowFailed: bool, p: Provider, rollbacks: Rollbacks, after: Db, v: Evidence,
      i: Identity)
    requires Inv(db) && ValidProvider(p) && after == Cognify(db, requested, allowFailed, p, rollbacks)
    requires v in after.evidence && v !in db.evidence
    requires KeyedRelation(after, v.relation, i.source, i.target, i.predicateName)
    ensures NewlyRead(db.chunks, after.chunks, v.chunk) && Relates(Said(p, after.chunks[v.chunk]), i)
  {
    CognifyFollows(db, requested, allowFailed, p, rollbacks, after);
    CognifyTells(db, requested, allowFailed, p, rollbacks, after, i.source, i, v.chunk);
    RowIsEvidenced(after, v.relation, i, v.chunk);
    if IdentityEvidenced(db, i, v.chunk) { OldEvidenceKnown(db, after, v, i); }
  }

  /** An active entity that was not there is declared by the extraction of a chunk the cognify read. */
  lemma NewEntityWasSaid(
      db: Db, requested: seq<Id>, allowFailed: bool, p: Provider, rollbacks: Rollbacks, after: Db, id: Id)
    returns (c: Id)
    requires Inv(db) && ValidProvider(p) && after == Cognify(db, requested, allowFailed, p, rollbacks)
    requires LiveEntity(after, id) && !LiveEntity(db, id)
    ensures NewlyRead(db.chunks, after.chunks, c) && Says(Said(p, after.chunks[c]), after.entities[id].key)
    ensures HasMention(after, id, c)
  {
    CognifyFollows(db, requested, allowFailed, p, rollbacks, after);
    var m := SupportOfNew(db, after, id);
    NewMentionWasSaid(db, requested, allowFailed, p, rollbacks, after, m);
    c := m.chunk;
  }

  /** No row of before becomes active again. */
  lemma RowsWereLive(db: Db, after: Db, id: Id)
    requires Enriches(db, after)
    ensures id in db.entities && LiveEntity(after, id) ==> LiveEntity(db, id)
    ensures id in db.relations && LiveRelation(after, id) ==> LiveRelation(db, id)
  {
    if id in db.entities { assert Richer(db.entities[id], after.entities[id]); }
    if id in db.relations { assert Firmer(db.relations[id], after.relations[id]); }
  }

  lemma SupportOfNew(db: Db, after: Db, id: Id) returns (m: Mention)
    requires Follows(db, after) && LiveEntity(after, id) && !LiveEntity(db, id)
    ensures m in after.mentions && m !in db.mentions && m.entity == id
  {
    assert SupportedEntity(after, id);
    m :| m in after.mentions && m.entity == id && LiveChunk(after, m.chunk);
    RowsWereLive(db, after, id);
  }

  /** An active relation that was not there is stated, in that direction, by the extraction of a chunk it read. */
  lemma NewRelationWasSaid(
      db: Db, requested: seq<Id>, allowFailed: bool, p: Provider, rollbacks: Rollbacks, after: Db, id: Id, i: Identity)
    returns (c: Id)
    requires Inv(db) && ValidProvider(p) && after == Cognify(db, requested, allowFailed, p, rollbacks)
    requires KeyedRelation(after, id, i.source, i.target, i.predicateName) && !LiveRelation(db, id)
    ensures NewlyRead(db.chunks, after.chunks, c) && Relates(Said(p, after.chunks[c]), i)
    ensures Evidence(id, c) in after.evidence
  {
    CognifyFollows(db, requested, allowFailed, p, rollbacks, after);
    var v := EvidenceOfNew(db, after, id);
    NewEvidenceWasSaid(db, requested, allowFailed, p, rollbacks, after, v, i);
    c := v.chunk;
  }

  lemma EvidenceOfNew(db: Db, after: Db, id: Id) returns (v: Evidence)
    requires Follows(db, after) && LiveRelation(after, id) && !LiveRelation(db, id)
    ensures v in after.evidence && v !in db.evidence && v.relation == id
  {
    assert SupportedRelation(after, id);
    v :| v in after.evidence && v.relation == id && LiveChunk(after, v.chunk);
    RowsWereLive(db, after, id);
  }
}
