/** What persisting a prepared source keeps, one operation at a time. */
module KnowledgeCognifySafety {
  import opened Wrappers
  import opened Ordering
  import opened GraphProjection
  import opened KnowledgeStore
  import opened KnowledgeCognify

  /* ----- what a write leaves alone ----- */

  lemma SameEntitiesStayUnique(a: Db, b: Db)
    requires a.entities == b.entities && UniqueKeys(a)
    ensures UniqueKeys(b)
  {
    forall x, y | LiveEntity(b, x) && LiveEntity(b, y) && b.entities[x].key == b.entities[y].key ensures x == y {
      assert LiveEntity(a, x) && LiveEntity(a, y);
    }
  }

  lemma SameRelationsStayUnique(a: Db, b: Db)
    requires a.relations == b.relations && UniqueIdentities(a)
    ensures UniqueIdentities(b)
  {
    forall x, y | LiveRelation(b, x) && LiveRelation(b, y) && SameIdentity(b.relations[x], b.relations[y])
      ensures x == y
    {
      assert LiveRelation(a, x) && LiveRelation(a, y);
    }
  }

  lemma SameChunksStayPlaced(a: Db, b: Db)
    requires a.chunks == b.chunks && a.documents == b.documents && UniqueOrdinals(a) && ChunksFollowDocuments(a)
    ensures UniqueOrdinals(b) && ChunksFollowDocuments(b)
  {
  }

  /** No active entity is lost, and every active relation of `b` not in `a` has active endpoints. */
  lemma StillAttached(a: Db, b: Db)
    requires RelationsAttached(a) && forall id :: LiveEntity(a, id) ==> LiveEntity(b, id)
    requires forall id :: LiveRelation(b, id) ==>
               (LiveRelation(a, id) && SameIdentity(a.relations[id], b.relations[id])) || ListedRelation(b, id)
    ensures RelationsAttached(b)
  {
    forall id | LiveRelation(b, id) ensures ListedRelation(b, id) {
      if LiveRelation(a, id) && SameIdentity(a.relations[id], b.relations[id]) {
        assert ListedRelation(a, id);
        assert LiveEntity(a, a.relations[id].source) && LiveEntity(a, a.relations[id].target);
      }
    }
  }

  lemma HasMentionGrows(a: Db, b: Db, entity: Id, chunk: Id)
    requires a.mentions <= b.mentions && HasMention(a, entity, chunk)
    ensures HasMention(b, entity, chunk)
  {
    var m :| m in a.mentions && m.entity == entity && m.chunk == chunk;
    assert m in b.mentions;
  }

  predicate EndpointsMentioned(db: Db, v: Evidence) {
    v.relation in db.relations ==>
      HasMention(db, db.relations[v.relation].source, v.chunk)
          && HasMention(db, db.relations[v.relation].target, v.chunk)
  }

  /** Mentions only grow, and evidence of `b` not in `a` comes with its endpoints' mentions. */
  lemma StillMentioned(a: Db, b: Db)
    requires EvidenceIsMentioned(a) && a.mentions <= b.mentions
    requires forall id :: id in a.relations ==> id in b.relations && SameIdentity(a.relations[id], b.relations[id])
    requires forall v :: v in b.evidence ==> (v in a.evidence && v.relation in a.relations) || EndpointsMentioned(b, v)
    ensures EvidenceIsMentioned(b)
  {
    forall v | v in b.evidence && v.relation in b.relations
      ensures HasMention(b, b.relations[v.relation].source, v.chunk)
      ensures HasMention(b, b.relations[v.relation].target, v.chunk)
    {
      if v in a.evidence && v.relation in a.relations {
        HasMentionGrows(a, b, a.relations[v.relation].source, v.chunk);
        HasMentionGrows(a, b, a.relations[v.relation].target, v.chunk);
      } else {
        assert EndpointsMentioned(b, v);
      }
    }
  }

  /* ----- single writes keep the rows consistent ----- */

  /** An entity row that may be written at `id`: the same key on a live row, or a new row for a key no live row has. */
  predicate EntityFits(db: Db, id: Id, row: Entity) {
    && row.active && id < db.next
    && (if id in db.entities then db.entities[id].active && db.entities[id].key == row.key
        else forall other :: other in db.entities && db.entities[other].active ==> db.entities[other].key != row.key)
  }

  lemma PutEntityKeepsRows(db: Db, id: Id, row: Entity)
    requires RowsOk(db) && EntityFits(db, id, row)
    ensures RowsOk(PutEntity(db, id, row))
  {
    var after := PutEntity(db, id, row);
    assert RefsOk(after) && IdsBelow(after) && UniqueMentions(after);
    assert UniqueKeys(after) by {
      forall a, b | LiveEntity(after, a) && LiveEntity(after, b) && after.entities[a].key == after.entities[b].key
        ensures a == b
      {
        assert a != id ==> LiveEntity(db, a);
        assert b != id ==> LiveEntity(db, b);
        assert id in db.entities ==> LiveEntity(db, id);
      }
    }
    SameRelationsStayUnique(db, after);
    SameChunksStayPlaced(db, after);
    StillAttached(db, after);
    StillMentioned(db, after);
  }

  lemma PutMentionKeepsRows(db: Db, entity: Id, chunk: Id)
    requires RowsOk(db) && entity in db.entities && chunk in db.chunks
    ensures RowsOk(PutMention(db, entity, chunk)) && HasMention(PutMention(db, entity, chunk), entity, chunk)
  {
    var after := PutMention(db, entity, chunk);
    if !HasMention(db, entity, chunk) {
      assert Mention(db.next, entity, chunk) in after.mentions;
      assert RefsOk(after) && IdsBelow(after) && UniqueMentions(after);
      SameEntitiesStayUnique(db, after);
      SameRelationsStayUnique(db, after);
      SameChunksStayPlaced(db, after);
      StillAttached(db, after);
      StillMentioned(db, after);
    }
  }

  /** A relation row that may be written at `id`, between active entities. */
  predicate RelationFits(db: Db, id: Id, row: Relation) {
    && row.active && id < db.next && LiveEntity(db, row.source) && LiveEntity(db, row.target)
    && (if id in db.relations then db.relations[id].active && SameIdentity(db.relations[id], row)
        else forall other :: other in db.relations && db.relations[other].active ==>
            !SameIdentity(db.relations[other], row))
  }

  lemma PutRelationUnique(db: Db, id: Id, row: Relation)
    requires UniqueIdentities(db) && RelationFits(db, id, row)
    ensures UniqueIdentities(PutRelation(db, id, row))
  {
    var after := PutRelation(db, id, row);
    forall a, b | LiveRelation(after, a) && LiveRelation(after, b)
        && SameIdentity(after.relations[a], after.relations[b])
      ensures a == b
    {
      assert a != id ==> LiveRelation(db, a);
      assert b != id ==> LiveRelation(db, b);
      assert id in db.relations ==> LiveRelation(db, id);
    }
  }

  lemma PutRelationPlaced(db: Db, id: Id, row: Relation)
    requires RowsOk(db) && RelationFits(db, id, row)
    ensures var after := PutRelation(db, id, row);
            RefsOk(after) && IdsBelow(after) && UniqueMentions(after) && UniqueOrdinals(after)
                && ChunksFollowDocuments(after)
  {
    SameChunksStayPlaced(db, PutRelation(db, id, row));
  }

  lemma PutRelationKeepsRows(db: Db, id: Id, row: Relation)
    requires RowsOk(db) && RelationFits(db, id, row)
    ensures RowsOk(PutRelation(db, id, row))
  {
    var after := PutRelation(db, id, row);
    PutRelationPlaced(db, id, row);
    PutRelationUnique(db, id, row);
    SameEntitiesStayUnique(db, after);
    assert ListedRelation(after, id);
    StillAttached(db, after);
    StillMentioned(db, after);
  }

  lemma PutEvidenceKeepsRows(db: Db, relation: Id, chunk: Id)
    requires RowsOk(db) && relation in db.relations && chunk in db.chunks
    requires HasMention(db, db.relations[relation].source, chunk)
             && HasMention(db, db.relations[relation].target, chunk)
    ensures RowsOk(PutEvidence(db, relation, chunk))
  {
    var after := PutEvidence(db, relation, chunk);
    assert RefsOk(after) && IdsBelow(after) && UniqueMentions(after);
    SameEntitiesStayUnique(db, after);
    SameRelationsStayUnique(db, after);
    SameChunksStayPlaced(db, after);
    StillAttached(db, after);
    assert EndpointsMentioned(after, Evidence(relation, chunk));
    StillMentioned(db, after);
  }

  /* ----- rows as the graph sees them: by key and by identity ----- */

  predicate HasKey(db: Db, key: Key) {
    ActiveByKey(db, key).Some?
  }

  predicate HasIdentity(db: Db, i: Identity) {
    && HasKey(db, i.source) && HasKey(db, i.target)
    && ActiveByIdentity(db, ActiveByKey(db, i.source).value, ActiveByKey(db, i.target).value, i.predicateName).Some?
  }

  function RelationOf(db: Db, i: Identity): Id
    requires HasIdentity(db, i)
  {
    ActiveByIdentity(db, ActiveByKey(db, i.source).value, ActiveByKey(db, i.target).value, i.predicateName).value
  }

  predicate KeyMentioned(db: Db, key: Key, chunk: Id) {
    HasKey(db, key) && HasMention(db, ActiveByKey(db, key).value, chunk)
  }

  predicate IdentityEvidenced(db: Db, i: Identity, chunk: Id) {
    HasIdentity(db, i) && Evidence(RelationOf(db, i), chunk) in db.evidence
  }

  lemma KeyLookup(db: Db, id: Id)
    requires UniqueKeys(db) && LiveEntity(db, id)
    ensures ActiveByKey(db, db.entities[id].key) == Some(id)
  {
  }

  lemma IdentityLookup(db: Db, id: Id)
    requires UniqueIdentities(db) && LiveRelation(db, id)
    ensures var r := db.relations[id]; ActiveByIdentity(db, r.source, r.target, r.predicateName) == Some(id)
  {
    var r := db.relations[id];
    var found := ActiveByIdentity(db, r.source, r.target, r.predicateName);
    assert found.Some? && SameIdentity(db.relations[found.value], r);
  }

  /** Nothing is lost: rows keep their key or identity and stay active; mentions and evidence only grow. */
  ghost predicate Evolves(a: Db, b: Db) {
    && a.sources == b.sources && a.documents == b.documents && a.chunks == b.chunks && a.outbox == b.outbox
    && a.next <= b.next
    && (forall id :: id in a.entities ==>
          id in b.entities && b.entities[id].key == a.entities[id].key
              && b.entities[id].active == a.entities[id].active)
    && (forall id :: id in a.relations ==>
          id in b.relations && SameIdentity(b.relations[id], a.relations[id])
              && b.relations[id].active == a.relations[id].active)
    && a.mentions <= b.mentions && a.evidence <= b.evidence
  }

  lemma KeysStay(a: Db, b: Db, key: Key)
    requires Evolves(a, b) && UniqueKeys(b) && HasKey(a, key)
    ensures ActiveByKey(b, key) == ActiveByKey(a, key)
  {
    var id := ActiveByKey(a, key).value;
    assert LiveEntity(b, id) && b.entities[id].key == key;
    KeyLookup(b, id);
  }

  lemma IdentitiesStay(a: Db, b: Db, i: Identity)
    requires Evolves(a, b) && UniqueKeys(b) && UniqueIdentities(b) && HasIdentity(a, i)
    ensures HasIdentity(b, i) && RelationOf(b, i) == RelationOf(a, i)
  {
    KeysStay(a, b, i.source);
    KeysStay(a, b, i.target);
    var id := RelationOf(a, i);
    assert LiveRelation(b, id) && SameIdentity(b.relations[id], a.relations[id]);
    IdentityLookup(b, id);
  }

  /* ----- plans a transaction may still need to insert ----- */

  /** A planned entity whose key has no active row has an id no row uses, and shares it with no other such plan. */
  ghost predicate EntityPlansFit(db: Db, r: Resolver) {
    && (forall k :: k in r.entities && !HasKey(db, k) ==>
       r.entities[k].id !in db.entities && r.entities[k].id < db.next)
    && (forall k, l :: k in r.entities && l in r.entities && r.entities[k].id == r.entities[l].id ==>
          k == l || HasKey(db, k) || HasKey(db, l))
  }

  ghost predicate RelationPlansFit(db: Db, r: Resolver) {
    && (forall i :: i in r.relations && !HasIdentity(db, i) ==>
       r.relations[i].id !in db.relations && r.relations[i].id < db.next)
    && (forall i, j :: i in r.relations && j in r.relations && r.relations[i].id == r.relations[j].id ==>
          i == j || HasIdentity(db, i) || HasIdentity(db, j))
  }

  ghost predicate PlansFit(db: Db, r: Resolver) {
    EntityPlansFit(db, r) && RelationPlansFit(db, r)
  }

  /** The operation's chunk is active, and a relation's endpoints are already mentioned there. */
  ghost predicate Ready(db: Db, r: Resolver, op: Op) {
    && LiveChunk(db, op.chunk)
    && match op {
         case MentionOp(_, e) => e.key in r.entities
         case EvidenceOp(_, i, _) =>
           i in r.relations && KeyMentioned(db, i.source, op.chunk) && KeyMentioned(db, i.target, op.chunk)
       }
  }

  /* ----- one mention ----- */

  lemma EntityRowFits(db: Db, key: Key, plan: PlannedEntity)
    requires RowsOk(db) && (HasKey(db, key) || (plan.id !in db.entities && plan.id < db.next))
    ensures var (id, row) := EntityRow(db, key, plan); EntityFits(db, id, row) && row.key == key
  {
    assert forall id :: LiveEntity(db, id) <==> id in db.entities && db.entities[id].active;
  }

  /** The database after one mention operation. */
  function Mentioned(db: Db, r: Resolver, chunk: Id, key: Key): Db
    requires key in r.entities
  {
    var (id, row) := EntityRow(db, key, r.entities[key]);
    PutMention(PutEntity(db, id, row), id, chunk)
  }

  lemma PutEntityEvolves(db: Db, id: Id, row: Entity, chunk: Id)
    requires EntityFits(db, id, row)
    ensures Evolves(db, PutMention(PutEntity(db, id, row), id, chunk))
  {
  }

  lemma MentionKeepsRows(db: Db, r: Resolver, chunk: Id, key: Key)
    requires Inv(db) && EntityPlansFit(db, r) && key in r.entities && LiveChunk(db, chunk)
    ensures var after := Mentioned(db, r, chunk, key);
            && RowsOk(after) && Evolves(db, after) && KeyMentioned(after, key, chunk)
            && ActiveByKey(after, key) == Some(EntityRow(db, key, r.entities[key]).0)
  {
    var (id, row) := EntityRow(db, key, r.entities[key]);
    EntityRowFits(db, key, r.entities[key]);
    var after := Mentioned(db, r, chunk, key);
    assert RowsOk(after) && HasMention(after, id, chunk) by {
      PutEntityKeepsRows(db, id, row);
      PutMentionKeepsRows(PutEntity(db, id, row), id, chunk);
    }
    PutEntityEvolves(db, id, row, chunk);
    assert LiveEntity(after, id) && after.entities[id].key == key;
    KeyLookup(after, id);
  }

  lemma MentionKeepsInv(db: Db, r: Resolver, chunk: Id, key: Key)
    requires Inv(db) && EntityPlansFit(db, r) && key in r.entities && LiveChunk(db, chunk)
    ensures Inv(Mentioned(db, r, chunk, key))
  {
    MentionKeepsRows(db, r, chunk, key);
    var after := Mentioned(db, r, chunk, key);
    var id := EntityRow(db, key, r.entities[key]).0;
    forall e | LiveEntity(after, e) ensures SupportedEntity(after, e) {
      if e == id {
        var m :| m in after.mentions && m.entity == id && m.chunk == chunk;
        assert LiveChunk(after, m.chunk);
      } else {
        assert LiveEntity(db, e) && SupportedEntity(db, e);
        var m :| m in db.mentions && m.entity == e && LiveChunk(db, m.chunk);
        assert m in after.mentions && LiveChunk(after, m.chunk);
      }
    }
    forall x | LiveRelation(after, x) ensures SupportedRelation(after, x) {
      assert LiveRelation(db, x) && SupportedRelation(db, x);
      var v :| v in db.evidence && v.relation == x && LiveChunk(db, v.chunk);
      assert v in after.evidence && LiveChunk(after, v.chunk);
    }
  }

  /** Besides what was there, the rows hold one more mention at most: of this key in this chunk. */
  lemma MentionAddsOne(db: Db, r: Resolver, chunk: Id, key: Key, m: Mention)
    requires key in r.entities
    ensures var after := Mentioned(db, r, chunk, key);
            m in after.mentions ==>
              m in db.mentions || (m.entity == EntityRow(db, key, r.entities[key]).0 && m.chunk == chunk)
  {
  }

  /** A mention operation adds its key, and no other; its mention, and no other. */
  lemma MentionEffect(db: Db, r: Resolver, chunk: Id, key: Key, k: Key, c: Id)
    requires Inv(db) && EntityPlansFit(db, r) && key in r.entities && LiveChunk(db, chunk)
    ensures var after := Mentioned(db, r, chunk, key);
            && (HasKey(after, k) <==> HasKey(db, k) || k == key)
            && (KeyMentioned(after, k, c) <==> KeyMentioned(db, k, c) || (k == key && c == chunk))
  {
    MentionKeepsRows(db, r, chunk, key);
    if HasKey(db, k) {
      MentionEffectOnOldKey(db, r, chunk, key, k, c);
    } else {
      MentionEffectOnNewKey(db, r, chunk, key, k, c);
    }
  }

  lemma MentionEffectOnOldKey(db: Db, r: Resolver, chunk: Id, key: Key, k: Key, c: Id)
    requires Inv(db) && EntityPlansFit(db, r) && key in r.entities && LiveChunk(db, chunk) && HasKey(db, k)
    ensures var after := Mentioned(db, r, chunk, key);
            HasKey(after, k) && (KeyMentioned(after, k, c) <==> KeyMentioned(db, k, c) || (k == key && c == chunk))
  {
    MentionKeepsRows(db, r, chunk, key);
    var after := Mentioned(db, r, chunk, key);
    KeysStay(db, after, k);
    var e := ActiveByKey(db, k).value;
    if HasMention(db, e, c) { HasMentionGrows(db, after, e, c); }
    forall m | m in after.mentions && m.entity == e && m.chunk == c
      ensures m in db.mentions || (k == key && c == chunk)
    {
      MentionAddsOne(db, r, chunk, key, m);
    }
  }

  lemma MentionEffectOnNewKey(db: Db, r: Resolver, chunk: Id, key: Key, k: Key, c: Id)
    requires Inv(db) && EntityPlansFit(db, r) && key in r.entities && LiveChunk(db, chunk) && !HasKey(db, k)
    ensures var after := Mentioned(db, r, chunk, key);
            && (HasKey(after, k) <==> k == key) && (KeyMentioned(after, k, c) <==> k == key && c == chunk)
  {
    MentionKeepsRows(db, r, chunk, key);
    var after := Mentioned(db, r, chunk, key);
    if k == key {
      var id := r.entities[key].id;
      forall m | m in after.mentions && m.entity == id ensures m.chunk == chunk {
        MentionAddsOne(db, r, chunk, key, m);
        assert id !in db.entities;
      }
    } else {
      forall e | LiveEntity(after, e) ensures after.entities[e].key != k {
        assert e in db.entities ==> (LiveEntity(db, e) <==> db.entities[e].active);
      }
    }
  }

  lemma MentionKeepsIdentities(db: Db, r: Resolver, chunk: Id, key: Key, i: Identity, c: Id)
    requires Inv(db) && EntityPlansFit(db, r) && key in r.entities && LiveChunk(db, chunk)
    ensures var after := Mentioned(db, r, chunk, key);
            && (HasIdentity(after, i) <==> HasIdentity(db, i))
            && (IdentityEvidenced(after, i, c) <==> IdentityEvidenced(db, i, c))
  {
    MentionKeepsRows(db, r, chunk, key);
    var after := Mentioned(db, r, chunk, key);
    if HasIdentity(db, i) {
      IdentitiesStay(db, after, i);
    } else if HasIdentity(after, i) {
      var x := RelationOf(after, i);
      assert LiveRelation(db, x) && ListedRelation(db, x);
      var row := db.relations[x];
      KeyLookup(db, row.source);
      KeyLookup(db, row.target);
      KeyLookup(after, row.source);
      KeyLookup(after, row.target);
      IdentityLookup(db, x);
    }
  }

  lemma MentionKeepsPlans(db: Db, r: Resolver, chunk: Id, key: Key)
    requires Inv(db) && PlansFit(db, r) && key in r.entities && LiveChunk(db, chunk)
    ensures PlansFit(Mentioned(db, r, chunk, key), r)
  {
    MentionKeepsRows(db, r, chunk, key);
    var after := Mentioned(db, r, chunk, key);
    forall k | k in r.entities && !HasKey(after, k)
      ensures !HasKey(db, k) && r.entities[k].id !in after.entities && r.entities[k].id < after.next
    {
      MentionEffect(db, r, chunk, key, k, chunk);
    }
    forall i | i in r.relations && !HasIdentity(after, i) ensures !HasIdentity(db, i) {
      MentionKeepsIdentities(db, r, chunk, key, i, chunk);
    }
  }

  /* ----- one piece of evidence ----- */

  /** The database after one evidence operation. */
  function Evidenced(db: Db, r: Resolver, chunk: Id, i: Identity): Db
    requires i in r.relations && HasKey(db, i.source) && HasKey(db, i.target)
  {
    var (id, row) := RelationRow(db, ActiveByKey(db, i.source).value, ActiveByKey(db, i.target).value, i.predicateName,
        r.relations[i]);
    PutEvidence(PutRelation(db, id, row), id, chunk)
  }

  /** The relation the operation writes. */
  function EvidencedId(db: Db, r: Resolver, i: Identity): Id
    requires i in r.relations && HasKey(db, i.source) && HasKey(db, i.target)
  {
    RelationRow(db, ActiveByKey(db, i.source).value, ActiveByKey(db, i.target).value, i.predicateName, r.relations[i]).0
  }

  ghost predicate EvidenceReady(db: Db, r: Resolver, chunk: Id, i: Identity) {
    && Inv(db) && RelationPlansFit(db, r) && i in r.relations && LiveChunk(db, chunk)
    && KeyMentioned(db, i.source, chunk) && KeyMentioned(db, i.target, chunk)
  }

  lemma RelationRowFits(db: Db, r: Resolver, chunk: Id, i: Identity)
    requires EvidenceReady(db, r, chunk, i)
    ensures var source, target := ActiveByKey(db, i.source).value, ActiveByKey(db, i.target).value;
            var (id, row) := RelationRow(db, source, target, i.predicateName, r.relations[i]);
            RelationFits(db, id, row) && row.source == source && row.target == target
                && row.predicateName == i.predicateName
  {
    assert forall id :: LiveRelation(db, id) <==> id in db.relations && db.relations[id].active;
  }

  lemma PutRelationEvolves(db: Db, id: Id, row: Relation, chunk: Id)
    requires RelationFits(db, id, row)
    ensures Evolves(db, PutEvidence(PutRelation(db, id, row), id, chunk))
  {
  }

  lemma EvidenceKeepsRows(db: Db, r: Resolver, chunk: Id, i: Identity)
    requires EvidenceReady(db, r, chunk, i)
    ensures var after := Evidenced(db, r, chunk, i);
            && RowsOk(after) && Evolves(db, after) && after.entities == db.entities && after.mentions == db.mentions
            && HasIdentity(after, i) && RelationOf(after, i) == EvidencedId(db, r, i)
            && IdentityEvidenced(after, i, chunk)
  {
    var source, target := ActiveByKey(db, i.source).value, ActiveByKey(db, i.target).value;
    var (id, row) := RelationRow(db, source, target, i.predicateName, r.relations[i]);
    RelationRowFits(db, r, chunk, i);
    var after := Evidenced(db, r, chunk, i);
    assert RowsOk(after) by {
      PutRelationKeepsRows(db, id, row);
      PutEvidenceKeepsRows(PutRelation(db, id, row), id, chunk);
    }
    PutRelationEvolves(db, id, row, chunk);
    KeysStay(db, after, i.source);
    KeysStay(db, after, i.target);
    assert LiveRelation(after, id);
    IdentityLookup(after, id);
  }

  lemma EvidenceKeepsInv(db: Db, r: Resolver, chunk: Id, i: Identity)
    requires EvidenceReady(db, r, chunk, i)
    ensures Inv(Evidenced(db, r, chunk, i))
  {
    EvidenceKeepsRows(db, r, chunk, i);
    var after := Evidenced(db, r, chunk, i);
    var id := EvidencedId(db, r, i);
    forall e | LiveEntity(after, e) ensures SupportedEntity(after, e) {
      assert LiveEntity(db, e) && SupportedEntity(db, e);
      var m :| m in db.mentions && m.entity == e && LiveChunk(db, m.chunk);
      assert m in after.mentions && LiveChunk(after, m.chunk);
    }
    forall x | LiveRelation(after, x) ensures SupportedRelation(after, x) {
      if x == id {
        assert Evidence(id, chunk) in after.evidence && LiveChunk(after, chunk);
      } else {
        assert LiveRelation(db, x) && SupportedRelation(db, x);
        var v :| v in db.evidence && v.relation == x && LiveChunk(db, v.chunk);
        assert v in after.evidence && LiveChunk(after, v.chunk);
      }
    }
  }

  /** One relation written at `id` and evidence for it in `chunk` added; all else as before. */
  ghost predicate EvidenceStep(db: Db, after: Db, i: Identity, id: Id, chunk: Id) {
    && UniqueKeys(db) && UniqueKeys(after) && UniqueIdentities(db) && UniqueIdentities(after)
    && Evolves(db, after) && after.entities == db.entities && after.mentions == db.mentions
    && after.evidence == db.evidence + {Evidence(id, chunk)}
    && (forall x :: x in after.relations ==> x in db.relations || x == id)
    && (forall v :: v in db.evidence ==> v.relation in db.relations)
    && HasIdentity(after, i) && RelationOf(after, i) == id
  }

  lemma EvidenceTakesStep(db: Db, r: Resolver, chunk: Id, i: Identity)
    requires EvidenceReady(db, r, chunk, i)
    ensures EvidenceStep(db, Evidenced(db, r, chunk, i), i, EvidencedId(db, r, i), chunk)
  {
    EvidenceKeepsRows(db, r, chunk, i);
  }

  /** An evidence operation leaves every key and mention as they were. */
  lemma EvidenceKeepsKeys(db: Db, after: Db, i: Identity, id: Id, chunk: Id, k: Key, c: Id)
    requires EvidenceStep(db, after, i, id, chunk)
    ensures ActiveByKey(after, k) == ActiveByKey(db, k) && (KeyMentioned(after, k, c) <==> KeyMentioned(db, k, c))
  {
    if HasKey(db, k) {
      KeysStay(db, after, k);
    } else {
      assert forall e :: LiveEntity(after, e) <==> LiveEntity(db, e);
    }
  }

  /** An active relation has one identity. */
  lemma OneIdentity(db: Db, i: Identity, j: Identity)
    requires HasIdentity(db, i) && HasIdentity(db, j) && RelationOf(db, i) == RelationOf(db, j)
    ensures i == j
  {
    var id := RelationOf(db, i);
    assert db.entities[db.relations[id].source].key == i.source == j.source;
    assert db.entities[db.relations[id].target].key == i.target == j.target;
  }

  /** An evidence operation adds its identity, and no other. */
  lemma EvidenceAddsIdentity(db: Db, after: Db, i: Identity, id: Id, chunk: Id, j: Identity)
    requires EvidenceStep(db, after, i, id, chunk)
    ensures HasIdentity(after, j) <==> HasIdentity(db, j) || j == i
    ensures HasIdentity(db, j) ==> RelationOf(after, j) == RelationOf(db, j)
  {
    if HasIdentity(db, j) {
      IdentitiesStay(db, after, j);
    } else if HasIdentity(after, j) {
      EvidenceKeepsKeys(db, after, i, id, chunk, j.source, chunk);
      EvidenceKeepsKeys(db, after, i, id, chunk, j.target, chunk);
      var x := RelationOf(after, j);
      if x == id {
        OneIdentity(after, i, j);
      } else {
        assert LiveRelation(db, x);
        IdentityLookup(db, x);
      }
    }
  }

  /** An evidence operation adds its evidence, and no other. */
  lemma EvidenceAddsEvidence(db: Db, after: Db, i: Identity, id: Id, chunk: Id, j: Identity, c: Id)
    requires EvidenceStep(db, after, i, id, chunk)
    ensures IdentityEvidenced(after, j, c) <==> IdentityEvidenced(db, j, c) || (j == i && c == chunk)
  {
    EvidenceAddsIdentity(db, after, i, id, chunk, j);
    if HasIdentity(after, j) {
      var x := RelationOf(after, j);
      if x == id {
        OneIdentity(after, i, j);
      }
      if !HasIdentity(db, j) && id in db.relations {
        assert LiveRelation(db, id);
        IdentityLookup(db, id);
        EvidenceKeepsKeys(db, after, i, id, chunk, j.source, chunk);
        EvidenceKeepsKeys(db, after, i, id, chunk, j.target, chunk);
      }
    }
  }

  lemma StepKeepsPlans(db: Db, after: Db, r: Resolver, i: Identity, id: Id, chunk: Id)
    requires EvidenceStep(db, after, i, id, chunk) && PlansFit(db, r) && i in r.relations
    requires HasIdentity(db, i) || id == r.relations[i].id
    ensures PlansFit(after, r)
  {
    forall k: Key ensures HasKey(after, k) <==> HasKey(db, k) {
      EvidenceKeepsKeys(db, after, i, id, chunk, k, chunk);
    }
    forall j | j in r.relations && !HasIdentity(after, j)
      ensures !HasIdentity(db, j) && r.relations[j].id !in after.relations && r.relations[j].id < after.next
    {
      EvidenceAddsIdentity(db, after, i, id, chunk, j);
      EvidenceAddsIdentity(db, after, i, id, chunk, i);
    }
  }

  lemma EvidenceKeepsPlans(db: Db, r: Resolver, chunk: Id, i: Identity)
    requires EvidenceReady(db, r, chunk, i) && EntityPlansFit(db, r)
    ensures PlansFit(Evidenced(db, r, chunk, i), r)
  {
    EvidenceTakesStep(db, r, chunk, i);
    StepKeepsPlans(db, Evidenced(db, r, chunk, i), r, i, EvidencedId(db, r, i), chunk);
  }
}
