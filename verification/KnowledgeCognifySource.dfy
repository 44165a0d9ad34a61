/** One source's transaction: the fold over its operations, its closing writes, and its commands. */
module KnowledgeCognifySource {
  import opened Wrappers
  import opened Ordering
  import opened GraphProjection
  import opened KnowledgeStore
  import opened KnowledgeForget
  import opened KnowledgeCognify
  import opened KnowledgeCognifySafety

  /* ----- what a plan must fit ----- */

  ghost predicate OpsKnown(r: Resolver, ops: seq<Op>) {
    forall j :: 0 <= j < |ops| ==> OpKnown(r, ops[j])
  }

  predicate OpKnown(r: Resolver, op: Op) {
    match op
    case MentionOp(_, e) => e.key in r.entities
    case EvidenceOp(_, i, _) => i in r.relations
  }

  predicate OwnChunk(db: Db, source: Id, chunk: Id) {
    LiveChunk(db, chunk) && db.chunks[chunk].source == source
  }

  /** New rows are active chunks of the plan's document, which has none yet, with ids no chunk uses. */
  ghost predicate AddedFits(db: Db, plan: SourcePlan) {
    && (forall id :: id in plan.added ==> id !in db.chunks && id < db.next)
    && (forall id :: id in plan.added ==>
          plan.added[id].document == plan.document && plan.added[id].source == plan.source && plan.added[id].active)
    && (forall a, b :: a in plan.added && b in plan.added && plan.added[a].ordinal == plan.added[b].ordinal ==> a == b)
    && (plan.added.Keys == {} || forall id :: id in db.chunks ==> db.chunks[id].document != plan.document)
  }

  ghost predicate PlanFits(db: Db, r: Resolver, plan: SourcePlan) {
    && plan.source in db.sources
    && plan.document in db.documents && db.documents[plan.document].active
    && db.documents[plan.document].source == plan.source
    && AddedFits(db, plan) && Grounded(plan.ops) && OpsKnown(r, plan.ops)
    && (forall j :: 0 <= j < |plan.ops| ==> OwnChunk(WithAdded(db, plan), plan.source, plan.ops[j].chunk))
  }

  lemma SameLookups(a: Db, b: Db, k: Key, i: Identity)
    requires a.entities == b.entities && a.relations == b.relations
    ensures ActiveByKey(a, k) == ActiveByKey(b, k) && (HasIdentity(a, i) <==> HasIdentity(b, i))
    ensures HasIdentity(a, i) ==> RelationOf(a, i) == RelationOf(b, i)
  {
    assert EntitiesWithKey(a, k) == EntitiesWithKey(b, k);
    assert EntitiesWithKey(a, i.source) == EntitiesWithKey(b, i.source);
    assert EntitiesWithKey(a, i.target) == EntitiesWithKey(b, i.target);
    if HasKey(a, i.source) && HasKey(a, i.target) {
      var source, target := ActiveByKey(a, i.source).value, ActiveByKey(a, i.target).value;
      assert RelationsIdentified(a, source, target, i.predicateName)
          == RelationsIdentified(b, source, target, i.predicateName);
    }
  }

  lemma SamePlansFit(a: Db, b: Db, r: Resolver)
    requires a.entities == b.entities && a.relations == b.relations && a.next <= b.next && PlansFit(a, r)
    ensures PlansFit(b, r)
  {
    forall k: Key ensures HasKey(a, k) <==> HasKey(b, k) {
      SameLookups(a, b, k, Identity(k, k, ""));
    }
    assert EntityPlansFit(b, r);
    forall i: Identity ensures HasIdentity(a, i) <==> HasIdentity(b, i) {
      SameLookups(a, b, i.source, i);
    }
    assert RelationPlansFit(b, r);
  }

  /** Rows that agree on the graph and keep active chunks supported the same way. */
  lemma StillSupported(a: Db, b: Db)
    requires ActiveIsSupported(a) && a.entities == b.entities && a.relations == b.relations
    requires a.mentions == b.mentions && a.evidence == b.evidence
    requires forall c :: LiveChunk(a, c) ==> LiveChunk(b, c)
    ensures ActiveIsSupported(b)
  {
    forall e | LiveEntity(b, e) ensures SupportedEntity(b, e) {
      assert LiveEntity(a, e) && SupportedEntity(a, e);
    }
    forall x | LiveRelation(b, x) ensures SupportedRelation(b, x) {
      assert LiveRelation(a, x) && SupportedRelation(a, x);
    }
  }

  lemma SameGraphKeepsRows(a: Db, b: Db)
    requires RowsOk(a) && a.entities == b.entities && a.relations == b.relations
    requires a.mentions == b.mentions && a.evidence == b.evidence
    ensures UniqueKeys(b) && UniqueIdentities(b) && UniqueMentions(b) && RelationsAttached(b) && EvidenceIsMentioned(b)
  {
    SameEntitiesStayUnique(a, b);
    SameRelationsStayUnique(a, b);
    StillAttached(a, b);
    StillMentioned(a, b);
  }

  lemma AddedKeepsInv(db: Db, r: Resolver, plan: SourcePlan)
    requires Inv(db) && PlanFits(db, r, plan)
    ensures Inv(WithAdded(db, plan))
  {
    var after := WithAdded(db, plan);
    SameGraphKeepsRows(db, after);
    StillSupported(db, after);
    AddedKeepsChunks(db, r, plan);
  }

  lemma AddedKeepsChunks(db: Db, r: Resolver, plan: SourcePlan)
    requires Inv(db) && PlanFits(db, r, plan)
    ensures var after := WithAdded(db, plan);
            RefsOk(after) && IdsBelow(after) && UniqueOrdinals(after) && ChunksFollowDocuments(after)
  {
    var after := WithAdded(db, plan);
    assert forall a, b :: a in plan.added && b in db.chunks ==> !SameOrdinal(plan.added[a], db.chunks[b]);
  }

  /* ----- the fold over operations ----- */

  /** What `w` gathered for its commands is exactly what it wrote since `start`. */
  ghost predicate Gathered(start: Db, w: Work, source: Id) {
    && (forall id :: id in w.entities ==> LiveEntity(w.db, id))
    && (forall id :: id in w.db.entities ==> id in start.entities || id in w.entities)
    && (forall id :: id in w.relations ==> LiveRelation(w.db, id))
    && (forall id :: id in w.db.relations ==> id in start.relations || id in w.relations)
    && w.db.mentions == start.mentions + w.mentions
    && (forall m :: m in w.mentions ==> m.entity in w.entities && OwnChunk(w.db, source, m.chunk))
    && (forall v :: v in w.db.evidence ==> v in start.evidence || v.relation in w.relations)
  }

  ghost predicate WorkOk(start: Db, w: Work, r: Resolver, source: Id) {
    Inv(w.db) && PlansFit(w.db, r) && Evolves(start, w.db) && Gathered(start, w, source)
  }

  lemma EvolvesTransitive(a: Db, b: Db, c: Db)
    requires Evolves(a, b) && Evolves(b, c)
    ensures Evolves(a, c)
  {
    forall id | id in a.relations ensures id in c.relations && SameIdentity(c.relations[id], a.relations[id]) {
      assert SameIdentity(b.relations[id], a.relations[id]) && SameIdentity(c.relations[id], b.relations[id]);
    }
  }

  lemma MentionKeepsWork(start: Db, w: Work, r: Resolver, source: Id, chunk: Id, key: Key)
    requires WorkOk(start, w, r, source) && key in r.entities && OwnChunk(w.db, source, chunk)
    ensures var after := ApplyMention(w, chunk, key, r.entities[key]);
            after.db == Mentioned(w.db, r, chunk, key) && WorkOk(start, after, r, source)
  {
    var after := ApplyMention(w, chunk, key, r.entities[key]);
    MentionKeepsRows(w.db, r, chunk, key);
    MentionKeepsInv(w.db, r, chunk, key);
    MentionKeepsPlans(w.db, r, chunk, key);
    EvolvesTransitive(start, w.db, after.db);
    MentionGathers(start, w, r, source, chunk, key);
  }

  lemma MentionGathers(start: Db, w: Work, r: Resolver, source: Id, chunk: Id, key: Key)
    requires Gathered(start, w, source) && key in r.entities && OwnChunk(w.db, source, chunk)
    requires Evolves(w.db, Mentioned(w.db, r, chunk, key))
    requires ActiveByKey(Mentioned(w.db, r, chunk, key), key) == Some(EntityRow(w.db, key, r.entities[key]).0)
    ensures Gathered(start, ApplyMention(w, chunk, key, r.entities[key]), source)
  {
    var after := ApplyMention(w, chunk, key, r.entities[key]);
    var id := EntityRow(w.db, key, r.entities[key]).0;
    assert after.db.mentions == start.mentions + after.mentions;
    assert forall e :: e in after.entities <==> e in w.entities || e == id;
    forall m | m in after.mentions ensures m.entity in after.entities && OwnChunk(after.db, source, m.chunk) {
      assert m in w.mentions || (m.entity == id && m.chunk == chunk);
    }
    forall e | e in after.entities ensures LiveEntity(after.db, e) {
      assert e == id || LiveEntity(w.db, e);
    }
  }

  lemma EvidenceKeepsWork(start: Db, w: Work, r: Resolver, source: Id, chunk: Id, i: Identity)
    requires WorkOk(start, w, r, source) && EvidenceReady(w.db, r, chunk, i)
    ensures var after := ApplyEvidence(w, chunk, ActiveByKey(w.db, i.source).value, ActiveByKey(w.db, i.target).value,
                                       i.predicateName, r.relations[i]);
            after.db == Evidenced(w.db, r, chunk, i) && WorkOk(start, after, r, source)
  {
    var after := ApplyEvidence(w, chunk, ActiveByKey(w.db, i.source).value, ActiveByKey(w.db, i.target).value,
                               i.predicateName, r.relations[i]);
    EvidenceKeepsRows(w.db, r, chunk, i);
    EvidenceKeepsInv(w.db, r, chunk, i);
    EvidenceKeepsPlans(w.db, r, chunk, i);
    EvolvesTransitive(start, w.db, after.db);
    EvidenceGathers(start, w, r, source, chunk, i);
  }

  lemma EvidenceGathers(start: Db, w: Work, r: Resolver, source: Id, chunk: Id, i: Identity)
    requires Gathered(start, w, source) && i in r.relations && HasKey(w.db, i.source) && HasKey(w.db, i.target)
    requires Evolves(w.db, Evidenced(w.db, r, chunk, i))
             && LiveRelation(Evidenced(w.db, r, chunk, i), EvidencedId(w.db, r, i))
    ensures Gathered(start, ApplyEvidence(w, chunk, ActiveByKey(w.db, i.source).value,
            ActiveByKey(w.db, i.target).value,
                                          i.predicateName, r.relations[i]), source)
  {
    var after := ApplyEvidence(w, chunk, ActiveByKey(w.db, i.source).value, ActiveByKey(w.db, i.target).value,
                               i.predicateName, r.relations[i]);
    var id := EvidencedId(w.db, r, i);
    assert forall x :: x in after.relations <==> x in w.relations || x == id;
    forall x | x in after.relations ensures LiveRelation(after.db, x) {
      assert x == id || LiveRelation(w.db, x);
    }
    forall m | m in after.mentions ensures m.entity in after.entities && OwnChunk(after.db, source, m.chunk) {
      assert m in w.mentions;
    }
    forall e | e in after.entities ensures LiveEntity(after.db, e) {
      assert LiveEntity(w.db, e);
    }
  }

  lemma ReadyKeepsWork(start: Db, w: Work, r: Resolver, source: Id, op: Op)
    requires WorkOk(start, w, r, source) && Ready(w.db, r, op) && OwnChunk(w.db, source, op.chunk)
    ensures Applicable(w.db, r, op) && WorkOk(start, ApplyOp(w, r, op), r, source)
  {
    match op
    case MentionOp(chunk, e) => MentionKeepsWork(start, w, r, source, chunk, e.key);
    case EvidenceOp(chunk, i, _) => EvidenceKeepsWork(start, w, r, source, chunk, i);
  }

  /* ----- what the operations contribute ----- */

  ghost predicate OpsHaveKey(ops: seq<Op>, n: nat, key: Key) {
    exists j :: 0 <= j < n && j < |ops| && ops[j].MentionOp? && ops[j].entity.key == key
  }

  ghost predicate OpsHaveIdentity(ops: seq<Op>, n: nat, i: Identity) {
    exists j :: 0 <= j < n && j < |ops| && ops[j].EvidenceOp? && ops[j].identity == i
  }

  ghost predicate EvidencedBefore(ops: seq<Op>, n: nat, i: Identity, chunk: Id) {
    exists j :: 0 <= j < n && j < |ops| && ops[j].EvidenceOp? && ops[j].identity == i && ops[j].chunk == chunk
  }

  lemma OneMoreOp(ops: seq<Op>, n: nat, key: Key, i: Identity, chunk: Id)
    requires 0 < n <= |ops|
    ensures var op := ops[n - 1];
            && (OpsHaveKey(ops, n, key) <==> OpsHaveKey(ops, n - 1, key) || (op.MentionOp? && op.entity.key == key))
            && (MentionedBefore(ops, n, key, chunk) <==>
                  MentionedBefore(ops, n - 1, key, chunk)
                      || (op.MentionOp? && op.entity.key == key && op.chunk == chunk))
            && (OpsHaveIdentity(ops, n, i) <==> OpsHaveIdentity(ops, n - 1, i) || (op.EvidenceOp? && op.identity == i))
            && (EvidencedBefore(ops, n, i, chunk) <==>
                  EvidencedBefore(ops, n - 1, i, chunk) || (op.EvidenceOp? && op.identity == i && op.chunk == chunk))
  {
  }

  /** The keys and mentions after one operation. */
  lemma OpAddsKeys(w: Work, r: Resolver, op: Op, k: Key, c: Id)
    requires Inv(w.db) && PlansFit(w.db, r) && Ready(w.db, r, op)
    ensures var after := ApplyOp(w, r, op).db;
            && (HasKey(after, k) <==> HasKey(w.db, k) || (op.MentionOp? && op.entity.key == k))
            && (KeyMentioned(after, k, c) <==>
               KeyMentioned(w.db, k, c) || (op.MentionOp? && op.entity.key == k && op.chunk == c))
  {
    match op
    case MentionOp(chunk, e) => MentionEffect(w.db, r, chunk, e.key, k, c);
    case EvidenceOp(chunk, i, _) =>
      EvidenceTakesStep(w.db, r, chunk, i);
      EvidenceKeepsKeys(w.db, Evidenced(w.db, r, chunk, i), i, EvidencedId(w.db, r, i), chunk, k, c);
  }

  /** The identities and evidence after one operation. */
  lemma OpAddsIdentities(w: Work, r: Resolver, op: Op, i: Identity, c: Id)
    requires Inv(w.db) && PlansFit(w.db, r) && Ready(w.db, r, op)
    ensures var after := ApplyOp(w, r, op).db;
            && (HasIdentity(after, i) <==> HasIdentity(w.db, i) || (op.EvidenceOp? && op.identity == i))
            && (IdentityEvidenced(after, i, c) <==>
                  IdentityEvidenced(w.db, i, c) || (op.EvidenceOp? && op.identity == i && op.chunk == c))
  {
    match op
    case MentionOp(chunk, e) => MentionKeepsIdentities(w.db, r, chunk, e.key, i, c);
    case EvidenceOp(chunk, j, _) =>
      EvidenceTakesStep(w.db, r, chunk, j);
      EvidenceAddsIdentity(w.db, Evidenced(w.db, r, chunk, j), j, EvidencedId(w.db, r, j), chunk, i);
      EvidenceAddsEvidence(w.db, Evidenced(w.db, r, chunk, j), j, EvidencedId(w.db, r, j), chunk, i, c);
  }

  ghost predicate SourceReady(db: Db, r: Resolver, plan: SourcePlan) {
    Inv(db) && PlansFit(db, r) && PlanFits(db, r, plan)
  }

  /** Every mention seen so far is a row. */
  ghost predicate AllMentioned(db: Db, ops: seq<Op>, n: nat) {
    forall k, c :: MentionedBefore(ops, n, k, c) ==> KeyMentioned(db, k, c)
  }

  /** The work of a fitting plan after its first `n` operations. */
  ghost predicate SourceState(db: Db, r: Resolver, plan: SourcePlan, w: Work, n: nat) {
    WorkOk(WithAdded(db, plan), w, r, plan.source) && AllMentioned(w.db, plan.ops, n)
  }

  lemma StartState(db: Db, r: Resolver, plan: SourcePlan)
    requires SourceReady(db, r, plan)
    ensures SourceState(db, r, plan, StartWork(db, plan), 0)
  {
    AddedKeepsInv(db, r, plan);
    SamePlansFit(db, WithAdded(db, plan), r);
  }

  lemma NextIsReady(db: Db, r: Resolver, plan: SourcePlan, w: Work, n: nat)
    requires SourceReady(db, r, plan) && n < |plan.ops| && SourceState(db, r, plan, w, n)
    ensures Ready(w.db, r, plan.ops[n]) && OwnChunk(w.db, plan.source, plan.ops[n].chunk)
  {
    var op := plan.ops[n];
    assert OpKnown(r, op) && OwnChunk(WithAdded(db, plan), plan.source, op.chunk);
    if op.EvidenceOp? {
      assert MentionedBefore(plan.ops, n, op.identity.source, op.chunk)
          && MentionedBefore(plan.ops, n, op.identity.target, op.chunk);
    }
  }

  lemma NextState(db: Db, r: Resolver, plan: SourcePlan, w: Work, n: nat)
    requires SourceReady(db, r, plan) && n < |plan.ops| && SourceState(db, r, plan, w, n)
    ensures SourceState(db, r, plan, ApplyOp(w, r, plan.ops[n]), n + 1)
  {
    var op := plan.ops[n];
    NextIsReady(db, r, plan, w, n);
    var after := ApplyOp(w, r, op);
    assert WorkOk(WithAdded(db, plan), after, r, plan.source) by {
      ReadyKeepsWork(WithAdded(db, plan), w, r, plan.source, op);
    }
    forall k, c | MentionedBefore(plan.ops, n + 1, k, c) ensures KeyMentioned(after.db, k, c) {
      OneMoreOp(plan.ops, n + 1, k, Identity(k, k, ""), c);
      OpAddsKeys(w, r, op, k, c);
    }
  }

  /** Every operation of a fitting plan is applicable when its turn comes, and keeps the work in order. */
  lemma {:induction false} ApplyFromKeepsState(db: Db, r: Resolver, plan: SourcePlan, w: Work, n: nat)
    requires SourceReady(db, r, plan) && n <= |plan.ops| && SourceState(db, r, plan, w, n)
    ensures SourceState(db, r, plan, ApplyFrom(w, r, plan.ops, n), |plan.ops|)
    decreases |plan.ops| - n
  {
    if n < |plan.ops| {
      NextState(db, r, plan, w, n);
      ApplyFromKeepsState(db, r, plan, ApplyOp(w, r, plan.ops[n]), n + 1);
    }
  }

  /** `after` has the keys, mentions, identities and evidence of `db` and those of the first `n` operations. */
  ghost predicate AddsOps(db: Db, after: Db, ops: seq<Op>, n: nat, k: Key, i: Identity, c: Id) {
    && (HasKey(after, k) <==> HasKey(db, k) || OpsHaveKey(ops, n, k))
    && (KeyMentioned(after, k, c) <==> KeyMentioned(db, k, c) || MentionedBefore(ops, n, k, c))
    && (HasIdentity(after, i) <==> HasIdentity(db, i) || OpsHaveIdentity(ops, n, i))
    && (IdentityEvidenced(after, i, c) <==> IdentityEvidenced(db, i, c) || EvidencedBefore(ops, n, i, c))
  }

  lemma AddsOneOp(db: Db, w: Work, r: Resolver, ops: seq<Op>, n: nat, k: Key, i: Identity, c: Id)
    requires n < |ops| && AddsOps(db, w.db, ops, n, k, i, c)
    requires Inv(w.db) && PlansFit(w.db, r) && Ready(w.db, r, ops[n])
    ensures AddsOps(db, ApplyOp(w, r, ops[n]).db, ops, n + 1, k, i, c)
  {
    OneMoreOp(ops, n + 1, k, i, c);
    OpAddsKeys(w, r, ops[n], k, c);
    OpAddsIdentities(w, r, ops[n], i, c);
  }

  lemma NextAdds(db: Db, r: Resolver, plan: SourcePlan, w: Work, n: nat, k: Key, i: Identity, c: Id)
    requires SourceReady(db, r, plan) && n < |plan.ops| && SourceState(db, r, plan, w, n)
    requires AddsOps(db, w.db, plan.ops, n, k, i, c)
    ensures var next := ApplyOp(w, r, plan.ops[n]);
            SourceState(db, r, plan, next, n + 1) && AddsOps(db, next.db, plan.ops, n + 1, k, i, c)
  {
    NextState(db, r, plan, w, n);
    assert AddsOps(db, ApplyOp(w, r, plan.ops[n]).db, plan.ops, n + 1, k, i, c) by {
      NextIsReady(db, r, plan, w, n);
      AddsOneOp(db, w, r, plan.ops, n, k, i, c);
    }
  }

  lemma {:induction false} ApplyFromAdds(
    db: Db, r: Resolver, plan: SourcePlan, w: Work, n: nat, k: Key, i: Identity, c: Id)
    requires SourceReady(db, r, plan) && n <= |plan.ops| && SourceState(db, r, plan, w, n)
    requires AddsOps(db, w.db, plan.ops, n, k, i, c)
    ensures AddsOps(db, ApplyFrom(w, r, plan.ops, n).db, plan.ops, |plan.ops|, k, i, c)
    decreases |plan.ops| - n
  {
    if n < |plan.ops| {
      NextAdds(db, r, plan, w, n, k, i, c);
      ApplyFromAdds(db, r, plan, ApplyOp(w, r, plan.ops[n]), n + 1, k, i, c);
    }
  }

  /** A source's transaction adds exactly the keys, mentions, identities and evidence of its operations. */
  lemma SourceAdds(db: Db, r: Resolver, plan: SourcePlan, k: Key, i: Identity, c: Id)
    requires SourceReady(db, r, plan)
    ensures AddsOps(db, SourceWork(db, r, plan).db, plan.ops, |plan.ops|, k, i, c)
  {
    StartState(db, r, plan);
    SameLookups(db, WithAdded(db, plan), k, i);
    ApplyFromAdds(db, r, plan, StartWork(db, plan), 0, k, i, c);
  }

  lemma SourceKeepsState(db: Db, r: Resolver, plan: SourcePlan)
    requires SourceReady(db, r, plan)
    ensures SourceState(db, r, plan, SourceWork(db, r, plan), |plan.ops|)
  {
    StartState(db, r, plan);
    ApplyFromKeepsState(db, r, plan, StartWork(db, plan), 0);
  }

  /* ----- the commands of one source ----- */

  ghost predicate UpsertsExactly(
      db: Db, commands: seq<Command>, entities: seq<Id>, chunks: seq<Id>, mentions: seq<Mention>,
                                 relations: seq<Id>, edges: seq<NextEdge>) {
    && (forall id :: UpsertEntity(id) in commands <==> id in entities)
    && (forall id :: UpsertChunk(id) in commands <==> id in chunks)
    && (forall m :: UpsertMention(m) in commands <==> m in mentions)
    && (forall r :: UpsertRelation(r) in commands <==>
       r.id in relations && r.id in db.relations && r == EdgeOf(db, r.id))
    && (forall e :: UpsertNext(e) in commands <==> e in edges)
  }

  lemma UpsertParts(
    db: Db, nodes: seq<Command>, c: seq<Command>, d: seq<Command>, e: seq<Command>,
    entities: seq<Id>, chunks: seq<Id>, mentions: seq<Mention>, relations: seq<Id>, edges: seq<NextEdge>)
    requires forall x :: x in nodes <==>
             (x.UpsertEntity? && x.entity in entities) || (x.UpsertChunk? && x.chunk in chunks)
    requires forall x :: x in c <==> x.UpsertMention? && x.mention in mentions
    requires forall x :: x in d <==>
               x.UpsertRelation? && x.relation.id in relations && x.relation.id in db.relations
                   && x.relation == EdgeOf(db, x.relation.id)
    requires forall x :: x in e <==> x.UpsertNext? && x.next in edges
    ensures UpsertsExactly(db, nodes + (c + d + e), entities, chunks, mentions, relations, edges)
  {
    var all := nodes + (c + d + e);
    assert forall x :: x in all <==> x in nodes || x in c || x in d || x in e;
  }

  lemma DistinctUpsertsExactly(db: Db, all: seq<Command>, entities: seq<Id>, chunks: seq<Id>, mentions: seq<Mention>,
                               relations: seq<Id>, edges: seq<NextEdge>)
    requires UpsertsExactly(db, all, entities, chunks, mentions, relations, edges)
    ensures UpsertsExactly(db, Distinct(all, |all|), entities, chunks, mentions, relations, edges)
  {
    assert all[..|all|] == all;
    var kept := Distinct(all, |all|);
    assert forall c :: c in kept <==> c in all;
  }

  lemma {:induction false} WrittenMembers(db: Db, ids: seq<Id>, id: Id)
    ensures id in Written(db, ids) <==> id in ids && id in db.relations
  {
    if ids != [] {
      WrittenMembers(db, ids[..|ids| - 1], id);
      assert ids == ids[..|ids| - 1] + [ids[|ids| - 1]];
    }
  }

  lemma RelationCommands(db: Db, ids: seq<Id>, commands: seq<Command>)
    requires commands == UpsertRelations(db, Written(db, ids))
    ensures forall x :: x in commands <==>
              x.UpsertRelation? && x.relation.id in ids && x.relation.id in db.relations
                  && x.relation == EdgeOf(db, x.relation.id)
  {
    forall id ensures id in Written(db, ids) <==> id in ids && id in db.relations {
      WrittenMembers(db, ids, id);
    }
  }

  lemma CognifyCommandsAre(w: Work, source: Id)
    ensures var listing := SourceListing(w.db, source);
            UpsertsExactly(w.db, CognifyCommands(w, source), w.entities, listing, w.mentions, w.relations,
                NextEdges(w.db.chunks, listing))
  {
    var listing := SourceListing(w.db, source);
    var edges := NextEdges(w.db.chunks, listing);
    var nodes, c := CognifyNodes(w, source), UpsertMentions(w.mentions);
    var d, e := UpsertRelations(w.db, Written(w.db, w.relations)), UpsertNexts(edges);
    RelationCommands(w.db, w.relations, d);
    UpsertParts(w.db, nodes, c, d, e, w.entities, listing, w.mentions, w.relations, edges);
    DistinctUpsertsExactly(w.db, nodes + (c + d + e), w.entities, listing, w.mentions, w.relations, edges);
  }

  /** An edge between gathered entities, the source's chunks, or entities already there. */
  ghost predicate Anchored(start: Db, w: Work, source: Id, c: Command) {
    match c
    case UpsertMention(m) => m.entity in w.entities && m.chunk in ChunksOf(w.db, source)
    case UpsertRelation(x) =>
      (x.source in w.entities || LiveEntity(start, x.source)) && (x.target in w.entities || LiveEntity(start, x.target))
    case UpsertNext(e) => e.from in ChunksOf(w.db, source) && e.to in ChunksOf(w.db, source)
    case _ => false
  }

  lemma AnchoredEndpoints(start: Db, w: Work, source: Id, p: Projection, c: Command)
    requires Anchored(start, w, source, c) && p.entities == LiveEntities(start)
    ensures IsUpsert(c) && EndpointsBy(p, CognifyNodes(w, source), |CognifyNodes(w, source)|, c)
  {
    var nodes := CognifyNodes(w, source);
    assert nodes[..|nodes|] == nodes;
    assert forall id :: id in w.entities ==> UpsertEntity(id) in nodes;
    assert forall id :: id in ChunksOf(w.db, source) ==> UpsertChunk(id) in nodes;
  }

  lemma MentionsAnchored(start: Db, w: Work, source: Id, c: Command)
    requires Gathered(start, w, source) && c in UpsertMentions(w.mentions)
    ensures Anchored(start, w, source, c)
  {
    assert c.mention in w.mentions;
  }

  lemma RelationsAnchored(start: Db, w: Work, source: Id, c: Command)
    requires RelationsAttached(w.db) && Evolves(start, w.db) && Gathered(start, w, source)
    requires c in UpsertRelations(w.db, Written(w.db, w.relations))
    ensures Anchored(start, w, source, c)
  {
    RelationCommands(w.db, w.relations, UpsertRelations(w.db, Written(w.db, w.relations)));
    var id := c.relation.id;
    assert LiveRelation(w.db, id) && ListedRelation(w.db, id);
  }

  lemma NextsAnchored(start: Db, w: Work, source: Id, c: Command)
    requires UniqueOrdinals(w.db) && c in UpsertNexts(NextEdges(w.db.chunks, SourceListing(w.db, source)))
    ensures Anchored(start, w, source, c)
  {
    var listing := SourceListing(w.db, source);
    assert DistinctOrdinals(w.db.chunks, listing);
    NextEdgesAreConsecutive(w.db.chunks, listing, c.next);
  }

  lemma EdgesAnchored(start: Db, w: Work, r: Resolver, source: Id, c: Command)
    requires WorkOk(start, w, r, source) && c in CognifyEdges(w, source)
    ensures Anchored(start, w, source, c)
  {
    if c in UpsertMentions(w.mentions) {
      MentionsAnchored(start, w, source, c);
    } else if c in UpsertRelations(w.db, Written(w.db, w.relations)) {
      RelationsAnchored(start, w, source, c);
    } else {
      NextsAnchored(start, w, source, c);
    }
  }

  /** In the gathered order every edge comes after its endpoints. */
  lemma CognifyCommandsOrdered(start: Db, w: Work, r: Resolver, source: Id, p: Projection)
    requires WorkOk(start, w, r, source) && p.entities == LiveEntities(start)
    ensures WellOrdered(p, CognifyCommands(w, source))
  {
    var nodes, edges := CognifyNodes(w, source), CognifyEdges(w, source);
    forall c | c in edges ensures IsUpsert(c) && EndpointsBy(p, nodes, |nodes|, c) {
      EdgesAnchored(start, w, r, source, c);
      AnchoredEndpoints(start, w, source, p, c);
    }
    NodesBeforeEdges(p, nodes, edges);
    DistinctStaysOrdered(p, nodes + edges, |nodes + edges|);
  }

  /* ----- the projection of one source's commands ----- */

  lemma SourceWorkOk(db: Db, r: Resolver, plan: SourcePlan)
    requires SourceReady(db, r, plan)
    ensures WorkOk(WithAdded(db, plan), SourceWork(db, r, plan), r, plan.source)
  {
    SourceKeepsState(db, r, plan);
  }

  /**
   Replayed on a projection in step with the rows before, a source's commands bring it in step with the rows after.
  */
  lemma CognifyProjects(db: Db, r: Resolver, plan: SourcePlan, w: Work)
    requires SourceReady(db, r, plan) && WorkOk(WithAdded(db, plan), w, r, plan.source)
    ensures var commands := CognifyCommands(w, plan.source);
            Replay(Expected(db), commands, |commands|) == Some(Expected(w.db))
  {
    var commands := CognifyCommands(w, plan.source);
    CognifyCommandsOrdered(WithAdded(db, plan), w, r, plan.source, Expected(db));
    ReplayUpserts(Expected(db), commands, |commands|);
    assert commands[..|commands|] == commands;
    AddsAreExpected(db, r, plan, w, commands, Replay(Expected(db), commands, |commands|).value);
  }

  lemma AddsAreExpected(db: Db, r: Resolver, plan: SourcePlan, w: Work, commands: seq<Command>, p: Projection)
    requires SourceReady(db, r, plan) && WorkOk(WithAdded(db, plan), w, r, plan.source)
    requires commands == CognifyCommands(w, plan.source) && Adds(Expected(db), commands, p)
    ensures p == Expected(w.db)
  {
    CognifyCommandsAre(w, plan.source);
    AddedNodes(db, plan, w, r, commands, p);
    AddedMentions(db, plan, w, r, commands, p);
    AddedRelations(db, plan, w, r, commands, p);
    AddedNexts(db, plan, w, commands, p);
  }

  ghost predicate CommandsOf(w: Work, source: Id, commands: seq<Command>) {
    var listing := SourceListing(w.db, source);
    UpsertsExactly(w.db, commands, w.entities, listing, w.mentions, w.relations, NextEdges(w.db.chunks, listing))
  }

  lemma AddedNodes(db: Db, plan: SourcePlan, w: Work, r: Resolver, commands: seq<Command>, p: Projection)
    requires Evolves(WithAdded(db, plan), w.db) && Gathered(WithAdded(db, plan), w, plan.source)
    requires CommandsOf(w, plan.source, commands) && Adds(Expected(db), commands, p)
    requires forall id :: id in plan.added ==>
             id !in db.chunks && plan.added[id].active && plan.added[id].source == plan.source
    ensures p.entities == Expected(w.db).entities && p.chunks == Expected(w.db).chunks
  {
    forall id: Id ensures id in p.entities <==> id in Expected(w.db).entities {
      assert id in w.entities ==> LiveEntity(w.db, id);
    }
    forall id: Id ensures id in p.chunks <==> id in Expected(w.db).chunks {
      assert id in SourceListing(w.db, plan.source) <==> id in ChunksOf(w.db, plan.source);
    }
  }

  lemma AddedMentions(db: Db, plan: SourcePlan, w: Work, r: Resolver, commands: seq<Command>, p: Projection)
    requires WorkOk(WithAdded(db, plan), w, r, plan.source) && CommandsOf(w, plan.source, commands)
    requires Adds(Expected(db), commands, p) && RefsOk(db)
    requires forall id :: id in plan.added ==> id !in db.chunks
    ensures p.mentions == Expected(w.db).mentions
  {
    forall m ensures m in p.mentions <==> m in Expected(w.db).mentions {
      assert m in w.db.mentions <==> m in db.mentions || m in w.mentions;
      if m in db.mentions {
        assert m.entity in db.entities && m.chunk in db.chunks;
        assert LiveEntity(w.db, m.entity) <==> LiveEntity(db, m.entity);
        assert LiveChunk(w.db, m.chunk) <==> LiveChunk(db, m.chunk);
      }
      if m in w.mentions {
        assert LiveEntity(w.db, m.entity) && LiveChunk(w.db, m.chunk);
      }
    }
  }

  lemma AddedRelations(db: Db, plan: SourcePlan, w: Work, r: Resolver, commands: seq<Command>, p: Projection)
    requires WorkOk(WithAdded(db, plan), w, r, plan.source) && CommandsOf(w, plan.source, commands)
    requires Adds(Expected(db), commands, p) && RowsOk(db)
    ensures p.relations == Expected(w.db).relations
  {
    forall x ensures x in p.relations <==> x in Expected(w.db).relations {
      AddedRelation(db, plan, w, r, x);
    }
  }

  lemma AddedRelation(db: Db, plan: SourcePlan, w: Work, r: Resolver, x: RelationEdge)
    requires WorkOk(WithAdded(db, plan), w, r, plan.source) && RowsOk(db)
    ensures x in Expected(w.db).relations <==>
              x in Expected(db).relations || (x.id in w.relations && x.id in w.db.relations && x == EdgeOf(w.db, x.id))
  {
    assert x in Expected(db).relations <==> x.id in db.relations && ListedRelation(db, x.id) && x == EdgeOf(db, x.id);
    assert x in Expected(w.db).relations <==>
        x.id in w.db.relations && ListedRelation(w.db, x.id) && x == EdgeOf(w.db, x.id);
    assert LiveRelation(w.db, x.id) <==> ListedRelation(w.db, x.id);
    assert LiveRelation(db, x.id) <==> ListedRelation(db, x.id);
    assert x.id in w.relations ==> LiveRelation(w.db, x.id);
    if x.id in db.relations {
      assert SameIdentity(w.db.relations[x.id], db.relations[x.id]);
    }
  }

  /** New NEXT edges join chunks of the source, since a document's chunks are one source's. */
  lemma AddedNext(db: Db, after: Db, source: Id, added: map<Id, Chunk>, e: NextEdge)
    requires after.chunks == db.chunks + added && RefsOk(after)
    requires forall id :: id in added ==> id !in db.chunks && added[id].source == source
    ensures Consecutive(after, e) <==> Consecutive(db, e) || FollowsOn(after.chunks, SourceListing(after, source), e)
  {
    if Consecutive(after, e) && !Consecutive(db, e) {
      assert e.from in added || e.to in added;
      assert after.chunks[e.from].source == after.documents[after.chunks[e.from].document].source
          == after.chunks[e.to].source;
    }
  }

  lemma AddedNexts(db: Db, plan: SourcePlan, w: Work, commands: seq<Command>, p: Projection)
    requires CommandsOf(w, plan.source, commands) && Adds(Expected(db), commands, p)
    requires w.db.chunks == db.chunks + plan.added && RefsOk(w.db) && UniqueOrdinals(w.db)
    requires forall id :: id in plan.added ==> id !in db.chunks && plan.added[id].source == plan.source
    ensures p.next == Expected(w.db).next
  {
    var listing := SourceListing(w.db, plan.source);
    assert DistinctOrdinals(w.db.chunks, listing);
    forall e ensures e in p.next <==> e in Expected(w.db).next {
      NextEdgesAreConsecutive(w.db.chunks, listing, e);
      ExpectedNext(db, e);
      ExpectedNext(w.db, e);
      AddedNext(db, w.db, plan.source, plan.added, e);
    }
  }

  /* ----- closing a source's transaction ----- */

  /** Statuses, markers and the outbox aside, the same rows. */
  ghost predicate SameGraph(a: Db, b: Db) {
    && a.entities == b.entities && a.relations == b.relations && a.mentions == b.mentions && a.evidence == b.evidence
    && a.sources.Keys == b.sources.Keys && a.documents.Keys == b.documents.Keys && a.chunks.Keys == b.chunks.Keys
    && a.next <= b.next
    && (forall id :: id in a.documents ==>
       b.documents[id] == a.documents[id].(summarized := b.documents[id].summarized))
    && (forall id :: id in a.chunks ==> b.chunks[id] == a.chunks[id].(extracted := b.chunks[id].extracted))
  }

  lemma SameGraphKeepsInv(a: Db, b: Db)
    requires Inv(a) && SameGraph(a, b)
    ensures Inv(b)
  {
    SameGraphKeepsRows(a, b);
    StillSupported(a, b);
    assert RefsOk(b) && IdsBelow(b) && UniqueOrdinals(b) && ChunksFollowDocuments(b);
  }

  lemma SameGraphProjects(a: Db, b: Db)
    requires SameGraph(a, b)
    ensures Expected(a) == Expected(b)
  {
    assert LiveEntities(a) == LiveEntities(b);
    assert LiveChunks(a) == LiveChunks(b);
    forall m ensures m in Expected(a).mentions <==> m in Expected(b).mentions {
    }
    forall e ensures e in Expected(a).next <==> e in Expected(b).next {
      ExpectedNext(a, e);
      ExpectedNext(b, e);
    }
    assert Expected(a).relations == Expected(b).relations;
  }

  lemma FinishedSameGraph(w: Work, plan: SourcePlan)
    requires plan.source in w.db.sources
    ensures SameGraph(w.db, Finished(w, plan))
  {
    assert w.db.sources[plan.source := Active].Keys == w.db.sources.Keys;
  }

  /** A landed source keeps the invariant and the plans of the sources after it. */
  lemma PersistSourceKeeps(db: Db, r: Resolver, plan: SourcePlan)
    requires SourceReady(db, r, plan)
    ensures Inv(PersistSource(db, r, plan)) && PlansFit(PersistSource(db, r, plan), r)
  {
    var w := SourceWork(db, r, plan);
    SourceWorkOk(db, r, plan);
    FinishedSameGraph(w, plan);
    SameGraphKeepsInv(w.db, Finished(w, plan));
    SamePlansFit(w.db, Finished(w, plan), r);
  }

  /** A landed source's commands keep a projection in step with the rows. */
  lemma PersistSourceProjects(db: Db, r: Resolver, plan: SourcePlan)
    requires SourceReady(db, r, plan)
    ensures var after := PersistSource(db, r, plan);
            var commands := CognifyCommands(SourceWork(db, r, plan), plan.source);
            after.outbox == db.outbox + commands && Replay(Expected(db), commands, |commands|) == Some(Expected(after))
  {
    var w := SourceWork(db, r, plan);
    SourceWorkOk(db, r, plan);
    CognifyProjects(db, r, plan, w);
    FinishedSameGraph(w, plan);
    SameGraphProjects(w.db, Finished(w, plan));
  }

  /** A landed source adds exactly what its operations say. */
  lemma PersistSourceAdds(db: Db, r: Resolver, plan: SourcePlan, k: Key, i: Identity, c: Id)
    requires SourceReady(db, r, plan)
    ensures AddsOps(db, PersistSource(db, r, plan), plan.ops, |plan.ops|, k, i, c)
  {
    SourceAdds(db, r, plan, k, i, c);
    SameRowsAddOps(db, SourceWork(db, r, plan).db, PersistSource(db, r, plan), plan.ops, k, i, c);
  }

  lemma SameRowsAddOps(db: Db, a: Db, b: Db, ops: seq<Op>, k: Key, i: Identity, c: Id)
    requires a.entities == b.entities && a.relations == b.relations && a.mentions == b.mentions
             && a.evidence == b.evidence
    requires AddsOps(db, a, ops, |ops|, k, i, c)
    ensures AddsOps(db, b, ops, |ops|, k, i, c)
  {
    SameLookups(a, b, k, i);
  }
}
