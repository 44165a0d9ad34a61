/** A whole batch: what preparation guarantees, savepoint isolation, and the counters. */
module KnowledgeCognifyBatch {
  import opened Wrappers
  import opened Ordering
  import opened KnowledgeStore
  import opened KnowledgeForget
  import opened KnowledgeCognify
  import opened KnowledgeCognifySafety
  import opened KnowledgeCognifySource

  /* ----- preparation ----- */

  /** What the resolver says of a known key or identity agrees with the rows it was prepared against. */
  ghost predicate ResolverOk(db: Db, r: Resolver) {
    && db.next <= r.next && PlansFit(Reserved(db, r), r)
    && (forall k :: k in r.entities ==> EntityPlanOk(db, k, r.entities[k]))
    && (forall i :: i in r.relations ==>
          i.source in r.entities && i.target in r.entities && (r.relations[i].isNew <==> !HasIdentity(db, i)))
  }

  predicate EntityPlanOk(db: Db, k: Key, plan: PlannedEntity) {
    (plan.isNew <==> !HasKey(db, k)) && (HasKey(db, k) ==> ActiveByKey(db, k) == Some(plan.id))
  }

  /** A resolver that knows at least what another does. */
  ghost predicate Knows(more: Resolver, less: Resolver) {
    && (forall k :: k in less.entities ==> k in more.entities)
    && (forall i :: i in less.relations ==> i in more.relations)
    && less.next <= more.next
  }

  lemma ReservedSameLookups(db: Db, r: Resolver, k: Key, i: Identity)
    ensures (HasKey(Reserved(db, r), k) <==> HasKey(db, k)) && (HasIdentity(Reserved(db, r), i) <==> HasIdentity(db, i))
    ensures ActiveByKey(Reserved(db, r), k) == ActiveByKey(db, k)
  {
    SameLookups(db, Reserved(db, r), k, i);
  }

  lemma SeeEntityKeepsPlans(db: Db, r: Resolver, e: ExtractedEntity)
    requires IdsBelow(db) && ResolverOk(db, r)
    ensures var after := SeeEntity(db, r, e); EntityPlansFit(Reserved(db, after), after)
  {
    var after := SeeEntity(db, r, e);
    forall k | k in after.entities && !HasKey(Reserved(db, after), k)
      ensures after.entities[k].id !in db.entities && after.entities[k].id < after.next
    {
      ReservedSameLookups(db, after, k, Identity(k, k, ""));
      ReservedSameLookups(db, r, k, Identity(k, k, ""));
    }
    forall k, l | k in after.entities && l in after.entities && after.entities[k].id == after.entities[l].id
      ensures k == l || HasKey(Reserved(db, after), k) || HasKey(Reserved(db, after), l)
    {
      ReservedSameLookups(db, after, k, Identity(k, l, ""));
      ReservedSameLookups(db, after, l, Identity(k, l, ""));
      ReservedSameLookups(db, r, k, Identity(k, l, ""));
      ReservedSameLookups(db, r, l, Identity(k, l, ""));
    }
  }

  lemma SeeEntityKeepsResolver(db: Db, r: Resolver, e: ExtractedEntity)
    requires IdsBelow(db) && ResolverOk(db, r)
    ensures var after := SeeEntity(db, r, e); ResolverOk(db, after) && Knows(after, r)
  {
    var after := SeeEntity(db, r, e);
    SeeEntityKeepsPlans(db, r, e);
    RelationPlansGrow(db, r, after);
  }

  lemma RelationPlansGrow(db: Db, r: Resolver, after: Resolver)
    requires RelationPlansFit(Reserved(db, r), r) && after.relations == r.relations && r.next <= after.next
    ensures RelationPlansFit(Reserved(db, after), after)
  {
    forall i: Identity ensures HasIdentity(Reserved(db, after), i) <==> HasIdentity(Reserved(db, r), i) {
      ReservedSameLookups(db, after, i.source, i);
      ReservedSameLookups(db, r, i.source, i);
    }
  }

  lemma EntityPlansGrow(db: Db, r: Resolver, after: Resolver)
    requires EntityPlansFit(Reserved(db, r), r) && after.entities == r.entities && r.next <= after.next
    ensures EntityPlansFit(Reserved(db, after), after)
  {
    forall k: Key ensures HasKey(Reserved(db, after), k) <==> HasKey(Reserved(db, r), k) {
      ReservedSameLookups(db, after, k, Identity(k, k, ""));
      ReservedSameLookups(db, r, k, Identity(k, k, ""));
    }
  }

  /** A relation is planned as new exactly when no row has its identity. */
  lemma PlannedRelationIsNew(db: Db, r: Resolver, i: Identity, x: ExtractedRelation, newId: Id)
    requires ResolverOk(db, r) && i.source in r.entities && i.target in r.entities
    ensures PlanRelation(db, i, r.entities[i.source], r.entities[i.target], x, newId).isNew <==> !HasIdentity(db, i)
  {
    assert EntityPlanOk(db, i.source, r.entities[i.source]) && EntityPlanOk(db, i.target, r.entities[i.target]);
  }

  /** The id planned for an identity no row has: the one it had, or the next one. */
  lemma SeenRelationId(db: Db, r: Resolver, i: Identity, x: ExtractedRelation, j: Identity)
    requires IdsBelow(db) && ResolverOk(db, r) && i.source in r.entities && i.target in r.entities
    requires j in SeeRelation(db, r, i, x).relations && !HasIdentity(db, j)
    ensures var id := SeeRelation(db, r, i, x).relations[j].id;
            && id !in db.relations && id < SeeRelation(db, r, i, x).next
            && (if j in r.relations then id == r.relations[j].id && id < r.next else j == i && id == r.next)
  {
    ReservedSameLookups(db, r, j.source, j);
    PlannedRelationIsNew(db, r, i, x, r.next);
  }

  lemma SeeRelationKeepsPlans(db: Db, r: Resolver, i: Identity, x: ExtractedRelation)
    requires IdsBelow(db) && ResolverOk(db, r) && i.source in r.entities && i.target in r.entities
    ensures var after := SeeRelation(db, r, i, x); RelationPlansFit(Reserved(db, after), after)
  {
    var after := SeeRelation(db, r, i, x);
    forall j | j in after.relations && !HasIdentity(Reserved(db, after), j)
      ensures after.relations[j].id !in db.relations && after.relations[j].id < after.next
    {
      ReservedSameLookups(db, after, j.source, j);
      SeenRelationId(db, r, i, x, j);
    }
    forall j, l | j in after.relations && l in after.relations && after.relations[j].id == after.relations[l].id
      ensures j == l || HasIdentity(Reserved(db, after), j) || HasIdentity(Reserved(db, after), l)
    {
      SeenRelationIdsDiffer(db, r, i, x, j, l);
    }
  }

  lemma SeenRelationIdsDiffer(db: Db, r: Resolver, i: Identity, x: ExtractedRelation, j: Identity, l: Identity)
    requires IdsBelow(db) && ResolverOk(db, r) && i.source in r.entities && i.target in r.entities
    requires var after := SeeRelation(db, r, i, x);
             j in after.relations && l in after.relations && after.relations[j].id == after.relations[l].id
    ensures var after := SeeRelation(db, r, i, x);
            j == l || HasIdentity(Reserved(db, after), j) || HasIdentity(Reserved(db, after), l)
  {
    var after := SeeRelation(db, r, i, x);
    ReservedSameLookups(db, after, j.source, j);
    ReservedSameLookups(db, after, l.source, l);
    if !HasIdentity(db, j) && !HasIdentity(db, l) {
      SeenRelationId(db, r, i, x, j);
      SeenRelationId(db, r, i, x, l);
      ReservedSameLookups(db, r, j.source, j);
      ReservedSameLookups(db, r, l.source, l);
    }
  }

  lemma SeeRelationKeepsFacts(db: Db, r: Resolver, i: Identity, x: ExtractedRelation)
    requires ResolverOk(db, r) && i.source in r.entities && i.target in r.entities
    ensures var after := SeeRelation(db, r, i, x);
            forall j :: j in after.relations ==>
              j.source in after.entities && j.target in after.entities
                  && (after.relations[j].isNew <==> !HasIdentity(db, j))
  {
    PlannedRelationIsNew(db, r, i, x, r.next);
  }

  lemma SeeRelationKeepsResolver(db: Db, r: Resolver, i: Identity, x: ExtractedRelation)
    requires IdsBelow(db) && ResolverOk(db, r) && i.source in r.entities && i.target in r.entities
    ensures var after := SeeRelation(db, r, i, x); ResolverOk(db, after) && Knows(after, r)
  {
    SeeRelationKeepsPlans(db, r, i, x);
    EntityPlansGrow(db, r, SeeRelation(db, r, i, x));
    SeeRelationKeepsFacts(db, r, i, x);
  }

  lemma SeeKeepsResolver(db: Db, r: Resolver, op: Op)
    requires IdsBelow(db) && ResolverOk(db, r) && Resolvable(r, op)
    ensures ResolverOk(db, See(db, r, op)) && Knows(See(db, r, op), r) && OpKnown(See(db, r, op), op)
  {
    match op
    case MentionOp(_, e) => SeeEntityKeepsResolver(db, r, e);
    case EvidenceOp(_, i, x) => SeeRelationKeepsResolver(db, r, i, x);
  }

  /** Everything the first `n` operations name is known. */
  ghost predicate Seen(r: Resolver, ops: seq<Op>, n: nat) {
    forall j :: 0 <= j < n && j < |ops| ==> OpKnown(r, ops[j])
  }

  lemma AllSeen(r: Resolver, ops: seq<Op>)
    requires Seen(r, ops, |ops|)
    ensures OpsKnown(r, ops)
  {
  }

  lemma NextResolvable(r: Resolver, ops: seq<Op>, n: nat)
    requires Grounded(ops) && n < |ops| && Seen(r, ops, n)
    ensures Resolvable(r, ops[n])
  {
    var op := ops[n];
    if op.EvidenceOp? {
      assert MentionedBefore(ops, n, op.identity.source, op.chunk)
          && MentionedBefore(ops, n, op.identity.target, op.chunk);
      var j :| 0 <= j < n && ops[j].MentionOp? && ops[j].entity.key == op.identity.source;
      var k :| 0 <= k < n && ops[k].MentionOp? && ops[k].entity.key == op.identity.target;
      assert OpKnown(r, ops[j]) && OpKnown(r, ops[k]);
    }
  }

  lemma NextSeen(db: Db, r: Resolver, ops: seq<Op>, n: nat)
    requires IdsBelow(db) && ResolverOk(db, r) && Grounded(ops) && n < |ops| && Seen(r, ops, n)
    ensures var next := See(db, r, ops[n]); ResolverOk(db, next) && Knows(next, r) && Seen(next, ops, n + 1)
  {
    NextResolvable(r, ops, n);
    SeeKeepsResolver(db, r, ops[n]);
    var next := See(db, r, ops[n]);
    forall j | 0 <= j < n + 1 ensures OpKnown(next, ops[j]) {
      if j < n { assert OpKnown(r, ops[j]); }
    }
  }

  lemma KnowsOn(a: Resolver, b: Resolver, c: Resolver)
    requires Knows(b, a) && Knows(c, b)
    ensures Knows(c, a)
  {
  }

  lemma {:induction false} SeeFromKeepsResolver(db: Db, r: Resolver, ops: seq<Op>, n: nat)
    requires IdsBelow(db) && ResolverOk(db, r) && Grounded(ops) && n <= |ops| && Seen(r, ops, n)
    ensures var after := SeeFrom(db, r, ops, n); ResolverOk(db, after) && Knows(after, r) && OpsKnown(after, ops)
    decreases |ops| - n
  {
    if n < |ops| {
      var next := See(db, r, ops[n]);
      NextSeen(db, r, ops, n);
      SeeFromKeepsResolver(db, next, ops, n + 1);
      var after := SeeFrom(db, next, ops, n + 1);
      KnowsOn(r, next, after);
      assert SeeFrom(db, r, ops, n) == after;
    } else {
      assert SeeFrom(db, r, ops, n) == r;
      AllSeen(r, ops);
    }
  }

  /* ----- a prepared batch fits the rows it was prepared against ----- */

  lemma PlanFitsMore(db: Db, r: Resolver, more: Resolver, plan: SourcePlan)
    requires PlanFits(Reserved(db, r), r, plan) && Knows(more, r)
    ensures PlanFits(Reserved(db, more), more, plan)
  {
    forall j | 0 <= j < |plan.ops| ensures OpKnown(more, plan.ops[j]) {
      assert OpKnown(r, plan.ops[j]);
    }
    forall j | 0 <= j < |plan.ops|
      ensures OwnChunk(WithAdded(Reserved(db, more), plan), plan.source, plan.ops[j].chunk)
    {
      assert OwnChunk(WithAdded(Reserved(db, r), plan), plan.source, plan.ops[j].chunk);
    }
  }

  lemma ReservedKeepsResolver(db: Db, r: Resolver, count: nat)
    requires ResolverOk(db, r)
    ensures ResolverOk(db, Reserve(r, count)) && Knows(Reserve(r, count), r)
  {
    EntityPlansGrow(db, r, Reserve(r, count));
    RelationPlansGrow(db, r, Reserve(r, count));
  }

  lemma PlanSourceResolver(db: Db, r: Resolver, count: nat, ops: seq<Op>)
    requires IdsBelow(db) && ResolverOk(db, r) && Grounded(ops)
    ensures var after := ResolverAfter(db, r, count, ops);
            ResolverOk(db, after) && Knows(after, r) && OpsKnown(after, ops) && r.next + count <= after.next
  {
    ReservedKeepsResolver(db, r, count);
    SeeFromKeepsResolver(db, Reserve(r, count), ops, 0);
  }

  lemma PlanSourceFits(db: Db, r: Resolver, source: Id, document: Id, p: Provider, after: Resolver)
    requires RowsOk(db) && db.next <= r.next && ValidProvider(p) && document in DocumentsOfSource(db, source)
    requires OpsKnown(after, PlanSource(db, r, source, document, p).ops)
             && r.next + AddedCount(db, source, p) <= after.next
    ensures var plan := PlanSource(db, r, source, document, p);
            && PlanFits(Reserved(db, after), after, plan)
            && plan.source == source && (forall id :: id in plan.added ==> r.next <= id < after.next)
  {
    AddedRowsFit(db, r, source, document, p, after);
    PlanOpsOwn(db, r, source, document, p, after);
  }

  lemma PlanOpsOwn(db: Db, r: Resolver, source: Id, document: Id, p: Provider, after: Resolver)
    requires IdsBelow(db) && db.next <= r.next && ValidProvider(p)
    ensures var plan := PlanSource(db, r, source, document, p);
            forall j :: 0 <= j < |plan.ops| ==>
                OwnChunk(WithAdded(Reserved(db, after), plan), source, plan.ops[j].chunk)
  {
    var plan := PlanSource(db, r, source, document, p);
    forall j | 0 <= j < |plan.ops| ensures OwnChunk(WithAdded(Reserved(db, after), plan), source, plan.ops[j].chunk) {
      assert plan.ops[j].chunk in ToExtract(db, source, plan.added);
      assert plan.ops[j].chunk in ChunksOf(db, source) || plan.ops[j].chunk in plan.added;
    }
  }

  /** A document's chunks are active with it, so they are its source's active chunks. */
  lemma DocumentChunks(db: Db, source: Id, document: Id)
    requires RefsOk(db) && ChunksFollowDocuments(db) && document in DocumentsOfSource(db, source)
    ensures forall id :: id in db.chunks && db.chunks[id].document == document ==> id in ChunksOf(db, source)
  {
  }

  lemma NewChunksFit(db: Db, r: Resolver, source: Id, document: Id, count: nat, after: Resolver, plan: SourcePlan)
    requires IdsBelow(db) && db.next <= r.next && r.next + count <= after.next
    requires plan.added == NewChunks(source, document, r.next, count) && plan.source == source
             && plan.document == document
    requires count == 0 || forall id :: id in db.chunks ==> db.chunks[id].document != document
    ensures AddedFits(Reserved(db, after), plan)
  {
  }

  /** A document being chunked anew has no chunk yet. */
  lemma AddedRowsFit(db: Db, r: Resolver, source: Id, document: Id, p: Provider, after: Resolver)
    requires RowsOk(db) && db.next <= r.next && ValidProvider(p) && document in DocumentsOfSource(db, source)
    requires r.next + AddedCount(db, source, p) <= after.next
    ensures AddedFits(Reserved(db, after), PlanSource(db, r, source, document, p))
  {
    var count := AddedCount(db, source, p);
    assert count == 0 || forall id :: id in db.chunks ==> db.chunks[id].document != document by {
      DocumentChunks(db, source, document);
    }
    var plan := PlanSource(db, r, source, document, p);
    assert plan.added == NewChunks(source, document, r.next, count) && plan.source == source
        && plan.document == document;
    NewChunksFit(db, r, source, document, count, after, plan);
  }

  ghost predicate PlansApart(plans: seq<SourcePlan>) {
    forall j, l :: 0 <= j < l < |plans| ==> Apart(plans[j], plans[l])
  }

  predicate Apart(p: SourcePlan, q: SourcePlan) {
    p.source != q.source && p.added.Keys !! q.added.Keys
  }

  ghost predicate AllPlansFit(db: Db, r: Resolver, plans: seq<SourcePlan>) {
    forall j :: 0 <= j < |plans| ==> PlanFits(Reserved(db, r), r, plans[j])
  }

  ghost predicate BatchOk(db: Db, b: Batch, sources: seq<Id>, n: nat)
    requires n <= |sources|
  {
    && ResolverOk(db, b.resolver) && AllPlansFit(db, b.resolver, b.plans) && PlansApart(b.plans)
    && forall j :: 0 <= j < |b.plans| ==> b.plans[j].source in sources[..n]
  }

  lemma AppendPlan(db: Db, b: Batch, plan: SourcePlan, after: Resolver, sources: seq<Id>, n: nat)
    requires n < |sources| && NoRepeats(sources) && BatchOk(db, b, sources, n)
    requires ResolverOk(db, after) && Knows(after, b.resolver) && PlanFits(Reserved(db, after), after, plan)
    requires plan.source == sources[n] && forall id :: id in plan.added ==> b.resolver.next <= id
    ensures BatchOk(db, b.(plans := b.plans + [plan], resolver := after), sources, n + 1)
  {
    var plans := b.plans + [plan];
    assert sources[..n + 1] == sources[..n] + [sources[n]];
    forall j | 0 <= j < |plans| ensures PlanFits(Reserved(db, after), after, plans[j]) {
      if j < |b.plans| { PlanFitsMore(db, b.resolver, after, b.plans[j]); }
    }
    forall j | 0 <= j < |b.plans| ensures Apart(b.plans[j], plan) {
      assert AddedFits(Reserved(db, b.resolver), b.plans[j]);
      assert b.plans[j].source in sources[..n];
    }
  }

  lemma WithPlanKeepsBatch(db: Db, b: Batch, sources: seq<Id>, document: Id, p: Provider, n: nat, next: Batch)
    requires RowsOk(db) && ValidProvider(p) && n < |sources| && NoRepeats(sources) && BatchOk(db, b, sources, n)
    requires document in DocumentsOfSource(db, sources[n]) && next == WithPlan(db, b, sources[n], document, p)
    ensures BatchOk(db, next, sources, n + 1)
  {
    var plan := PlanSource(db, b.resolver, sources[n], document, p);
    PlanSourceResolver(db, b.resolver, AddedCount(db, sources[n], p), plan.ops);
    PlanSourceFits(db, b.resolver, sources[n], document, p, next.resolver);
    AppendPlan(db, b, plan, next.resolver, sources, n);
    assert next == b.(plans := b.plans + [plan], resolver := next.resolver);
  }

  lemma OtherwiseKeepsBatch(db: Db, b: Batch, sources: seq<Id>, n: nat, next: Batch)
    requires n < |sources| && BatchOk(db, b, sources, n) && next.plans == b.plans && next.resolver == b.resolver
    ensures BatchOk(db, next, sources, n + 1)
  {
    assert sources[..n + 1] == sources[..n] + [sources[n]];
  }

  /** A requested source either adds its plan, or leaves the plans and the resolver alone. */
  lemma PrepareOneCases(db: Db, b: Batch, source: Id, allowFailed: bool, p: Provider, next: Batch)
    returns (document: Option<Id>)
    requires ValidProvider(p) && PrepareOne(db, b, source, allowFailed, p) == Some(next)
    ensures match document
            case Some(id) =>
              source in db.sources && NewestDocument(db, source) == Some(id) && next == WithPlan(db, b, source, id, p)
            case None => next.plans == b.plans && next.resolver == b.resolver
  {
    var d := Decide(db, source, allowFailed);
    document := if d.Process? && !p.refused(source) then Some(d.document) else None;
  }

  lemma PrepareOneKeepsBatch(db: Db, b: Batch, sources: seq<Id>, allowFailed: bool, p: Provider, n: nat, next: Batch)
    requires RowsOk(db) && ValidProvider(p) && n < |sources| && NoRepeats(sources) && BatchOk(db, b, sources, n)
    requires PrepareOne(db, b, sources[n], allowFailed, p) == Some(next)
    ensures BatchOk(db, next, sources, n + 1)
  {
    var document := PrepareOneCases(db, b, sources[n], allowFailed, p, next);
    if document.Some? {
      WithPlanKeepsBatch(db, b, sources, document.value, p, n, next);
    } else {
      OtherwiseKeepsBatch(db, b, sources, n, next);
    }
  }

  lemma {:induction false} PrepareKeepsBatch(db: Db, b: Batch, sources: seq<Id>, allowFailed: bool, p: Provider, n: nat)
    requires RowsOk(db) && ValidProvider(p) && n <= |sources| && NoRepeats(sources) && BatchOk(db, b, sources, n)
    ensures var after := PrepareFrom(db, b, sources, allowFailed, p, n);
            after.Some? ==> BatchOk(db, after.value, sources, |sources|)
    decreases |sources| - n
  {
    if n < |sources| {
      var next := PrepareOne(db, b, sources[n], allowFailed, p);
      if next.Some? {
        PrepareOneKeepsBatch(db, b, sources, allowFailed, p, n, next.value);
        PrepareKeepsBatch(db, next.value, sources, allowFailed, p, n + 1);
      }
    }
  }

  lemma EmptyBatchOk(db: Db, sources: seq<Id>)
    ensures BatchOk(db, EmptyBatch(db), sources, 0)
  {
  }

  /* ----- persisting, source by source ----- */

  /** The rows and plans before the `n`th source is persisted. */
  ghost predicate PersistReady(db: Db, r: Resolver, plans: seq<SourcePlan>, n: nat) {
    && Inv(db) && PlansFit(db, r) && PlansApart(plans)
    && forall j :: n <= j < |plans| ==> PlanFits(db, r, plans[j])
  }

  lemma MarkingKeeps(db: Db, sources: seq<Id>, status: SourceStatus, n: nat)
    requires n <= |sources|
    ensures SameGraph(db, SetStatuses(db, sources, status, n))
            && SetStatuses(db, sources, status, n).outbox == db.outbox
  {
  }

  lemma MarkedPlanFits(db: Db, after: Db, r: Resolver, q: SourcePlan)
    requires PlanFits(db, r, q) && SameGraph(db, after)
    ensures PlanFits(after, r, q)
  {
    forall j | 0 <= j < |q.ops| ensures OwnChunk(WithAdded(after, q), q.source, q.ops[j].chunk) {
      assert OwnChunk(WithAdded(db, q), q.source, q.ops[j].chunk);
    }
  }

  /** What a landed source changes of the content: its own new chunks. */
  ghost predicate OnlyAdds(db: Db, after: Db, p: SourcePlan) {
    && db.sources.Keys <= after.sources.Keys && db.next <= after.next
    && (forall id :: id in db.documents ==>
       id in after.documents && after.documents[id].active == db.documents[id].active
                                            && after.documents[id].source == db.documents[id].source)
    && SameChunks(db.chunks + p.added, after.chunks)
  }

  /** The same chunk rows but for their extraction marker. */
  ghost predicate SameChunks(a: map<Id, Chunk>, b: map<Id, Chunk>) {
    a.Keys == b.Keys && forall id :: id in a ==> b[id] == a[id].(extracted := b[id].extracted)
  }

  lemma PersistSourceOnlyAdds(db: Db, r: Resolver, p: SourcePlan)
    requires SourceReady(db, r, p)
    ensures OnlyAdds(db, PersistSource(db, r, p), p)
  {
    var w := SourceWork(db, r, p);
    assert Evolves(WithAdded(db, p), w.db) by {
      SourceWorkOk(db, r, p);
    }
    FinishedOnlyAdds(db, w, p);
  }

  lemma FinishedOnlyAdds(db: Db, w: Work, p: SourcePlan)
    requires Evolves(WithAdded(db, p), w.db)
    ensures OnlyAdds(db, Finished(w, p), p)
  {
    assert w.db.chunks == db.chunks + p.added;
    assert SameChunks(w.db.chunks, Finished(w, p).chunks);
  }

  lemma LaterPlanFits(db: Db, after: Db, r: Resolver, p: SourcePlan, q: SourcePlan)
    requires PlanFits(db, r, p) && PlanFits(db, r, q) && OnlyAdds(db, after, p)
    requires p.source != q.source && p.added.Keys !! q.added.Keys
    ensures PlanFits(after, r, q)
  {
    forall j | 0 <= j < |q.ops| ensures OwnChunk(WithAdded(after, q), q.source, q.ops[j].chunk) {
      assert OwnChunk(WithAdded(db, q), q.source, q.ops[j].chunk);
    }
  }

  lemma PersistOneKeeps(db: Db, r: Resolver, plans: seq<SourcePlan>, rollsBack: bool, n: nat)
    requires PersistReady(db, r, plans, n) && n < |plans|
    ensures PersistReady(PersistOne(db, r, plans[n], rollsBack), r, plans, n + 1)
  {
    var after := PersistOne(db, r, plans[n], rollsBack);
    if rollsBack {
      MarkingKeeps(db, [plans[n].source], Failed, 1);
      SameGraphKeepsInv(db, after);
      SamePlansFit(db, after, r);
      forall j | n + 1 <= j < |plans| ensures PlanFits(after, r, plans[j]) {
        MarkedPlanFits(db, after, r, plans[j]);
      }
    } else {
      PersistSourceKeeps(db, r, plans[n]);
      PersistSourceOnlyAdds(db, r, plans[n]);
      forall j | n + 1 <= j < |plans| ensures PlanFits(after, r, plans[j]) {
        assert Apart(plans[n], plans[j]);
        LaterPlanFits(db, after, r, plans[n], plans[j]);
      }
    }
  }

  lemma {:induction false} PersistFromKeeps(db: Db, r: Resolver, plans: seq<SourcePlan>, rollbacks: Rollbacks, n: nat)
    requires PersistReady(db, r, plans, n) && n <= |plans|
    ensures Inv(PersistFrom(db, r, plans, rollbacks, n))
    decreases |plans| - n
  {
    if n < |plans| {
      PersistOneKeeps(db, r, plans, rollbacks(n), n);
      PersistFromKeeps(PersistOne(db, r, plans[n], rollbacks(n)), r, plans, rollbacks, n + 1);
    }
  }
}
