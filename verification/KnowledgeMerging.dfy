/** What a cognify does to the rows it reuses: nothing they held is lost, and all a landed source said arrives. */
module KnowledgeMerging {
  import opened Wrappers
  import opened Ordering
  import opened KnowledgeStore
  import opened KnowledgeCognify
  import opened KnowledgeCognifySafety
  import opened KnowledgeCognifySource
  import opened KnowledgeCognifyBatch
  import opened KnowledgeCognifyTheorems

  /* ----- rows only gain ----- */

  predicate HoldsAll(aliases: seq<string>, some: seq<string>) {
    forall x :: x in some ==> x in aliases
  }

  /** The same entity, with every alias it had and no less confidence. */
  predicate Richer(a: Entity, b: Entity) {
    && b.key == a.key && b.data == a.data && b.active == a.active
    && HoldsAll(b.aliases, a.aliases) && a.confidence <= b.confidence
  }

  /** The same relation, with no less confidence and any description it had. */
  predicate Firmer(a: Relation, b: Relation) {
    && SameIdentity(a, b) && b.active == a.active && a.confidence <= b.confidence
    && (a.description != "" ==> b.description == a.description)
  }

  ghost predicate EntitiesEnriched(a: map<Id, Entity>, b: map<Id, Entity>) {
    forall id :: id in a ==> id in b && Richer(a[id], b[id])
  }

  ghost predicate RelationsEnriched(a: map<Id, Relation>, b: map<Id, Relation>) {
    forall id :: id in a ==> id in b && Firmer(a[id], b[id])
  }

  ghost predicate Enriches(a: Db, b: Db) {
    EntitiesEnriched(a.entities, b.entities) && RelationsEnriched(a.relations, b.relations)
  }

  lemma EnrichesOn(a: Db, b: Db, c: Db)
    requires Enriches(a, b) && Enriches(b, c)
    ensures Enriches(a, c)
  {
    forall id | id in a.entities ensures id in c.entities && Richer(a.entities[id], c.entities[id]) {
      assert Richer(a.entities[id], b.entities[id]) && Richer(b.entities[id], c.entities[id]);
    }
    forall id | id in a.relations ensures id in c.relations && Firmer(a.relations[id], c.relations[id]) {
      assert Firmer(a.relations[id], b.relations[id]) && Firmer(b.relations[id], c.relations[id]);
    }
  }

  lemma MergedHoldsBoth(stored: seq<string>, added: seq<string>)
    ensures HoldsAll(MergedAliases(stored, added), stored) && HoldsAll(MergedAliases(stored, added), added)
  {
    var both := stored + added;
    assert both[..|both|] == both;
  }

  /* ----- what has arrived ----- */

  predicate HoldsEntity(db: Db, id: Id, key: Key, aliases: seq<string>, confidence: real) {
    && LiveEntity(db, id) && db.entities[id].key == key
    && HoldsAll(db.entities[id].aliases, aliases) && confidence <= db.entities[id].confidence
  }

  /** An active row under the key holds these aliases and at least this confidence. */
  ghost predicate EntityHas(db: Db, key: Key, aliases: seq<string>, confidence: real) {
    exists id: Id :: HoldsEntity(db, id, key, aliases, confidence)
  }

  predicate HoldsRelation(db: Db, id: Id, i: Identity, confidence: real) {
    && LiveRelation(db, id)
    && LiveEntity(db, db.relations[id].source) && db.entities[db.relations[id].source].key == i.source
    && LiveEntity(db, db.relations[id].target) && db.entities[db.relations[id].target].key == i.target
    && db.relations[id].predicateName == i.predicateName && confidence <= db.relations[id].confidence
  }

  /** An active row with the identity has at least this confidence. */
  ghost predicate RelationHas(db: Db, i: Identity, confidence: real) {
    exists id: Id :: HoldsRelation(db, id, i, confidence)
  }

  /** What the resolver gathered for the operation's subject is in its row. */
  ghost predicate PlanArrived(db: Db, r: Resolver, op: Op) {
    match op
    case MentionOp(_, e) =>
      e.key in r.entities ==> EntityHas(db, e.key, r.entities[e.key].aliases, r.entities[e.key].confidence)
    case EvidenceOp(_, i, _) => i in r.relations ==> RelationHas(db, i, r.relations[i].confidence)
  }

  /** What the extraction itself said is in the row. */
  ghost predicate OpArrived(db: Db, op: Op) {
    match op
    case MentionOp(_, e) => EntityHas(db, e.key, e.aliases, e.confidence)
    case EvidenceOp(_, i, x) => RelationHas(db, i, x.confidence)
  }

  lemma PlanStaysArrived(a: Db, b: Db, r: Resolver, op: Op)
    requires Enriches(a, b) && PlanArrived(a, r, op)
    ensures PlanArrived(b, r, op)
  {
    match op
    case MentionOp(_, e) =>
      if e.key in r.entities {
        var plan := r.entities[e.key];
        var id: Id :| HoldsEntity(a, id, e.key, plan.aliases, plan.confidence);
        assert Richer(a.entities[id], b.entities[id]);
        assert HoldsEntity(b, id, e.key, plan.aliases, plan.confidence);
      }
    case EvidenceOp(_, i, _) =>
      if i in r.relations { RelationStays(a, b, i, r.relations[i].confidence); }
  }

  lemma RelationStays(a: Db, b: Db, i: Identity, confidence: real)
    requires Enriches(a, b) && RelationHas(a, i, confidence)
    ensures RelationHas(b, i, confidence)
  {
    var id: Id :| HoldsRelation(a, id, i, confidence);
    var row := a.relations[id];
    assert Firmer(row, b.relations[id]);
    assert Richer(a.entities[row.source], b.entities[row.source]);
    assert Richer(a.entities[row.target], b.entities[row.target]);
    assert HoldsRelation(b, id, i, confidence);
  }

  /* ----- one operation ----- */

  lemma MentionEnriches(db: Db, r: Resolver, chunk: Id, key: Key)
    requires key in r.entities && (HasKey(db, key) || r.entities[key].id !in db.entities)
    ensures var after, plan := Mentioned(db, r, chunk, key), r.entities[key];
            Enriches(db, after) && EntityHas(after, key, plan.aliases, plan.confidence)
  {
    var plan := r.entities[key];
    var (id, row) := EntityRow(db, key, plan);
    if HasKey(db, key) { MergedHoldsBoth(db.entities[id].aliases, plan.aliases); }
    var after := Mentioned(db, r, chunk, key);
    assert after.entities == db.entities[id := row] && after.relations == db.relations;
    assert HoldsEntity(after, id, key, plan.aliases, plan.confidence);
  }

  /** The relation row written is the one it replaces, only firmer, and at least as firm as its plan. */
  lemma RelationRowFirm(db: Db, source: Id, target: Id, predicateName: string, plan: PlannedRelation)
    requires ActiveByIdentity(db, source, target, predicateName).Some? || plan.id !in db.relations
    ensures var (id, row) := RelationRow(db, source, target, predicateName, plan);
            && (id in db.relations ==> Firmer(db.relations[id], row))
            && row.active && Identifies(row, source, target, predicateName) && plan.confidence <= row.confidence
  {
  }

  lemma EvidenceEnriches(db: Db, r: Resolver, chunk: Id, i: Identity)
    requires RelationPlansFit(db, r) && i in r.relations && HasKey(db, i.source) && HasKey(db, i.target)
    ensures var after := Evidenced(db, r, chunk, i);
            Enriches(db, after) && RelationHas(after, i, r.relations[i].confidence)
  {
    var source, target := ActiveByKey(db, i.source).value, ActiveByKey(db, i.target).value;
    RelationRowFirm(db, source, target, i.predicateName, r.relations[i]);
    var (id, row) := RelationRow(db, source, target, i.predicateName, r.relations[i]);
    PutRelationHolds(db, id, row, chunk, i, r.relations[i].confidence);
  }

  lemma PutRelationHolds(db: Db, id: Id, row: Relation, chunk: Id, i: Identity, confidence: real)
    requires id in db.relations ==> Firmer(db.relations[id], row)
    requires row.active && row.predicateName == i.predicateName && confidence <= row.confidence
    requires LiveEntity(db, row.source) && db.entities[row.source].key == i.source
    requires LiveEntity(db, row.target) && db.entities[row.target].key == i.target
    ensures var after := PutEvidence(PutRelation(db, id, row), id, chunk);
            Enriches(db, after) && RelationHas(after, i, confidence)
  {
    assert HoldsRelation(PutEvidence(PutRelation(db, id, row), id, chunk), id, i, confidence);
  }

  lemma OpEnriches(w: Work, r: Resolver, op: Op)
    requires Inv(w.db) && PlansFit(w.db, r) && Ready(w.db, r, op)
    ensures Enriches(w.db, ApplyOp(w, r, op).db) && PlanArrived(ApplyOp(w, r, op).db, r, op)
  {
    match op
    case MentionOp(chunk, e) => MentionEnriches(w.db, r, chunk, e.key);
    case EvidenceOp(chunk, i, _) => EvidenceEnriches(w.db, r, chunk, i);
  }

  /* ----- one source, then a batch ----- */

  /** The plans of the operations from the `n`th on have arrived. */
  ghost predicate AllArrived(db: Db, r: Resolver, ops: seq<Op>, n: nat) {
    forall k :: n <= k < |ops| ==> PlanArrived(db, r, ops[k])
  }

  /** Every operation from the `n`th on enriches the rows it is applied to, and its plan arrives. */
  ghost predicate EachArrives(w: Work, r: Resolver, ops: seq<Op>, n: nat)
    requires n <= |ops|
    decreases |ops| - n
  {
    n == |ops| ||
    var next := ApplyOp(w, r, ops[n]);
    Enriches(w.db, next.db) && PlanArrived(next.db, r, ops[n]) && EachArrives(next, r, ops, n + 1)
  }

  lemma {:induction false} EachOpArrives(db: Db, r: Resolver, plan: SourcePlan, w: Work, n: nat)
    requires SourceReady(db, r, plan) && n <= |plan.ops| && SourceState(db, r, plan, w, n)
    ensures EachArrives(w, r, plan.ops, n)
    decreases |plan.ops| - n
  {
    if n < |plan.ops| {
      var next := ApplyOp(w, r, plan.ops[n]);
      NextEnriches(db, r, plan, w, n, next);
      EachOpArrives(db, r, plan, next, n + 1);
    }
  }

  lemma {:induction false} FoldEnriches(w: Work, r: Resolver, ops: seq<Op>, n: nat)
    requires n <= |ops| && EachArrives(w, r, ops, n)
    ensures var after := ApplyFrom(w, r, ops, n).db; Enriches(w.db, after) && AllArrived(after, r, ops, n)
    decreases |ops| - n
  {
    if n < |ops| {
      var next := ApplyOp(w, r, ops[n]);
      FoldEnriches(next, r, ops, n + 1);
      OneMoreArrives(w.db, next.db, ApplyFrom(next, r, ops, n + 1).db, r, ops, n);
    } else {
      SameRowsEnrich(w.db, w.db);
    }
  }

  lemma NextEnriches(db: Db, r: Resolver, plan: SourcePlan, w: Work, n: nat, next: Work)
    requires SourceReady(db, r, plan) && n < |plan.ops| && SourceState(db, r, plan, w, n)
    requires next == ApplyOp(w, r, plan.ops[n])
    ensures SourceState(db, r, plan, next, n + 1)
    ensures Enriches(w.db, next.db) && PlanArrived(next.db, r, plan.ops[n])
  {
    NextIsReady(db, r, plan, w, n);
    OpEnriches(w, r, plan.ops[n]);
    NextState(db, r, plan, w, n);
  }

  lemma OneMoreArrives(a: Db, b: Db, c: Db, r: Resolver, ops: seq<Op>, n: nat)
    requires n < |ops| && Enriches(a, b) && Enriches(b, c) && PlanArrived(b, r, ops[n]) && AllArrived(c, r, ops, n + 1)
    ensures Enriches(a, c) && AllArrived(c, r, ops, n)
  {
    EnrichesOn(a, b, c);
    PlanStaysArrived(b, c, r, ops[n]);
  }

  lemma SameRowsEnrich(a: Db, b: Db)
    requires a.entities == b.entities && a.relations == b.relations
    ensures Enriches(a, b)
  {
  }

  lemma ArrivedStays(a: Db, b: Db, r: Resolver, ops: seq<Op>)
    requires Enriches(a, b) && AllArrived(a, r, ops, 0)
    ensures AllArrived(b, r, ops, 0)
  {
    forall k | 0 <= k < |ops| ensures PlanArrived(b, r, ops[k]) {
      PlanStaysArrived(a, b, r, ops[k]);
    }
  }

  lemma SourceEnriches(db: Db, r: Resolver, plan: SourcePlan)
    requires SourceReady(db, r, plan)
    ensures var after := PersistSource(db, r, plan); Enriches(db, after) && AllArrived(after, r, plan.ops, 0)
  {
    var start, worked, after := StartWork(db, plan), SourceWork(db, r, plan), PersistSource(db, r, plan);
    StartState(db, r, plan);
    EachOpArrives(db, r, plan, start, 0);
    FoldEnriches(start, r, plan.ops, 0);
    SameRowsEnrich(db, start.db);
    SameRowsEnrich(worked.db, after);
    EnrichesOn(db, start.db, worked.db);
    EnrichesOn(db, worked.db, after);
    ArrivedStays(worked.db, after, r, plan.ops);
  }

  /** Every plan from the `n`th on that lands has arrived. */
  ghost predicate PlansArrived(db: Db, r: Resolver, plans: seq<SourcePlan>, rollbacks: Rollbacks, n: nat) {
    forall j :: n <= j < |plans| && !rollbacks(j) ==> AllArrived(db, r, plans[j].ops, 0)
  }

  lemma OneEnriches(db: Db, r: Resolver, plan: SourcePlan, rollsBack: bool)
    requires SourceReady(db, r, plan)
    ensures var after := PersistOne(db, r, plan, rollsBack);
            Enriches(db, after) && (!rollsBack ==> AllArrived(after, r, plan.ops, 0))
  {
    if rollsBack {
      MarkingKeeps(db, [plan.source], Failed, 1);
      SameRowsEnrich(db, PersistOne(db, r, plan, rollsBack));
    } else {
      SourceEnriches(db, r, plan);
    }
  }

  lemma {:induction false} PersistFromEnriches(
      db: Db, r: Resolver, plans: seq<SourcePlan>, rollbacks: Rollbacks, n: nat)
    requires PersistReady(db, r, plans, n) && n <= |plans|
    ensures var after := PersistFrom(db, r, plans, rollbacks, n);
            Enriches(db, after) && PlansArrived(after, r, plans, rollbacks, n)
    decreases |plans| - n
  {
    if n < |plans| {
      var next := PersistOne(db, r, plans[n], rollbacks(n));
      NextPlanEnriches(db, r, plans, rollbacks(n), n, next);
      PersistFromEnriches(next, r, plans, rollbacks, n + 1);
      OnePlanMoreArrives(db, next, PersistFrom(next, r, plans, rollbacks, n + 1), r, plans, rollbacks, n);
    } else {
      SameRowsEnrich(db, db);
    }
  }

  lemma NextPlanEnriches(
      db: Db, r: Resolver, plans: seq<SourcePlan>, rollsBack: bool, n: nat, next: Db)
    requires n < |plans| && PersistReady(db, r, plans, n) && next == PersistOne(db, r, plans[n], rollsBack)
    ensures PersistReady(next, r, plans, n + 1)
    ensures Enriches(db, next) && (!rollsBack ==> AllArrived(next, r, plans[n].ops, 0))
  {
    OneEnriches(db, r, plans[n], rollsBack);
    PersistOneKeeps(db, r, plans, rollsBack, n);
  }

  lemma OnePlanMoreArrives(
      a: Db, b: Db, c: Db, r: Resolver, plans: seq<SourcePlan>, rollbacks: Rollbacks, n: nat)
    requires n < |plans| && Enriches(a, b) && Enriches(b, c)
    requires !rollbacks(n) ==> AllArrived(b, r, plans[n].ops, 0)
    requires PlansArrived(c, r, plans, rollbacks, n + 1)
    ensures Enriches(a, c) && PlansArrived(c, r, plans, rollbacks, n)
  {
    EnrichesOn(a, b, c);
    if !rollbacks(n) { ArrivedStays(b, c, r, plans[n].ops); }
  }

  lemma BatchEnriches(db: Db, b: Batch, rollbacks: Rollbacks)
    requires BatchGood(db, b)
    ensures var after := PersistBatch(db, b, rollbacks);
            Enriches(db, after) && PlansArrived(after, b.resolver, b.plans, rollbacks, 0)
  {
    var start, after := Reserved(db, b.resolver), PersistBatch(db, b, rollbacks);
    var persisted := PersistFrom(start, b.resolver, b.plans, rollbacks, 0);
    PersistFromEnriches(start, b.resolver, b.plans, rollbacks, 0);
    BatchStatuses(db, b, rollbacks);
    SameRowsEnrich(db, start);
    SameRowsEnrich(persisted, after);
    EnrichesOn(db, start, persisted);
    EnrichesOn(db, persisted, after);
    forall j | 0 <= j < |b.plans| && !rollbacks(j) ensures AllArrived(after, b.resolver, b.plans[j].ops, 0) {
      ArrivedStays(persisted, after, b.resolver, b.plans[j].ops);
    }
  }

  /* ----- the resolver gathers everything it sees ----- */

  predicate EntityGathered(r: Resolver, e: ExtractedEntity) {
    && e.key in r.entities
    && HoldsAll(r.entities[e.key].aliases, e.aliases) && e.confidence <= r.entities[e.key].confidence
  }

  predicate OpGathered(r: Resolver, op: Op) {
    match op
    case MentionOp(_, e) => EntityGathered(r, e)
    case EvidenceOp(_, i, x) => i in r.relations && x.confidence <= r.relations[i].confidence
  }

  ghost predicate Gathers(r: Resolver, more: Resolver) {
    && (forall k :: k in r.entities ==>
          && k in more.entities && HoldsAll(more.entities[k].aliases, r.entities[k].aliases)
          && r.entities[k].confidence <= more.entities[k].confidence)
    && (forall i :: i in r.relations ==>
          i in more.relations && r.relations[i].confidence <= more.relations[i].confidence)
  }

  lemma GathersOn(a: Resolver, b: Resolver, c: Resolver)
    requires Gathers(a, b) && Gathers(b, c)
    ensures Gathers(a, c)
  {
  }

  lemma GatheredStays(r: Resolver, more: Resolver, op: Op)
    requires Gathers(r, more) && OpGathered(r, op)
    ensures OpGathered(more, op)
  {
  }

  lemma SeeEntityGathers(db: Db, r: Resolver, e: ExtractedEntity)
    ensures Gathers(r, SeeEntity(db, r, e)) && EntityGathered(SeeEntity(db, r, e), e)
  {
    var plan := if e.key in r.entities then r.entities[e.key] else PlanEntity(db, e, r.next);
    MergedHoldsBoth(plan.aliases, e.aliases);
  }

  lemma SeeGathers(db: Db, r: Resolver, op: Op)
    requires Resolvable(r, op)
    ensures Gathers(r, See(db, r, op)) && OpGathered(See(db, r, op), op)
  {
    if op.MentionOp? { SeeEntityGathers(db, r, op.entity); }
  }

  ghost predicate AllGathered(r: Resolver, ops: seq<Op>, n: nat) {
    forall k :: n <= k < |ops| ==> OpGathered(r, ops[k])
  }

  lemma {:induction false} SeeFromGathers(db: Db, r: Resolver, ops: seq<Op>, n: nat)
    requires IdsBelow(db) && ResolverOk(db, r) && Grounded(ops) && n <= |ops| && Seen(r, ops, n)
    ensures var after := SeeFrom(db, r, ops, n); Gathers(r, after) && AllGathered(after, ops, n)
    decreases |ops| - n
  {
    if n < |ops| {
      var next := See(db, r, ops[n]);
      NextGathers(db, r, ops, n, next);
      SeeFromGathers(db, next, ops, n + 1);
      OneMoreGathered(r, next, SeeFrom(db, next, ops, n + 1), ops, n);
    }
  }

  lemma NextGathers(db: Db, r: Resolver, ops: seq<Op>, n: nat, next: Resolver)
    requires IdsBelow(db) && ResolverOk(db, r) && Grounded(ops) && n < |ops| && Seen(r, ops, n)
    requires next == See(db, r, ops[n])
    ensures ResolverOk(db, next) && Seen(next, ops, n + 1) && Gathers(r, next) && OpGathered(next, ops[n])
  {
    NextResolvable(r, ops, n);
    SeeGathers(db, r, ops[n]);
    NextSeen(db, r, ops, n);
  }

  lemma OneMoreGathered(r: Resolver, next: Resolver, after: Resolver, ops: seq<Op>, n: nat)
    requires n < |ops| && Gathers(r, next) && OpGathered(next, ops[n])
    requires Gathers(next, after) && AllGathered(after, ops, n + 1)
    ensures Gathers(r, after) && AllGathered(after, ops, n)
  {
    GathersOn(r, next, after);
    GatheredStays(next, after, ops[n]);
  }

  ghost predicate BatchGathers(b: Batch) {
    forall j :: 0 <= j < |b.plans| ==> AllGathered(b.resolver, b.plans[j].ops, 0)
  }

  lemma PlanGathers(db: Db, r: Resolver, count: nat, ops: seq<Op>)
    requires IdsBelow(db) && ResolverOk(db, r) && Grounded(ops)
    ensures var after := ResolverAfter(db, r, count, ops); Gathers(r, after) && AllGathered(after, ops, 0)
  {
    ReservedKeepsResolver(db, r, count);
    SeeFromGathers(db, Reserve(r, count), ops, 0);
  }

  lemma AppendGathers(b: Batch, plan: SourcePlan, after: Resolver)
    requires BatchGathers(b) && Gathers(b.resolver, after) && AllGathered(after, plan.ops, 0)
    ensures BatchGathers(b.(plans := b.plans + [plan], resolver := after))
  {
    var plans := b.plans + [plan];
    forall j | 0 <= j < |plans| ensures AllGathered(after, plans[j].ops, 0) {
      if j < |b.plans| {
        assert AllGathered(b.resolver, b.plans[j].ops, 0);
        forall k | 0 <= k < |plans[j].ops| ensures OpGathered(after, plans[j].ops[k]) {
          GatheredStays(b.resolver, after, plans[j].ops[k]);
        }
      }
    }
  }

  lemma PrepareOneGathers(db: Db, b: Batch, source: Id, allowFailed: bool, p: Provider, next: Batch)
    requires ValidProvider(p) && IdsBelow(db) && ResolverOk(db, b.resolver) && BatchGathers(b)
    requires PrepareOne(db, b, source, allowFailed, p) == Some(next)
    ensures BatchGathers(next)
  {
    var document := PrepareOneCases(db, b, source, allowFailed, p, next);
    if document.Some? {
      var plan := PlanSource(db, b.resolver, source, document.value, p);
      PlanGathers(db, b.resolver, AddedCount(db, source, p), plan.ops);
      AppendGathers(b, plan, next.resolver);
    }
  }

  lemma {:induction false} PrepareGathers(
      db: Db, b: Batch, sources: seq<Id>, allowFailed: bool, p: Provider, n: nat)
    requires RowsOk(db) && ValidProvider(p) && n <= |sources| && NoRepeats(sources) && BatchOk(db, b, sources, n)
    requires BatchGathers(b)
    ensures var after := PrepareFrom(db, b, sources, allowFailed, p, n); after.Some? ==> BatchGathers(after.value)
    decreases |sources| - n
  {
    if n < |sources| {
      var next := PrepareOne(db, b, sources[n], allowFailed, p);
      if next.Some? {
        PrepareOneGathers(db, b, sources[n], allowFailed, p, next.value);
        PrepareOneKeepsBatch(db, b, sources, allowFailed, p, n, next.value);
        PrepareGathers(db, next.value, sources, allowFailed, p, n + 1);
      }
    }
  }

  /* ----- the theorems ----- */

  /**
   A cognify loses nothing that was known: every row stays, under its key or identity, active as it was,
   with every alias and any description it had, and its confidence never falls.
  */
  lemma CognifyEnriches(
      db: Db, requested: seq<Id>, allowFailed: bool, p: Provider, rollbacks: Rollbacks, after: Db)
    requires Inv(db) && ValidProvider(p) && after == Cognify(db, requested, allowFailed, p, rollbacks)
    ensures Enriches(db, after)
  {
    var batch := BatchFor(db, requested, allowFailed, p);
    if batch.Some? {
      BatchReady(db, requested, allowFailed, p);
      BatchEnriches(db, batch.value, rollbacks);
    } else {
      SameRowsEnrich(db, db);
    }
  }

  lemma OpArrives(db: Db, r: Resolver, op: Op)
    requires PlanArrived(db, r, op) && OpGathered(r, op)
    ensures OpArrived(db, op)
  {
    match op
    case MentionOp(_, e) =>
      var plan := r.entities[e.key];
      var id: Id :| HoldsEntity(db, id, e.key, plan.aliases, plan.confidence);
      assert HoldsEntity(db, id, e.key, e.aliases, e.confidence);
    case EvidenceOp(_, i, x) =>
      var id: Id :| HoldsRelation(db, id, i, r.relations[i].confidence);
      assert HoldsRelation(db, id, i, x.confidence);
  }

  /**
   Whatever a landed source extracted has arrived: the active row under an entity's key holds its aliases and at
   least its confidence, the active row with a relation's identity at least that relation's confidence.
  */
  lemma LandedKnowledgeArrives(
      db: Db, requested: seq<Id>, allowFailed: bool, p: Provider, rollbacks: Rollbacks, after: Db, j: nat, k: nat)
    requires Inv(db) && ValidProvider(p) && BatchFor(db, requested, allowFailed, p).Some?
    requires after == Cognify(db, requested, allowFailed, p, rollbacks)
    requires var plans := BatchFor(db, requested, allowFailed, p).value.plans;
             j < |plans| && !rollbacks(j) && k < |plans[j].ops|
    ensures OpArrived(after, BatchFor(db, requested, allowFailed, p).value.plans[j].ops[k])
  {
    var b, sources := BatchFor(db, requested, allowFailed, p).value, Distinct(requested, |requested|);
    BatchReady(db, requested, allowFailed, p);
    BatchEnriches(db, b, rollbacks);
    DistinctHasNoRepeats(requested, |requested|);
    EmptyBatchOk(db, sources);
    PrepareGathers(db, EmptyBatch(db), sources, allowFailed, p, 0);
    assert AllArrived(after, b.resolver, b.plans[j].ops, 0) && AllGathered(b.resolver, b.plans[j].ops, 0);
    OpArrives(after, b.resolver, b.plans[j].ops[k]);
  }
}
