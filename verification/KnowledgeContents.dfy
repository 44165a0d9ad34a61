/** Where everything a row holds comes from: from the row before, or from what the provider said in this batch. */
module KnowledgeContents {
  import opened Wrappers
  import opened Ordering
  import opened KnowledgeStore
  import opened KnowledgeForget
  import opened KnowledgeCognify
  import opened KnowledgeCognifySafety
  import opened KnowledgeCognifySource
  import opened KnowledgeCognifyBatch
  import opened KnowledgeCognifyTheorems
  import opened KnowledgeExtraction
  import opened KnowledgeArrivals
  import opened KnowledgeLanding

  /* ----- where contents come from ----- */

  /** The active row with the key, if there is one. */
  function EntityBefore(db: Db, k: Key): Option<Entity> {
    match ActiveByKey(db, k)
    case Some(id) => Some(db.entities[id])
    case None => None
  }

  function RelationBefore(db: Db, i: Identity): Option<Relation> {
    if HasIdentity(db, i) then Some(db.relations[RelationOf(db, i)]) else None
  }

  /** What the first entity declared under the key came with. */
  function FirstData(heard: seq<Op>, k: Key): Option<string> {
    if heard == [] then None
    else
      var before, last := FirstData(heard[..|heard| - 1], k), heard[|heard| - 1];
      if before.None? && last.MentionOp? && last.entity.key == k then Some(last.entity.data) else before
  }

  /** The first description given of the relation, if any was. */
  function FirstDescription(heard: seq<Op>, i: Identity): string {
    if heard == [] then ""
    else
      var before, last := FirstDescription(heard[..|heard| - 1], i), heard[|heard| - 1];
      if before == "" && last.EvidenceOp? && last.identity == i then last.relation.description else before
  }

  predicate HeardAlias(heard: seq<Op>, k: Key, alias: string) {
    exists op :: op in heard && op.MentionOp? && op.entity.key == k && alias in op.entity.aliases
  }

  predicate HeardConfidence(heard: seq<Op>, k: Key, confidence: real) {
    exists op :: op in heard && op.MentionOp? && op.entity.key == k && op.entity.confidence == confidence
  }

  predicate HeardFirmness(heard: seq<Op>, i: Identity, confidence: real) {
    exists op :: op in heard && op.EvidenceOp? && op.identity == i && op.relation.confidence == confidence
  }

  /** Data stay, or are the first heard; aliases are old or heard; the confidence is the old one or one heard. */
  predicate EntityFrom(
      before: Option<Entity>, heard: seq<Op>, k: Key, data: string, aliases: seq<string>, confidence: real) {
    && (if before.Some? then data == before.value.data else FirstData(heard, k) == Some(data))
    && (forall a :: a in aliases ==> (before.Some? && a in before.value.aliases) || HeardAlias(heard, k, a))
    && ((before.Some? && confidence == before.value.confidence) || HeardConfidence(heard, k, confidence))
  }

  /** A description stays, or is the first heard where there was none; the confidence is the old one or one heard. */
  predicate RelationFrom(
      before: Option<Relation>, heard: seq<Op>, i: Identity, description: string, confidence: real) {
    && ((before.Some? && description == before.value.description)
          || ((before.Some? ==> before.value.description == "") && description == FirstDescription(heard, i)))
    && ((before.Some? && confidence == before.value.confidence) || HeardFirmness(heard, i, confidence))
  }

  /* ----- the resolver ----- */

  /** What is planned for the key is from before or from what was heard; an unknown key was not heard of. */
  predicate PlanFrom(db: Db, r: Resolver, heard: seq<Op>, k: Key) {
    if k in r.entities then
      var plan := r.entities[k];
      EntityFrom(EntityBefore(db, k), heard, k, plan.data, plan.aliases, plan.confidence)
    else FirstData(heard, k) == None
  }

  predicate RelationPlanFrom(db: Db, r: Resolver, heard: seq<Op>, i: Identity) {
    if i in r.relations then
      var before, plan := RelationBefore(db, i), r.relations[i];
      && RelationFrom(before, heard, i, plan.description, plan.confidence)
      && (plan.description == "" ==> FirstDescription(heard, i) == "")
    else FirstDescription(heard, i) == ""
  }

  lemma HeardOneMore(heard: seq<Op>, op: Op)
    ensures (heard + [op])[..|heard|] == heard && (heard + [op])[|heard|] == op
    ensures forall o :: o in heard + [op] <==> o in heard || o == op
  {
  }

  lemma EntityFromMore(
      before: Option<Entity>, heard: seq<Op>, op: Op, k: Key, data: string, aliases: seq<string>, confidence: real)
    requires EntityFrom(before, heard, k, data, aliases, confidence)
    ensures EntityFrom(before, heard + [op], k, data, aliases, confidence)
  {
    HeardOneMore(heard, op);
    forall a | a in aliases && HeardAlias(heard, k, a) ensures HeardAlias(heard + [op], k, a) {
      var o :| o in heard && o.MentionOp? && o.entity.key == k && a in o.entity.aliases;
      assert o in heard + [op];
    }
    if HeardConfidence(heard, k, confidence) {
      var o :| o in heard && o.MentionOp? && o.entity.key == k && o.entity.confidence == confidence;
      assert o in heard + [op];
    }
  }

  lemma FirmnessMore(heard: seq<Op>, op: Op, i: Identity, confidence: real)
    requires HeardFirmness(heard, i, confidence)
    ensures HeardFirmness(heard + [op], i, confidence)
  {
    HeardOneMore(heard, op);
    var o :| o in heard && o.EvidenceOp? && o.identity == i && o.relation.confidence == confidence;
    assert o in heard + [op];
  }

  lemma MergedFrom(
      before: Option<Entity>, heard: seq<Op>, k: Key, data: string, aliases: seq<string>, more: seq<string>,
      confidence: real, other: real)
    requires EntityFrom(before, heard, k, data, aliases, confidence)
    requires forall a :: a in more ==> (before.Some? && a in before.value.aliases) || HeardAlias(heard, k, a)
    requires (before.Some? && other == before.value.confidence) || HeardConfidence(heard, k, other)
    ensures EntityFrom(before, heard, k, data, MergedAliases(aliases, more), Larger(confidence, other))
  {
    var both := aliases + more;
    assert both[..|both|] == both;
  }

  /** A key planned already keeps its data; a new one takes those of its row, or of the entity. */
  lemma SeeEntityFrom(db: Db, r: Resolver, op: Op, heard: seq<Op>)
    requires op.MentionOp? && PlanFrom(db, r, heard, op.entity.key)
    ensures PlanFrom(db, SeeEntity(db, r, op.entity), heard + [op], op.entity.key)
  {
    var e, k, before, more := op.entity, op.entity.key, EntityBefore(db, op.entity.key), heard + [op];
    HeardOneMore(heard, op);
    var plan := if k in r.entities then r.entities[k] else PlanEntity(db, e, r.next);
    assert op in more && HeardConfidence(more, k, e.confidence);
    assert forall a :: a in e.aliases ==> HeardAlias(more, k, a);
    if k in r.entities { EntityFromMore(before, heard, op, k, plan.data, plan.aliases, plan.confidence); }
    assert EntityFrom(before, more, k, plan.data, plan.aliases, plan.confidence);
    MergedFrom(before, more, k, plan.data, plan.aliases, e.aliases, plan.confidence, e.confidence);
  }

  lemma OtherKeyFrom(db: Db, r: Resolver, op: Op, heard: seq<Op>, k: Key)
    requires PlanFrom(db, r, heard, k) && (op.MentionOp? ==> op.entity.key != k)
    ensures PlanFrom(db, r, heard + [op], k)
  {
    HeardOneMore(heard, op);
    if k in r.entities {
      var plan := r.entities[k];
      EntityFromMore(EntityBefore(db, k), heard, op, k, plan.data, plan.aliases, plan.confidence);
    }
  }

  /** A relation planned anew comes from its row, or from what was said of it. */
  lemma SeeRelationFrom(db: Db, r: Resolver, op: Op, heard: seq<Op>)
    requires ResolverOk(db, r) && op.EvidenceOp? && RelationPlanFrom(db, r, heard, op.identity)
    requires op.identity.source in r.entities && op.identity.target in r.entities
    ensures RelationPlanFrom(db, SeeRelation(db, r, op.identity, op.relation), heard + [op], op.identity)
  {
    var i := op.identity;
    HeardOneMore(heard, op);
    assert op in heard + [op] && HeardFirmness(heard + [op], i, op.relation.confidence);
    if i in r.relations {
      if HeardFirmness(heard, i, r.relations[i].confidence) {
        FirmnessMore(heard, op, i, r.relations[i].confidence);
      }
    } else {
      assert EntityPlanOk(db, i.source, r.entities[i.source]) && EntityPlanOk(db, i.target, r.entities[i.target]);
    }
  }

  lemma OtherIdentityFrom(db: Db, r: Resolver, op: Op, heard: seq<Op>, i: Identity)
    requires RelationPlanFrom(db, r, heard, i) && (op.EvidenceOp? ==> op.identity != i)
    ensures RelationPlanFrom(db, r, heard + [op], i)
  {
    HeardOneMore(heard, op);
    if i in r.relations && HeardFirmness(heard, i, r.relations[i].confidence) {
      FirmnessMore(heard, op, i, r.relations[i].confidence);
    }
  }

  /** Both at once: what the resolver plans of the key and of the identity. */
  predicate PlannedFromHeard(db: Db, r: Resolver, heard: seq<Op>, k: Key, i: Identity) {
    PlanFrom(db, r, heard, k) && RelationPlanFrom(db, r, heard, i)
  }

  lemma SeeFromHeard(db: Db, r: Resolver, op: Op, heard: seq<Op>, k: Key, i: Identity)
    requires ResolverOk(db, r) && Resolvable(r, op) && PlannedFromHeard(db, r, heard, k, i)
    ensures PlannedFromHeard(db, See(db, r, op), heard + [op], k, i)
  {
    match op
    case MentionOp(_, e) =>
      if e.key == k { SeeEntityFrom(db, r, op, heard); } else { OtherKeyFrom(db, r, op, heard, k); }
      OtherIdentityFrom(db, r, op, heard, i);
    case EvidenceOp(_, j, _) =>
      if j == i { SeeRelationFrom(db, r, op, heard); } else { OtherIdentityFrom(db, r, op, heard, i); }
      OtherKeyFrom(db, r, op, heard, k);
  }

  lemma {:induction false} SeeFromIsFromHeard(
      db: Db, r: Resolver, ops: seq<Op>, heard: seq<Op>, n: nat, k: Key, i: Identity)
    requires IdsBelow(db) && ResolverOk(db, r) && Grounded(ops) && n <= |ops| && Seen(r, ops, n)
    requires PlannedFromHeard(db, r, heard, k, i)
    ensures PlannedFromHeard(db, SeeFrom(db, r, ops, n), heard + ops[n..], k, i)
    decreases |ops| - n
  {
    if n < |ops| {
      NextResolvable(r, ops, n);
      SeeFromHeard(db, r, ops[n], heard, k, i);
      NextSeen(db, r, ops, n);
      SeeFromIsFromHeard(db, See(db, r, ops[n]), ops, heard + [ops[n]], n + 1, k, i);
      assert heard + [ops[n]] + ops[n + 1..] == heard + ops[n..];
    } else {
      assert heard + ops[n..] == heard;
    }
  }

  /* ----- the rows ----- */

  /** The active row with the key, if there is one, holds what was there or was heard. */
  predicate EntityRowFrom(db: Db, before: Option<Entity>, heard: seq<Op>, k: Key) {
    match EntityBefore(db, k)
    case Some(row) => EntityFrom(before, heard, k, row.data, row.aliases, row.confidence)
    case None => true
  }

  predicate RelationRowFrom(db: Db, before: Option<Relation>, heard: seq<Op>, i: Identity) {
    match RelationBefore(db, i)
    case Some(row) => RelationFrom(before, heard, i, row.description, row.confidence)
    case None => true
  }

  /** An entity row other than the one written is as it was. */
  lemma OtherEntityStays(db: Db, r: Resolver, chunk: Id, key: Key, k: Key)
    requires Inv(db) && EntityPlansFit(db, r) && key in r.entities && LiveChunk(db, chunk) && k != key
    ensures EntityBefore(Mentioned(db, r, chunk, key), k) == EntityBefore(db, k)
  {
    var after := Mentioned(db, r, chunk, key);
    var (id, row) := EntityRow(db, key, r.entities[key]);
    MentionKeepsRows(db, r, chunk, key);
    MentionEffect(db, r, chunk, key, k, chunk);
    EntityRowFits(db, key, r.entities[key]);
    assert after.entities == db.entities[id := row];
    if HasKey(db, k) { KeysStay(db, after, k); }
  }

  /** The row written is the one there was with the plan merged in, or the plan. */
  lemma WrittenEntity(db: Db, r: Resolver, chunk: Id, key: Key)
    requires Inv(db) && EntityPlansFit(db, r) && key in r.entities && LiveChunk(db, chunk)
    ensures EntityBefore(Mentioned(db, r, chunk, key), key) == Some(EntityRow(db, key, r.entities[key]).1)
  {
    MentionKeepsRows(db, r, chunk, key);
  }

  lemma MentionFrom(db: Db, r: Resolver, chunk: Id, key: Key, before: Option<Entity>, heard: seq<Op>, k: Key)
    requires Inv(db) && EntityPlansFit(db, r) && key in r.entities && LiveChunk(db, chunk)
    requires EntityRowFrom(db, before, heard, k)
    requires var plan := r.entities[key];
             k == key ==> EntityFrom(before, heard, k, plan.data, plan.aliases, plan.confidence)
    ensures EntityRowFrom(Mentioned(db, r, chunk, key), before, heard, k)
  {
    if k != key {
      OtherEntityStays(db, r, chunk, key, k);
    } else {
      WrittenEntity(db, r, chunk, key);
      var plan, found := r.entities[key], EntityBefore(db, key);
      if found.Some? {
        var row := found.value;
        MergedFrom(before, heard, k, row.data, row.aliases, plan.aliases, row.confidence, plan.confidence);
      }
    }
  }

  lemma MentionKeepsRelation(db: Db, r: Resolver, chunk: Id, key: Key, i: Identity)
    requires Inv(db) && EntityPlansFit(db, r) && key in r.entities && LiveChunk(db, chunk)
    ensures RelationBefore(Mentioned(db, r, chunk, key), i) == RelationBefore(db, i)
  {
    var after := Mentioned(db, r, chunk, key);
    MentionKeepsRows(db, r, chunk, key);
    MentionKeepsIdentities(db, r, chunk, key, i, chunk);
    if HasIdentity(db, i) { IdentitiesStay(db, after, i); }
  }

  lemma EvidenceKeepsEntity(db: Db, r: Resolver, chunk: Id, i: Identity, k: Key)
    requires EvidenceReady(db, r, chunk, i)
    ensures EntityBefore(Evidenced(db, r, chunk, i), k) == EntityBefore(db, k)
  {
    EvidenceTakesStep(db, r, chunk, i);
    EvidenceKeepsKeys(db, Evidenced(db, r, chunk, i), i, EvidencedId(db, r, i), chunk, k, chunk);
  }

  lemma OtherRelationStays(db: Db, r: Resolver, chunk: Id, i: Identity, j: Identity)
    requires EvidenceReady(db, r, chunk, i) && j != i
    ensures RelationBefore(Evidenced(db, r, chunk, i), j) == RelationBefore(db, j)
  {
    EvidenceTakesStep(db, r, chunk, i);
    OtherRowsStay(db, r, chunk, i);
    StepKeepsOthers(db, Evidenced(db, r, chunk, i), i, EvidencedId(db, r, i), chunk, j);
  }

  lemma OtherRowsStay(db: Db, r: Resolver, chunk: Id, i: Identity)
    requires i in r.relations && HasKey(db, i.source) && HasKey(db, i.target)
    ensures var after := Evidenced(db, r, chunk, i);
            forall x :: x in db.relations && x != EvidencedId(db, r, i) ==>
                x in after.relations && after.relations[x] == db.relations[x]
  {
  }

  lemma StepKeepsOthers(db: Db, after: Db, i: Identity, id: Id, chunk: Id, j: Identity)
    requires EvidenceStep(db, after, i, id, chunk) && j != i
    requires forall x :: x in db.relations && x != id ==> x in after.relations && after.relations[x] == db.relations[x]
    ensures RelationBefore(after, j) == RelationBefore(db, j)
  {
    EvidenceAddsIdentity(db, after, i, id, chunk, j);
    if HasIdentity(after, j) && RelationOf(after, j) == id { OneIdentity(after, i, j); }
  }

  lemma WrittenRelation(db: Db, r: Resolver, chunk: Id, i: Identity)
    requires EvidenceReady(db, r, chunk, i)
    ensures RelationBefore(Evidenced(db, r, chunk, i), i) ==
            Some(match RelationBefore(db, i)
                 case Some(row) =>
                   row.(confidence := Larger(row.confidence, r.relations[i].confidence),
                        description := if row.description == "" then r.relations[i].description else row.description)
                 case None =>
                   Relation(ActiveByKey(db, i.source).value, ActiveByKey(db, i.target).value, i.predicateName,
                            r.relations[i].description, r.relations[i].confidence, true))
  {
    EvidenceTakesStep(db, r, chunk, i);
  }

  lemma EvidenceFrom(
      db: Db, r: Resolver, chunk: Id, i: Identity, before: Option<Relation>, heard: seq<Op>, j: Identity)
    requires EvidenceReady(db, r, chunk, i) && RelationRowFrom(db, before, heard, j)
    requires var plan := r.relations[i]; j == i ==> RelationFrom(before, heard, j, plan.description, plan.confidence)
    ensures RelationRowFrom(Evidenced(db, r, chunk, i), before, heard, j)
  {
    if j != i { OtherRelationStays(db, r, chunk, i, j); } else { WrittenRelation(db, r, chunk, i); }
  }

  /** Both at once, for the rows. */
  predicate RowsFromHeard(db0: Db, db: Db, heard: seq<Op>, k: Key, i: Identity) {
    EntityRowFrom(db, EntityBefore(db0, k), heard, k) && RelationRowFrom(db, RelationBefore(db0, i), heard, i)
  }

  lemma OpFromHeard(db0: Db, w: Work, r: Resolver, op: Op, heard: seq<Op>, k: Key, i: Identity)
    requires Inv(w.db) && PlansFit(w.db, r) && Ready(w.db, r, op)
    requires PlannedFromHeard(db0, r, heard, k, i) && RowsFromHeard(db0, w.db, heard, k, i)
    ensures RowsFromHeard(db0, ApplyOp(w, r, op).db, heard, k, i)
  {
    match op
    case MentionOp(chunk, e) =>
      MentionFrom(w.db, r, chunk, e.key, EntityBefore(db0, k), heard, k);
      MentionKeepsRelation(w.db, r, chunk, e.key, i);
    case EvidenceOp(chunk, j, _) =>
      EvidenceFrom(w.db, r, chunk, j, RelationBefore(db0, i), heard, i);
      EvidenceKeepsEntity(w.db, r, chunk, j, k);
  }

  lemma {:induction false} FoldFromHeard(
      db0: Db, db: Db, r: Resolver, plan: SourcePlan, w: Work, n: nat, heard: seq<Op>, k: Key, i: Identity)
    requires SourceReady(db, r, plan) && n <= |plan.ops| && SourceState(db, r, plan, w, n)
    requires PlannedFromHeard(db0, r, heard, k, i) && RowsFromHeard(db0, w.db, heard, k, i)
    ensures RowsFromHeard(db0, ApplyFrom(w, r, plan.ops, n).db, heard, k, i)
    decreases |plan.ops| - n
  {
    if n < |plan.ops| {
      var next := ApplyOp(w, r, plan.ops[n]);
      NextFromHeard(db0, db, r, plan, w, n, heard, k, i, next);
      FoldFromHeard(db0, db, r, plan, next, n + 1, heard, k, i);
    }
  }

  lemma NextFromHeard(
      db0: Db, db: Db, r: Resolver, plan: SourcePlan, w: Work, n: nat, heard: seq<Op>, k: Key, i: Identity, next: Work)
    requires SourceReady(db, r, plan) && n < |plan.ops| && SourceState(db, r, plan, w, n)
    requires PlannedFromHeard(db0, r, heard, k, i) && RowsFromHeard(db0, w.db, heard, k, i)
    requires next == ApplyOp(w, r, plan.ops[n])
    ensures SourceState(db, r, plan, next, n + 1) && RowsFromHeard(db0, next.db, heard, k, i)
  {
    NextIsReady(db, r, plan, w, n);
    OpFromHeard(db0, w, r, plan.ops[n], heard, k, i);
    NextState(db, r, plan, w, n);
  }

  lemma SameRowsFromHeard(db0: Db, a: Db, b: Db, heard: seq<Op>, k: Key, i: Identity)
    requires a.entities == b.entities && a.relations == b.relations
    ensures RowsFromHeard(db0, a, heard, k, i) <==> RowsFromHeard(db0, b, heard, k, i)
  {
    SameLookups(a, b, k, i);
  }

  lemma OneFromHeard(
      db0: Db, db: Db, r: Resolver, plan: SourcePlan, rollsBack: bool, heard: seq<Op>, k: Key, i: Identity)
    requires SourceReady(db, r, plan)
    requires PlannedFromHeard(db0, r, heard, k, i) && RowsFromHeard(db0, db, heard, k, i)
    ensures RowsFromHeard(db0, PersistOne(db, r, plan, rollsBack), heard, k, i)
  {
    if rollsBack {
      MarkingKeeps(db, [plan.source], Failed, 1);
      SameRowsFromHeard(db0, db, PersistOne(db, r, plan, rollsBack), heard, k, i);
    } else {
      var start, worked := StartWork(db, plan), SourceWork(db, r, plan);
      StartState(db, r, plan);
      SameRowsFromHeard(db0, db, start.db, heard, k, i);
      FoldFromHeard(db0, db, r, plan, start, 0, heard, k, i);
      SameRowsFromHeard(db0, worked.db, Finished(worked, plan), heard, k, i);
    }
  }

  lemma {:induction false} PersistFromHeard(
      db0: Db, db: Db, r: Resolver, plans: seq<SourcePlan>, rollbacks: Rollbacks, n: nat, heard: seq<Op>, k: Key,
      i: Identity)
    requires PersistReady(db, r, plans, n) && n <= |plans|
    requires PlannedFromHeard(db0, r, heard, k, i) && RowsFromHeard(db0, db, heard, k, i)
    ensures RowsFromHeard(db0, PersistFrom(db, r, plans, rollbacks, n), heard, k, i)
    decreases |plans| - n
  {
    if n < |plans| {
      OneFromHeard(db0, db, r, plans[n], rollbacks(n), heard, k, i);
      PersistOneKeeps(db, r, plans, rollbacks(n), n);
      PersistFromHeard(db0, PersistOne(db, r, plans[n], rollbacks(n)), r, plans, rollbacks, n + 1, heard, k, i);
    }
  }

  lemma NothingHeardYet(db: Db, start: Db, k: Key, i: Identity, heard: seq<Op>)
    requires start.entities == db.entities && start.relations == db.relations
    ensures RowsFromHeard(db, start, heard, k, i)
  {
    SameLookups(db, start, k, i);
  }

  lemma BatchFromHeard(db: Db, b: Batch, rollbacks: Rollbacks, heard: seq<Op>, k: Key, i: Identity)
    requires BatchGood(db, b) && PlannedFromHeard(db, b.resolver, heard, k, i)
    ensures RowsFromHeard(db, PersistBatch(db, b, rollbacks), heard, k, i)
  {
    var start, after := Reserved(db, b.resolver), PersistBatch(db, b, rollbacks);
    NothingHeardYet(db, start, k, i, heard);
    PersistFromHeard(db, start, b.resolver, b.plans, rollbacks, 0, heard, k, i);
    BatchStatuses(db, b, rollbacks);
    SameRowsFromHeard(db, PersistFrom(start, b.resolver, b.plans, rollbacks, 0), after, heard, k, i);
  }

  /* ----- what a batch hears ----- */

  /** All that the plans' chunks say, in order. */
  function HeardBy(plans: seq<SourcePlan>): seq<Op> {
    if plans == [] then [] else HeardBy(plans[..|plans| - 1]) + plans[|plans| - 1].ops
  }

  lemma {:induction false} HeardOfPlan(plans: seq<SourcePlan>, op: Op) returns (j: nat)
    requires op in HeardBy(plans)
    ensures j < |plans| && op in plans[j].ops
  {
    var n := |plans| - 1;
    if op in HeardBy(plans[..n]) { j := HeardOfPlan(plans[..n], op); } else { j := n; }
  }

  predicate BatchFromHeardOps(db: Db, b: Batch, k: Key, i: Identity) {
    PlannedFromHeard(db, b.resolver, HeardBy(b.plans), k, i)
  }

  lemma AppendFromHeard(db: Db, b: Batch, plan: SourcePlan, count: nat, next: Batch, k: Key, i: Identity)
    requires IdsBelow(db) && ResolverOk(db, b.resolver) && Grounded(plan.ops) && BatchFromHeardOps(db, b, k, i)
    requires next.plans == b.plans + [plan] && next.resolver == ResolverAfter(db, b.resolver, count, plan.ops)
    ensures BatchFromHeardOps(db, next, k, i)
  {
    ReservedKeepsResolver(db, b.resolver, count);
    SeeFromIsFromHeard(db, Reserve(b.resolver, count), plan.ops, HeardBy(b.plans), 0, k, i);
    assert next.plans[..|b.plans|] == b.plans && plan.ops[0..] == plan.ops;
  }

  lemma PrepareOneFromHeard(
      db: Db, b: Batch, source: Id, allowFailed: bool, p: Provider, next: Batch, k: Key, i: Identity)
    requires ValidProvider(p) && IdsBelow(db) && ResolverOk(db, b.resolver) && BatchFromHeardOps(db, b, k, i)
    requires PrepareOne(db, b, source, allowFailed, p) == Some(next)
    ensures BatchFromHeardOps(db, next, k, i)
  {
    var document := PrepareOneCases(db, b, source, allowFailed, p, next);
    if document.Some? {
      var plan := PlanSource(db, b.resolver, source, document.value, p);
      AppendFromHeard(db, b, plan, AddedCount(db, source, p), next, k, i);
    }
  }

  lemma {:induction false} PrepareFromHeard(
      db: Db, b: Batch, sources: seq<Id>, allowFailed: bool, p: Provider, n: nat, k: Key, i: Identity)
    requires RowsOk(db) && ValidProvider(p) && n <= |sources| && NoRepeats(sources) && BatchOk(db, b, sources, n)
    requires BatchFromHeardOps(db, b, k, i)
    ensures var after := PrepareFrom(db, b, sources, allowFailed, p, n);
            after.Some? ==> BatchFromHeardOps(db, after.value, k, i)
    decreases |sources| - n
  {
    if n < |sources| {
      var next := PrepareOne(db, b, sources[n], allowFailed, p);
      if next.Some? {
        PrepareOneFromHeard(db, b, sources[n], allowFailed, p, next.value, k, i);
        PrepareOneKeepsBatch(db, b, sources, allowFailed, p, n, next.value);
        PrepareFromHeard(db, next.value, sources, allowFailed, p, n + 1, k, i);
      }
    }
  }

  lemma CognifyFromHeard(
      db: Db, requested: seq<Id>, allowFailed: bool, p: Provider, rollbacks: Rollbacks, after: Db, k: Key, i: Identity)
    requires Inv(db) && ValidProvider(p) && BatchFor(db, requested, allowFailed, p).Some?
    requires after == Cognify(db, requested, allowFailed, p, rollbacks)
    ensures RowsFromHeard(db, after, HeardBy(BatchFor(db, requested, allowFailed, p).value.plans), k, i)
  {
    var b, sources := BatchFor(db, requested, allowFailed, p).value, Distinct(requested, |requested|);
    BatchReady(db, requested, allowFailed, p);
    DistinctHasNoRepeats(requested, |requested|);
    EmptyBatchOk(db, sources);
    PrepareFromHeard(db, EmptyBatch(db), sources, allowFailed, p, 0, k, i);
    BatchFromHeard(db, b, rollbacks, HeardBy(b.plans), k, i);
  }

  /* ----- what is heard was said ----- */

  /** The extraction declares the entity, or states the relation between what the identity's keys name. */
  ghost predicate States(x: Extraction, op: Op) {
    match op
    case MentionOp(_, e) => e in x.entities
    case EvidenceOp(_, i, r) => r in x.relations && RelatesBy(x, r, i)
  }

  lemma ChunkOpStated(chunk: Id, x: Extraction, op: Op)
    requires ValidLocalGraph(x) && op in ChunkOps(chunk, x)
    ensures States(x, op)
  {
    if op.EvidenceOp? { IdentitySays(x, op.relation, op.identity); }
  }

  lemma {:induction false} OpsOfStated(
      rows: map<Id, Chunk>, source: Id, ids: seq<Id>, p: Provider, n: nat, op: Op) returns (m: nat)
    requires n <= |ids| && ValidProvider(p) && (forall id :: id in ids ==> id in rows)
    requires op in OpsOf(rows, source, ids, p, n)
    ensures m < n && States(p.extract(source, rows[ids[m]].ordinal), op)
  {
    if op in OpsOf(rows, source, ids, p, n - 1) {
      m := OpsOfStated(rows, source, ids, p, n - 1, op);
    } else {
      m := n - 1;
      assert ExtractsValid(p, source, rows[ids[m]].ordinal);
      ChunkOpStated(ids[m], p.extract(source, rows[ids[m]].ordinal), op);
    }
  }

  predicate UnreadOrdinal(db: Db, source: Id, ordinal: nat, c: Id) {
    c in ChunksOf(db, source) && !db.chunks[c].extracted && db.chunks[c].ordinal == ordinal
  }

  /** A chunk the source still has to have read, or, if it has none, one its text will be cut into. */
  ghost predicate ToBeRead(db: Db, p: Provider, source: Id, ordinal: nat) {
    if HasChunks(db, source) then exists c: Id :: UnreadOrdinal(db, source, ordinal, c)
    else ordinal < p.chunkCount(source)
  }

  lemma PlanOpStated(db: Db, plan: SourcePlan, p: Provider, op: Op) returns (ordinal: nat)
    requires ValidProvider(p) && IsPlan(db, plan, p) && op in plan.ops
    ensures ToBeRead(db, p, plan.source, ordinal) && States(p.extract(plan.source, ordinal), op)
  {
    var first: Id :| IsPlanFor(db, plan, first, p);
    var source, added := plan.source, plan.added;
    var rows, ids := db.chunks + added, SortedBy(OrdinalRank(db.chunks + added), ToExtract(db, source, added));
    var m := OpsOfStated(rows, source, ids, p, |ids|, op);
    ordinal := rows[ids[m]].ordinal;
    HasChunksIs(db, source);
    ReadOrdinal(db, source, plan.document, added, first, p, ids[m]);
  }

  lemma ReadOrdinal(db: Db, source: Id, document: Id, added: map<Id, Chunk>, first: Id, p: Provider, c: Id)
    requires added == NewChunks(source, document, first, AddedCount(db, source, p)) && c in ToExtract(db, source, added)
    requires HasChunks(db, source) <==> ChunksOf(db, source) != {}
    ensures c in db.chunks + added && ToBeRead(db, p, source, (db.chunks + added)[c].ordinal)
  {
    if HasChunks(db, source) { assert UnreadOrdinal(db, source, db.chunks[c].ordinal, c); }
  }

  /** What the operation says, the provider says of a chunk to be read of a requested source it does not refuse. */
  ghost predicate SaidInBatch(db: Db, requested: seq<Id>, allowFailed: bool, p: Provider, op: Op) {
    exists source: Id, ordinal: nat :: SaidOf(db, requested, allowFailed, p, op, source, ordinal)
  }

  ghost predicate SaidOf(
      db: Db, requested: seq<Id>, allowFailed: bool, p: Provider, op: Op, source: Id, ordinal: int) {
    && source in requested && source in db.sources && Decide(db, source, allowFailed).Process? && !p.refused(source)
    && ordinal >= 0 && ToBeRead(db, p, source, ordinal) && States(p.extract(source, ordinal), op)
  }

  lemma HeardWasSaid(db: Db, requested: seq<Id>, allowFailed: bool, p: Provider, op: Op)
    requires Inv(db) && ValidProvider(p) && BatchFor(db, requested, allowFailed, p).Some?
    requires op in HeardBy(BatchFor(db, requested, allowFailed, p).value.plans)
    ensures SaidInBatch(db, requested, allowFailed, p, op)
  {
    var plans := BatchFor(db, requested, allowFailed, p).value.plans;
    var j := HeardOfPlan(plans, op);
    BatchPlansAre(db, requested, allowFailed, p);
    assert IsPlan(db, plans[j], p);
    var ordinal := PlanOpStated(db, plans[j], p, op);
    PlanDocument(db, plans[j], p);
    PlanOfSource(db, requested, allowFailed, p, plans[j].source);
    assert SaidOf(db, requested, allowFailed, p, op, plans[j].source, ordinal);
  }

  /* ----- the theorems ----- */

  /**
   An active entity's data are those of the row its key had before, or, if it had none, of the first entity the
   provider declared in this batch under the key; its aliases and confidence come from that row or from such entities.
  */
  lemma EntityContents(
      db: Db, requested: seq<Id>, allowFailed: bool, p: Provider, rollbacks: Rollbacks, after: Db, id: Id)
    returns (heard: seq<Op>)
    requires Inv(db) && ValidProvider(p) && BatchFor(db, requested, allowFailed, p).Some?
    requires after == Cognify(db, requested, allowFailed, p, rollbacks) && LiveEntity(after, id)
    ensures forall op :: op in heard ==> SaidInBatch(db, requested, allowFailed, p, op)
    ensures var row := after.entities[id];
            EntityFrom(EntityBefore(db, row.key), heard, row.key, row.data, row.aliases, row.confidence)
  {
    var k := after.entities[id].key;
    heard := HeardBy(BatchFor(db, requested, allowFailed, p).value.plans);
    CognifyFromHeard(db, requested, allowFailed, p, rollbacks, after, k, Identity(k, k, ""));
    CognifyKeeps(db, requested, allowFailed, p, rollbacks, after);
    KeyLookup(after, id);
    forall op | op in heard ensures SaidInBatch(db, requested, allowFailed, p, op) {
      HeardWasSaid(db, requested, allowFailed, p, op);
    }
  }

  /**
   An active relation's description is that of the row its identity had before, or, where there was none, the first
   one the provider gave in this batch; its confidence is that row's, or that of a relation the provider stated.
  */
  lemma RelationContents(
      db: Db, requested: seq<Id>, allowFailed: bool, p: Provider, rollbacks: Rollbacks, after: Db, i: Identity)
    returns (heard: seq<Op>)
    requires Inv(db) && ValidProvider(p) && BatchFor(db, requested, allowFailed, p).Some?
    requires after == Cognify(db, requested, allowFailed, p, rollbacks) && HasIdentity(after, i)
    ensures forall op :: op in heard ==> SaidInBatch(db, requested, allowFailed, p, op)
    ensures var row := after.relations[RelationOf(after, i)];
            RelationFrom(RelationBefore(db, i), heard, i, row.description, row.confidence)
  {
    heard := HeardBy(BatchFor(db, requested, allowFailed, p).value.plans);
    CognifyFromHeard(db, requested, allowFailed, p, rollbacks, after, i.source, i);
    forall op | op in heard ensures SaidInBatch(db, requested, allowFailed, p, op) {
      HeardWasSaid(db, requested, allowFailed, p, op);
    }
  }
}
