/** What a whole normal cognify guarantees: isolation of savepoints, counters, support, and the projection. */
module KnowledgeCognifyTheorems {
  import opened Wrappers
  import opened Ordering
  import opened GraphProjection
  import opened KnowledgeStore
  import opened KnowledgeCognify
  import opened KnowledgeCognifySafety
  import opened KnowledgeCognifySource
  import opened KnowledgeCognifyBatch

  /* ----- savepoint isolation ----- */

  ghost predicate LandsKey(plan: SourcePlan, rollsBack: bool, k: Key) {
    !rollsBack && OpsHaveKey(plan.ops, |plan.ops|, k)
  }

  ghost predicate LandsMention(plan: SourcePlan, rollsBack: bool, k: Key, c: Id) {
    !rollsBack && MentionedBefore(plan.ops, |plan.ops|, k, c)
  }

  ghost predicate LandsIdentity(plan: SourcePlan, rollsBack: bool, i: Identity) {
    !rollsBack && OpsHaveIdentity(plan.ops, |plan.ops|, i)
  }

  ghost predicate LandsEvidence(plan: SourcePlan, rollsBack: bool, i: Identity, c: Id) {
    !rollsBack && EvidencedBefore(plan.ops, |plan.ops|, i, c)
  }

  /**
   From `db`, the keys, mentions, identities and evidence of the surviving sources from the `n`th on, and no others.
  */
  ghost predicate AddsSurvivors(
    db: Db, after: Db, plans: seq<SourcePlan>, rollbacks: Rollbacks, n: nat, k: Key, i: Identity, c: Id) {
    && (HasKey(after, k) <==> HasKey(db, k) || exists j :: n <= j < |plans| && LandsKey(plans[j], rollbacks(j), k))
    && (KeyMentioned(after, k, c) <==>
          KeyMentioned(db, k, c) || exists j :: n <= j < |plans| && LandsMention(plans[j], rollbacks(j), k, c))
    && (HasIdentity(after, i) <==>
          HasIdentity(db, i) || exists j :: n <= j < |plans| && LandsIdentity(plans[j], rollbacks(j), i))
    && (IdentityEvidenced(after, i, c) <==>
          IdentityEvidenced(db, i, c) || exists j :: n <= j < |plans| && LandsEvidence(plans[j], rollbacks(j), i, c))
  }

  /** One persisted source's contribution: all of it, or nothing. */
  ghost predicate AddsOne(db: Db, next: Db, plan: SourcePlan, rollsBack: bool, k: Key, i: Identity, c: Id) {
    && (HasKey(next, k) <==> HasKey(db, k) || LandsKey(plan, rollsBack, k))
    && (KeyMentioned(next, k, c) <==> KeyMentioned(db, k, c) || LandsMention(plan, rollsBack, k, c))
    && (HasIdentity(next, i) <==> HasIdentity(db, i) || LandsIdentity(plan, rollsBack, i))
    && (IdentityEvidenced(next, i, c) <==> IdentityEvidenced(db, i, c) || LandsEvidence(plan, rollsBack, i, c))
  }

  lemma MarkedAddsNothing(db: Db, after: Db, plan: SourcePlan, k: Key, i: Identity, c: Id)
    requires SameGraph(db, after)
    ensures AddsOne(db, after, plan, true, k, i, c)
  {
    SameLookups(db, after, k, i);
  }

  lemma PersistOneAdds(db: Db, r: Resolver, plan: SourcePlan, rollsBack: bool, k: Key, i: Identity, c: Id)
    requires SourceReady(db, r, plan)
    ensures AddsOne(db, PersistOne(db, r, plan, rollsBack), plan, rollsBack, k, i, c)
  {
    if rollsBack {
      MarkingKeeps(db, [plan.source], Failed, 1);
      MarkedAddsNothing(db, PersistOne(db, r, plan, rollsBack), plan, k, i, c);
    } else {
      PersistSourceAdds(db, r, plan, k, i, c);
      LandedAdds(db, PersistSource(db, r, plan), plan, k, i, c);
    }
  }

  lemma LandedAdds(db: Db, after: Db, plan: SourcePlan, k: Key, i: Identity, c: Id)
    requires AddsOps(db, after, plan.ops, |plan.ops|, k, i, c)
    ensures AddsOne(db, after, plan, false, k, i, c)
  {
  }

  lemma SurvivorsChain(
    db: Db, next: Db, after: Db, plans: seq<SourcePlan>, rollbacks: Rollbacks, n: nat, k: Key, i: Identity, c: Id)
    requires n < |plans| && AddsOne(db, next, plans[n], rollbacks(n), k, i, c)
    requires AddsSurvivors(next, after, plans, rollbacks, n + 1, k, i, c)
    ensures AddsSurvivors(db, after, plans, rollbacks, n, k, i, c)
  {
    assert HasKey(after, k) <==> HasKey(db, k) || exists j :: n <= j < |plans| && LandsKey(plans[j], rollbacks(j), k);
    assert KeyMentioned(after, k, c) <==>
        KeyMentioned(db, k, c) || exists j :: n <= j < |plans| && LandsMention(plans[j], rollbacks(j), k, c);
    assert HasIdentity(after, i) <==>
        HasIdentity(db, i) || exists j :: n <= j < |plans| && LandsIdentity(plans[j], rollbacks(j), i);
    assert IdentityEvidenced(after, i, c) <==>
        IdentityEvidenced(db, i, c) || exists j :: n <= j < |plans| && LandsEvidence(plans[j], rollbacks(j), i, c);
  }

  lemma {:induction false} PersistFromAdds(
    db: Db, r: Resolver, plans: seq<SourcePlan>, rollbacks: Rollbacks, n: nat, k: Key, i: Identity, c: Id)
    requires PersistReady(db, r, plans, n) && n <= |plans|
    ensures AddsSurvivors(db, PersistFrom(db, r, plans, rollbacks, n), plans, rollbacks, n, k, i, c)
    decreases |plans| - n
  {
    if n < |plans| {
      var next := PersistOne(db, r, plans[n], rollbacks(n));
      PersistOneKeeps(db, r, plans, rollbacks(n), n);
      PersistOneAdds(db, r, plans[n], rollbacks(n), k, i, c);
      PersistFromAdds(next, r, plans, rollbacks, n + 1, k, i, c);
      SurvivorsChain(db, next, PersistFrom(next, r, plans, rollbacks, n + 1), plans, rollbacks, n, k, i, c);
      assert PersistFrom(db, r, plans, rollbacks, n) == PersistFrom(next, r, plans, rollbacks, n + 1);
    } else {
      NoMoreSurvivors(db, plans, rollbacks, k, i, c);
    }
  }

  lemma NoMoreSurvivors(db: Db, plans: seq<SourcePlan>, rollbacks: Rollbacks, k: Key, i: Identity, c: Id)
    ensures AddsSurvivors(db, db, plans, rollbacks, |plans|, k, i, c)
  {
  }

  /* ----- the projection stays in step ----- */

  /** Replaying every outbox command from the empty graph gives exactly the graph PostgreSQL holds. */
  ghost predicate InStep(db: Db) {
    Replay(Nothing, db.outbox, |db.outbox|) == Some(Expected(db))
  }

  lemma StaysInStep(db: Db, after: Db, commands: seq<Command>)
    requires InStep(db) && after.outbox == db.outbox + commands
    requires Replay(Expected(db), commands, |commands|) == Some(Expected(after))
    ensures InStep(after)
  {
    ReplayConcat(Nothing, db.outbox, commands, |commands|);
  }

  lemma MarkingStaysInStep(db: Db, sources: seq<Id>, status: SourceStatus, n: nat)
    requires n <= |sources| && InStep(db)
    ensures InStep(SetStatuses(db, sources, status, n))
  {
    MarkingKeeps(db, sources, status, n);
    SameGraphProjects(db, SetStatuses(db, sources, status, n));
  }

  lemma PersistOneStaysInStep(db: Db, r: Resolver, plan: SourcePlan, rollsBack: bool)
    requires SourceReady(db, r, plan) && InStep(db)
    ensures InStep(PersistOne(db, r, plan, rollsBack))
  {
    if rollsBack {
      MarkingStaysInStep(db, [plan.source], Failed, 1);
    } else {
      PersistSourceProjects(db, r, plan);
      StaysInStep(db, PersistSource(db, r, plan), CognifyCommands(SourceWork(db, r, plan), plan.source));
    }
  }

  lemma {:induction false} PersistFromStaysInStep(
      db: Db, r: Resolver, plans: seq<SourcePlan>, rollbacks: Rollbacks, n: nat)
    requires PersistReady(db, r, plans, n) && n <= |plans| && InStep(db)
    ensures InStep(PersistFrom(db, r, plans, rollbacks, n))
    decreases |plans| - n
  {
    if n < |plans| {
      PersistOneKeeps(db, r, plans, rollbacks(n), n);
      PersistOneStaysInStep(db, r, plans[n], rollbacks(n));
      PersistFromStaysInStep(PersistOne(db, r, plans[n], rollbacks(n)), r, plans, rollbacks, n + 1);
    }
  }

  /* ----- cognify never adds support for an inactive row ----- */

  lemma SourceKeepsExact(db: Db, w: Work, r: Resolver, plan: SourcePlan)
    requires RefsOk(db) && Exact(db) && WorkOk(WithAdded(db, plan), w, r, plan.source)
    requires forall id :: id in plan.added ==> id !in db.chunks
    ensures Exact(w.db)
  {
    forall id | id in w.db.relations && SupportedRelation(w.db, id) ensures w.db.relations[id].active {
      var v :| v in w.db.evidence && v.relation == id && LiveChunk(w.db, v.chunk);
      if v in db.evidence {
        assert v.chunk in db.chunks && LiveChunk(db, v.chunk);
        assert SupportedRelation(db, id);
      } else {
        assert id in w.relations && LiveRelation(w.db, id);
      }
    }
    forall id | id in w.db.entities && SupportedEntity(w.db, id) ensures w.db.entities[id].active {
      var m :| m in w.db.mentions && m.entity == id && LiveChunk(w.db, m.chunk);
      if m in db.mentions {
        assert m.chunk in db.chunks && LiveChunk(db, m.chunk);
        assert SupportedEntity(db, id);
      } else {
        assert m in w.mentions && LiveEntity(w.db, id);
      }
    }
    ActiveRowsSupported(w.db);
  }

  lemma ActiveRowsSupported(db: Db)
    requires ActiveIsSupported(db)
    ensures forall id :: id in db.relations && db.relations[id].active ==> SupportedRelation(db, id)
    ensures forall id :: id in db.entities && db.entities[id].active ==> SupportedEntity(db, id)
  {
    forall id | id in db.relations && db.relations[id].active ensures SupportedRelation(db, id) {
      assert LiveRelation(db, id);
    }
    forall id | id in db.entities && db.entities[id].active ensures SupportedEntity(db, id) {
      assert LiveEntity(db, id);
    }
  }

  lemma SameGraphKeepsExact(a: Db, b: Db)
    requires Exact(a) && SameGraph(a, b)
    ensures Exact(b)
  {
    forall c: Id ensures LiveChunk(a, c) <==> LiveChunk(b, c) {
    }
    forall id: Id ensures SupportedRelation(a, id) <==> SupportedRelation(b, id) {
    }
    forall id: Id ensures SupportedEntity(a, id) <==> SupportedEntity(b, id) {
    }
  }

  lemma PersistOneKeepsExact(db: Db, r: Resolver, plan: SourcePlan, rollsBack: bool)
    requires SourceReady(db, r, plan) && Exact(db)
    ensures Exact(PersistOne(db, r, plan, rollsBack))
  {
    if rollsBack {
      MarkingKeeps(db, [plan.source], Failed, 1);
      SameGraphKeepsExact(db, PersistOne(db, r, plan, rollsBack));
    } else {
      var w := SourceWork(db, r, plan);
      SourceWorkOk(db, r, plan);
      SourceKeepsExact(db, w, r, plan);
      FinishedSameGraph(w, plan);
      SameGraphKeepsExact(w.db, Finished(w, plan));
    }
  }

  lemma {:induction false} PersistFromKeepsExact(
      db: Db, r: Resolver, plans: seq<SourcePlan>, rollbacks: Rollbacks, n: nat)
    requires PersistReady(db, r, plans, n) && n <= |plans| && Exact(db)
    ensures Exact(PersistFrom(db, r, plans, rollbacks, n))
    decreases |plans| - n
  {
    if n < |plans| {
      PersistOneKeeps(db, r, plans, rollbacks(n), n);
      PersistOneKeepsExact(db, r, plans[n], rollbacks(n));
      PersistFromKeepsExact(PersistOne(db, r, plans[n], rollbacks(n)), r, plans, rollbacks, n + 1);
    }
  }

  /* ----- planned counters are persisted counters ----- */

  /** The rows have what the original rows had and what the resolver has seen. */
  ghost predicate Agree(db0: Db, db: Db, seen: Resolver) {
    && (forall k :: HasKey(db, k) <==> HasKey(db0, k) || k in seen.entities)
    && (forall i :: HasIdentity(db, i) <==> HasIdentity(db0, i) || i in seen.relations)
  }

  /** What an operation creates: a row exactly if there was none for its key or identity. */
  function Created(db: Db, op: Op): Counts {
    match op
    case MentionOp(_, e) => Counts(if HasKey(db, e.key) then 0 else 1, 0)
    case EvidenceOp(_, i, _) => Counts(0, if HasIdentity(db, i) then 0 else 1)
  }

  lemma ApplyCreates(w: Work, r: Resolver, op: Op)
    requires Applicable(w.db, r, op)
    ensures ApplyOp(w, r, op).created == Plus(w.created, Created(w.db, op))
  {
  }

  lemma PlannedCreates(db0: Db, seen: Resolver, op: Op)
    requires ResolverOk(db0, seen) && Resolvable(seen, op)
    ensures Planned(db0, seen, op) == match op {
              case MentionOp(_, e) => Counts(if e.key in seen.entities || HasKey(db0, e.key) then 0 else 1, 0)
              case EvidenceOp(_, i, _) => Counts(0, if i in seen.relations || HasIdentity(db0, i) then 0 else 1)
            }
  {
    if op.EvidenceOp? { PlannedRelationIsNew(db0, seen, op.identity, op.relation, seen.next); }
  }

  lemma OpCountsAgree(db0: Db, seen: Resolver, w: Work, r: Resolver, op: Op)
    requires ResolverOk(db0, seen) && Resolvable(seen, op) && Agree(db0, w.db, seen) && Applicable(w.db, r, op)
    ensures ApplyOp(w, r, op).created == Plus(w.created, Planned(db0, seen, op))
  {
    ApplyCreates(w, r, op);
    PlannedCreates(db0, seen, op);
    match op
    case MentionOp(_, e) => assert HasKey(w.db, e.key) <==> HasKey(db0, e.key) || e.key in seen.entities;
    case EvidenceOp(_, i, _) => assert HasIdentity(w.db, i) <==> HasIdentity(db0, i) || i in seen.relations;
  }

  lemma OpKeepsAgree(db0: Db, seen: Resolver, w: Work, r: Resolver, op: Op)
    requires Resolvable(seen, op) && Agree(db0, w.db, seen)
    requires Inv(w.db) && PlansFit(w.db, r) && Ready(w.db, r, op)
    ensures Agree(db0, ApplyOp(w, r, op).db, See(db0, seen, op))
  {
    var after, next := ApplyOp(w, r, op).db, See(db0, seen, op);
    forall k ensures HasKey(after, k) <==> HasKey(db0, k) || k in next.entities {
      OpAddsKeys(w, r, op, k, op.chunk);
    }
    forall i ensures HasIdentity(after, i) <==> HasIdentity(db0, i) || i in next.relations {
      OpAddsIdentities(w, r, op, i, op.chunk);
    }
  }

  /** The state of preparing and of persisting the same operations, side by side. */
  ghost predicate SideBySide(db0: Db, seen: Resolver, db: Db, r: Resolver, plan: SourcePlan, w: Work, n: nat) {
    && IdsBelow(db0) && ResolverOk(db0, seen) && Seen(seen, plan.ops, n) && Agree(db0, w.db, seen)
    && SourceState(db, r, plan, w, n)
  }

  lemma NextSideBySide(db0: Db, seen: Resolver, db: Db, r: Resolver, plan: SourcePlan, w: Work, n: nat)
    requires SourceReady(db, r, plan) && n < |plan.ops| && SideBySide(db0, seen, db, r, plan, w, n)
    ensures SideBySide(db0, See(db0, seen, plan.ops[n]), db, r, plan, ApplyOp(w, r, plan.ops[n]), n + 1)
    ensures ApplyOp(w, r, plan.ops[n]).created == Plus(w.created, Planned(db0, seen, plan.ops[n]))
  {
    NextResolvable(seen, plan.ops, n);
    NextIsReady(db, r, plan, w, n);
    OpCountsAgree(db0, seen, w, r, plan.ops[n]);
    OpKeepsAgree(db0, seen, w, r, plan.ops[n]);
    NextSeen(db0, seen, plan.ops, n);
    NextState(db, r, plan, w, n);
  }

  lemma {:induction false} FoldCountsAgree(
      db0: Db, seen: Resolver, db: Db, r: Resolver, plan: SourcePlan, w: Work, n: nat)
    requires SourceReady(db, r, plan) && n <= |plan.ops| && SideBySide(db0, seen, db, r, plan, w, n)
    ensures ApplyFrom(w, r, plan.ops, n).created == Plus(w.created, PlannedFrom(db0, seen, plan.ops, n))
    decreases |plan.ops| - n
  {
    if n < |plan.ops| {
      var next, sees := ApplyOp(w, r, plan.ops[n]), See(db0, seen, plan.ops[n]);
      NextSideBySide(db0, seen, db, r, plan, w, n);
      FoldCountsAgree(db0, sees, db, r, plan, next, n + 1);
      PlusAssociates(w.created, Planned(db0, seen, plan.ops[n]), PlannedFrom(db0, sees, plan.ops, n + 1));
    }
  }

  lemma {:induction false} FoldKeepsAgree(
      db0: Db, seen: Resolver, db: Db, r: Resolver, plan: SourcePlan, w: Work, n: nat)
    requires SourceReady(db, r, plan) && n <= |plan.ops| && SideBySide(db0, seen, db, r, plan, w, n)
    ensures Agree(db0, ApplyFrom(w, r, plan.ops, n).db, SeeFrom(db0, seen, plan.ops, n))
    decreases |plan.ops| - n
  {
    if n < |plan.ops| {
      NextSideBySide(db0, seen, db, r, plan, w, n);
      FoldKeepsAgree(db0, See(db0, seen, plan.ops[n]), db, r, plan, ApplyOp(w, r, plan.ops[n]), n + 1);
    }
  }

  /** A source persisted against rows that agree with its resolver creates exactly what was planned. */
  lemma SourceCountsAgree(db0: Db, seen: Resolver, db: Db, r: Resolver, plan: SourcePlan)
    requires IdsBelow(db0) && ResolverOk(db0, seen) && Agree(db0, db, seen) && SourceReady(db, r, plan)
    ensures var before := Reserve(seen, |plan.added|);
            && SourceWork(db, r, plan).created == PlannedFrom(db0, before, plan.ops, 0)
            && Agree(db0, PersistSource(db, r, plan), ResolverAfter(db0, seen, |plan.added|, plan.ops))
  {
    var before := Reserve(seen, |plan.added|);
    var start := StartWork(db, plan);
    ReservedKeepsResolver(db0, seen, |plan.added|);
    StartState(db, r, plan);
    SameLookupsAgree(db0, db, start.db, before);
    FoldCountsAgree(db0, before, db, r, plan, start, 0);
    FoldKeepsAgree(db0, before, db, r, plan, start, 0);
    var w := SourceWork(db, r, plan);
    SameLookupsAgree(db0, w.db, Finished(w, plan), SeeFrom(db0, before, plan.ops, 0));
  }

  lemma SameLookupsAgree(db0: Db, a: Db, b: Db, seen: Resolver)
    requires Agree(db0, a, seen) && a.entities == b.entities && a.relations == b.relations
    ensures Agree(db0, b, seen)
  {
    forall k: Key ensures HasKey(b, k) <==> HasKey(db0, k) || k in seen.entities {
      SameLookups(a, b, k, Identity(k, k, ""));
    }
    forall i: Identity ensures HasIdentity(b, i) <==> HasIdentity(db0, i) || i in seen.relations {
      SameLookups(a, b, i.source, i);
    }
  }

  /** Each plan's counters come from the resolver the plans before it left. */
  ghost predicate Chained(db0: Db, seen: Resolver, plans: seq<SourcePlan>, n: nat)
    requires n <= |plans|
    decreases |plans| - n
  {
    n == |plans| ||
    (plans[n].planned == PlannedFrom(db0, Reserve(seen, |plans[n].added|), plans[n].ops, 0)
     && Chained(db0, ResolverAfter(db0, seen, |plans[n].added|, plans[n].ops), plans, n + 1))
  }

  /** The resolver after the plans from the `n`th on. */
  function Through(db0: Db, seen: Resolver, plans: seq<SourcePlan>, n: nat): Resolver
    requires n <= |plans|
    decreases |plans| - n
  {
    if n == |plans| then seen else Through(db0, ResolverAfter(db0, seen, |plans[n].added|, plans[n].ops), plans, n + 1)
  }

  lemma {:induction false} ChainedAppend(db0: Db, seen: Resolver, plans: seq<SourcePlan>, plan: SourcePlan, n: nat)
    requires n <= |plans| && Chained(db0, seen, plans, n)
    requires plan.planned == PlannedFrom(db0, Reserve(Through(db0, seen, plans, n), |plan.added|), plan.ops, 0)
    ensures Chained(db0, seen, plans + [plan], n)
    ensures Through(db0, seen, plans + [plan], n)
            == ResolverAfter(db0, Through(db0, seen, plans, n), |plan.added|, plan.ops)
    decreases |plans| - n
  {
    if n == |plans| {
      assert (plans + [plan])[n] == plan;
    } else {
      ChainedAppend(db0, ResolverAfter(db0, seen, |plans[n].added|, plans[n].ops), plans, plan, n + 1);
      assert (plans + [plan])[n] == plans[n];
    }
  }

  ghost predicate BatchChained(db: Db, b: Batch) {
    Chained(db, EmptyBatch(db).resolver, b.plans, 0) && Through(db, EmptyBatch(db).resolver, b.plans, 0) == b.resolver
  }

  lemma WithPlanChained(db: Db, b: Batch, source: Id, document: Id, p: Provider, next: Batch)
    requires ValidProvider(p) && BatchChained(db, b) && next == WithPlan(db, b, source, document, p)
    ensures BatchChained(db, next)
  {
    var plan := PlanSource(db, b.resolver, source, document, p);
    assert next.plans == b.plans + [plan];
    ChainedAppend(db, EmptyBatch(db).resolver, b.plans, plan, 0);
  }

  lemma PrepareOneChained(db: Db, b: Batch, source: Id, allowFailed: bool, p: Provider, next: Batch)
    requires ValidProvider(p) && BatchChained(db, b) && PrepareOne(db, b, source, allowFailed, p) == Some(next)
    ensures BatchChained(db, next)
  {
    var document := PrepareOneCases(db, b, source, allowFailed, p, next);
    if document.Some? { WithPlanChained(db, b, source, document.value, p, next); }
  }

  lemma {:induction false} PrepareChained(db: Db, b: Batch, sources: seq<Id>, allowFailed: bool, p: Provider, n: nat)
    requires ValidProvider(p) && n <= |sources| && BatchChained(db, b)
    ensures var after := PrepareFrom(db, b, sources, allowFailed, p, n); after.Some? ==> BatchChained(db, after.value)
    decreases |sources| - n
  {
    if n < |sources| {
      var next := PrepareOne(db, b, sources[n], allowFailed, p);
      if next.Some? {
        PrepareOneChained(db, b, sources[n], allowFailed, p, next.value);
        PrepareChained(db, next.value, sources, allowFailed, p, n + 1);
      }
    }
  }

  lemma {:induction false} BatchCountsAgree(
    db0: Db, seen: Resolver, db: Db, r: Resolver, plans: seq<SourcePlan>, rollbacks: Rollbacks, n: nat)
    requires n <= |plans| && PersistReady(db, r, plans, n) && forall j: nat :: !rollbacks(j)
    requires IdsBelow(db0) && ResolverOk(db0, seen) && Agree(db0, db, seen) && Chained(db0, seen, plans, n)
    ensures PersistedFrom(db, r, plans, rollbacks, n) == PlannedTotal(plans, n)
    decreases |plans| - n
  {
    if n < |plans| {
      var plan := plans[n];
      assert SourceReady(db, r, plan) && !rollbacks(n);
      SourceCountsAgree(db0, seen, db, r, plan);
      PlanSourceResolver(db0, seen, |plan.added|, plan.ops);
      PersistOneKeeps(db, r, plans, false, n);
      BatchCountsAgree(db0, ResolverAfter(db0, seen, |plan.added|, plan.ops), PersistSource(db, r, plan), r, plans,
          rollbacks, n + 1);
    }
  }

  /* ----- a whole cognify ----- */

  ghost predicate BatchGood(db: Db, b: Batch) {
    db.next <= b.resolver.next && PersistReady(Reserved(db, b.resolver), b.resolver, b.plans, 0)
  }

  /** A prepared batch is ready to persist, and its counters are chained. */
  lemma BatchReady(db: Db, requested: seq<Id>, allowFailed: bool, p: Provider)
    requires Inv(db) && ValidProvider(p) && BatchFor(db, requested, allowFailed, p).Some?
    ensures var b := BatchFor(db, requested, allowFailed, p).value;
            BatchGood(db, b) && BatchChained(db, b)
  {
    var sources := Distinct(requested, |requested|);
    DistinctHasNoRepeats(requested, |requested|);
    EmptyBatchOk(db, sources);
    PrepareKeepsBatch(db, EmptyBatch(db), sources, allowFailed, p, 0);
    PrepareChained(db, EmptyBatch(db), sources, allowFailed, p, 0);
    var b := BatchFor(db, requested, allowFailed, p).value;
    assert BatchOk(db, b, sources, |sources|);
    SameGraphKeepsInv(db, Reserved(db, b.resolver));
  }

  /** The closing status changes of a batch touch nothing else. */
  lemma BatchStatuses(db: Db, b: Batch, rollbacks: Rollbacks)
    ensures var persisted := PersistFrom(Reserved(db, b.resolver), b.resolver, b.plans, rollbacks, 0);
            SameGraph(persisted, PersistBatch(db, b, rollbacks))
                && PersistBatch(db, b, rollbacks).outbox == persisted.outbox
  {
    var persisted := PersistFrom(Reserved(db, b.resolver), b.resolver, b.plans, rollbacks, 0);
    var activated := SetStatuses(persisted, b.activate, Active, |b.activate|);
    MarkingKeeps(persisted, b.activate, Active, |b.activate|);
    MarkingKeeps(activated, b.failed, Failed, |b.failed|);
  }

  lemma SameGraphStaysInStep(a: Db, b: Db)
    requires SameGraph(a, b) && a.outbox == b.outbox && InStep(a)
    ensures InStep(b)
  {
    SameGraphProjects(a, b);
  }

  lemma PersistBatchKeepsInv(db: Db, b: Batch, rollbacks: Rollbacks)
    requires BatchGood(db, b)
    ensures Inv(PersistBatch(db, b, rollbacks))
  {
    var start := Reserved(db, b.resolver);
    PersistFromKeeps(start, b.resolver, b.plans, rollbacks, 0);
    BatchStatuses(db, b, rollbacks);
    SameGraphKeepsInv(PersistFrom(start, b.resolver, b.plans, rollbacks, 0), PersistBatch(db, b, rollbacks));
  }

  lemma PersistBatchStaysInStep(db: Db, b: Batch, rollbacks: Rollbacks)
    requires BatchGood(db, b) && InStep(db)
    ensures InStep(PersistBatch(db, b, rollbacks))
  {
    var start := Reserved(db, b.resolver);
    SameGraphStaysInStep(db, start);
    PersistFromStaysInStep(start, b.resolver, b.plans, rollbacks, 0);
    BatchStatuses(db, b, rollbacks);
    SameGraphStaysInStep(PersistFrom(start, b.resolver, b.plans, rollbacks, 0), PersistBatch(db, b, rollbacks));
  }

  lemma PersistBatchKeepsExact(db: Db, b: Batch, rollbacks: Rollbacks)
    requires BatchGood(db, b) && Exact(db)
    ensures Exact(PersistBatch(db, b, rollbacks))
  {
    var start := Reserved(db, b.resolver);
    SameGraphKeepsExact(db, start);
    PersistFromKeepsExact(start, b.resolver, b.plans, rollbacks, 0);
    BatchStatuses(db, b, rollbacks);
    SameGraphKeepsExact(PersistFrom(start, b.resolver, b.plans, rollbacks, 0), PersistBatch(db, b, rollbacks));
  }

  lemma SameGraphSameSurvivors(
    a: Db, b: Db, c: Db, d: Db, plans: seq<SourcePlan>, rollbacks: Rollbacks, k: Key, i: Identity, chunk: Id)
    requires SameGraph(a, b) && SameGraph(c, d) && AddsSurvivors(b, c, plans, rollbacks, 0, k, i, chunk)
    ensures AddsSurvivors(a, d, plans, rollbacks, 0, k, i, chunk)
  {
    SameLookups(a, b, k, i);
    SameLookups(c, d, k, i);
  }

  /**
   Savepoint isolation: once a batch is persisted the active entity keys, relation
   identities, mentions and evidence are those from before and those of the surviving
   sources, whichever sources rolled back.
  */
  lemma PersistBatchIsolatesSources(db: Db, b: Batch, rollbacks: Rollbacks, after: Db, k: Key, i: Identity, c: Id)
    requires BatchGood(db, b) && after == PersistBatch(db, b, rollbacks)
    ensures AddsSurvivors(db, after, b.plans, rollbacks, 0, k, i, c)
  {
    var start := Reserved(db, b.resolver);
    var persisted := PersistFrom(start, b.resolver, b.plans, rollbacks, 0);
    PersistFromAdds(start, b.resolver, b.plans, rollbacks, 0, k, i, c);
    assert SameGraph(persisted, after) by {
      BatchStatuses(db, b, rollbacks);
    }
    SameGraphSameSurvivors(db, start, persisted, after, b.plans, rollbacks, k, i, c);
  }

  /** When no source rolls back, the counters planned before the transaction are those it persists. */
  lemma PlannedIsPersisted(db: Db, requested: seq<Id>, allowFailed: bool, p: Provider, rollbacks: Rollbacks)
    requires Inv(db) && ValidProvider(p) && BatchFor(db, requested, allowFailed, p).Some?
             && forall j: nat :: !rollbacks(j)
    ensures var b := BatchFor(db, requested, allowFailed, p).value;
            PersistedFrom(Reserved(db, b.resolver), b.resolver, b.plans, rollbacks, 0) == PlannedTotal(b.plans, 0)
  {
    var b := BatchFor(db, requested, allowFailed, p).value;
    var start := Reserved(db, b.resolver);
    BatchReady(db, requested, allowFailed, p);
    EmptyBatchOk(db, []);
    EmptyAgrees(db, start);
    BatchCountsAgree(db, EmptyBatch(db).resolver, start, b.resolver, b.plans, rollbacks, 0);
  }

  lemma EmptyAgrees(db: Db, start: Db)
    requires start.entities == db.entities && start.relations == db.relations
    ensures Agree(db, start, EmptyBatch(db).resolver)
  {
    forall k: Key ensures HasKey(start, k) <==> HasKey(db, k) {
      SameLookups(db, start, k, Identity(k, k, ""));
    }
    forall i: Identity ensures HasIdentity(start, i) <==> HasIdentity(db, i) {
      SameLookups(db, start, i.source, i);
    }
  }

  /**
   A cognify, whatever sources roll back: it keeps the invariant (active keys and
   identities are unique, nothing dangles, every active row is supported), its commands
   keep the projection in step, it strands nothing, and it isolates its sources.
  */
  lemma CognifyKeeps(db: Db, requested: seq<Id>, allowFailed: bool, p: Provider, rollbacks: Rollbacks, after: Db)
    requires Inv(db) && ValidProvider(p) && after == Cognify(db, requested, allowFailed, p, rollbacks)
    ensures Inv(after) && (InStep(db) ==> InStep(after)) && (Exact(db) ==> Exact(after))
  {
    var batch := BatchFor(db, requested, allowFailed, p);
    if batch.Some? {
      BatchReady(db, requested, allowFailed, p);
      PersistBatchKeepsInv(db, batch.value, rollbacks);
      if InStep(db) { PersistBatchStaysInStep(db, batch.value, rollbacks); }
      if Exact(db) { PersistBatchKeepsExact(db, batch.value, rollbacks); }
    }
  }

  lemma CognifyIsolatesSources(
    db: Db, requested: seq<Id>, allowFailed: bool, p: Provider, rollbacks: Rollbacks, after: Db, k: Key, i: Identity,
        c: Id)
    requires Inv(db) && ValidProvider(p) && BatchFor(db, requested, allowFailed, p).Some?
    requires after == Cognify(db, requested, allowFailed, p, rollbacks)
    ensures AddsSurvivors(db, after, BatchFor(db, requested, allowFailed, p).value.plans, rollbacks, 0, k, i, c)
  {
    BatchReady(db, requested, allowFailed, p);
    PersistBatchIsolatesSources(db, BatchFor(db, requested, allowFailed, p).value, rollbacks, after, k, i, c);
  }
}
