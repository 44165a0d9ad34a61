/** Which sources a cognify leaves ACTIVE and which FAILED, whatever it is refused and whatever rolls back. */
module KnowledgeStatuses {
  import opened Wrappers
  import opened Ordering
  import opened KnowledgeStore
  import opened KnowledgeCognify
  import opened KnowledgeCognifySafety
  import opened KnowledgeCognifySource
  import opened KnowledgeCognifyBatch
  import opened KnowledgeCognifyTheorems

  /** The source's savepoint rolls back. */
  predicate RollsBack(plans: seq<SourcePlan>, rollbacks: Rollbacks, source: Id) {
    exists j :: 0 <= j < |plans| && plans[j].source == source && rollbacks(j)
  }

  /** What a requested source is left as. */
  function StatusAfter(db: Db, source: Id, allowFailed: bool, p: Provider, rolledBack: bool): SourceStatus
    requires source in db.sources
  {
    match Decide(db, source, allowFailed)
    case Process(_) => if p.refused(source) || rolledBack then Failed else Active
    case Activate => Active
    case _ => db.sources[source]
  }

  /* ----- preparing sorts the requested sources ----- */

  predicate Planned(plans: seq<SourcePlan>, source: Id) {
    exists j :: 0 <= j < |plans| && plans[j].source == source
  }

  /** Where the batch `after` has the source, given where `b` had it and whether it is among those seen since. */
  predicate Sorts(db: Db, b: Batch, after: Batch, source: Id, allowFailed: bool, p: Provider, seen: bool)
    requires source in db.sources
  {
    var d := Decide(db, source, allowFailed);
    && (source in after.failed <==> source in b.failed || (seen && d.Process? && p.refused(source)))
    && (source in after.activate <==> source in b.activate || (seen && d.Activate?))
    && (Planned(after.plans, source) <==> Planned(b.plans, source) || (seen && d.Process? && !p.refused(source)))
  }

  lemma AppendedPlan(plans: seq<SourcePlan>, plan: SourcePlan, source: Id)
    ensures Planned(plans + [plan], source) <==> Planned(plans, source) || plan.source == source
  {
    var all := plans + [plan];
    assert all[|plans|] == plan;
    if Planned(plans, source) {
      var j :| 0 <= j < |plans| && plans[j].source == source;
      assert all[j] == plans[j];
    }
  }

  lemma PrepareOneSorts(
      db: Db, b: Batch, requested: Id, allowFailed: bool, p: Provider, next: Batch, source: Id)
    requires ValidProvider(p) && source in db.sources && PrepareOne(db, b, requested, allowFailed, p) == Some(next)
    ensures Sorts(db, b, next, source, allowFailed, p, source == requested)
  {
    var d := Decide(db, requested, allowFailed);
    if d.Process? && !p.refused(requested) {
      AppendedPlan(b.plans, PlanSource(db, b.resolver, requested, d.document, p), source);
    }
  }

  lemma {:induction false} PrepareSorts(
      db: Db, b: Batch, sources: seq<Id>, allowFailed: bool, p: Provider, n: nat, source: Id)
    requires ValidProvider(p) && source in db.sources && n <= |sources|
    ensures var after := PrepareFrom(db, b, sources, allowFailed, p, n);
            after.Some? ==> Sorts(db, b, after.value, source, allowFailed, p, source in sources[n..])
    decreases |sources| - n
  {
    if n < |sources| {
      var next := PrepareOne(db, b, sources[n], allowFailed, p);
      if next.Some? {
        PrepareOneSorts(db, b, sources[n], allowFailed, p, next.value, source);
        PrepareSorts(db, next.value, sources, allowFailed, p, n + 1, source);
        assert sources[n..] == [sources[n]] + sources[n + 1..];
      }
    }
  }

  /* ----- persisting writes the statuses ----- */

  lemma {:induction false} MarkedStatus(db: Db, sources: seq<Id>, status: SourceStatus, n: nat, source: Id)
    requires n <= |sources| && source in db.sources
    ensures var after := SetStatuses(db, sources, status, n);
            && after.sources.Keys == db.sources.Keys
            && after.sources[source] == if source in sources[..n] then status else db.sources[source]
  {
    if n > 0 {
      MarkedStatus(db, sources, status, n - 1, source);
      assert sources[..n] == sources[..n - 1] + [sources[n - 1]];
    }
  }

  lemma AllMarkedStatus(db: Db, sources: seq<Id>, status: SourceStatus, source: Id)
    requires source in db.sources
    ensures var after := SetStatuses(db, sources, status, |sources|);
            && after.sources.Keys == db.sources.Keys
            && after.sources[source] == if source in sources then status else db.sources[source]
  {
    MarkedStatus(db, sources, status, |sources|, source);
    assert sources[..|sources|] == sources;
  }

  lemma LandedSources(db: Db, r: Resolver, plan: SourcePlan)
    requires SourceReady(db, r, plan)
    ensures PersistSource(db, r, plan).sources == db.sources[plan.source := Active]
  {
    SourceWorkOk(db, r, plan);
    EvolvedSources(WithAdded(db, plan), SourceWork(db, r, plan).db);
  }

  lemma EvolvedSources(a: Db, b: Db)
    requires Evolves(a, b)
    ensures b.sources == a.sources
  {
  }

  lemma PersistOneStatus(db: Db, r: Resolver, plan: SourcePlan, rollsBack: bool, source: Id)
    requires plan.source in db.sources && source in db.sources
    requires PersistSource(db, r, plan).sources == db.sources[plan.source := Active]
    ensures var after := PersistOne(db, r, plan, rollsBack);
            && after.sources.Keys == db.sources.Keys
            && after.sources[source] ==
               if source != plan.source then db.sources[source] else if rollsBack then Failed else Active
  {
    if rollsBack { AllMarkedStatus(db, [plan.source], Failed, source); }
  }

  /** The plan of a source, if one from the `n`th on is its own, settles its status; otherwise nothing does. */
  ghost predicate SettledByPlan(
      before: SourceStatus, after: SourceStatus, plans: seq<SourcePlan>, rollbacks: Rollbacks, n: nat, source: Id)
  {
    && (forall j :: n <= j < |plans| && plans[j].source == source ==> after == if rollbacks(j) then Failed else Active)
    && ((forall j :: n <= j < |plans| ==> plans[j].source != source) ==> after == before)
  }

  lemma {:induction false} PersistFromStatus(
      db: Db, r: Resolver, plans: seq<SourcePlan>, rollbacks: Rollbacks, n: nat, source: Id)
    requires PersistReady(db, r, plans, n) && n <= |plans| && source in db.sources
    ensures var after := PersistFrom(db, r, plans, rollbacks, n);
            && after.sources.Keys == db.sources.Keys
            && SettledByPlan(db.sources[source], after.sources[source], plans, rollbacks, n, source)
    decreases |plans| - n
  {
    if n < |plans| {
      var next := PersistOne(db, r, plans[n], rollbacks(n));
      LandedSources(db, r, plans[n]);
      PersistOneStatus(db, r, plans[n], rollbacks(n), source);
      PersistOneKeeps(db, r, plans, rollbacks(n), n);
      PersistFromStatus(next, r, plans, rollbacks, n + 1, source);
      forall j | n < j < |plans| ensures plans[j].source != plans[n].source {
        assert Apart(plans[n], plans[j]);
      }
    }
  }

  lemma BatchStatus(db: Db, b: Batch, rollbacks: Rollbacks, source: Id)
    requires BatchGood(db, b) && source in db.sources
    ensures var after := PersistBatch(db, b, rollbacks);
            && after.sources.Keys == db.sources.Keys
            && (if source in b.failed then after.sources[source] == Failed
                else if source in b.activate then after.sources[source] == Active
                else SettledByPlan(db.sources[source], after.sources[source], b.plans, rollbacks, 0, source))
  {
    var persisted := PersistFrom(Reserved(db, b.resolver), b.resolver, b.plans, rollbacks, 0);
    PersistFromStatus(Reserved(db, b.resolver), b.resolver, b.plans, rollbacks, 0, source);
    AllMarkedStatus(persisted, b.activate, Active, source);
    AllMarkedStatus(SetStatuses(persisted, b.activate, Active, |b.activate|), b.failed, Failed, source);
  }

  lemma SettledAsDecided(
      db: Db, b: Batch, rollbacks: Rollbacks, after: SourceStatus, source: Id, allowFailed: bool, p: Provider,
          asked: bool)
    requires source in db.sources && Sorts(db, EmptyBatch(db), b, source, allowFailed, p, asked)
    requires PlansApart(b.plans)
    requires if source in b.failed then after == Failed
             else if source in b.activate then after == Active
             else SettledByPlan(db.sources[source], after, b.plans, rollbacks, 0, source)
    ensures after ==
            if asked then StatusAfter(db, source, allowFailed, p, RollsBack(b.plans, rollbacks, source))
            else db.sources[source]
  {
    if Planned(b.plans, source) {
      var j :| 0 <= j < |b.plans| && b.plans[j].source == source;
      forall l | 0 <= l < |b.plans| && b.plans[l].source == source ensures l == j {
        assert l < j ==> Apart(b.plans[l], b.plans[j]);
        assert j < l ==> Apart(b.plans[j], b.plans[l]);
      }
    }
  }

  /* ----- the theorem ----- */

  /**
   After a cognify a requested source to be processed is ACTIVE exactly if it was neither refused nor rolled back,
   and FAILED otherwise; a complete one is ACTIVE; one that was skipped, and every source not requested, is as
   it was. An invalid request changes nothing.
  */
  lemma CognifyStatuses(
      db: Db, requested: seq<Id>, allowFailed: bool, p: Provider, rollbacks: Rollbacks, after: Db, source: Id)
    requires Inv(db) && ValidProvider(p) && after == Cognify(db, requested, allowFailed, p, rollbacks)
    requires source in db.sources
    ensures after.sources.Keys == db.sources.Keys
    ensures var batch := BatchFor(db, requested, allowFailed, p);
            if batch.None? then after == db
            else
              after.sources[source] ==
              if source in requested
              then StatusAfter(db, source, allowFailed, p, RollsBack(batch.value.plans, rollbacks, source))
              else db.sources[source]
  {
    var batch := BatchFor(db, requested, allowFailed, p);
    if batch.Some? {
      var b, sources := batch.value, Distinct(requested, |requested|);
      assert requested[..|requested|] == requested;
      BatchReady(db, requested, allowFailed, p);
      PrepareSorts(db, EmptyBatch(db), sources, allowFailed, p, 0, source);
      assert sources[0..] == sources;
      BatchStatus(db, b, rollbacks, source);
      SettledAsDecided(
        db, b, rollbacks, after.sources[source], source, allowFailed, p, source in requested);
    }
  }
}
