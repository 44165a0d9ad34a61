/** Whole cognifies told by what the provider extracted: all a landed source's chunks say arrives, and nothing else. */
module KnowledgeArrivals {
  import opened Wrappers
  import opened Ordering
  import opened KnowledgeStore
  import opened KnowledgeForget
  import opened KnowledgeCognify
  import opened KnowledgeCognifySafety
  import opened KnowledgeCognifySource
  import opened KnowledgeCognifyBatch
  import opened KnowledgeCognifyTheorems
  import opened KnowledgeExtraction

  /* ----- what a prepared plan is ----- */

  /** Chunks anew if the source has none, and all that are not extracted yet to read. */
  predicate IsPlanFor(db: Db, plan: SourcePlan, first: Id, p: Provider)
    requires ValidProvider(p)
  {
    && plan.source in db.sources && plan.document in DocumentsOfSource(db, plan.source)
    && NewestDocument(db, plan.source) == Some(plan.document)
    && plan.added == NewChunks(plan.source, plan.document, first, AddedCount(db, plan.source, p))
    && plan.ops == SourceOps(db, plan.source, plan.added, p)
    && plan.extracted == ToExtract(db, plan.source, plan.added)
  }

  ghost predicate IsPlan(db: Db, plan: SourcePlan, p: Provider)
    requires ValidProvider(p)
  {
    exists first: Id :: IsPlanFor(db, plan, first, p)
  }

  ghost predicate PlansAre(db: Db, plans: seq<SourcePlan>, p: Provider)
    requires ValidProvider(p)
  {
    forall j :: 0 <= j < |plans| ==> IsPlan(db, plans[j], p)
  }

  lemma PlannedIs(db: Db, r: Resolver, source: Id, document: Id, p: Provider)
    requires ValidProvider(p) && source in db.sources && NewestDocument(db, source) == Some(document)
    ensures IsPlanFor(db, PlanSource(db, r, source, document, p), r.next, p)
  {
    var plan := PlanSource(db, r, source, document, p);
    var added := NewChunks(source, document, r.next, AddedCount(db, source, p));
    assert plan.added == added && plan.source == source && plan.document == document;
    assert plan.ops == SourceOps(db, source, added, p) && plan.extracted == ToExtract(db, source, added);
  }

  lemma OneMorePlanIs(db: Db, plans: seq<SourcePlan>, plan: SourcePlan, p: Provider)
    requires ValidProvider(p) && PlansAre(db, plans, p) && IsPlan(db, plan, p)
    ensures PlansAre(db, plans + [plan], p)
  {
  }

  lemma WithPlanIs(db: Db, b: Batch, source: Id, document: Id, p: Provider, next: Batch)
    requires ValidProvider(p) && source in db.sources && NewestDocument(db, source) == Some(document)
    requires PlansAre(db, b.plans, p) && next == WithPlan(db, b, source, document, p)
    ensures PlansAre(db, next.plans, p)
  {
    var plan := PlanSource(db, b.resolver, source, document, p);
    PlannedIs(db, b.resolver, source, document, p);
    assert IsPlan(db, plan, p);
    OneMorePlanIs(db, b.plans, plan, p);
  }

  lemma PrepareOneIs(db: Db, b: Batch, source: Id, allowFailed: bool, p: Provider, next: Batch)
    requires ValidProvider(p) && PrepareOne(db, b, source, allowFailed, p) == Some(next) && PlansAre(db, b.plans, p)
    ensures PlansAre(db, next.plans, p)
  {
    var document := PrepareOneCases(db, b, source, allowFailed, p, next);
    if document.Some? { WithPlanIs(db, b, source, document.value, p, next); }
  }

  lemma {:induction false} PreparedAre(db: Db, b: Batch, sources: seq<Id>, allowFailed: bool, p: Provider, n: nat)
    requires ValidProvider(p) && n <= |sources| && PlansAre(db, b.plans, p)
    ensures var after := PrepareFrom(db, b, sources, allowFailed, p, n);
            after.Some? ==> PlansAre(db, after.value.plans, p)
    decreases |sources| - n
  {
    if n < |sources| {
      var next := PrepareOne(db, b, sources[n], allowFailed, p);
      if next.Some? {
        PrepareOneIs(db, b, sources[n], allowFailed, p, next.value);
        PreparedAre(db, next.value, sources, allowFailed, p, n + 1);
      }
    }
  }

  /* ----- the chunks afterwards ----- */

  /** The chunk rows once the plans from the `n`th on have landed or rolled back. */
  function ChunksFrom(chunks: map<Id, Chunk>, plans: seq<SourcePlan>, rollbacks: Rollbacks, n: nat): map<Id, Chunk>
    requires n <= |plans|
    decreases |plans| - n
  {
    if n == |plans| then chunks
    else
      var next := if rollbacks(n) then chunks else MarkExtracted(chunks + plans[n].added, plans[n].extracted);
      ChunksFrom(next, plans, rollbacks, n + 1)
  }

  lemma LandedChunks(db: Db, r: Resolver, plan: SourcePlan)
    requires SourceReady(db, r, plan)
    ensures PersistSource(db, r, plan).chunks == MarkExtracted(db.chunks + plan.added, plan.extracted)
  {
    SourceWorkOk(db, r, plan);
    EvolvedChunks(WithAdded(db, plan), SourceWork(db, r, plan).db);
  }

  lemma EvolvedChunks(a: Db, b: Db)
    requires Evolves(a, b)
    ensures b.chunks == a.chunks
  {
  }

  lemma OneChunks(db: Db, r: Resolver, plan: SourcePlan, rollsBack: bool)
    requires SourceReady(db, r, plan)
    ensures PersistOne(db, r, plan, rollsBack).chunks ==
            if rollsBack then db.chunks else MarkExtracted(db.chunks + plan.added, plan.extracted)
  {
    if rollsBack { SameChunksMarked(db, [plan.source], Failed, 1); } else { LandedChunks(db, r, plan); }
  }

  lemma {:induction false} SameChunksMarked(db: Db, sources: seq<Id>, status: SourceStatus, n: nat)
    requires n <= |sources|
    ensures SetStatuses(db, sources, status, n).chunks == db.chunks
    ensures SetStatuses(db, sources, status, n).documents == db.documents
    ensures SetStatuses(db, sources, status, n).next == db.next
  {
    if n > 0 { SameChunksMarked(db, sources, status, n - 1); }
  }

  lemma {:induction false} PersistedChunks(
      db: Db, r: Resolver, plans: seq<SourcePlan>, rollbacks: Rollbacks, n: nat)
    requires PersistReady(db, r, plans, n) && n <= |plans|
    ensures PersistFrom(db, r, plans, rollbacks, n).chunks == ChunksFrom(db.chunks, plans, rollbacks, n)
    decreases |plans| - n
  {
    if n < |plans| {
      OneChunks(db, r, plans[n], rollbacks(n));
      PersistOneKeeps(db, r, plans, rollbacks(n), n);
      PersistedChunks(PersistOne(db, r, plans[n], rollbacks(n)), r, plans, rollbacks, n + 1);
    }
  }

  /** Some plan from the `n`th on that lands adds the chunk. */
  ghost predicate AddedFrom(plans: seq<SourcePlan>, rollbacks: Rollbacks, n: nat, c: Id) {
    exists j :: n <= j < |plans| && !rollbacks(j) && c in plans[j].added
  }

  ghost predicate ReadFromPlan(plans: seq<SourcePlan>, rollbacks: Rollbacks, n: nat, c: Id) {
    exists j :: n <= j < |plans| && !rollbacks(j) && c in plans[j].extracted
  }

  /** No chunk is added twice, none that is there already, and all that are added are active and unread. */
  ghost predicate AddsApart(chunks: map<Id, Chunk>, plans: seq<SourcePlan>, n: nat) {
    && (forall j :: n <= j < |plans| ==> plans[j].added.Keys !! chunks.Keys)
    && (forall j, l :: n <= j < l < |plans| ==> plans[j].added.Keys !! plans[l].added.Keys)
    && (forall j, c :: n <= j < |plans| && c in plans[j].added ==> !plans[j].added[c].extracted)
  }

  /** The row is the one it was or the one that was added, read if it was or if a landed plan reads it. */
  ghost predicate ChunkIs(
      chunks: map<Id, Chunk>, after: map<Id, Chunk>, plans: seq<SourcePlan>, rollbacks: Rollbacks, n: nat, c: Id) {
    && (c in after <==> c in chunks || AddedFrom(plans, rollbacks, n, c))
    && (c in chunks && c in after ==> after[c] == chunks[c].(extracted := after[c].extracted))
    && (forall j :: n <= j < |plans| && !rollbacks(j) && c in plans[j].added && c in after ==>
          after[c] == plans[j].added[c].(extracted := after[c].extracted))
    && (c in after ==>
          (after[c].extracted <==> (c in chunks && chunks[c].extracted) || ReadFromPlan(plans, rollbacks, n, c)))
  }

  lemma {:induction false} ChunksFromAre(
      chunks: map<Id, Chunk>, plans: seq<SourcePlan>, rollbacks: Rollbacks, n: nat, c: Id)
    requires n <= |plans| && AddsApart(chunks, plans, n)
    requires forall j :: n <= j < |plans| && c in plans[j].extracted ==> c in chunks || c in plans[j].added
    ensures ChunkIs(chunks, ChunksFrom(chunks, plans, rollbacks, n), plans, rollbacks, n, c)
    decreases |plans| - n
  {
    if n < |plans| {
      if rollbacks(n) {
        ChunksFromAre(chunks, plans, rollbacks, n + 1, c);
        RolledBackChunk(chunks, ChunksFrom(chunks, plans, rollbacks, n + 1), plans, rollbacks, n, c);
      } else {
        var next := MarkExtracted(chunks + plans[n].added, plans[n].extracted);
        NextAddsApart(chunks, plans, n);
        ChunksFromAre(next, plans, rollbacks, n + 1, c);
        LandedChunk(chunks, next, ChunksFrom(next, plans, rollbacks, n + 1), plans, rollbacks, n, c);
      }
    }
  }

  lemma NextAddsApart(chunks: map<Id, Chunk>, plans: seq<SourcePlan>, n: nat)
    requires n < |plans| && AddsApart(chunks, plans, n)
    ensures AddsApart(MarkExtracted(chunks + plans[n].added, plans[n].extracted), plans, n + 1)
  {
  }

  lemma OneMore(plans: seq<SourcePlan>, rollbacks: Rollbacks, n: nat, c: Id)
    requires n < |plans|
    ensures AddedFrom(plans, rollbacks, n, c) <==>
              AddedFrom(plans, rollbacks, n + 1, c) || (!rollbacks(n) && c in plans[n].added)
    ensures ReadFromPlan(plans, rollbacks, n, c) <==>
              ReadFromPlan(plans, rollbacks, n + 1, c) || (!rollbacks(n) && c in plans[n].extracted)
  {
  }

  lemma RolledBackChunk(
      chunks: map<Id, Chunk>, after: map<Id, Chunk>, plans: seq<SourcePlan>, rollbacks: Rollbacks, n: nat, c: Id)
    requires n < |plans| && rollbacks(n) && ChunkIs(chunks, after, plans, rollbacks, n + 1, c)
    ensures ChunkIs(chunks, after, plans, rollbacks, n, c)
  {
    OneMore(plans, rollbacks, n, c);
  }

  lemma LandedChunk(
      chunks: map<Id, Chunk>, next: map<Id, Chunk>, after: map<Id, Chunk>, plans: seq<SourcePlan>, rollbacks: Rollbacks,
      n: nat, c: Id)
    requires n < |plans| && !rollbacks(n) && AddsApart(chunks, plans, n)
    requires next == MarkExtracted(chunks + plans[n].added, plans[n].extracted)
    requires ChunkIs(next, after, plans, rollbacks, n + 1, c)
    requires c in plans[n].extracted ==> c in chunks || c in plans[n].added
    ensures ChunkIs(chunks, after, plans, rollbacks, n, c)
  {
    OneMore(plans, rollbacks, n, c);
    assert c in next ==> (next[c].extracted <==> (chunks + plans[n].added)[c].extracted || c in plans[n].extracted);
  }

  /* ----- a whole batch told by what it read ----- */

  /** The chunk is extracted now and was not before. */
  predicate NewlyRead(before: map<Id, Chunk>, after: map<Id, Chunk>, c: Id) {
    c in after && after[c].extracted && !(c in before && before[c].extracted)
  }

  /** What the provider returns for a chunk row. */
  function Said(p: Provider, row: Chunk): Extraction {
    p.extract(row.source, row.ordinal)
  }

  /** A chunk the plan reads is one of its source's and not extracted yet. */
  predicate ReadsUnread(chunks: map<Id, Chunk>, plan: SourcePlan, c: Id) {
    c in plan.extracted ==>
      (c in chunks && chunks[c].source == plan.source && !chunks[c].extracted)
          || (c in plan.added && plan.added[c].source == plan.source && !plan.added[c].extracted)
  }

  lemma PlanReadsUnread(db: Db, plan: SourcePlan, p: Provider, c: Id)
    requires ValidProvider(p) && IsPlan(db, plan, p)
    ensures ReadsUnread(db.chunks, plan, c)
    ensures forall d :: d in plan.added ==> !plan.added[d].extracted
  {
  }

  lemma PlanTells(db: Db, plan: SourcePlan, p: Provider, k: Key, i: Identity, c: Id)
    requires ValidProvider(p) && IsPlan(db, plan, p)
    ensures PlanReads(db, plan, p, k, i, c)
  {
    PlanSaysWhatItReads(db, plan, p, k, i, c);
  }

  lemma ReadByLanded(
      before: map<Id, Chunk>, after: map<Id, Chunk>, plans: seq<SourcePlan>, rollbacks: Rollbacks, j: nat, c: Id)
    requires j < |plans| && !rollbacks(j) && c in plans[j].extracted && ReadsUnread(before, plans[j], c)
    requires AddsApart(before, plans, 0) && ChunkIs(before, after, plans, rollbacks, 0, c)
    ensures NewlyRead(before, after, c) && after[c].source == plans[j].source
    ensures var rows := before + plans[j].added; c in rows && rows[c].ordinal == after[c].ordinal
  {
  }

  lemma LandedReadIsThere(
      before: map<Id, Chunk>, after: map<Id, Chunk>, plans: seq<SourcePlan>, rollbacks: Rollbacks, j: nat, c: Id)
    requires j < |plans| && ReadsUnread(before, plans[j], c)
    requires AddsApart(before, plans, 0) && ChunkIs(before, after, plans, rollbacks, 0, c)
    ensures !rollbacks(j) && c in plans[j].extracted ==> c in after
  {
    if !rollbacks(j) && c in plans[j].extracted { ReadByLanded(before, after, plans, rollbacks, j, c); }
  }

  /** What one plan lands of a chunk is what was said of it. */
  ghost predicate LandsWhatWasSaid(
      plan: SourcePlan, rollsBack: bool, p: Provider, row: Chunk, k: Key, i: Identity, c: Id) {
    && (LandsMention(plan, rollsBack, k, c) <==> !rollsBack && c in plan.extracted && Says(Said(p, row), k))
    && (LandsEvidence(plan, rollsBack, i, c) <==> !rollsBack && c in plan.extracted && Relates(Said(p, row), i))
  }

  lemma PlanLandsWhatWasSaid(
      db: Db, plan: SourcePlan, rollsBack: bool, p: Provider, row: Chunk, k: Key, i: Identity, c: Id)
    requires PlanReads(db, plan, p, k, i, c)
    requires !rollsBack && c in plan.extracted ==>
               var rows := db.chunks + plan.added;
               c in rows && rows[c].ordinal == row.ordinal && row.source == plan.source
    ensures LandsWhatWasSaid(plan, rollsBack, p, row, k, i, c)
  {
  }

  /** The mention or the evidence lands with some plan. */
  ghost predicate MentionLands(plans: seq<SourcePlan>, rollbacks: Rollbacks, k: Key, c: Id) {
    exists j :: 0 <= j < |plans| && LandsMention(plans[j], rollbacks(j), k, c)
  }

  ghost predicate EvidenceLands(plans: seq<SourcePlan>, rollbacks: Rollbacks, i: Identity, c: Id) {
    exists j :: 0 <= j < |plans| && LandsEvidence(plans[j], rollbacks(j), i, c)
  }

  lemma LandingIsReading(
      plans: seq<SourcePlan>, rollbacks: Rollbacks, p: Provider, row: Chunk, k: Key, i: Identity, c: Id)
    requires forall j :: 0 <= j < |plans| ==> LandsWhatWasSaid(plans[j], rollbacks(j), p, row, k, i, c)
    ensures MentionLands(plans, rollbacks, k, c) <==> ReadFromPlan(plans, rollbacks, 0, c) && Says(Said(p, row), k)
    ensures EvidenceLands(plans, rollbacks, i, c) <==> ReadFromPlan(plans, rollbacks, 0, c) && Relates(Said(p, row), i)
  {
  }

  ghost predicate ChunksAre(db: Db, after: Db, plans: seq<SourcePlan>, rollbacks: Rollbacks, c: Id) {
    AddsApart(db.chunks, plans, 0) && ChunkIs(db.chunks, after.chunks, plans, rollbacks, 0, c)
  }

  lemma PlansLandWhatWasSaid(
      db: Db, after: Db, plans: seq<SourcePlan>, rollbacks: Rollbacks, p: Provider, k: Key, i: Identity, c: Id)
    requires ValidProvider(p) && PlansAre(db, plans, p) && ChunksAre(db, after, plans, rollbacks, c)
             && c in after.chunks
    ensures forall j :: 0 <= j < |plans| ==>
              LandsWhatWasSaid(plans[j], rollbacks(j), p, after.chunks[c], k, i, c)
  {
    forall j | 0 <= j < |plans| ensures LandsWhatWasSaid(plans[j], rollbacks(j), p, after.chunks[c], k, i, c) {
      assert IsPlan(db, plans[j], p);
      PlanTells(db, plans[j], p, k, i, c);
      PlanReadsUnread(db, plans[j], p, c);
      if !rollbacks(j) && c in plans[j].extracted { ReadByLanded(db.chunks, after.chunks, plans, rollbacks, j, c); }
      PlanLandsWhatWasSaid(db, plans[j], rollbacks(j), p, after.chunks[c], k, i, c);
    }
  }

  /** The plans read unread chunks only, and add unread ones. */
  ghost predicate AllUnread(chunks: map<Id, Chunk>, plans: seq<SourcePlan>, c: Id) {
    && (forall j :: 0 <= j < |plans| ==> ReadsUnread(chunks, plans[j], c))
    && (forall j, d :: 0 <= j < |plans| && d in plans[j].added ==> !plans[j].added[d].extracted)
  }

  lemma PlansReadUnread(db: Db, plans: seq<SourcePlan>, p: Provider, c: Id)
    requires ValidProvider(p) && PlansAre(db, plans, p)
    ensures AllUnread(db.chunks, plans, c)
  {
    forall j | 0 <= j < |plans|
      ensures ReadsUnread(db.chunks, plans[j], c) && forall d :: d in plans[j].added ==> !plans[j].added[d].extracted
    {
      PlanReadsUnread(db, plans[j], p, c);
    }
  }

  lemma PlansStayApart(db: Db, r: Resolver, plans: seq<SourcePlan>, c: Id)
    requires PersistReady(Reserved(db, r), r, plans, 0) && AllUnread(db.chunks, plans, c)
    ensures AddsApart(db.chunks, plans, 0)
  {
    forall j | 0 <= j < |plans| ensures plans[j].added.Keys !! db.chunks.Keys {
      assert PlanFits(Reserved(db, r), r, plans[j]);
    }
    forall j, l | 0 <= j < l < |plans| ensures plans[j].added.Keys !! plans[l].added.Keys {
      assert Apart(plans[j], plans[l]);
    }
  }

  lemma BatchPlansAre(db: Db, requested: seq<Id>, allowFailed: bool, p: Provider)
    requires ValidProvider(p) && BatchFor(db, requested, allowFailed, p).Some?
    ensures PlansAre(db, BatchFor(db, requested, allowFailed, p).value.plans, p)
  {
    PreparedAre(db, EmptyBatch(db), Distinct(requested, |requested|), allowFailed, p, 0);
  }

  lemma BatchChunks(db: Db, b: Batch, rollbacks: Rollbacks)
    requires BatchGood(db, b)
    ensures PersistBatch(db, b, rollbacks).chunks == ChunksFrom(db.chunks, b.plans, rollbacks, 0)
  {
    var start := Reserved(db, b.resolver);
    var persisted := PersistFrom(start, b.resolver, b.plans, rollbacks, 0);
    PersistedChunks(start, b.resolver, b.plans, rollbacks, 0);
    SameChunksMarked(persisted, b.activate, Active, |b.activate|);
    SameChunksMarked(SetStatuses(persisted, b.activate, Active, |b.activate|), b.failed, Failed, |b.failed|);
  }

  lemma CognifyChunks(db: Db, b: Batch, rollbacks: Rollbacks, after: Db, c: Id)
    requires BatchGood(db, b) && AllUnread(db.chunks, b.plans, c) && after == PersistBatch(db, b, rollbacks)
    ensures ChunksAre(db, after, b.plans, rollbacks, c)
  {
    PlansStayApart(db, b.resolver, b.plans, c);
    BatchChunks(db, b, rollbacks);
    UnreadChunks(db.chunks, b.plans, rollbacks, c);
  }

  lemma UnreadChunks(chunks: map<Id, Chunk>, plans: seq<SourcePlan>, rollbacks: Rollbacks, c: Id)
    requires AddsApart(chunks, plans, 0) && AllUnread(chunks, plans, c)
    ensures ChunkIs(chunks, ChunksFrom(chunks, plans, rollbacks, 0), plans, rollbacks, 0, c)
  {
    forall j | 0 <= j < |plans| && c in plans[j].extracted ensures c in chunks || c in plans[j].added {
      assert ReadsUnread(chunks, plans[j], c);
    }
    ChunksFromAre(chunks, plans, rollbacks, 0, c);
  }

  lemma NewlyReadByPlans(db: Db, after: Db, plans: seq<SourcePlan>, rollbacks: Rollbacks, p: Provider, c: Id)
    requires ValidProvider(p) && PlansAre(db, plans, p) && ChunksAre(db, after, plans, rollbacks, c)
    ensures NewlyRead(db.chunks, after.chunks, c) <==> ReadFromPlan(plans, rollbacks, 0, c)
  {
    if ReadFromPlan(plans, rollbacks, 0, c) {
      var j :| 0 <= j < |plans| && !rollbacks(j) && c in plans[j].extracted;
      PlanReadsUnread(db, plans[j], p, c);
      ReadByLanded(db.chunks, after.chunks, plans, rollbacks, j, c);
    }
  }

  /** Mentions and evidence of the chunk are those from before and what was said of it if it was read. */
  ghost predicate Told(db: Db, after: Db, p: Provider, k: Key, i: Identity, c: Id) {
    && (KeyMentioned(after, k, c) <==>
          KeyMentioned(db, k, c) || (NewlyRead(db.chunks, after.chunks, c) && Says(Said(p, after.chunks[c]), k)))
    && (IdentityEvidenced(after, i, c) <==>
          IdentityEvidenced(db, i, c)
              || (NewlyRead(db.chunks, after.chunks, c) && Relates(Said(p, after.chunks[c]), i)))
  }

  lemma LandedIsTold(
      db: Db, after: Db, plans: seq<SourcePlan>, rollbacks: Rollbacks, p: Provider, k: Key, i: Identity, c: Id)
    requires AddsSurvivors(db, after, plans, rollbacks, 0, k, i, c)
    requires NewlyRead(db.chunks, after.chunks, c) <==> ReadFromPlan(plans, rollbacks, 0, c)
    requires if c in after.chunks then
               forall j :: 0 <= j < |plans| ==> LandsWhatWasSaid(plans[j], rollbacks(j), p, after.chunks[c], k, i, c)
             else !MentionLands(plans, rollbacks, k, c) && !EvidenceLands(plans, rollbacks, i, c)
    ensures Told(db, after, p, k, i, c)
  {
    assert KeyMentioned(after, k, c) <==> KeyMentioned(db, k, c) || MentionLands(plans, rollbacks, k, c);
    assert IdentityEvidenced(after, i, c) <==> IdentityEvidenced(db, i, c) || EvidenceLands(plans, rollbacks, i, c);
    if c in after.chunks { LandingIsReading(plans, rollbacks, p, after.chunks[c], k, i, c); }
  }

  lemma UnreadLandsNothing(
      db: Db, after: Db, plans: seq<SourcePlan>, rollbacks: Rollbacks, p: Provider, k: Key, i: Identity, c: Id)
    requires ValidProvider(p) && PlansAre(db, plans, p) && ChunksAre(db, after, plans, rollbacks, c)
    requires c !in after.chunks
    ensures !MentionLands(plans, rollbacks, k, c) && !EvidenceLands(plans, rollbacks, i, c)
  {
    forall j | 0 <= j < |plans|
      ensures !LandsMention(plans[j], rollbacks(j), k, c) && !LandsEvidence(plans[j], rollbacks(j), i, c)
    {
      PlanTells(db, plans[j], p, k, i, c);
      PlanReadsUnread(db, plans[j], p, c);
      LandedReadIsThere(db.chunks, after.chunks, plans, rollbacks, j, c);
    }
  }

  lemma BatchTells(db: Db, b: Batch, p: Provider, rollbacks: Rollbacks, after: Db, k: Key, i: Identity, c: Id)
    requires ValidProvider(p) && BatchGood(db, b) && PlansAre(db, b.plans, p)
    requires after == PersistBatch(db, b, rollbacks)
    ensures Told(db, after, p, k, i, c)
  {
    PlansReadUnread(db, b.plans, p, c);
    CognifyChunks(db, b, rollbacks, after, c);
    NewlyReadByPlans(db, after, b.plans, rollbacks, p, c);
    PersistBatchIsolatesSources(db, b, rollbacks, after, k, i, c);
    if c in after.chunks {
      PlansLandWhatWasSaid(db, after, b.plans, rollbacks, p, k, i, c);
    } else {
      UnreadLandsNothing(db, after, b.plans, rollbacks, p, k, i, c);
    }
    LandedIsTold(db, after, b.plans, rollbacks, p, k, i, c);
  }

  /**
   Whatever sources are refused or roll back: an entity is mentioned in a chunk, and a relation evidenced by it,
   exactly if it was before, or the cognify read the chunk and the extraction of the chunk says so, every relation
   from the entity its source names to the one its target names.
  */
  lemma CognifyTells(
      db: Db, requested: seq<Id>, allowFailed: bool, p: Provider, rollbacks: Rollbacks, after: Db, k: Key,
      i: Identity, c: Id)
    requires Inv(db) && ValidProvider(p) && after == Cognify(db, requested, allowFailed, p, rollbacks)
    ensures Told(db, after, p, k, i, c)
  {
    var batch := BatchFor(db, requested, allowFailed, p);
    if batch.Some? {
      BatchReady(db, requested, allowFailed, p);
      BatchPlansAre(db, requested, allowFailed, p);
      BatchTells(db, batch.value, p, rollbacks, after, k, i, c);
    }
  }
}
