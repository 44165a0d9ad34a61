/**
 What a cognify makes of a source's text: which sources it works on, what it leaves of them, and that once is enough.
*/
module KnowledgeLanding {
  import opened Wrappers
  import opened Ordering
  import opened KnowledgeStore
  import opened KnowledgeForget
  import opened KnowledgeCognify
  import opened KnowledgeCognifySafety
  import opened KnowledgeCognifySource
  import opened KnowledgeCognifyBatch
  import opened KnowledgeCognifyTheorems
  import opened KnowledgeStatuses
  import opened KnowledgeArrivals

  /* ----- which sources are worked on ----- */

  predicate IsNewest(db: Db, source: Id, document: Id) {
    document in DocumentsOfSource(db, source) && forall d :: d in DocumentsOfSource(db, source) ==> d <= document
  }

  /** The document worked on is the active one created last. */
  lemma NewestIsLast(db: Db, source: Id, document: Id)
    requires IdsBelow(db)
    ensures NewestDocument(db, source) == Some(document) <==> IsNewest(db, source, document)
    ensures NewestDocument(db, source) == None <==> DocumentsOfSource(db, source) == {}
  {
    var documents := DocumentsOfSource(db, source);
    if documents != {} {
      var rank: Rank := id => if id <= db.next then db.next - id else 0;
      var first := First(rank, documents);
      assert NewestDocument(db, source) == Some(first);
      forall d | d in documents ensures d <= first {
        assert d != first ==> Before(rank, first, d);
      }
    }
  }

  predicate HasChunks(db: Db, source: Id) {
    exists c :: c in db.chunks && db.chunks[c].source == source && db.chunks[c].active
  }

  /** Every active chunk is extracted and the document is summarized: nothing is left to do for a source with chunks. */
  predicate NothingLeft(db: Db, source: Id, document: Id) {
    && (forall c :: c in db.chunks && db.chunks[c].source == source && db.chunks[c].active ==> db.chunks[c].extracted)
    && document in db.documents && db.documents[document].summarized
  }

  /** A source is worked on exactly if it is not being deleted, may be retried, and has something left to do. */
  predicate WorkedOn(db: Db, source: Id, document: Id, allowFailed: bool)
    requires source in db.sources
  {
    var status := db.sources[source];
    && status != Deleting && status != Deleted && (status == Failed ==> allowFailed)
    && (if HasChunks(db, source) then !NothingLeft(db, source, document) else status != Active)
  }

  lemma HasChunksIs(db: Db, source: Id)
    ensures HasChunks(db, source) <==> ChunksOf(db, source) != {}
  {
    if HasChunks(db, source) {
      var c :| c in db.chunks && db.chunks[c].source == source && db.chunks[c].active;
      assert c in ChunksOf(db, source);
    }
    if ChunksOf(db, source) != {} {
      var c :| c in ChunksOf(db, source);
    }
  }

  lemma CompleteIs(db: Db, source: Id, document: Id)
    requires document in db.documents
    ensures Complete(db, source, document) <==> HasChunks(db, source) && NothingLeft(db, source, document)
  {
    HasChunksIs(db, source);
    if NothingLeft(db, source, document) {
      assert forall c :: c in ChunksOf(db, source) ==> db.chunks[c].extracted;
    }
    if Complete(db, source, document) {
      forall c | c in db.chunks && db.chunks[c].source == source && db.chunks[c].active ensures db.chunks[c].extracted {
        assert c in ChunksOf(db, source);
      }
    }
  }

  lemma DecisionIs(db: Db, source: Id, allowFailed: bool)
    requires IdsBelow(db) && source in db.sources
    ensures var d, status := Decide(db, source, allowFailed), db.sources[source];
            && (d.Process? <==> exists n: Id :: IsNewest(db, source, n) && WorkedOn(db, source, n, allowFailed))
            && (d.Process? ==> IsNewest(db, source, d.document))
            && (d.Activate? <==>
                  && status != Active && status != Deleting && status != Deleted && HasChunks(db, source)
                  && exists n: Id :: IsNewest(db, source, n) && NothingLeft(db, source, n))
            && (d.NoDocument? <==> status != Deleting && status != Deleted && DocumentsOfSource(db, source) == {})
  {
    HasChunksIs(db, source);
    var newest := NewestDocument(db, source);
    NewestIsLast(db, source, 0);
    if newest.Some? {
      NewestIsLast(db, source, newest.value);
      CompleteIs(db, source, newest.value);
      OneNewest(db, source, newest.value);
    }
  }

  lemma OneNewest(db: Db, source: Id, document: Id)
    requires IsNewest(db, source, document)
    ensures forall n: Id :: IsNewest(db, source, n) ==> n == document
  {
  }

  /* ----- documents afterwards ----- */

  function DocumentsFrom(documents: map<Id, Document>, plans: seq<SourcePlan>, rollbacks: Rollbacks, n: nat)
    : map<Id, Document>
    requires n <= |plans|
    decreases |plans| - n
  {
    if n == |plans| then documents
    else
      var next := if rollbacks(n) then documents else MarkSummarized(documents, plans[n].document);
      DocumentsFrom(next, plans, rollbacks, n + 1)
  }

  lemma EvolvedDocuments(a: Db, b: Db)
    requires Evolves(a, b)
    ensures b.documents == a.documents
  {
  }

  lemma LandedDocuments(db: Db, r: Resolver, plan: SourcePlan)
    requires SourceReady(db, r, plan)
    ensures PersistSource(db, r, plan).documents == MarkSummarized(db.documents, plan.document)
  {
    SourceWorkOk(db, r, plan);
    EvolvedDocuments(WithAdded(db, plan), SourceWork(db, r, plan).db);
  }

  lemma OneDocuments(db: Db, r: Resolver, plan: SourcePlan, rollsBack: bool)
    requires SourceReady(db, r, plan)
    ensures PersistOne(db, r, plan, rollsBack).documents ==
            if rollsBack then db.documents else MarkSummarized(db.documents, plan.document)
  {
    if rollsBack { SameChunksMarked(db, [plan.source], Failed, 1); } else { LandedDocuments(db, r, plan); }
  }

  lemma {:induction false} PersistedDocuments(
      db: Db, r: Resolver, plans: seq<SourcePlan>, rollbacks: Rollbacks, n: nat)
    requires PersistReady(db, r, plans, n) && n <= |plans|
    ensures PersistFrom(db, r, plans, rollbacks, n).documents == DocumentsFrom(db.documents, plans, rollbacks, n)
    decreases |plans| - n
  {
    if n < |plans| {
      OneDocuments(db, r, plans[n], rollbacks(n));
      PersistOneKeeps(db, r, plans, rollbacks(n), n);
      PersistedDocuments(PersistOne(db, r, plans[n], rollbacks(n)), r, plans, rollbacks, n + 1);
    }
  }

  lemma BatchDocuments(db: Db, b: Batch, rollbacks: Rollbacks)
    requires BatchGood(db, b)
    ensures PersistBatch(db, b, rollbacks).documents == DocumentsFrom(db.documents, b.plans, rollbacks, 0)
  {
    var start := Reserved(db, b.resolver);
    var persisted := PersistFrom(start, b.resolver, b.plans, rollbacks, 0);
    PersistedDocuments(start, b.resolver, b.plans, rollbacks, 0);
    SameChunksMarked(persisted, b.activate, Active, |b.activate|);
    SameChunksMarked(SetStatuses(persisted, b.activate, Active, |b.activate|), b.failed, Failed, |b.failed|);
  }

  /** Some plan from the `n`th on that lands is for the document. */
  ghost predicate SummarizedFrom(plans: seq<SourcePlan>, rollbacks: Rollbacks, n: nat, d: Id) {
    exists j :: n <= j < |plans| && !rollbacks(j) && plans[j].document == d
  }

  /** Documents are as they were, but for those summarized by a plan that landed. */
  ghost predicate DocumentIs(
      documents: map<Id, Document>, after: map<Id, Document>, plans: seq<SourcePlan>, rollbacks: Rollbacks, n: nat,
      d: Id) {
    && (d in after <==> d in documents)
    && (d in documents && d in after ==>
          after[d] == documents[d].(summarized := documents[d].summarized || SummarizedFrom(plans, rollbacks, n, d)))
  }

  lemma {:induction false} DocumentsFromAre(
      documents: map<Id, Document>, plans: seq<SourcePlan>, rollbacks: Rollbacks, n: nat, d: Id)
    requires n <= |plans|
    ensures DocumentIs(documents, DocumentsFrom(documents, plans, rollbacks, n), plans, rollbacks, n, d)
    decreases |plans| - n
  {
    if n < |plans| {
      var next := if rollbacks(n) then documents else MarkSummarized(documents, plans[n].document);
      DocumentsFromAre(next, plans, rollbacks, n + 1, d);
      assert SummarizedFrom(plans, rollbacks, n, d) <==>
          SummarizedFrom(plans, rollbacks, n + 1, d) || (!rollbacks(n) && plans[n].document == d);
    }
  }

  /* ----- a source that lands ----- */

  /** What a plan makes of its source's chunks, its operations aside. */
  predicate ChunksPlanned(db: Db, plan: SourcePlan, first: Id, count: nat) {
    if ChunksOf(db, plan.source) != {} then
      && plan.added == map[]
      && (forall c :: c in ChunksOf(db, plan.source) && !db.chunks[c].extracted ==> c in plan.extracted)
    else plan.extracted == plan.added.Keys && plan.added == NewChunks(plan.source, plan.document, first, count)
  }

  lemma PlanChunks(db: Db, plan: SourcePlan, p: Provider) returns (first: Id)
    requires ValidProvider(p) && IsPlan(db, plan, p)
    ensures ChunksPlanned(db, plan, first, p.chunkCount(plan.source))
    ensures NewestDocument(db, plan.source) == Some(plan.document)
  {
    first :| IsPlanFor(db, plan, first, p);
  }

  /** Plans of different sources, each adding chunks of its own source only. */
  ghost predicate OwnChunks(plans: seq<SourcePlan>) {
    && (forall j, l :: 0 <= j < l < |plans| ==> plans[j].source != plans[l].source)
    && (forall j, c :: 0 <= j < |plans| && c in plans[j].added ==> plans[j].added[c].source == plans[j].source)
    && (forall j, c :: 0 <= j < |plans| && c in plans[j].added ==> plans[j].added[c].active)
  }

  lemma PlansOwn(db: Db, r: Resolver, plans: seq<SourcePlan>)
    requires PersistReady(Reserved(db, r), r, plans, 0)
    ensures OwnChunks(plans)
  {
    forall j, l | 0 <= j < l < |plans| ensures plans[j].source != plans[l].source {
      assert Apart(plans[j], plans[l]);
    }
    forall j, c | 0 <= j < |plans| && c in plans[j].added
      ensures plans[j].added[c].source == plans[j].source && plans[j].added[c].active
    {
      assert PlanFits(Reserved(db, r), r, plans[j]);
    }
  }

  /** The chunks a landed source is left with: those it had, or those that were made. */
  predicate SourceChunkIs(db: Db, after: Db, plan: SourcePlan, c: Id) {
    var s := plan.source;
    && (c in ChunksOf(after, s) <==> if ChunksOf(db, s) != {} then c in ChunksOf(db, s) else c in plan.added)
    && (c in ChunksOf(after, s) ==> after.chunks[c].extracted)
    && (c in ChunksOf(after, s) && c in plan.added ==> after.chunks[c] == plan.added[c].(extracted := true))
  }

  lemma LandedChunkIs(
      db: Db, after: Db, plans: seq<SourcePlan>, rollbacks: Rollbacks, j: nat, first: Id, count: nat, c: Id)
    requires j < |plans| && !rollbacks(j) && ChunksPlanned(db, plans[j], first, count)
    requires OwnChunks(plans) && ChunksAre(db, after, plans, rollbacks, c)
    ensures SourceChunkIs(db, after, plans[j], c)
  {
    var plan := plans[j];
    if c in db.chunks {
      ChunkStaysOwn(db, after, plans, rollbacks, c);
    } else {
      NewChunkIsOwn(db, after, plans, rollbacks, j, c);
    }
  }

  lemma ChunkStaysOwn(db: Db, after: Db, plans: seq<SourcePlan>, rollbacks: Rollbacks, c: Id)
    requires ChunksAre(db, after, plans, rollbacks, c) && c in db.chunks
    ensures c in after.chunks && after.chunks[c] == db.chunks[c].(extracted := after.chunks[c].extracted)
    ensures after.chunks[c].extracted <==> db.chunks[c].extracted || ReadFromPlan(plans, rollbacks, 0, c)
    ensures forall j :: 0 <= j < |plans| ==> c !in plans[j].added
  {
  }

  lemma NewChunkIsOwn(db: Db, after: Db, plans: seq<SourcePlan>, rollbacks: Rollbacks, j: nat, c: Id)
    requires j < |plans| && !rollbacks(j) && OwnChunks(plans) && ChunksAre(db, after, plans, rollbacks, c)
    requires c !in db.chunks
    ensures c in plans[j].added <==> c in after.chunks && after.chunks[c].source == plans[j].source
    ensures c in plans[j].added ==> after.chunks[c] == plans[j].added[c].(extracted := after.chunks[c].extracted)
    ensures c in after.chunks ==> (after.chunks[c].extracted <==> ReadFromPlan(plans, rollbacks, 0, c))
  {
    if c in after.chunks {
      var l :| 0 <= l < |plans| && !rollbacks(l) && c in plans[l].added;
      if after.chunks[c].source == plans[j].source { assert l < j || j < l || l == j; }
    }
  }

  /** What is known of a batch persisted: each source planned once, chunks and documents accounted for. */
  ghost predicate Persisted(db: Db, after: Db, plans: seq<SourcePlan>, rollbacks: Rollbacks) {
    && OwnChunks(plans)
    && (forall c: Id :: ChunksAre(db, after, plans, rollbacks, c))
    && (forall d: Id :: DocumentIs(db.documents, after.documents, plans, rollbacks, 0, d))
  }

  lemma BatchPersisted(db: Db, b: Batch, p: Provider, rollbacks: Rollbacks, after: Db)
    requires ValidProvider(p) && BatchGood(db, b) && PlansAre(db, b.plans, p)
    requires after == PersistBatch(db, b, rollbacks)
    ensures Persisted(db, after, b.plans, rollbacks)
  {
    PlansOwn(db, b.resolver, b.plans);
    BatchDocuments(db, b, rollbacks);
    forall c: Id ensures ChunksAre(db, after, b.plans, rollbacks, c) {
      PlansReadUnread(db, b.plans, p, c);
      CognifyChunks(db, b, rollbacks, after, c);
    }
    forall d: Id ensures DocumentIs(db.documents, after.documents, b.plans, rollbacks, 0, d) {
      DocumentsFromAre(db.documents, b.plans, rollbacks, 0, d);
    }
  }

  lemma CognifyPersisted(db: Db, requested: seq<Id>, allowFailed: bool, p: Provider, rollbacks: Rollbacks, after: Db)
    requires Inv(db) && ValidProvider(p) && after == Cognify(db, requested, allowFailed, p, rollbacks)
    requires BatchFor(db, requested, allowFailed, p).Some?
    ensures var plans := BatchFor(db, requested, allowFailed, p).value.plans;
            Persisted(db, after, plans, rollbacks) && PlansAre(db, plans, p)
  {
    BatchReady(db, requested, allowFailed, p);
    BatchPlansAre(db, requested, allowFailed, p);
    BatchPersisted(db, BatchFor(db, requested, allowFailed, p).value, p, rollbacks, after);
  }

  /**
   The source has a summarized document and all its chunks are extracted: the chunks it had, or, if it had none, as
   many as its text is cut into, one for each ordinal from 0.
  */
  ghost predicate LandedAs(db: Db, after: Db, source: Id, document: Id, first: Id, count: nat) {
    && document in after.documents && after.documents[document].summarized
    && (forall c :: c in ChunksOf(after, source) ==> after.chunks[c].extracted)
    && (if HasChunks(db, source) then ChunksOf(after, source) == ChunksOf(db, source)
        else forall c: Id ::
           && (c in ChunksOf(after, source) <==> first <= c < first + count)
           && (c in ChunksOf(after, source) ==> after.chunks[c] == Chunk(document, source, c - first, true, true)))
  }

  lemma PlanLandsAs(
      db: Db, after: Db, plans: seq<SourcePlan>, rollbacks: Rollbacks, j: nat, first: Id, count: nat)
    requires Persisted(db, after, plans, rollbacks) && j < |plans| && !rollbacks(j)
    requires ChunksPlanned(db, plans[j], first, count) && plans[j].document in db.documents
    ensures LandedAs(db, after, plans[j].source, plans[j].document, first, count)
  {
    var source := plans[j].source;
    HasChunksIs(db, source);
    assert DocumentIs(db.documents, after.documents, plans, rollbacks, 0, plans[j].document);
    forall c: Id ensures SourceChunkIs(db, after, plans[j], c) {
      assert ChunksAre(db, after, plans, rollbacks, c);
      LandedChunkIs(db, after, plans, rollbacks, j, first, count, c);
    }
    ChunksLandAs(db, after, plans[j], first, count);
  }

  lemma ChunksLandAs(db: Db, after: Db, plan: SourcePlan, first: Id, count: nat)
    requires ChunksPlanned(db, plan, first, count) && forall c: Id :: SourceChunkIs(db, after, plan, c)
    requires plan.document in after.documents && after.documents[plan.document].summarized
    requires HasChunks(db, plan.source) <==> ChunksOf(db, plan.source) != {}
    ensures LandedAs(db, after, plan.source, plan.document, first, count)
  {
    var source := plan.source;
    forall c: Id
      ensures c in ChunksOf(after, source) <==>
                if HasChunks(db, source) then c in ChunksOf(db, source) else c in plan.added
      ensures c in ChunksOf(after, source) ==> after.chunks[c].extracted
      ensures c in ChunksOf(after, source) && c in plan.added ==> after.chunks[c] == plan.added[c].(extracted := true)
    {
      assert SourceChunkIs(db, after, plan, c);
    }
  }

  /** The source lands: it was asked for, is worked on, and was neither refused nor rolled back. */
  predicate Lands(db: Db, requested: seq<Id>, allowFailed: bool, p: Provider, rollbacks: Rollbacks, source: Id)
    requires ValidProvider(p)
  {
    var batch := BatchFor(db, requested, allowFailed, p);
    && batch.Some? && source in db.sources && source in requested
    && Decide(db, source, allowFailed).Process? && !p.refused(source)
    && !RollsBack(batch.value.plans, rollbacks, source)
  }

  lemma PlanOfSource(db: Db, requested: seq<Id>, allowFailed: bool, p: Provider, source: Id)
    requires ValidProvider(p) && BatchFor(db, requested, allowFailed, p).Some? && source in db.sources
    ensures KnowledgeStatuses.Planned(BatchFor(db, requested, allowFailed, p).value.plans, source) <==>
              source in requested && Decide(db, source, allowFailed).Process? && !p.refused(source)
  {
    var sources := Distinct(requested, |requested|);
    assert requested[..|requested|] == requested;
    PrepareSorts(db, EmptyBatch(db), sources, allowFailed, p, 0, source);
    assert sources[0..] == sources;
  }

  lemma LandedSourceIsActive(
      db: Db, requested: seq<Id>, allowFailed: bool, p: Provider, rollbacks: Rollbacks, after: Db, source: Id)
    requires Inv(db) && ValidProvider(p) && after == Cognify(db, requested, allowFailed, p, rollbacks)
    requires Lands(db, requested, allowFailed, p, rollbacks, source)
    ensures source in after.sources && after.sources[source] == Active
  {
    CognifyStatuses(db, requested, allowFailed, p, rollbacks, after, source);
  }

  /** What a source that lands is left as. */
  lemma LandedSourceIsDone(
      db: Db, requested: seq<Id>, allowFailed: bool, p: Provider, rollbacks: Rollbacks, after: Db, source: Id)
    returns (document: Id, first: Id)
    requires Inv(db) && ValidProvider(p) && after == Cognify(db, requested, allowFailed, p, rollbacks)
    requires Lands(db, requested, allowFailed, p, rollbacks, source)
    ensures source in after.sources && after.sources[source] == Active && IsNewest(db, source, document)
    ensures LandedAs(db, after, source, document, first, p.chunkCount(source))
  {
    var plans := BatchFor(db, requested, allowFailed, p).value.plans;
    LandedSourceIsActive(db, requested, allowFailed, p, rollbacks, after, source);
    CognifyPersisted(db, requested, allowFailed, p, rollbacks, after);
    PlanOfSource(db, requested, allowFailed, p, source);
    document, first := PlannedSourceLands(db, after, plans, rollbacks, p, source);
  }

  lemma PlannedSourceLands(db: Db, after: Db, plans: seq<SourcePlan>, rollbacks: Rollbacks, p: Provider, source: Id)
    returns (document: Id, first: Id)
    requires IdsBelow(db) && ValidProvider(p) && PlansAre(db, plans, p) && Persisted(db, after, plans, rollbacks)
    requires KnowledgeStatuses.Planned(plans, source) && !RollsBack(plans, rollbacks, source)
    ensures IsNewest(db, source, document) && LandedAs(db, after, source, document, first, p.chunkCount(source))
  {
    var j :| 0 <= j < |plans| && plans[j].source == source;
    assert IsPlan(db, plans[j], p);
    document := plans[j].document;
    first := PlanChunks(db, plans[j], p);
    NewestIsLast(db, source, document);
    PlanLandsAs(db, after, plans, rollbacks, j, first, p.chunkCount(source));
  }

  /* ----- a source that does not ----- */

  /** The source's documents and chunks are the same in both. */
  ghost predicate SameText(a: Db, b: Db, source: Id) {
    && (forall c: Id :: c in a.chunks && a.chunks[c].source == source ==> c in b.chunks && b.chunks[c] == a.chunks[c])
    && (forall c: Id :: c in b.chunks && b.chunks[c].source == source ==>
          c in a.chunks && a.chunks[c].source == source)
    && (forall d: Id :: d in a.documents && a.documents[d].source == source ==>
          d in b.documents && b.documents[d] == a.documents[d])
    && (forall d: Id :: d in b.documents && b.documents[d].source == source ==>
          d in a.documents && a.documents[d].source == source)
  }

  /** No plan of the source lands. */
  ghost predicate Untouched(plans: seq<SourcePlan>, rollbacks: Rollbacks, source: Id) {
    forall j :: 0 <= j < |plans| && plans[j].source == source ==> rollbacks(j)
  }

  lemma UntouchedChunk(
      db: Db, after: Db, plans: seq<SourcePlan>, rollbacks: Rollbacks, source: Id, c: Id)
    requires Untouched(plans, rollbacks, source) && OwnChunks(plans) && ChunksAre(db, after, plans, rollbacks, c)
    requires AllUnread(db.chunks, plans, c)
    ensures c in db.chunks && db.chunks[c].source == source ==> c in after.chunks && after.chunks[c] == db.chunks[c]
    ensures c in after.chunks && after.chunks[c].source == source ==> c in db.chunks && db.chunks[c].source == source
  {
    if c in db.chunks { ChunkStaysOwn(db, after, plans, rollbacks, c); }
    if c in db.chunks && db.chunks[c].source == source {
      forall j | 0 <= j < |plans| && !rollbacks(j) ensures c !in plans[j].extracted {
        assert ReadsUnread(db.chunks, plans[j], c);
      }
    }
    if c in after.chunks && c !in db.chunks {
      var l :| 0 <= l < |plans| && !rollbacks(l) && c in plans[l].added;
    }
  }

  lemma UntouchedDocument(
      db: Db, after: Db, plans: seq<SourcePlan>, rollbacks: Rollbacks, p: Provider, source: Id, d: Id)
    requires ValidProvider(p) && PlansAre(db, plans, p) && Untouched(plans, rollbacks, source)
    requires DocumentIs(db.documents, after.documents, plans, rollbacks, 0, d)
    ensures d in after.documents <==> d in db.documents
    ensures d in db.documents && db.documents[d].source == source ==> after.documents[d] == db.documents[d]
    ensures d in db.documents ==> after.documents[d].source == db.documents[d].source
  {
    forall j | 0 <= j < |plans|
      ensures plans[j].document in db.documents && db.documents[plans[j].document].source == plans[j].source
    {
      PlanDocument(db, plans[j], p);
    }
  }

  lemma PlanDocument(db: Db, plan: SourcePlan, p: Provider)
    requires ValidProvider(p) && IsPlan(db, plan, p)
    ensures plan.document in db.documents && db.documents[plan.document].source == plan.source
  {
    var first := PlanChunks(db, plan, p);
    assert plan.document in DocumentsOfSource(db, plan.source);
  }

  /** A source that does not land keeps its documents and chunks, down to what is extracted and summarized. */
  lemma UntouchedKeepsText(
      db: Db, after: Db, plans: seq<SourcePlan>, rollbacks: Rollbacks, p: Provider, source: Id)
    requires ValidProvider(p) && PlansAre(db, plans, p) && Untouched(plans, rollbacks, source)
    requires Persisted(db, after, plans, rollbacks)
    ensures SameText(db, after, source)
  {
    forall c: Id
      ensures c in db.chunks && db.chunks[c].source == source ==> c in after.chunks && after.chunks[c] == db.chunks[c]
      ensures c in after.chunks && after.chunks[c].source == source ==> c in db.chunks && db.chunks[c].source == source
    {
      assert ChunksAre(db, after, plans, rollbacks, c);
      PlansReadUnread(db, plans, p, c);
      UntouchedChunk(db, after, plans, rollbacks, source, c);
    }
    forall d: Id
      ensures d in db.documents && db.documents[d].source == source ==>
                d in after.documents && after.documents[d] == db.documents[d]
      ensures d in after.documents && after.documents[d].source == source ==>
                d in db.documents && db.documents[d].source == source
    {
      assert DocumentIs(db.documents, after.documents, plans, rollbacks, 0, d);
      UntouchedDocument(db, after, plans, rollbacks, p, source, d);
    }
  }

  lemma UnlandedSourceIsKept(
      db: Db, requested: seq<Id>, allowFailed: bool, p: Provider, rollbacks: Rollbacks, after: Db, source: Id)
    requires Inv(db) && ValidProvider(p) && after == Cognify(db, requested, allowFailed, p, rollbacks)
    requires source in db.sources && !Lands(db, requested, allowFailed, p, rollbacks, source)
    ensures SameText(db, after, source)
  {
    var batch := BatchFor(db, requested, allowFailed, p);
    if batch.Some? {
      CognifyPersisted(db, requested, allowFailed, p, rollbacks, after);
      PlanOfSource(db, requested, allowFailed, p, source);
      OnePlanRollsBack(batch.value.plans, rollbacks, source);
      UntouchedKeepsText(db, after, batch.value.plans, rollbacks, p, source);
    }
  }

  lemma OnePlanRollsBack(plans: seq<SourcePlan>, rollbacks: Rollbacks, source: Id)
    requires OwnChunks(plans) && (KnowledgeStatuses.Planned(plans, source) ==> RollsBack(plans, rollbacks, source))
    ensures Untouched(plans, rollbacks, source)
  {
    forall j | 0 <= j < |plans| && plans[j].source == source ensures rollbacks(j) {
      var l :| 0 <= l < |plans| && plans[l].source == source && rollbacks(l);
      assert j < l || l < j || j == l;
    }
  }

  /* ----- once is enough ----- */

  lemma SameTextSameDecision(a: Db, b: Db, source: Id, allowFailed: bool)
    requires IdsBelow(a) && IdsBelow(b) && SameText(a, b, source)
    requires source in a.sources && source in b.sources && a.sources[source] == b.sources[source]
    ensures Decide(b, source, allowFailed) == Decide(a, source, allowFailed)
  {
    forall d: Id ensures d in DocumentsOfSource(a, source) <==> d in DocumentsOfSource(b, source) {
    }
    forall c: Id ensures c in ChunksOf(a, source) <==> c in ChunksOf(b, source) {
    }
    assert DocumentsOfSource(a, source) == DocumentsOfSource(b, source);
    assert ChunksOf(a, source) == ChunksOf(b, source);
    SameNewest(a, b, source);
    var newest := NewestDocument(a, source);
    if newest.Some? { assert Complete(a, source, newest.value) <==> Complete(b, source, newest.value); }
  }

  lemma SameNewest(a: Db, b: Db, source: Id)
    requires IdsBelow(a) && IdsBelow(b) && DocumentsOfSource(a, source) == DocumentsOfSource(b, source)
    ensures NewestDocument(a, source) == NewestDocument(b, source)
  {
    NewestIsLast(a, source, 0);
    NewestIsLast(b, source, 0);
    var newest := NewestDocument(a, source);
    if newest.Some? {
      NewestIsLast(a, source, newest.value);
      NewestIsLast(b, source, newest.value);
    }
  }

  lemma DocumentsKept(
      db: Db, requested: seq<Id>, allowFailed: bool, p: Provider, rollbacks: Rollbacks, after: Db, source: Id)
    requires Inv(db) && ValidProvider(p) && after == Cognify(db, requested, allowFailed, p, rollbacks)
    ensures DocumentsOfSource(after, source) == DocumentsOfSource(db, source)
  {
    var batch := BatchFor(db, requested, allowFailed, p);
    if batch.Some? {
      CognifyPersisted(db, requested, allowFailed, p, rollbacks, after);
      forall d: Id ensures d in DocumentsOfSource(after, source) <==> d in DocumentsOfSource(db, source) {
        assert DocumentIs(db.documents, after.documents, batch.value.plans, rollbacks, 0, d);
      }
    }
  }

  /** With its document summarized and its chunks extracted there is no more to do for an ACTIVE source. */
  lemma DoneIsSkipped(db: Db, source: Id, document: Id, allowFailed: bool)
    requires source in db.sources && db.sources[source] == Active && NewestDocument(db, source) == Some(document)
    requires forall c :: c in ChunksOf(db, source) ==> db.chunks[c].extracted
    requires document in db.documents && db.documents[document].summarized
    ensures Decide(db, source, allowFailed) == Skip
  {
  }

  lemma LandedIsSkipped(
      db: Db, requested: seq<Id>, allowFailed: bool, p: Provider, rollbacks: Rollbacks, after: Db, source: Id,
      again: bool)
    requires Inv(db) && Inv(after) && ValidProvider(p) && after == Cognify(db, requested, allowFailed, p, rollbacks)
    requires Lands(db, requested, allowFailed, p, rollbacks, source)
    ensures source in after.sources && Decide(after, source, again) == Skip
  {
    var document, first := LandedSourceIsDone(db, requested, allowFailed, p, rollbacks, after, source);
    DocumentsKept(db, requested, allowFailed, p, rollbacks, after, source);
    NewestIsLast(after, source, document);
    DoneIsSkipped(after, source, document, again);
  }

  /** A complete source that is marked ACTIVE, or one that was skipped, is skipped the next time. */
  lemma LeftIsSkipped(db: Db, after: Db, source: Id, allowFailed: bool)
    requires IdsBelow(db) && IdsBelow(after) && SameText(db, after, source)
    requires source in db.sources && source in after.sources
    requires match Decide(db, source, allowFailed)
             case Activate => after.sources[source] == Active
             case Skip => after.sources[source] == db.sources[source]
             case _ => false
    ensures Decide(after, source, allowFailed) == Skip
  {
    if Decide(db, source, allowFailed).Skip? {
      SameTextSameDecision(db, after, source, allowFailed);
    } else {
      var activated := db.(sources := db.sources[source := Active]);
      ActivatedIsSkipped(db, source, allowFailed, activated);
      SameTextSameDecision(activated, after, source, allowFailed);
    }
  }

  lemma ActivatedIsSkipped(db: Db, source: Id, allowFailed: bool, activated: Db)
    requires IdsBelow(db) && source in db.sources && Decide(db, source, allowFailed).Activate?
    requires activated == db.(sources := db.sources[source := Active])
    ensures IdsBelow(activated) && Decide(activated, source, allowFailed) == Skip
  {
    assert DocumentsOfSource(db, source) == DocumentsOfSource(activated, source);
    assert ChunksOf(db, source) == ChunksOf(activated, source);
    SameNewest(db, activated, source);
  }

  /** In a valid request every source exists and has a document, if it is not being deleted. */
  lemma {:induction false} ValidRequest(
      db: Db, b: Batch, sources: seq<Id>, allowFailed: bool, p: Provider, n: nat, source: Id)
    requires ValidProvider(p) && n <= |sources| && PrepareFrom(db, b, sources, allowFailed, p, n).Some?
    requires source in sources[n..]
    ensures source in db.sources && !Decide(db, source, allowFailed).NoDocument?
    decreases |sources| - n
  {
    assert sources[n..] == [sources[n]] + sources[n + 1..];
    var next := PrepareOne(db, b, sources[n], allowFailed, p);
    if source != sources[n] { ValidRequest(db, next.value, sources, allowFailed, p, n + 1, source); }
  }

  lemma RequestIsValid(db: Db, requested: seq<Id>, allowFailed: bool, p: Provider, source: Id)
    requires ValidProvider(p) && BatchFor(db, requested, allowFailed, p).Some? && source in requested
    ensures source in db.sources && !Decide(db, source, allowFailed).NoDocument?
  {
    var sources := Distinct(requested, |requested|);
    assert requested[..|requested|] == requested && sources[0..] == sources;
    ValidRequest(db, EmptyBatch(db), sources, allowFailed, p, 0, source);
  }

  /** No requested source is refused or rolls back. */
  ghost predicate AllGoWell(db: Db, requested: seq<Id>, allowFailed: bool, p: Provider, rollbacks: Rollbacks)
    requires ValidProvider(p)
  {
    var batch := BatchFor(db, requested, allowFailed, p);
    batch.Some? &&
    forall source :: source in requested ==> !p.refused(source) && !RollsBack(batch.value.plans, rollbacks, source)
  }

  lemma RequestedIsSkipped(
      db: Db, requested: seq<Id>, allowFailed: bool, p: Provider, rollbacks: Rollbacks, after: Db, source: Id)
    requires Inv(db) && Inv(after) && ValidProvider(p) && after == Cognify(db, requested, allowFailed, p, rollbacks)
    requires AllGoWell(db, requested, allowFailed, p, rollbacks) && source in requested
    ensures source in after.sources && Decide(after, source, allowFailed) == Skip
  {
    RequestIsValid(db, requested, allowFailed, p, source);
    if Decide(db, source, allowFailed).Process? {
      LandedIsSkipped(db, requested, allowFailed, p, rollbacks, after, source, allowFailed);
    } else {
      UnlandedSourceIsKept(db, requested, allowFailed, p, rollbacks, after, source);
      CognifyStatuses(db, requested, allowFailed, p, rollbacks, after, source);
      LeftIsSkipped(db, after, source, allowFailed);
    }
  }

  lemma {:induction false} NothingToPrepare(
      db: Db, b: Batch, sources: seq<Id>, allowFailed: bool, p: Provider, n: nat)
    requires ValidProvider(p) && n <= |sources|
    requires forall source :: source in sources ==> source in db.sources && Decide(db, source, allowFailed) == Skip
    ensures PrepareFrom(db, b, sources, allowFailed, p, n) == Some(b)
    decreases |sources| - n
  {
    if n < |sources| {
      assert sources[n] in sources;
      NothingToPrepare(db, b, sources, allowFailed, p, n + 1);
    }
  }

  lemma NothingToDo(db: Db, requested: seq<Id>, allowFailed: bool, p: Provider, rollbacks: Rollbacks)
    requires ValidProvider(p)
    requires forall source :: source in requested ==> source in db.sources && Decide(db, source, allowFailed) == Skip
    ensures Cognify(db, requested, allowFailed, p, rollbacks) == db
  {
    var sources := Distinct(requested, |requested|);
    assert requested[..|requested|] == requested;
    NothingToPrepare(db, EmptyBatch(db), sources, allowFailed, p, 0);
    assert Reserved(db, EmptyBatch(db).resolver) == db;
  }

  /**
   Once is enough: after a cognify in which no source was refused or rolled back, the same request changes nothing,
   whatever a provider would then return.
  */
  lemma OnceIsEnough(
      db: Db, requested: seq<Id>, allowFailed: bool, p: Provider, rollbacks: Rollbacks, after: Db, later: Provider,
      laterRollbacks: Rollbacks)
    requires Inv(db) && ValidProvider(p) && after == Cognify(db, requested, allowFailed, p, rollbacks)
    requires AllGoWell(db, requested, allowFailed, p, rollbacks) && ValidProvider(later)
    ensures Cognify(after, requested, allowFailed, later, laterRollbacks) == after
  {
    CognifyKeeps(db, requested, allowFailed, p, rollbacks, after);
    forall source | source in requested
      ensures source in after.sources && Decide(after, source, allowFailed) == Skip
    {
      RequestedIsSkipped(db, requested, allowFailed, p, rollbacks, after, source);
    }
    NothingToDo(after, requested, allowFailed, later, laterRollbacks);
  }
}
