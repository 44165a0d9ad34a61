/** Sources that fail: which failures leave incremental maintenance exact, and a run in which one does not. */
module KnowledgeFailures {
  import opened Wrappers
  import opened Ordering
  import opened GraphProjection
  import opened KnowledgeStore
  import opened KnowledgeForget
  import opened KnowledgeForgetSafety
  import opened KnowledgeCognify
  import opened KnowledgeCognifySafety
  import opened KnowledgeCognifySource
  import opened KnowledgeCognifyBatch
  import opened KnowledgeCognifyTheorems
  import opened KnowledgeRuns

  /* ----- failures of sources that mention nothing yet ----- */

  predicate MentionedActive(db: Db, m: Mention) {
    LiveChunk(db, m.chunk) ==>
        db.chunks[m.chunk].source in db.sources && db.sources[db.chunks[m.chunk].source] == Active
  }

  /** Sources with mentions on active chunks are ACTIVE. */
  ghost predicate MentionsActive(db: Db) {
    forall m :: m in db.mentions ==> MentionedActive(db, m)
  }

  /** No active chunk of the source mentions anything. */
  ghost predicate Unmentioned(db: Db, source: Id) {
    forall m :: m in db.mentions && LiveChunk(db, m.chunk) ==> db.chunks[m.chunk].source != source
  }

  /** The sources the event fails, by a refused extraction or a rolled back savepoint, mention nothing yet. */
  ghost predicate OnlyUnmentionedFail(db: Db, e: Event)
    requires ValidEvent(e)
  {
    e.CognifySources? ==>
      && (forall source :: source in e.requested && e.provider.refused(source) ==> Unmentioned(db, source))
      && var batch := BatchFor(db, e.requested, e.allowFailed, e.provider);
         batch.Some? ==> RolledBackUnmentioned(db, batch.value.plans, e.rollbacks, 0)
  }

  ghost predicate RolledBackUnmentioned(db: Db, plans: seq<SourcePlan>, rollbacks: Rollbacks, n: nat) {
    forall j :: n <= j < |plans| && rollbacks(j) ==> Unmentioned(db, plans[j].source)
  }

  ghost predicate OnlyUnmentionedFailFrom(db: Db, events: seq<Event>, n: nat)
    requires n <= |events| && ValidEvents(events)
    decreases |events| - n
  {
    n == |events| || (OnlyUnmentionedFail(db, events[n]) && OnlyUnmentionedFailFrom(Step(db, events[n]), events, n + 1))
  }

  lemma OneStatus(db: Db, source: Id, status: SourceStatus)
    ensures SetStatuses(db, [source], status, 1) == if source in db.sources then
            db.(sources := db.sources[source := status]) else db
  {
    assert SetStatuses(db, [source], status, 0) == db;
  }

  /** Marking a source FAILED is harmless if it mentions nothing, marking one ACTIVE always is. */
  lemma MarkKeepsMentions(db: Db, source: Id, status: SourceStatus, other: Id)
    requires status == Active || Unmentioned(db, source)
    ensures var after := SetStatuses(db, [source], status, 1);
            && (MentionsActive(db) ==> MentionsActive(after))
            && (Unmentioned(db, other) ==> Unmentioned(after, other))
  {
    OneStatus(db, source, status);
    var after := SetStatuses(db, [source], status, 1);
    if MentionsActive(db) {
      forall m | m in after.mentions ensures MentionedActive(after, m) {
        assert MentionedActive(db, m);
      }
    }
  }

  /** Only the named source's chunks gain mentions, and it ends ACTIVE. */
  ghost predicate MentionsOnly(db: Db, after: Db, source: Id) {
    && (forall m :: m in after.mentions ==>
          m in db.mentions || (m.chunk in after.chunks && after.chunks[m.chunk].source == source))
    && (forall m :: m in db.mentions ==> m.chunk in db.chunks)
    && (forall id :: id in db.chunks ==>
          id in after.chunks && after.chunks[id].source == db.chunks[id].source
              && after.chunks[id].active == db.chunks[id].active)
    && after.sources == db.sources[source := Active]
  }

  lemma PersistSourceMentions(db: Db, r: Resolver, plan: SourcePlan)
    requires SourceReady(db, r, plan)
    ensures MentionsOnly(db, PersistSource(db, r, plan), plan.source)
  {
    var w := SourceWork(db, r, plan);
    assert Evolves(WithAdded(db, plan), w.db) && Gathered(WithAdded(db, plan), w, plan.source) by {
      SourceWorkOk(db, r, plan);
    }
    FinishedCloses(w, plan);
    ClosedMentions(db, w, plan, PersistSource(db, r, plan));
  }

  /** The closing writes, whatever commands they append. */
  ghost predicate Closes(w: Work, plan: SourcePlan, after: Db) {
    after == w.db.(chunks := MarkExtracted(w.db.chunks, plan.extracted),
                   documents := MarkSummarized(w.db.documents, plan.document),
                   outbox := after.outbox, sources := w.db.sources[plan.source := Active])
  }

  lemma FinishedCloses(w: Work, plan: SourcePlan)
    ensures Closes(w, plan, Finished(w, plan))
  {
  }

  lemma ClosedMentions(db: Db, w: Work, plan: SourcePlan, after: Db)
    requires Closes(w, plan, after)
    requires forall id :: id in plan.added ==> id !in db.chunks
    requires forall m :: m in db.mentions ==> m.chunk in db.chunks
    requires w.db.chunks == db.chunks + plan.added && w.db.sources == db.sources
             && w.db.mentions == db.mentions + w.mentions
    requires forall m :: m in w.mentions ==> OwnChunk(w.db, plan.source, m.chunk)
    ensures MentionsOnly(db, after, plan.source)
  {
  }

  lemma MentionsOnlyKeeps(db: Db, after: Db, source: Id, other: Id)
    requires MentionsOnly(db, after, source)
    ensures MentionsActive(db) ==> MentionsActive(after)
    ensures other != source && Unmentioned(db, other) ==> Unmentioned(after, other)
  {
    if MentionsActive(db) {
      forall m | m in after.mentions ensures MentionedActive(after, m) {
        assert m in db.mentions ==> MentionedActive(db, m);
      }
    }
  }

  lemma PersistOneMentions(db: Db, r: Resolver, plan: SourcePlan, rollsBack: bool, other: Id)
    requires SourceReady(db, r, plan) && (rollsBack ==> Unmentioned(db, plan.source))
    ensures var after := PersistOne(db, r, plan, rollsBack);
            && (MentionsActive(db) ==> MentionsActive(after))
            && (other != plan.source && Unmentioned(db, other) ==> Unmentioned(after, other))
  {
    if rollsBack {
      MarkKeepsMentions(db, plan.source, Failed, other);
    } else {
      PersistSourceMentions(db, r, plan);
      MentionsOnlyKeeps(db, PersistSource(db, r, plan), plan.source, other);
    }
  }

  lemma {:induction false} PersistFromMentions(
    db: Db, r: Resolver, plans: seq<SourcePlan>, rollbacks: Rollbacks, n: nat, others: seq<Id>)
    requires PersistReady(db, r, plans, n) && n <= |plans| && MentionsActive(db)
    requires RolledBackUnmentioned(db, plans, rollbacks, n) && AllUnmentioned(db, others)
    requires forall j :: n <= j < |plans| ==> plans[j].source !in others
    ensures var after := PersistFrom(db, r, plans, rollbacks, n); MentionsActive(after) && AllUnmentioned(after, others)
    decreases |plans| - n
  {
    if n < |plans| {
      var after := PersistOne(db, r, plans[n], rollbacks(n));
      PersistOneKeeps(db, r, plans, rollbacks(n), n);
      PersistOneMentions(db, r, plans[n], rollbacks(n), plans[n].source);
      forall j | n + 1 <= j < |plans| && rollbacks(j) ensures Unmentioned(after, plans[j].source) {
        assert Apart(plans[n], plans[j]);
        PersistOneMentions(db, r, plans[n], rollbacks(n), plans[j].source);
      }
      forall source | source in others ensures Unmentioned(after, source) {
        PersistOneMentions(db, r, plans[n], rollbacks(n), source);
      }
      PersistFromMentions(after, r, plans, rollbacks, n + 1, others);
    }
  }

  ghost predicate AllUnmentioned(db: Db, sources: seq<Id>) {
    forall source :: source in sources ==> Unmentioned(db, source)
  }

  lemma {:induction false} MarkingKeepsMentions(db: Db, sources: seq<Id>, status: SourceStatus, n: nat, others: seq<Id>)
    requires n <= |sources| && MentionsActive(db) && (status == Active || AllUnmentioned(db, sources))
    requires AllUnmentioned(db, others)
    ensures var after := SetStatuses(db, sources, status, n);
            MentionsActive(after) && after.mentions == db.mentions && after.chunks == db.chunks
    ensures AllUnmentioned(SetStatuses(db, sources, status, n), others)
  {
    if n > 0 {
      MarkingKeepsMentions(db, sources, status, n - 1, others);
      var before := SetStatuses(db, sources, status, n - 1);
      var after := SetStatuses(db, sources, status, n);
      forall m | m in after.mentions ensures MentionedActive(after, m) {
        assert MentionedActive(before, m);
        assert sources[n - 1] in sources;
      }
    }
  }

  /** A batch plans no refused source, and fails no other. */
  ghost predicate FailsRefused(b: Batch, p: Provider, sources: seq<Id>) {
    && (forall j :: 0 <= j < |b.plans| ==> !p.refused(b.plans[j].source))
    && (forall source :: source in b.failed ==> p.refused(source) && source in sources)
  }

  lemma PrepareOneFailsRefused(
      db: Db, b: Batch, source: Id, allowFailed: bool, p: Provider, sources: seq<Id>, next: Batch)
    requires ValidProvider(p) && FailsRefused(b, p, sources) && source in sources
    requires PrepareOne(db, b, source, allowFailed, p) == Some(next)
    ensures FailsRefused(next, p, sources)
  {
    var d := Decide(db, source, allowFailed);
    if d.Process? && !p.refused(source) {
      WithPlanFailsRefused(db, b, source, d.document, p, sources);
    }
  }

  lemma WithPlanFailsRefused(db: Db, b: Batch, source: Id, document: Id, p: Provider, sources: seq<Id>)
    requires ValidProvider(p) && FailsRefused(b, p, sources) && !p.refused(source)
    ensures FailsRefused(WithPlan(db, b, source, document, p), p, sources)
  {
    var plan := PlanSource(db, b.resolver, source, document, p);
    assert WithPlan(db, b, source, document, p).plans == b.plans + [plan] && plan.source == source;
  }

  lemma {:induction false} PrepareFailsRefused(
      db: Db, b: Batch, sources: seq<Id>, allowFailed: bool, p: Provider, n: nat)
    requires n <= |sources| && ValidProvider(p) && FailsRefused(b, p, sources)
    ensures var after := PrepareFrom(db, b, sources, allowFailed, p, n);
            after.Some? ==> FailsRefused(after.value, p, sources)
    decreases |sources| - n
  {
    if n < |sources| {
      var next := PrepareOne(db, b, sources[n], allowFailed, p);
      if next.Some? {
        PrepareOneFailsRefused(db, b, sources[n], allowFailed, p, sources, next.value);
        PrepareFailsRefused(db, next.value, sources, allowFailed, p, n + 1);
      }
    }
  }

  lemma ReservedMentions(db: Db, r: Resolver, plans: seq<SourcePlan>, rollbacks: Rollbacks, others: seq<Id>)
    requires MentionsActive(db) && RolledBackUnmentioned(db, plans, rollbacks, 0) && AllUnmentioned(db, others)
    ensures var start := Reserved(db, r);
            MentionsActive(start) && RolledBackUnmentioned(start, plans, rollbacks, 0) && AllUnmentioned(start, others)
  {
    var start := Reserved(db, r);
    forall m | m in start.mentions ensures MentionedActive(start, m) {
      assert MentionedActive(db, m);
    }
    forall source: Id ensures Unmentioned(db, source) ==> Unmentioned(start, source) {
    }
  }

  lemma CognifyKeepsMentions(db: Db, e: Event, after: Db)
    requires Inv(db) && e.CognifySources? && ValidEvent(e) && MentionsActive(db) && after == Step(db, e)
    requires OnlyUnmentionedFail(db, e)
    ensures MentionsActive(after)
  {
    var batch := BatchFor(db, e.requested, e.allowFailed, e.provider);
    if batch.Some? {
      var b, sources := batch.value, Distinct(e.requested, |e.requested|);
      BatchReady(db, e.requested, e.allowFailed, e.provider);
      PrepareFailsRefused(db, EmptyBatch(db), sources, e.allowFailed, e.provider, 0);
      assert e.requested[..|e.requested|] == e.requested;
      ReservedMentions(db, b.resolver, b.plans, e.rollbacks, b.failed);
      BatchKeepsMentions(Reserved(db, b.resolver), b, e.rollbacks);
    }
  }

  lemma BatchKeepsMentions(start: Db, b: Batch, rollbacks: Rollbacks)
    requires PersistReady(start, b.resolver, b.plans, 0) && MentionsActive(start)
    requires RolledBackUnmentioned(start, b.plans, rollbacks, 0) && AllUnmentioned(start, b.failed)
    requires forall j :: 0 <= j < |b.plans| ==> b.plans[j].source !in b.failed
    ensures var persisted := PersistFrom(start, b.resolver, b.plans, rollbacks, 0);
            var activated := SetStatuses(persisted, b.activate, Active, |b.activate|);
            MentionsActive(SetStatuses(activated, b.failed, Failed, |b.failed|))
  {
    var persisted := PersistFrom(start, b.resolver, b.plans, rollbacks, 0);
    var activated := SetStatuses(persisted, b.activate, Active, |b.activate|);
    PersistFromMentions(start, b.resolver, b.plans, rollbacks, 0, b.failed);
    MarkingKeepsMentions(persisted, b.activate, Active, |b.activate|, b.failed);
    MarkingKeepsMentions(activated, b.failed, Failed, |b.failed|, b.failed);
  }

  /** The mentioned active chunks of `b` are among those of `a`, and their sources' statuses are as they were. */
  lemma FewerStayActive(a: Db, b: Db)
    requires MentionsActive(a) && b.mentions == a.mentions
    requires forall c :: LiveChunk(b, c) ==>
               LiveChunk(a, c) && b.chunks[c].source == a.chunks[c].source
               && (a.chunks[c].source in a.sources && a.sources[a.chunks[c].source] == Active ==>
                     a.chunks[c].source in b.sources && b.sources[a.chunks[c].source] == Active)
    ensures MentionsActive(b)
  {
    forall m | m in b.mentions ensures MentionedActive(b, m) {
      assert MentionedActive(a, m);
    }
  }

  lemma ForgetRowsKeepMentions(db: Db, source: Id)
    requires Inv(db) && MentionsActive(db) && source in db.sources
    ensures MentionsActive(ForgetRows(db, source).db)
  {
    var rows := ForgetRows(db, source).db;
    ForgetSameRows(db, source);
    forall c | LiveChunk(rows, c) ensures LiveChunk(db, c) && rows.chunks[c].source == db.chunks[c].source != source {
      ForgetLeaves(db, source, c);
    }
    assert rows.sources == db.sources[source := Deleting];
    FewerStayActive(db, rows);
  }

  lemma ForgetKeepsMentions(db: Db, source: Id, memoryOnly: bool, after: Db)
    requires Good(db) && MentionsActive(db) && after == ForgetSource(db, source, memoryOnly)
    ensures MentionsActive(after)
  {
    if source in db.sources && !NothingToForget(db.sources[source], memoryOnly) {
      ForgetRowsKeepMentions(db, source);
      FewerStayActive(ForgetRows(db, source).db, after);
    }
  }

  lemma ForgetAllKeepsMentions(db: Db, memoryOnly: bool, after: Db)
    requires Good(db) && after == ForgetDataset(db, memoryOnly)
    ensures MentionsActive(after)
  {
    ForgetAllStep(db, memoryOnly, after);
    forall c ensures !LiveChunk(after, c) {
      assert c !in Expected(after).chunks;
    }
  }

  lemma QuietKeepsMentions(db: Db, e: Event, after: Db)
    requires IdsBelow(db) && MentionsActive(db) && ValidEvent(e) && after == Step(db, e)
    requires e.Remember? || e.PromptChanges? || e.Finalize?
    ensures MentionsActive(after)
  {
    FewerStayActive(db, after);
  }

  lemma StepKeepsMentions(db: Db, e: Event, after: Db)
    requires Good(db) && ValidEvent(e) && after == Step(db, e) && MentionsActive(db) && OnlyUnmentionedFail(db, e)
    ensures MentionsActive(after)
  {
    match e
    case CognifySources(_, _, _, _) => CognifyKeepsMentions(db, e, after);
    case Forget(source, memoryOnly) => ForgetKeepsMentions(db, source, memoryOnly, after);
    case ForgetAll(memoryOnly) => ForgetAllKeepsMentions(db, memoryOnly, after);
    case _ => QuietKeepsMentions(db, e, after);
  }

  lemma MentionsActiveIsCareful(db: Db, e: Event)
    requires Good(db) && Exact(db) && MentionsActive(db)
    ensures Careful(db, e)
  {
    if e.Forget? && e.source in db.sources {
      forall m | m in db.mentions && Remaining(db, e.source, m.chunk) ensures Vouching(db, e.source, m.chunk) {
        assert MentionedActive(db, m);
      }
      ForgetIsExactWhenOthersActive(db, e.source);
    }
  }

  lemma {:induction false} UnmentionedFailuresRun(db: Db, events: seq<Event>, n: nat)
    requires n <= |events| && ValidEvents(events) && Good(db) && Exact(db) && MentionsActive(db)
    requires OnlyUnmentionedFailFrom(db, events, n)
    ensures Exact(RunFrom(db, events, n))
    decreases |events| - n
  {
    if n < |events| {
      var after := Step(db, events[n]);
      MentionsActiveIsCareful(db, events[n]);
      StepKeepsGood(db, events[n], after);
      StepKeepsExact(db, events[n], after);
      StepKeepsMentions(db, events[n], after);
      UnmentionedFailuresRun(after, events, n + 1);
    }
  }

  /**
   A source may fail before it mentions anything: in every run in which no source fails while its
   active chunks mention an entity, incremental forgets and cognifies are exactly mark and sweep.
  */
  lemma UnmentionedFailuresAreHarmless(events: seq<Event>)
    requires ValidEvents(events) && OnlyUnmentionedFailFrom(EmptyDb, events, 0)
    ensures Exact(RunFrom(EmptyDb, events, 0))
  {
    EmptyIsGood();
    UnmentionedFailuresRun(EmptyDb, events, 0);
  }

  /* ----- a failure that strands ----- */

  const Ada := ExtractedEntity("e1", "person:ada", "Ada", [], 1.0)

  /** Every text is one chunk that mentions Ada. */
  function Extracting(refused: Id -> bool): Provider {
    Provider(refused, _ => 1, (_, _) => Extraction([Ada], []))
  }

  const NoneRefused: Id -> bool := _ => false

  const NoRollbacks: Rollbacks := _ => false

  lemma ExtractingIsValid(refused: Id -> bool)
    ensures ValidProvider(Extracting(refused))
  {
    forall source, ordinal ensures ExtractsValid(Extracting(refused), source, ordinal) {
    }
  }

  lemma SortedOne(rank: Rank, id: Id)
    ensures SortedBy(rank, {id}) == [id]
  {
    assert {id} - {First(rank, {id})} == {};
  }

  lemma DistinctOne(source: Id)
    ensures Distinct([source], 1) == [source]
  {
    assert Distinct([source], 0) == [];
  }

  /** A source with a document and no chunks: its first cognify plans one chunk and one mention. */
  ghost predicate Unread(db: Db, source: Id, document: Id) {
    && source in db.sources && db.sources[source] == Pending
    && DocumentsOfSource(db, source) == {document} && ChunksOf(db, source) == {}
  }

  function OneChunk(source: Id, document: Id): Chunk {
    Chunk(document, source, 0, true, false)
  }

  lemma OneNewChunk(source: Id, document: Id, c: Id)
    ensures NewChunks(source, document, c, 1) == map[c := OneChunk(source, document)]
  {
    assert NewChunks(source, document, c, 0) == map[];
  }

  lemma OneChunkOps(rows: map<Id, Chunk>, source: Id, c: Id, p: Provider)
    requires c in rows && ValidProvider(p) && p == Extracting(NoneRefused)
    ensures OpsOf(rows, source, [c], p, 1) == [MentionOp(c, Ada)]
  {
    var x := Extraction([Ada], []);
    assert OpsOf(rows, source, [c], p, 0) == [];
    assert EvidenceOps(c, x) == [] && MentionOps(c, x.entities) == [MentionOp(c, Ada)];
    assert ChunkOps(c, x) == [MentionOp(c, Ada)];
  }

  lemma OneSourceOps(db: Db, source: Id, added: map<Id, Chunk>, c: Id, p: Provider)
    requires ChunksOf(db, source) == {} && added.Keys == {c} && ValidProvider(p) && p == Extracting(NoneRefused)
    ensures ToExtract(db, source, added) == {c} && SourceOps(db, source, added, p) == [MentionOp(c, Ada)]
  {
    var rows := db.chunks + added;
    SortedOne(OrdinalRank(rows), c);
    OneChunkOps(rows, source, c, p);
  }

  ghost predicate IsFirstPlan(plan: SourcePlan, source: Id, document: Id, c: Id) {
    && plan.source == source && plan.document == document
    && plan.added == map[c := OneChunk(source, document)] && plan.extracted == {c}
    && plan.ops == [MentionOp(c, Ada)]
  }

  lemma FirstPlan(db: Db, source: Id, document: Id, p: Provider)
    requires Unread(db, source, document) && ValidProvider(p) && p == Extracting(NoneRefused)
    ensures IsFirstPlan(PlanSource(db, EmptyBatch(db).resolver, source, document, p), source, document, db.next)
  {
    var added := NewChunks(source, document, db.next, 1);
    OneNewChunk(source, document, db.next);
    assert added.Keys == {db.next};
    OneSourceOps(db, source, added, db.next, p);
  }

  lemma OneRequested(db: Db, source: Id, p: Provider, next: Batch)
    requires ValidProvider(p) && PrepareOne(db, EmptyBatch(db), source, false, p) == Some(next)
    ensures BatchFor(db, [source], false, p) == Some(next)
  {
    DistinctOne(source);
    assert PrepareFrom(db, next, [source], false, p, 1) == Some(next);
  }

  lemma FirstDecision(db: Db, source: Id, document: Id)
    requires Unread(db, source, document)
    ensures Decide(db, source, false) == Process(document)
  {
  }

  lemma Prepared(db: Db, b: Batch, source: Id, document: Id, p: Provider, next: Batch)
    requires source in db.sources && Decide(db, source, false) == Process(document)
    requires ValidProvider(p) && !p.refused(source) && next == WithPlan(db, b, source, document, p)
    ensures PrepareOne(db, b, source, false, p) == Some(next)
  {
  }

  lemma FirstWithPlan(db: Db, source: Id, document: Id, p: Provider, plan: SourcePlan, next: Batch)
    requires ChunksOf(db, source) == {} && ValidProvider(p) && p == Extracting(NoneRefused)
    requires plan == PlanSource(db, EmptyBatch(db).resolver, source, document, p)
    requires next == WithPlan(db, EmptyBatch(db), source, document, p)
    ensures next == Batch([plan], [], [], ResolverAfter(db, EmptyBatch(db).resolver, 1, plan.ops))
  {
  }

  lemma FirstBatch(db: Db, source: Id, document: Id, p: Provider, plan: SourcePlan)
    requires Unread(db, source, document) && ValidProvider(p) && p == Extracting(NoneRefused)
    requires plan == PlanSource(db, EmptyBatch(db).resolver, source, document, p)
    ensures BatchFor(db, [source], false, p) ==
              Some(Batch([plan], [], [], ResolverAfter(db, EmptyBatch(db).resolver, 1, plan.ops)))
  {
    FirstDecision(db, source, document);
    var next := WithPlan(db, EmptyBatch(db), source, document, p);
    Prepared(db, EmptyBatch(db), source, document, p, next);
    OneRequested(db, source, p, next);
    FirstWithPlan(db, source, document, p, plan, next);
  }

  /** Active entities stay active, under their keys. */
  ghost predicate SameKeys(a: Db, b: Db) {
    forall id :: LiveEntity(a, id) ==> LiveEntity(b, id) && b.entities[id].key == a.entities[id].key
  }

  /** The rows after one chunk and one mention of Ada were added for a source. */
  ghost predicate ReadFirst(db: Db, after: Db, source: Id, document: Id, m: Mention) {
    && after.sources == db.sources[source := Active]
    && m.chunk !in db.chunks && after.chunks == db.chunks[m.chunk := OneChunk(source, document).(extracted := true)]
    && after.mentions == db.mentions + [m] && after.relations == db.relations
    && LiveEntity(after, m.entity) && after.entities[m.entity].key == Ada.key && SameKeys(db, after)
    && SameDocuments(db.documents, after.documents)
  }

  lemma OneOp(w: Work, r: Resolver, op: Op)
    ensures ApplyFrom(w, r, [op], 0) == ApplyOp(w, r, op)
  {
    assert ApplyFrom(ApplyOp(w, r, op), r, [op], 1) == ApplyOp(w, r, op);
  }

  /** One mention of Ada in a chunk that has none. */
  ghost predicate AdaMentioned(db: Db, after: Db, m: Mention) {
    && after.sources == db.sources && after.documents == db.documents && after.relations == db.relations
    && after.chunks == db.chunks && after.mentions == db.mentions + [m]
    && LiveEntity(after, m.entity) && after.entities[m.entity].key == Ada.key && SameKeys(db, after)
  }

  /** Ada has an active row, or the id planned for her is not in use. */
  predicate IdIsFree(db: Db, plan: PlannedEntity) {
    ActiveByKey(db, Ada.key).Some? || plan.id !in db.entities
  }

  lemma AdaApplied(w: Work, c: Id, plan: PlannedEntity)
    requires (forall m :: m in w.db.mentions ==> m.chunk != c) && IdIsFree(w.db, plan)
    ensures AdaMentioned(w.db, ApplyMention(w, c, Ada.key, plan).db,
            Mention(w.db.next, EntityRow(w.db, Ada.key, plan).0, c))
  {
    var id := EntityRow(w.db, Ada.key, plan).0;
    assert !HasMention(w.db, id, c);
  }

  lemma FirstWork(db: Db, r: Resolver, plan: SourcePlan, c: Id) returns (m: Mention)
    requires RefsOk(db) && c !in db.chunks && IsFirstPlan(plan, plan.source, plan.document, c)
    requires Ada.key in r.entities && IdIsFree(db, r.entities[Ada.key])
    ensures m.chunk == c && AdaMentioned(WithAdded(db, plan), SourceWork(db, r, plan).db, m)
  {
    var start := StartWork(db, plan);
    OneOp(start, r, MentionOp(c, Ada));
    SameLookups(db, start.db, Ada.key, Identity("", "", ""));
    AdaApplied(start, c, r.entities[Ada.key]);
    m := Mention(start.db.next, EntityRow(start.db, Ada.key, r.entities[Ada.key]).0, c);
  }

  lemma ClosedFirst(db: Db, w: Work, plan: SourcePlan, m: Mention, after: Db)
    requires Closes(w, plan, after)
    requires m.chunk !in db.chunks && IsFirstPlan(plan, plan.source, plan.document, m.chunk)
    requires AdaMentioned(WithAdded(db, plan), w.db, m)
    ensures ReadFirst(db, after, plan.source, plan.document, m)
  {
    OneExtracted(db.chunks, m.chunk, OneChunk(plan.source, plan.document));
    OneSummarized(w.db.documents, plan.document);
  }

  lemma OneExtracted(chunks: map<Id, Chunk>, c: Id, row: Chunk)
    requires c !in chunks
    ensures MarkExtracted(chunks + map[c := row], {c}) == chunks[c := row.(extracted := true)]
  {
  }

  /** The same documents, active as they were. */
  ghost predicate SameDocuments(a: map<Id, Document>, b: map<Id, Document>) {
    && a.Keys == b.Keys
    && forall id :: id in a ==> b[id].source == a[id].source && b[id].active == a[id].active
  }

  lemma OneSummarized(documents: map<Id, Document>, document: Id)
    ensures SameDocuments(documents, MarkSummarized(documents, document))
  {
  }

  lemma FirstResolver(db: Db, ops: seq<Op>, c: Id)
    requires ops == [MentionOp(c, Ada)] && IdsBelow(db)
    ensures var r := ResolverAfter(db, EmptyBatch(db).resolver, 1, ops);
            Ada.key in r.entities && IdIsFree(db, r.entities[Ada.key])
  {
    var r := Reserve(EmptyBatch(db).resolver, 1);
    var seen := SeeEntity(db, r, Ada);
    assert See(db, r, ops[0]) == seen;
    assert SeeFrom(db, seen, ops, 1) == seen;
  }

  /** A batch of one landing plan. */
  lemma FirstPersist(db: Db, source: Id, p: Provider, r: Resolver, plan: SourcePlan)
    requires ValidProvider(p) && BatchFor(db, [source], false, p) == Some(Batch([plan], [], [], r))
    ensures Cognify(db, [source], false, p, NoRollbacks) == PersistSource(Reserved(db, r), r, plan)
  {
    var landed := PersistSource(Reserved(db, r), r, plan);
    assert PersistFrom(landed, r, [plan], NoRollbacks, 1) == landed;
  }

  lemma FirstCognify(db: Db, source: Id, document: Id, p: Provider, after: Db) returns (m: Mention)
    requires Inv(db) && Unread(db, source, document) && ValidProvider(p) && p == Extracting(NoneRefused)
    requires after == Cognify(db, [source], false, p, NoRollbacks)
    ensures ReadFirst(db, after, source, document, m)
  {
    var empty := EmptyBatch(db).resolver;
    var plan := PlanSource(db, empty, source, document, p);
    FirstPlan(db, source, document, p);
    var r := ResolverAfter(db, empty, 1, plan.ops);
    FirstBatch(db, source, document, p, plan);
    FirstPersist(db, source, p, r, plan);
    FirstResolver(db, plan.ops, db.next);
    m := LandedFirst(db, Reserved(db, r), r, plan, after);
  }

  lemma LandedFirst(db: Db, start: Db, r: Resolver, plan: SourcePlan, after: Db) returns (m: Mention)
    requires Inv(db) && start == Reserved(db, r) && Ada.key in r.entities && IdIsFree(db, r.entities[Ada.key])
    requires IsFirstPlan(plan, plan.source, plan.document, db.next) && after == PersistSource(start, r, plan)
    ensures ReadFirst(db, after, plan.source, plan.document, m)
  {
    SameLookups(db, start, Ada.key, Identity("", "", ""));
    m := FirstWork(start, r, plan, db.next);
    FinishedCloses(SourceWork(start, r, plan), plan);
    ClosedFirst(start, SourceWork(start, r, plan), plan, m, after);
  }

  /** Re-extracting a source whose chunks went stale, and being refused, marks it FAILED and leaves the rest. */
  lemma RefusedCognify(db: Db, source: Id, document: Id, c: Id, p: Provider)
    requires source in db.sources && db.sources[source] == Active && DocumentsOfSource(db, source) == {document}
    requires c in ChunksOf(db, source) && !db.chunks[c].extracted
    requires ValidProvider(p) && p.refused(source)
    ensures Cognify(db, [source], false, p, NoRollbacks) == db.(sources := db.sources[source := Failed])
  {
    assert Decide(db, source, false) == Process(document);
    var failed := EmptyBatch(db).(failed := EmptyBatch(db).failed + [source]);
    assert failed.failed == [source];
    OneRequested(db, source, p, failed);
    assert Reserved(db, failed.resolver) == db;
    assert PersistFrom(db, failed.resolver, [], NoRollbacks, 0) == db;
    assert SetStatuses(db, [], Active, 0) == db;
    OneStatus(db, source, Failed);
  }

  /**
   Two sources mention Ada; a changed prompt makes the second be read again, which is refused; the first is forgotten.
  */
  function StrandingRun(): seq<Event> {
    [Remember, Remember,
     CognifySources([0], false, Extracting(NoneRefused), NoRollbacks),
     CognifySources([1], false, Extracting(NoneRefused), NoRollbacks),
     PromptChanges,
     CognifySources([1], false, Extracting(id => id == 1), NoRollbacks),
     Forget(0, false)]
  }

  lemma StrandingRunIsValid()
    ensures ValidEvents(StrandingRun())
  {
    ExtractingIsValid(NoneRefused);
    ExtractingIsValid(id => id == 1);
  }

  function TwoRemembered(): Db {
    Remembered(Remembered(EmptyDb))
  }

  lemma TwoRows()
    ensures var db := TwoRemembered();
            && db.sources == map[0 := Pending, 1 := Pending] && db.relations == map[] && db.mentions == []
            && db.chunks == map[]
            && db.documents == map[0 := Document(0, true, false), 1 := Document(1, true, false)]
  {
  }

  lemma TwoAreGood()
    ensures Good(TwoRemembered()) && Exact(TwoRemembered())
  {
    EmptyIsGood();
    RememberStep(EmptyDb, Remembered(EmptyDb));
    RememberStep(Remembered(EmptyDb), TwoRemembered());
  }

  lemma TwoAreUnread()
    ensures Unread(TwoRemembered(), 0, 0) && Unread(TwoRemembered(), 1, 1)
  {
    var db := TwoRemembered();
    TwoRows();
    assert ChunksOf(db, 0) == {} && ChunksOf(db, 1) == {};
    assert DocumentsOfSource(db, 0) == {0} && DocumentsOfSource(db, 1) == {1};
  }

  /** Both sources mention Ada, each in its one chunk, and nothing else is there. */
  ghost predicate BothMention(db: Db, a: Mention, b: Mention) {
    && Good(db) && Exact(db) && db.relations == map[] && db.mentions == [a, b] && a.entity == b.entity
    && LiveEntity(db, a.entity) && db.chunks.Keys == {a.chunk, b.chunk} && a.chunk != b.chunk
    && LiveChunk(db, a.chunk) && db.chunks[a.chunk].source == 0
    && LiveChunk(db, b.chunk) && db.chunks[b.chunk].source == 1
    && 0 in db.sources && db.sources[0] == Active && 1 in db.sources && DocumentsOfSource(db, 1) == {1}
  }

  lemma StillUnread(db: Db, after: Db, m: Mention)
    requires ReadFirst(db, after, 0, 0, m) && Unread(db, 1, 1)
    ensures Unread(after, 1, 1)
  {
    assert ChunksOf(after, 1) == {} by {
      forall id ensures id !in ChunksOf(after, 1) {
        assert id in db.chunks ==> id !in ChunksOf(db, 1);
      }
    }
    assert DocumentsOfSource(after, 1) == DocumentsOfSource(db, 1);
  }

  lemma FirstRead(db0: Db, p: Provider, db1: Db) returns (a: Mention)
    requires db0 == TwoRemembered() && ValidProvider(p) && p == Extracting(NoneRefused)
    requires db1 == Cognify(db0, [0], false, p, NoRollbacks)
    ensures Good(db1) && Exact(db1) && ReadFirst(db0, db1, 0, 0, a) && Unread(db1, 1, 1)
  {
    TwoAreGood();
    TwoAreUnread();
    a := FirstCognify(db0, 0, 0, p, db1);
    CognifyKeeps(db0, [0], false, p, NoRollbacks, db1);
    StillUnread(db0, db1, a);
  }

  lemma BothRead(db0: Db, p: Provider, db1: Db, db2: Db) returns (a: Mention, b: Mention)
    requires db0 == TwoRemembered() && ValidProvider(p) && p == Extracting(NoneRefused)
    requires db1 == Cognify(db0, [0], false, p, NoRollbacks) && db2 == Cognify(db1, [1], false, p, NoRollbacks)
    ensures BothMention(db2, a, b) && db2.sources[1] == Active
  {
    a := FirstRead(db0, p, db1);
    b := FirstCognify(db1, 1, 1, p, db2);
    CognifyKeeps(db1, [1], false, p, NoRollbacks, db2);
    BothReadRows(db0, db1, db2, a, b);
  }

  lemma BothReadRows(db0: Db, db1: Db, db2: Db, a: Mention, b: Mention)
    requires db0 == TwoRemembered() && ReadFirst(db0, db1, 0, 0, a) && ReadFirst(db1, db2, 1, 1, b)
    requires Unread(db1, 1, 1) && Good(db2) && Exact(db2)
    ensures BothMention(db2, a, b) && db2.sources[1] == Active
  {
    TwoRows();
    assert db2.mentions == [a, b];
    SameAda(db1, db2, a, b);
    assert DocumentsOfSource(db2, 1) == DocumentsOfSource(db1, 1);
  }

  /** Ada keeps her row: one active row a key. */
  lemma SameAda(db1: Db, db2: Db, a: Mention, b: Mention)
    requires ReadFirst(db1, db2, 1, 1, b) && UniqueKeys(db2)
    requires LiveEntity(db1, a.entity) && db1.entities[a.entity].key == Ada.key
    ensures a.entity == b.entity
  {
  }

  /** The second source is FAILED and keeps its chunk. */
  lemma SecondFails(db2: Db, a: Mention, b: Mention, stale: Db, p: Provider, failed: Db)
    requires BothMention(db2, a, b) && db2.sources[1] == Active && stale == Stale(db2)
    requires ValidProvider(p) && p.refused(1) && failed == Cognify(stale, [1], false, p, NoRollbacks)
    ensures BothMention(failed, a, b) && failed.sources[1] == Failed
  {
    StaleBothMention(db2, a, b, stale);
    RefusedCognify(stale, 1, 1, b.chunk, p);
    CognifyKeeps(stale, [1], false, p, NoRollbacks, failed);
    assert DocumentsOfSource(failed, 1) == DocumentsOfSource(stale, 1);
  }

  lemma StaleBothMention(db: Db, a: Mention, b: Mention, stale: Db)
    requires BothMention(db, a, b) && stale == Stale(db)
    ensures BothMention(stale, a, b) && stale.sources == db.sources && !stale.chunks[b.chunk].extracted
  {
    PromptStep(db, stale);
    assert DocumentsOfSource(stale, 1) == DocumentsOfSource(db, 1);
  }

  lemma AdaIsStranded(db: Db, a: Mention, b: Mention)
    requires BothMention(db, a, b) && db.sources[1] == Failed
    ensures StrandedEntity(db, 0, a.entity)
  {
    assert a in db.mentions && a.chunk in ChunksOf(db, 0);
    assert b in db.mentions && Remaining(db, 0, b.chunk);
    assert !VouchedMention(db, 0, a.entity);
  }

  /** Forgetting the first source deactivates Ada although the second still mentions her in an active chunk. */
  lemma ForgettingStrands(db: Db, a: Mention, b: Mention, after: Db)
    requires BothMention(db, a, b) && db.sources[1] == Failed && after == ForgetSource(db, 0, false)
    ensures !Exact(after) && b in after.mentions && LiveChunk(after, b.chunk) && !LiveEntity(after, b.entity)
  {
    ForgettingDrops(db, a, b);
    Unsupported(ForgetRows(db, 0).db, after, b);
  }

  lemma ForgettingDrops(db: Db, a: Mention, b: Mention)
    requires BothMention(db, a, b) && db.sources[1] == Failed
    ensures var rows := ForgetRows(db, 0).db;
            b in rows.mentions && LiveChunk(rows, b.chunk) && b.entity in rows.entities && !LiveEntity(rows, b.entity)
  {
    AdaIsStranded(db, a, b);
    ForgetSameRows(db, 0);
    ForgetLeaves(db, 0, a.entity);
    ForgetLeaves(db, 0, b.chunk);
  }

  lemma Unsupported(rows: Db, after: Db, m: Mention)
    requires after.entities == rows.entities && after.chunks == rows.chunks && after.mentions == rows.mentions
    requires m in rows.mentions && LiveChunk(rows, m.chunk) && m.entity in rows.entities && !LiveEntity(rows, m.entity)
    ensures !Exact(after) && m in after.mentions && LiveChunk(after, m.chunk) && !LiveEntity(after, m.entity)
  {
    assert SupportedEntity(after, m.entity);
  }

  /**
   A failure that is not harmless: after this run the second source, FAILED by a refused re-extraction,
   still mentions Ada in an active chunk, but forgetting the first source has deactivated her.
  */
  lemma FailedSourceIsStranded()
    ensures ValidEvents(StrandingRun())
    ensures var db := RunFrom(EmptyDb, StrandingRun(), 0);
            !Exact(db) && exists m :: m in db.mentions && LiveChunk(db, m.chunk) && !LiveEntity(db, m.entity)
  {
    StrandingRunIsValid();
    var db := RunFrom(EmptyDb, StrandingRun(), 0);
    var p, refusing := Extracting(NoneRefused), Extracting(id => id == 1);
    ExtractingIsValid(NoneRefused);
    ExtractingIsValid(id => id == 1);
    var db1 := Cognify(TwoRemembered(), [0], false, p, NoRollbacks);
    var db2 := Cognify(db1, [1], false, p, NoRollbacks);
    var failed := Cognify(Stale(db2), [1], false, refusing, NoRollbacks);
    StrandingRunEnds(StrandingRun(), p, refusing, db);
    Stranding(p, db1, db2, refusing, failed, db);
  }

  lemma Stranding(p: Provider, db1: Db, db2: Db, refusing: Provider, failed: Db, db: Db)
    requires p == Extracting(NoneRefused) && ValidProvider(p) && ValidProvider(refusing)
             && refusing == Extracting(refusing.refused)
    requires refusing.refused(1)
    requires db1 == Cognify(TwoRemembered(), [0], false, p, NoRollbacks)
             && db2 == Cognify(db1, [1], false, p, NoRollbacks)
    requires failed == Cognify(Stale(db2), [1], false, refusing, NoRollbacks) && db == ForgetSource(failed, 0, false)
    ensures !Exact(db)
    ensures exists m :: m in db.mentions && LiveChunk(db, m.chunk) && !LiveEntity(db, m.entity)
  {
    var a, b := BothRead(TwoRemembered(), p, db1, db2);
    SecondFails(db2, a, b, Stale(db2), refusing, failed);
    ForgettingStrands(failed, a, b, db);
  }

  lemma StrandingRunEnds(es: seq<Event>, p: Provider, refusing: Provider, db: Db)
    requires ValidEvents(es) && db == RunFrom(EmptyDb, es, 0) && ValidProvider(p) && ValidProvider(refusing)
    requires es == [Remember, Remember,
                    CognifySources([0], false, p, NoRollbacks), CognifySources([1], false, p, NoRollbacks),
                    PromptChanges, CognifySources([1], false, refusing, NoRollbacks), Forget(0, false)]
    ensures var db2 := Cognify(Cognify(TwoRemembered(), [0], false, p, NoRollbacks), [1], false, p, NoRollbacks);
            db == ForgetSource(Cognify(Stale(db2), [1], false, refusing, NoRollbacks), 0, false)
  {
    OneEvent(EmptyDb, es, 0);
    OneEvent(Remembered(EmptyDb), es, 1);
    var db1 := Cognify(TwoRemembered(), [0], false, p, NoRollbacks);
    OneEvent(TwoRemembered(), es, 2);
    OneEvent(db1, es, 3);
    FailedRunEnds(Cognify(db1, [1], false, p, NoRollbacks), es, refusing);
  }

  lemma FailedRunEnds(db: Db, es: seq<Event>, refusing: Provider)
    requires ValidEvents(es) && ValidProvider(refusing) && |es| == 7
    requires es[4..] == [PromptChanges, CognifySources([1], false, refusing, NoRollbacks), Forget(0, false)]
    ensures RunFrom(db, es, 4) == ForgetSource(Cognify(Stale(db), [1], false, refusing, NoRollbacks), 0, false)
  {
    assert es[4] == es[4..][0] && es[5] == es[4..][1] && es[6] == es[4..][2];
    var failed := Cognify(Stale(db), [1], false, refusing, NoRollbacks);
    OneEvent(db, es, 4);
    OneEvent(Stale(db), es, 5);
    OneEvent(failed, es, 6);
    NoMoreEvents(ForgetSource(failed, 0, false), es);
  }

  lemma OneEvent(db: Db, es: seq<Event>, n: nat)
    requires n < |es| && ValidEvents(es)
    ensures ValidEvent(es[n]) && RunFrom(db, es, n) == RunFrom(Step(db, es[n]), es, n + 1)
  {
  }

  lemma NoMoreEvents(db: Db, es: seq<Event>)
    requires ValidEvents(es)
    ensures RunFrom(db, es, |es|) == db
  {
  }
}
