/** Any sequence of remembers, normal cognifies, and source or dataset forgets, from an empty dataset. */
module KnowledgeRuns {
  import opened Wrappers
  import opened Ordering
  import opened GraphProjection
  import opened KnowledgeStore
  import opened KnowledgeForget
  import opened KnowledgeForgetSafety
  import opened KnowledgeCognify
  import opened KnowledgeCognifySource
  import opened KnowledgeCognifyTheorems

  datatype Event =
    | Remember
    | CognifySources(requested: seq<Id>, allowFailed: bool, provider: Provider, rollbacks: Rollbacks)
    | PromptChanges
    | Forget(source: Id, memoryOnly: bool)
    | ForgetAll(memoryOnly: bool)
    | Finalize(source: Id, pending: bool)

  /** A new PENDING source with an active document. */
  function Remembered(db: Db): Db {
    db.(sources := db.sources[db.next := Pending], documents := db.documents[db.next := Document(db.next, true, false)],
        next := db.next + 1)
  }

  /** A deployed change of prompt version makes every extraction and summary stale. */
  function Stale(db: Db): Db {
    db.(chunks := map id | id in db.chunks :: db.chunks[id].(extracted := false),
        documents := map id | id in db.documents :: db.documents[id].(summarized := false))
  }

  /** The forget pipeline's last step: DELETING becomes PENDING or DELETED. */
  function Finalized(db: Db, source: Id, pending: bool): Db {
    if source in db.sources && db.sources[source] == Deleting
    then db.(sources := db.sources[source := if pending then Pending else Deleted])
    else db
  }

  ghost predicate ValidEvent(e: Event) {
    e.CognifySources? ==> ValidProvider(e.provider)
  }

  function Step(db: Db, e: Event): Db
    requires ValidEvent(e)
  {
    match e
    case Remember => Remembered(db)
    case CognifySources(requested, allowFailed, provider, rollbacks) =>
        Cognify(db, requested, allowFailed, provider, rollbacks)
    case PromptChanges => Stale(db)
    case Forget(source, memoryOnly) => ForgetSource(db, source, memoryOnly)
    case ForgetAll(memoryOnly) => ForgetDataset(db, memoryOnly)
    case Finalize(source, pending) => Finalized(db, source, pending)
  }

  ghost predicate ValidEvents(events: seq<Event>) {
    forall j :: 0 <= j < |events| ==> ValidEvent(events[j])
  }

  /** The rows after the events from the `n`th on. */
  function RunFrom(db: Db, events: seq<Event>, n: nat): Db
    requires n <= |events| && ValidEvents(events)
    decreases |events| - n
  {
    if n == |events| then db else RunFrom(Step(db, events[n]), events, n + 1)
  }

  /* ----- documents come and go without touching the graph ----- */

  /** The same graph, with documents added that no chunk is in. */
  ghost predicate AddsDocuments(a: Db, b: Db) {
    && a.entities == b.entities && a.relations == b.relations && a.mentions == b.mentions && a.evidence == b.evidence
    && a.chunks == b.chunks && a.next <= b.next && a.sources.Keys <= b.sources.Keys
    && (forall id :: id in a.documents ==> id in b.documents && b.documents[id] == a.documents[id])
    && (forall id :: id in b.documents && id !in a.documents ==> b.documents[id].source in b.sources && id < b.next)
    && (forall id :: id in b.sources && id !in a.sources ==> id < b.next)
  }

  lemma AddsDocumentsKeepsInv(a: Db, b: Db)
    requires Inv(a) && AddsDocuments(a, b)
    ensures Inv(b)
  {
    SameGraphKeepsRows(a, b);
    StillSupported(a, b);
    assert RefsOk(b) && IdsBelow(b) && UniqueOrdinals(b) && ChunksFollowDocuments(b);
  }

  lemma AddsDocumentsProjects(a: Db, b: Db)
    requires AddsDocuments(a, b)
    ensures Expected(a) == Expected(b) && (Exact(a) ==> Exact(b))
  {
    assert Expected(a).next == Expected(b).next by {
      forall e ensures e in Expected(a).next <==> e in Expected(b).next {
        ExpectedNext(a, e);
        ExpectedNext(b, e);
      }
    }
    assert Expected(a).relations == Expected(b).relations;
    if Exact(a) {
      forall id: Id ensures SupportedRelation(a, id) <==> SupportedRelation(b, id) {
      }
      forall id: Id ensures SupportedEntity(a, id) <==> SupportedEntity(b, id) {
      }
    }
  }

  lemma ResetAddsDocument(db: Db, source: Id)
    requires source in db.sources && IdsBelow(db)
    ensures AddsDocuments(db, WithResetDocument(db, source)) && IdsBelow(WithResetDocument(db, source))
  {
  }

  lemma {:induction false} ResetsAddDocuments(db: Db, sources: set<Id>)
    requires sources <= db.sources.Keys && IdsBelow(db)
    ensures AddsDocuments(db, ResetSources(db, sources))
    decreases sources
  {
    if sources != {} {
      var source := First(_ => 0, sources);
      ResetAddsDocument(db, source);
      ResetsAddDocuments(WithResetDocument(db, source), sources - {source});
    }
  }

  ghost predicate OutboxOnly(a: Db, b: Db) {
    b == a.(outbox := b.outbox)
  }

  lemma OutboxIsSameGraph(a: Db, b: Db)
    requires OutboxOnly(a, b)
    ensures SameGraph(a, b)
  {
  }

  /* ----- every event keeps the invariant and the projection in step ----- */

  ghost predicate Good(db: Db) {
    Inv(db) && InStep(db)
  }

  /** Rows `middle` with the commands that lead to them appended, documents added meanwhile. */
  lemma CommittedForget(db: Db, middle: Db, reset: Db, commands: seq<Command>, after: Db)
    requires Good(db) && Inv(middle) && AddsDocuments(middle, reset) && reset.outbox == db.outbox
    requires Replay(Expected(db), commands, |commands|) == Some(Expected(middle))
    requires after == reset.(outbox := db.outbox + commands)
    ensures Good(after) && (Exact(middle) ==> Exact(after))
  {
    AddsDocumentsKeepsInv(middle, reset);
    AddsDocumentsProjects(middle, reset);
    OutboxIsSameGraph(reset, after);
    SameGraphKeepsInv(reset, after);
    SameGraphProjects(reset, after);
    StaysInStep(db, after, commands);
    if Exact(middle) { SameGraphKeepsExact(reset, after); }
  }

  lemma ForgetStep(db: Db, source: Id, memoryOnly: bool, after: Db)
    requires Good(db) && after == ForgetSource(db, source, memoryOnly)
    ensures Good(after)
    ensures Exact(db) && (source in db.sources ==> NothingStranded(db, source)) ==> Exact(after)
  {
    if source in db.sources && !NothingToForget(db.sources[source], memoryOnly) {
      var rows := ForgetRows(db, source).db;
      var resets := memoryOnly && DocumentsOfSource(db, source) != {};
      var reset := if resets then WithResetDocument(rows, source) else rows;
      ForgetKeepsInv(db, source);
      ForgetSameRows(db, source);
      OneReset(rows, source, resets, reset);
      ForgetCommits(db, source, rows, reset, after);
    }
  }

  lemma OneReset(rows: Db, source: Id, resets: bool, reset: Db)
    requires Inv(rows) && source in rows.sources && reset == if resets then WithResetDocument(rows, source) else rows
    ensures AddsDocuments(rows, reset) && reset.outbox == rows.outbox
  {
    if resets { ResetAddsDocument(rows, source); }
  }

  lemma ForgetCommits(db: Db, source: Id, rows: Db, reset: Db, after: Db)
    requires Good(db) && source in db.sources && rows == ForgetRows(db, source).db && Inv(rows)
    requires AddsDocuments(rows, reset) && reset.outbox == db.outbox
    requires after == reset.(outbox := db.outbox + SourceCommands(db, source))
    ensures Good(after) && (Exact(db) && NothingStranded(db, source) ==> Exact(after))
  {
    ForgetProjects(db, source);
    CommittedForget(db, rows, reset, SourceCommands(db, source), after);
    if Exact(db) && NothingStranded(db, source) { ForgetIsMarkAndSweep(db, source); }
  }

  lemma ForgetAllStep(db: Db, memoryOnly: bool, after: Db)
    requires Good(db) && after == ForgetDataset(db, memoryOnly)
    ensures Good(after) && Expected(after) == Nothing && Exact(after)
  {
    var rows := ForgetAllRows(db);
    var reset := if memoryOnly then ResetSources(rows, SourcesWithDocuments(db)) else rows;
    ForgetAllKeepsInv(db);
    AllResetAddsDocuments(db, memoryOnly, rows, reset);
    ForgetAllCommits(db, rows, reset, after);
  }

  lemma AllResetAddsDocuments(db: Db, memoryOnly: bool, rows: Db, reset: Db)
    requires Inv(db) && rows == ForgetAllRows(db) && IdsBelow(rows)
    requires reset == if memoryOnly then ResetSources(rows, SourcesWithDocuments(db)) else rows
    ensures AddsDocuments(rows, reset) && reset.outbox == db.outbox
  {
    if memoryOnly { ResetsAddDocuments(rows, SourcesWithDocuments(db)); }
    ResetKeepsOutbox(rows, SourcesWithDocuments(db));
  }

  lemma ForgetAllCommits(db: Db, rows: Db, reset: Db, after: Db)
    requires Good(db) && rows == ForgetAllRows(db) && Inv(rows) && AddsDocuments(rows, reset)
             && reset.outbox == db.outbox
    requires after == reset.(outbox := db.outbox + DatasetCommands(db))
    ensures Good(after) && Expected(after) == Nothing && Exact(after)
  {
    ForgetAllLeavesNothing(db);
    ForgetAllProjects(db);
    ForgetAllIsExact(db);
    CommittedForget(db, rows, reset, DatasetCommands(db), after);
    AddsDocumentsProjects(rows, reset);
    OutboxIsSameGraph(reset, after);
    SameGraphProjects(reset, after);
  }

  lemma {:induction false} ResetKeepsOutbox(db: Db, sources: set<Id>)
    ensures ResetSources(db, sources).outbox == db.outbox
    decreases sources
  {
    if sources != {} {
      var source := First(_ => 0, sources);
      ResetKeepsOutbox(WithResetDocument(db, source), sources - {source});
    }
  }

  lemma RememberStep(db: Db, after: Db)
    requires Good(db) && after == Remembered(db)
    ensures Good(after) && (Exact(db) ==> Exact(after))
  {
    assert AddsDocuments(db, after);
    AddsDocumentsKeepsInv(db, after);
    AddsDocumentsProjects(db, after);
  }

  lemma SameGraphStep(db: Db, after: Db)
    requires Good(db) && SameGraph(db, after) && db.outbox == after.outbox
    ensures Good(after) && (Exact(db) ==> Exact(after))
  {
    SameGraphKeepsInv(db, after);
    SameGraphStaysInStep(db, after);
    if Exact(db) { SameGraphKeepsExact(db, after); }
  }

  lemma PromptStep(db: Db, after: Db)
    requires Good(db) && after == Stale(db)
    ensures Good(after) && (Exact(db) ==> Exact(after))
  {
    SameGraphStep(db, after);
  }

  lemma FinalizeStep(db: Db, source: Id, pending: bool, after: Db)
    requires Good(db) && after == Finalized(db, source, pending)
    ensures Good(after) && (Exact(db) ==> Exact(after))
  {
    SameGraphStep(db, after);
  }

  /** The event is not a forget that strands something. */
  ghost predicate Careful(db: Db, e: Event) {
    e.Forget? && e.source in db.sources ==> NothingStranded(db, e.source)
  }

  lemma StepKeepsGood(db: Db, e: Event, after: Db)
    requires Good(db) && ValidEvent(e) && after == Step(db, e)
    ensures Good(after)
  {
    match e
    case Remember => RememberStep(db, after);
    case CognifySources(requested, allowFailed, provider, rollbacks) =>
      CognifyKeeps(db, requested, allowFailed, provider, rollbacks, after);
    case PromptChanges => PromptStep(db, after);
    case Forget(source, memoryOnly) => ForgetStep(db, source, memoryOnly, after);
    case ForgetAll(memoryOnly) => ForgetAllStep(db, memoryOnly, after);
    case Finalize(source, pending) => FinalizeStep(db, source, pending, after);
  }

  lemma StepKeepsExact(db: Db, e: Event, after: Db)
    requires Good(db) && ValidEvent(e) && after == Step(db, e) && Exact(db) && Careful(db, e)
    ensures Exact(after)
  {
    match e
    case Remember => RememberStep(db, after);
    case CognifySources(requested, allowFailed, provider, rollbacks) =>
      CognifyKeeps(db, requested, allowFailed, provider, rollbacks, after);
    case PromptChanges => PromptStep(db, after);
    case Forget(source, memoryOnly) => ForgetStep(db, source, memoryOnly, after);
    case ForgetAll(memoryOnly) => ForgetAllStep(db, memoryOnly, after);
    case Finalize(source, pending) => FinalizeStep(db, source, pending, after);
  }

  lemma {:induction false} RunKeepsGood(db: Db, events: seq<Event>, n: nat)
    requires n <= |events| && ValidEvents(events) && Good(db)
    ensures Good(RunFrom(db, events, n))
    decreases |events| - n
  {
    if n < |events| {
      StepKeepsGood(db, events[n], Step(db, events[n]));
      RunKeepsGood(Step(db, events[n]), events, n + 1);
    }
  }

  lemma EmptyIsGood()
    ensures Good(EmptyDb) && Exact(EmptyDb)
  {
    assert NothingLive(EmptyDb);
    NothingLiveProjectsNothing(EmptyDb);
    NothingLiveIsExact(EmptyDb);
    assert Replay(Nothing, EmptyDb.outbox, 0) == Some(Nothing);
  }

  /* ----- the theorems ----- */

  /**
   After any run, replaying every outbox command in order from the empty graph never
   fails on a missing endpoint and gives exactly the identities of the active rows, so
   reconciliation counts nothing missing and nothing extra.
  */
  lemma ProjectionAgreesWithSource(events: seq<Event>, db: Db)
    requires ValidEvents(events) && db == RunFrom(EmptyDb, events, 0)
    ensures var replayed := Replay(Nothing, db.outbox, |db.outbox|);
            && replayed == Some(Expected(db)) && Compare(Expected(db), replayed.value) == NoDiff
            && replayed.value.next == set e | e in NextEdges(db.chunks, SortedIds(LiveChunks(db)))
  {
    EmptyIsGood();
    RunKeepsGood(EmptyDb, events, 0);
    assert InStep(db);
    CompareIsExact(Expected(db), Expected(db));
    assert Inv(db);
    RebuildScanIsExpected(db, SortedIds(LiveChunks(db)));
  }

  /** After any run an active relation joins active entities, and every active row is supported by an active chunk. */
  lemma NothingDangles(events: seq<Event>, db: Db, id: Id)
    requires ValidEvents(events) && db == RunFrom(EmptyDb, events, 0)
    ensures LiveRelation(db, id) ==> ListedRelation(db, id) && SupportedRelation(db, id)
    ensures LiveEntity(db, id) ==> SupportedEntity(db, id)
  {
    EmptyIsGood();
    RunKeepsGood(EmptyDb, events, 0);
    assert Inv(db);
  }

  /** Evidence always comes with mentions of both endpoints in its chunk. */
  lemma EvidenceNeedsMentions(events: seq<Event>, db: Db, v: Evidence)
    requires ValidEvents(events) && db == RunFrom(EmptyDb, events, 0) && v in db.evidence
    ensures v.relation in db.relations
    ensures HasMention(db, db.relations[v.relation].source, v.chunk)
            && HasMention(db, db.relations[v.relation].target, v.chunk)
  {
    EmptyIsGood();
    RunKeepsGood(EmptyDb, events, 0);
    assert Inv(db);
  }

  /** No forget of the run strands anything. */
  ghost predicate CarefulFrom(db: Db, events: seq<Event>, n: nat)
    requires n <= |events| && ValidEvents(events)
    decreases |events| - n
  {
    n == |events| || (Careful(db, events[n]) && CarefulFrom(Step(db, events[n]), events, n + 1))
  }

  lemma {:induction false} RunKeepsExact(db: Db, events: seq<Event>, n: nat)
    requires n <= |events| && ValidEvents(events) && Good(db) && Exact(db) && CarefulFrom(db, events, n)
    ensures Exact(RunFrom(db, events, n))
    decreases |events| - n
  {
    if n < |events| {
      StepKeepsGood(db, events[n], Step(db, events[n]));
      StepKeepsExact(db, events[n], Step(db, events[n]));
      RunKeepsExact(Step(db, events[n]), events, n + 1);
    }
  }

  /** Along a run whose forgets strand nothing, incremental maintenance is always what mark and sweep would give. */
  lemma IncrementalIsMarkAndSweep(events: seq<Event>)
    requires ValidEvents(events) && CarefulFrom(EmptyDb, events, 0)
    ensures Exact(RunFrom(EmptyDb, events, 0))
  {
    EmptyIsGood();
    RunKeepsExact(EmptyDb, events, 0);
  }
}
