/** Forgetting a source by local candidates, forgetting a dataset wholesale, and the delete commands both emit. */
module KnowledgeForget {
  import opened Ordering
  import opened GraphProjection
  import opened KnowledgeStore

  /* ----- queries ----- */

  function ChunksOf(db: Db, source: Id): set<Id> {
    set id | id in db.chunks && db.chunks[id].active && db.chunks[id].source == source
  }

  function DocumentsOfSource(db: Db, source: Id): set<Id> {
    set id | id in db.documents && db.documents[id].active && db.documents[id].source == source
  }

  /** The mention rows on the given chunks, in the order they are listed. */
  function MentionsOn(mentions: seq<Mention>, chunks: set<Id>): (found: seq<Mention>)
    ensures forall m :: m in found <==> m in mentions && m.chunk in chunks
  {
    if mentions == [] then []
    else
      var last := mentions[|mentions| - 1];
      var before := MentionsOn(mentions[..|mentions| - 1], chunks);
      assert mentions == mentions[..|mentions| - 1] + [last];
      if last.chunk in chunks then before + [last] else before
  }

  /** A chunk the authoritative queries count: active, its document active, its source ACTIVE. */
  predicate AuthoritativeChunk(db: Db, id: Id) {
    && LiveChunk(db, id)
    && db.chunks[id].document in db.documents && db.documents[db.chunks[id].document].active
    && db.chunks[id].source in db.sources && db.sources[db.chunks[id].source] == Active
  }

  predicate HasAuthoritativeEvidence(db: Db, relation: Id) {
    exists v :: v in db.evidence && v.relation == relation && AuthoritativeChunk(db, v.chunk)
  }

  predicate HasAuthoritativeMention(db: Db, entity: Id) {
    exists m :: m in db.mentions && m.entity == entity && AuthoritativeChunk(db, m.chunk)
  }

  predicate Incident(db: Db, relation: Id, entity: Id) {
    ListedRelation(db, relation) && (db.relations[relation].source == entity || db.relations[relation].target == entity)
  }

  predicate HasIncidentRelation(db: Db, entity: Id) {
    exists r :: r in db.relations && Incident(db, r, entity)
  }

  predicate HasEvidenceOn(db: Db, relation: Id, chunks: set<Id>) {
    exists v :: v in db.evidence && v.relation == relation && v.chunk in chunks
  }

  predicate HasMentionOn(db: Db, entity: Id, chunks: set<Id>) {
    exists m :: m in db.mentions && m.entity == entity && m.chunk in chunks
  }

  /* ----- deactivation ----- */

  function WithoutContent(db: Db, documents: set<Id>, chunks: set<Id>): Db {
    db.(documents := map id | id in db.documents :: if id in documents then db.documents[id].(active := false)
        else db.documents[id],
        chunks := map id | id in db.chunks :: if id in chunks then db.chunks[id].(active := false) else db.chunks[id])
  }

  function WithoutRelations(db: Db, ids: set<Id>): Db {
    db.(relations := map id | id in db.relations :: if id in ids then db.relations[id].(active := false)
        else db.relations[id])
  }

  function WithoutEntities(db: Db, ids: set<Id>): Db {
    db.(entities := map id | id in db.entities :: if id in ids then db.entities[id].(active := false)
        else db.entities[id])
  }

  /** The candidates, from the forgotten chunks' evidence only, that no authoritative evidence vouches for. */
  function OrphanRelations(db: Db, chunks: set<Id>): set<Id> {
    set id | id in db.relations && ListedRelation(db, id) && HasEvidenceOn(db, id, chunks)
        && !HasAuthoritativeEvidence(db, id)
  }

  /**
   The candidates, from the forgotten chunks' mentions only, with neither an authoritative mention nor a relation
   left.
  */
  function OrphanEntities(db: Db, chunks: set<Id>): set<Id> {
    set id | id in db.entities && LiveEntity(db, id) && HasMentionOn(db, id, chunks)
             && !HasAuthoritativeMention(db, id) && !HasIncidentRelation(db, id)
  }

  function WithResetDocument(db: Db, source: Id): Db {
    db.(documents := db.documents[db.next := Document(source, true, false)], next := db.next + 1)
  }

  /* ----- commands ----- */

  function DeleteChunks(ids: seq<Id>): (commands: seq<Command>)
    ensures forall c :: c in commands <==> c.DeleteChunk? && c.chunk in ids
  {
    if ids == [] then []
    else
      var last := ids[|ids| - 1];
      assert ids == ids[..|ids| - 1] + [last];
      DeleteChunks(ids[..|ids| - 1]) + [DeleteChunk(last)]
  }

  function DeleteNexts(edges: seq<NextEdge>): (commands: seq<Command>)
    ensures forall c :: c in commands <==> c.DeleteNext? && c.next in edges
  {
    if edges == [] then []
    else
      var last := edges[|edges| - 1];
      assert edges == edges[..|edges| - 1] + [last];
      DeleteNexts(edges[..|edges| - 1]) + [DeleteNext(last)]
  }

  function DeleteMentions(mentions: seq<Mention>): (commands: seq<Command>)
    ensures forall c :: c in commands <==> c.DeleteMention? && c.mention in mentions
  {
    if mentions == [] then []
    else
      var last := mentions[|mentions| - 1];
      assert mentions == mentions[..|mentions| - 1] + [last];
      DeleteMentions(mentions[..|mentions| - 1]) + [DeleteMention(last)]
  }

  function DeleteRelations(db: Db, ids: seq<Id>): (commands: seq<Command>)
    requires forall id :: id in ids ==> id in db.relations
    ensures forall c :: c in commands <==>
            c.DeleteRelation? && c.relation.id in ids && c.relation == EdgeOf(db, c.relation.id)
  {
    if ids == [] then []
    else
      var last := ids[|ids| - 1];
      assert ids == ids[..|ids| - 1] + [last];
      DeleteRelations(db, ids[..|ids| - 1]) + [DeleteRelation(EdgeOf(db, last))]
  }

  function DeleteEntities(ids: seq<Id>): (commands: seq<Command>)
    ensures forall c :: c in commands <==> c.DeleteEntity? && c.entity in ids
  {
    if ids == [] then []
    else
      var last := ids[|ids| - 1];
      assert ids == ids[..|ids| - 1] + [last];
      DeleteEntities(ids[..|ids| - 1]) + [DeleteEntity(last)]
  }

  /** Chunks, NEXT edges, mentions, relations, entities: in that order, dict.setdefault keeping each identity once. */
  function ForgetCommands(
      db: Db, listing: seq<Id>, mentions: seq<Mention>, relations: set<Id>, entities: set<Id>): seq<Command>
    requires (forall id :: id in listing ==> id in db.chunks) && relations <= db.relations.Keys
  {
    var all := DeleteChunks(listing) + DeleteNexts(NextEdges(db.chunks, listing)) + DeleteMentions(mentions)
             + DeleteRelations(db, SortedIds(relations)) + DeleteEntities(SortedIds(entities));
    Distinct(all, |all|)
  }

  ghost predicate DeletesExactly(
    db: Db, commands: seq<Command>, chunks: set<Id>, edges: seq<NextEdge>, mentions: seq<Mention>, relations: set<Id>,
        entities: set<Id>) {
    && (forall c :: c in commands ==> !IsUpsert(c))
    && (forall id :: DeleteChunk(id) in commands <==> id in chunks)
    && (forall e :: DeleteNext(e) in commands <==> e in edges)
    && (forall m :: DeleteMention(m) in commands <==> m in mentions)
    && (forall r :: DeleteRelation(r) in commands <==>
       r.id in relations && r.id in db.relations && r == EdgeOf(db, r.id))
    && (forall id :: DeleteEntity(id) in commands <==> id in entities)
  }

  lemma FiveParts(
    db: Db, a: seq<Command>, b: seq<Command>, c: seq<Command>, d: seq<Command>, e: seq<Command>,
    chunks: set<Id>, edges: seq<NextEdge>, mentions: seq<Mention>, relations: set<Id>, entities: set<Id>)
    requires forall x :: x in a <==> x.DeleteChunk? && x.chunk in chunks
    requires forall x :: x in b <==> x.DeleteNext? && x.next in edges
    requires forall x :: x in c <==> x.DeleteMention? && x.mention in mentions
    requires forall x :: x in d <==>
               x.DeleteRelation? && x.relation.id in relations && x.relation.id in db.relations
                   && x.relation == EdgeOf(db, x.relation.id)
    requires forall x :: x in e <==> x.DeleteEntity? && x.entity in entities
    ensures DeletesExactly(db, a + b + c + d + e, chunks, edges, mentions, relations, entities)
  {
    var all := a + b + c + d + e;
    assert forall x :: x in all <==> x in a || x in b || x in c || x in d || x in e;
  }

  lemma DistinctDeletesExactly(
    db: Db, all: seq<Command>, chunks: set<Id>, edges: seq<NextEdge>, mentions: seq<Mention>, relations: set<Id>,
        entities: set<Id>)
    requires DeletesExactly(db, all, chunks, edges, mentions, relations, entities)
    ensures DeletesExactly(db, Distinct(all, |all|), chunks, edges, mentions, relations, entities)
  {
    assert all[..|all|] == all;
    var kept := Distinct(all, |all|);
    assert forall c :: c in kept <==> c in all;
  }

  lemma ForgetCommandsAre(
      db: Db, listing: seq<Id>, chunks: set<Id>, mentions: seq<Mention>, relations: set<Id>, entities: set<Id>)
    requires (forall id :: id in listing <==> id in chunks) && chunks <= db.chunks.Keys
             && relations <= db.relations.Keys
    ensures DeletesExactly(db, ForgetCommands(db, listing, mentions, relations, entities), chunks,
                           NextEdges(db.chunks, listing), mentions, relations, entities)
  {
    var edges := NextEdges(db.chunks, listing);
    var a, b, c := DeleteChunks(listing), DeleteNexts(edges), DeleteMentions(mentions);
    var d, e := DeleteRelations(db, SortedIds(relations)), DeleteEntities(SortedIds(entities));
    FiveParts(db, a, b, c, d, e, chunks, edges, mentions, relations, entities);
    DistinctDeletesExactly(db, a + b + c + d + e, chunks, edges, mentions, relations, entities);
  }

  /* ----- source scope ----- */

  /** The rows after apply_source_forget_mutation, with the relations and entities it deactivated. */
  datatype Forgotten = Forgotten(db: Db, relations: set<Id>, entities: set<Id>)

  function ForgetRows(db: Db, source: Id): (f: Forgotten)
    requires source in db.sources
    ensures f.relations <= db.relations.Keys && f.entities <= db.entities.Keys
  {
    var chunks := ChunksOf(db, source);
    var marked := WithoutContent(db.(sources := db.sources[source := Deleting]), DocumentsOfSource(db, source), chunks);
    var relations := OrphanRelations(marked, chunks);
    var pruned := WithoutRelations(marked, relations);
    var entities := OrphanEntities(pruned, chunks);
    Forgotten(WithoutEntities(pruned, entities), relations, entities)
  }

  function SourceListing(db: Db, source: Id): (listing: seq<Id>)
    ensures forall id :: id in listing <==> id in ChunksOf(db, source)
  {
    SortedBy(OrdinalRank(db.chunks), ChunksOf(db, source))
  }

  function SourceCommands(db: Db, source: Id): seq<Command>
    requires source in db.sources
  {
    var f := ForgetRows(db, source);
    ForgetCommands(db, SourceListing(db, source), MentionsOn(db.mentions, ChunksOf(db, source)), f.relations,
        f.entities)
  }

  /** Statuses that make a source forget a no-op: nothing to forget, or a forget already under way. */
  predicate NothingToForget(status: SourceStatus, memoryOnly: bool) {
    status == Deleted || status == Deleting || (status == Pending && memoryOnly)
  }

  function ForgetSource(db: Db, source: Id, memoryOnly: bool): Db {
    if source !in db.sources || NothingToForget(db.sources[source], memoryOnly) then db
    else
      var rows := ForgetRows(db, source).db;
      var reset := if memoryOnly && DocumentsOfSource(db, source) != {} then WithResetDocument(rows, source) else rows;
      reset.(outbox := db.outbox + SourceCommands(db, source))
  }

  /* ----- dataset scope ----- */

  function LiveDocuments(db: Db): set<Id> {
    set id | id in db.documents && db.documents[id].active
  }

  function ListedRelations(db: Db): set<Id> {
    set id | id in db.relations && ListedRelation(db, id)
  }

  /** Active chunks of the first `n` documents, by document and then by ordinal. */
  function ListedByDocument(db: Db, documents: seq<Id>, n: nat): (listing: seq<Id>)
    requires n <= |documents|
    ensures forall id :: id in listing <==> LiveChunk(db, id) && db.chunks[id].document in documents[..n]
  {
    if n == 0 then []
    else
      var group := set id | id in db.chunks && db.chunks[id].active && db.chunks[id].document == documents[n - 1];
      assert documents[..n] == documents[..n - 1] + [documents[n - 1]];
      ListedByDocument(db, documents, n - 1) + SortedBy(OrdinalRank(db.chunks), group)
  }

  function DatasetListing(db: Db): (listing: seq<Id>)
    ensures forall id :: id in listing <==> id in LiveChunks(db)
  {
    var documents := SortedIds(set id | id in db.chunks && db.chunks[id].active :: db.chunks[id].document);
    assert documents[..|documents|] == documents;
    ListedByDocument(db, documents, |documents|)
  }

  function DatasetCommands(db: Db): seq<Command> {
    ForgetCommands(db, DatasetListing(db), MentionsOn(db.mentions, LiveChunks(db)), ListedRelations(db),
        LiveEntities(db))
  }

  /** Every source that is not DELETED already becomes DELETING. */
  function AllDeleting(sources: map<Id, SourceStatus>): map<Id, SourceStatus> {
    map id | id in sources :: if sources[id] == Deleted then Deleted else Deleting
  }

  function ForgetAllRows(db: Db): Db {
    var marked := WithoutContent(db.(sources := AllDeleting(db.sources)),
                                 LiveDocuments(db), LiveChunks(db));
    WithoutEntities(WithoutRelations(marked, ListedRelations(db)), LiveEntities(db))
  }

  /** The sources that get a content-free document back: those with an active one, if memory only. */
  function ResetSources(db: Db, sources: set<Id>): Db
    decreases sources
  {
    if sources == {} then db
    else
      var source := First(_ => 0, sources);
      ResetSources(WithResetDocument(db, source), sources - {source})
  }

  function SourcesWithDocuments(db: Db): set<Id> {
    set id | id in db.sources && db.sources[id] != Deleted && DocumentsOfSource(db, id) != {}
  }

  function ForgetDataset(db: Db, memoryOnly: bool): Db {
    var rows := ForgetAllRows(db);
    var reset := if memoryOnly then ResetSources(rows, SourcesWithDocuments(db)) else rows;
    reset.(outbox := db.outbox + DatasetCommands(db))
  }
}
