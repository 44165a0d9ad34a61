/** The authoritative rows of one dataset's active generation, the queries on them, and what they keep. */
module KnowledgeStore {
  import opened Ordering
  import opened GraphProjection

  type Key = string

  datatype SourceStatus = Pending | Active | Failed | Deleting | Deleted

  datatype Document = Document(source: Id, active: bool, summarized: bool)

  datatype Chunk = Chunk(document: Id, source: Id, ordinal: nat, active: bool, extracted: bool)

  datatype Entity = Entity(key: Key, data: string, aliases: seq<string>, confidence: real, active: bool)

  datatype Relation = Relation(
    source: Id, target: Id, predicateName: string, description: string, confidence: real, active: bool)

  datatype Evidence = Evidence(relation: Id, chunk: Id)

  /** Ids are drawn from `next`: every id in use is below it. */
  datatype Db = Db(
    sources: map<Id, SourceStatus>, documents: map<Id, Document>, chunks: map<Id, Chunk>,
    entities: map<Id, Entity>, relations: map<Id, Relation>,
    mentions: seq<Mention>, evidence: set<Evidence>, outbox: seq<Command>, next: Id)

  const EmptyDb := Db(map[], map[], map[], map[], map[], [], {}, [], 0)

  /* ----- active rows ----- */

  predicate LiveChunk(db: Db, id: Id) { id in db.chunks && db.chunks[id].active }

  predicate LiveEntity(db: Db, id: Id) { id in db.entities && db.entities[id].active }

  predicate LiveRelation(db: Db, id: Id) { id in db.relations && db.relations[id].active }

  function LiveChunks(db: Db): set<Id> { set id | id in db.chunks && db.chunks[id].active }

  function LiveEntities(db: Db): set<Id> { set id | id in db.entities && db.entities[id].active }

  /** An active relation whose endpoints are active too: what the relation listings return. */
  predicate ListedRelation(db: Db, id: Id) {
    LiveRelation(db, id) && LiveEntity(db, db.relations[id].source) && LiveEntity(db, db.relations[id].target)
  }

  function EdgeOf(db: Db, id: Id): RelationEdge
    requires id in db.relations
  {
    RelationEdge(id, db.relations[id].source, db.relations[id].target)
  }

  predicate HasMention(db: Db, entity: Id, chunk: Id) {
    exists m :: m in db.mentions && m.entity == entity && m.chunk == chunk
  }

  /* ----- the graph PostgreSQL holds ----- */

  predicate Consecutive(db: Db, e: NextEdge) {
    && LiveChunk(db, e.from) && LiveChunk(db, e.to)
    && db.chunks[e.from].document == db.chunks[e.to].document
    && db.chunks[e.to].ordinal == db.chunks[e.from].ordinal + 1
  }

  /** The identities of a rebuild from the rows, filtered as the rebuild repository filters them. */
  function Expected(db: Db): Projection {
    Projection(
      LiveEntities(db), LiveChunks(db),
      set m | m in db.mentions && LiveEntity(db, m.entity) && LiveChunk(db, m.chunk),
      set id | id in db.relations && ListedRelation(db, id) :: EdgeOf(db, id),
      set a, b | a in db.chunks && b in db.chunks && Consecutive(db, NextEdge(a, b)) :: NextEdge(a, b))
  }

  lemma ExpectedNext(db: Db, e: NextEdge)
    ensures e in Expected(db).next <==> Consecutive(db, e)
  {
  }

  /* ----- support: what a global recomputation would keep ----- */

  /** The relation has evidence on an active chunk. */
  predicate SupportedRelation(db: Db, id: Id) {
    exists v :: v in db.evidence && v.relation == id && LiveChunk(db, v.chunk)
  }

  /** The entity has a mention on an active chunk. */
  predicate SupportedEntity(db: Db, id: Id) {
    exists m :: m in db.mentions && m.entity == id && LiveChunk(db, m.chunk)
  }

  /** Mark and sweep would change nothing: a row is active exactly if it is supported. */
  ghost predicate Exact(db: Db) {
    && (forall id :: id in db.relations ==> (db.relations[id].active <==> SupportedRelation(db, id)))
    && (forall id :: id in db.entities ==> (db.entities[id].active <==> SupportedEntity(db, id)))
  }

  /* ----- the invariant ----- */

  ghost predicate RefsOk(db: Db) {
    && (forall id :: id in db.documents ==> db.documents[id].source in db.sources)
    && (forall id :: id in db.chunks ==>
          db.chunks[id].document in db.documents && db.documents[db.chunks[id].document].source == db.chunks[id].source)
    && (forall id :: id in db.relations ==>
       db.relations[id].source in db.entities && db.relations[id].target in db.entities)
    && (forall m :: m in db.mentions ==> m.entity in db.entities && m.chunk in db.chunks)
    && (forall v :: v in db.evidence ==> v.relation in db.relations && v.chunk in db.chunks)
  }

  ghost predicate IdsBelow(db: Db) {
    && (forall id :: id in db.sources || id in db.documents || id in db.chunks ==> id < db.next)
    && (forall id :: id in db.entities || id in db.relations ==> id < db.next)
    && (forall m :: m in db.mentions ==> m.id < db.next)
  }

  /**
   One active entity a key, one active relation an identity, one mention an entity and chunk, one chunk an ordinal.
  */
  ghost predicate UniqueKeys(db: Db) {
    forall a, b :: LiveEntity(db, a) && LiveEntity(db, b) && db.entities[a].key == db.entities[b].key ==> a == b
  }

  predicate SameIdentity(r: Relation, s: Relation) {
    r.source == s.source && r.target == s.target && r.predicateName == s.predicateName
  }

  ghost predicate UniqueIdentities(db: Db) {
    forall a, b :: LiveRelation(db, a) && LiveRelation(db, b) && SameIdentity(db.relations[a], db.relations[b]) ==>
        a == b
  }

  ghost predicate UniqueMentions(db: Db) {
    forall m, n :: m in db.mentions && n in db.mentions && m.entity == n.entity && m.chunk == n.chunk ==> m == n
  }

  predicate SameOrdinal(c: Chunk, d: Chunk) {
    c.document == d.document && c.ordinal == d.ordinal
  }

  ghost predicate UniqueOrdinals(db: Db) {
    forall a, b :: a in db.chunks && b in db.chunks && SameOrdinal(db.chunks[a], db.chunks[b]) ==> a == b
  }

  /** Evidence for a relation in a chunk comes with mentions of both endpoints in that chunk. */
  ghost predicate EvidenceIsMentioned(db: Db) {
    forall v :: v in db.evidence && v.relation in db.relations ==>
      HasMention(db, db.relations[v.relation].source, v.chunk)
          && HasMention(db, db.relations[v.relation].target, v.chunk)
  }

  ghost predicate RelationsAttached(db: Db) {
    forall id :: LiveRelation(db, id) ==> ListedRelation(db, id)
  }

  /** Whatever is active is supported; the converse is `Exact`. */
  ghost predicate ActiveIsSupported(db: Db) {
    && (forall id :: LiveRelation(db, id) ==> SupportedRelation(db, id))
    && (forall id :: LiveEntity(db, id) ==> SupportedEntity(db, id))
  }

  /** A document and its chunks are active together. */
  ghost predicate ChunksFollowDocuments(db: Db) {
    forall id :: id in db.chunks && db.chunks[id].document in db.documents ==>
      (db.chunks[id].active <==> db.documents[db.chunks[id].document].active)
  }

  ghost predicate RowsOk(db: Db) {
    RefsOk(db) && IdsBelow(db) && UniqueKeys(db) && UniqueIdentities(db) && UniqueMentions(db) && UniqueOrdinals(db)
    && EvidenceIsMentioned(db) && RelationsAttached(db) && ChunksFollowDocuments(db)
  }

  ghost predicate Inv(db: Db) {
    RowsOk(db) && ActiveIsSupported(db)
  }

  /* ----- NEXT edges, found by scanning sorted groups ----- */

  /** The documents of the first `n` chunks of a listing, in order of appearance. */
  function DocumentsOf(chunks: map<Id, Chunk>, listing: seq<Id>, n: nat): (documents: seq<Id>)
    requires n <= |listing| && forall id :: id in listing ==> id in chunks
    ensures forall i :: 0 <= i < n ==> chunks[listing[i]].document in documents
  {
    if n == 0 then [] else AddOnce(DocumentsOf(chunks, listing, n - 1), chunks[listing[n - 1]].document)
  }

  function GroupOf(chunks: map<Id, Chunk>, listing: seq<Id>, document: Id): set<Id>
    requires forall id :: id in listing ==> id in chunks
  {
    set id | id in listing && chunks[id].document == document
  }

  function OrdinalRank(chunks: map<Id, Chunk>): Rank {
    id => if id in chunks then chunks[id].ordinal else 0
  }

  /** The adjacent pairs of a sorted group whose ordinals follow on, among its first `n` chunks. */
  function Scan(chunks: map<Id, Chunk>, group: seq<Id>, n: nat): seq<NextEdge>
    requires n <= |group| && forall id :: id in group ==> id in chunks
  {
    if n < 2 then []
    else
      var from, to := group[n - 2], group[n - 1];
      Scan(chunks, group, n - 1) + (if chunks[to].ordinal == chunks[from].ordinal + 1 then [NextEdge(from, to)] else [])
  }

  function SortedGroup(chunks: map<Id, Chunk>, listing: seq<Id>, document: Id): (group: seq<Id>)
    requires forall id :: id in listing ==> id in chunks
    ensures forall id :: id in group <==> id in listing && id in chunks && chunks[id].document == document
    ensures Sorted(OrdinalRank(chunks), group)
  {
    SortedBy(OrdinalRank(chunks), GroupOf(chunks, listing, document))
  }

  /** The pairs found in the first `n` documents. */
  function ScanGroups(chunks: map<Id, Chunk>, listing: seq<Id>, documents: seq<Id>, n: nat): seq<NextEdge>
    requires n <= |documents| && forall id :: id in listing ==> id in chunks
  {
    if n == 0 then []
    else
      var group := SortedGroup(chunks, listing, documents[n - 1]);
      ScanGroups(chunks, listing, documents, n - 1) + Scan(chunks, group, |group|)
  }

  /** Group a chunk listing by document, sort each group by ordinal, and pair the neighbours that follow on. */
  function NextEdges(chunks: map<Id, Chunk>, listing: seq<Id>): seq<NextEdge>
    requires forall id :: id in listing ==> id in chunks
  {
    var documents := DocumentsOf(chunks, listing, |listing|);
    ScanGroups(chunks, listing, documents, |documents|)
  }

  ghost predicate DistinctOrdinals(chunks: map<Id, Chunk>, listing: seq<Id>) {
    && (forall id :: id in listing ==> id in chunks)
    && (forall a, b :: a in listing && b in listing && SameOrdinal(chunks[a], chunks[b]) ==> a == b)
  }

  predicate FollowsOn(chunks: map<Id, Chunk>, listing: seq<Id>, e: NextEdge) {
    && e.from in listing && e.to in listing && e.from in chunks && e.to in chunks
    && chunks[e.from].document == chunks[e.to].document
    && chunks[e.to].ordinal == chunks[e.from].ordinal + 1
  }

  lemma {:induction false} ScanFindsNeighbours(chunks: map<Id, Chunk>, group: seq<Id>, n: nat, e: NextEdge)
    requires n <= |group| && forall id :: id in group ==> id in chunks
    ensures e in Scan(chunks, group, n) <==>
              exists i, j :: 0 <= i && j == i + 1 && j < n && group[i] == e.from && group[j] == e.to
                          && chunks[e.to].ordinal == chunks[e.from].ordinal + 1
  {
    if n >= 2 {
      ScanFindsNeighbours(chunks, group, n - 1, e);
    }
  }

  /** In a group of one document sorted by distinct ordinals, ordinals grow at least as fast as positions. */
  lemma {:induction false} GapGrows(chunks: map<Id, Chunk>, group: seq<Id>, i: nat, j: nat)
    requires i <= j < |group| && Sorted(OrdinalRank(chunks), group) && DistinctOrdinals(chunks, group)
    requires forall a, b :: a in group && b in group ==> chunks[a].document == chunks[b].document
    ensures chunks[group[i]].ordinal + (j - i) <= chunks[group[j]].ordinal
  {
    if i < j {
      GapGrows(chunks, group, i, j - 1);
      assert Before(OrdinalRank(chunks), group[j - 1], group[j]);
      assert group[j - 1] in group && group[j] in group;
    }
  }

  /** Chunks whose ordinals follow on are neighbours in such a group. */
  lemma FollowersAreNeighbours(chunks: map<Id, Chunk>, group: seq<Id>, i: nat, j: nat)
    requires i < |group| && j < |group| && Sorted(OrdinalRank(chunks), group) && DistinctOrdinals(chunks, group)
    requires forall a, b :: a in group && b in group ==> chunks[a].document == chunks[b].document
    requires chunks[group[j]].ordinal == chunks[group[i]].ordinal + 1
    ensures j == i + 1
  {
    GapGrows(chunks, group, if i < j then i else j, if i < j then j else i);
  }

  lemma ScanIsExact(chunks: map<Id, Chunk>, listing: seq<Id>, document: Id, e: NextEdge)
    requires DistinctOrdinals(chunks, listing)
    ensures var group := SortedGroup(chunks, listing, document);
            e in Scan(chunks, group, |group|) <==> FollowsOn(chunks, listing, e) && chunks[e.from].document == document
  {
    var group := SortedGroup(chunks, listing, document);
    ScanFindsNeighbours(chunks, group, |group|, e);
    if FollowsOn(chunks, listing, e) && chunks[e.from].document == document {
      assert e.from in group && e.to in group;
      var i :| 0 <= i < |group| && group[i] == e.from;
      var j :| 0 <= j < |group| && group[j] == e.to;
      FollowersAreNeighbours(chunks, group, i, j);
    }
  }

  lemma {:induction false} ScanGroupsIsExact(
    chunks: map<Id, Chunk>, listing: seq<Id>, documents: seq<Id>, n: nat, e: NextEdge)
    requires n <= |documents| && DistinctOrdinals(chunks, listing)
    ensures e in ScanGroups(chunks, listing, documents, n) <==>
              FollowsOn(chunks, listing, e) && chunks[e.from].document in documents[..n]
  {
    if n > 0 {
      ScanGroupsIsExact(chunks, listing, documents, n - 1, e);
      ScanIsExact(chunks, listing, documents[n - 1], e);
      var group := SortedGroup(chunks, listing, documents[n - 1]);
      assert e in ScanGroups(chunks, listing, documents, n) <==>
          e in ScanGroups(chunks, listing, documents, n - 1) || e in Scan(chunks, group, |group|);
      assert documents[..n] == documents[..n - 1] + [documents[n - 1]];
    }
  }

  /** The scan of adjacent pairs finds exactly the chunks of one document whose ordinals follow on. */
  lemma NextEdgesAreConsecutive(chunks: map<Id, Chunk>, listing: seq<Id>, e: NextEdge)
    requires DistinctOrdinals(chunks, listing)
    ensures e in NextEdges(chunks, listing) <==> FollowsOn(chunks, listing, e)
  {
    var documents := DocumentsOf(chunks, listing, |listing|);
    ScanGroupsIsExact(chunks, listing, documents, |documents|, e);
    assert documents[..|documents|] == documents;
    if FollowsOn(chunks, listing, e) {
      var i :| 0 <= i < |listing| && listing[i] == e.from;
    }
  }

  /** The rebuild's scan over any listing of the active chunks loads exactly the expected NEXT edges. */
  lemma RebuildScanIsExpected(db: Db, listing: seq<Id>)
    requires UniqueOrdinals(db) && (forall id :: LiveChunk(db, id) ==> id in listing)
    requires forall id :: id in listing ==> id in db.chunks && db.chunks[id].active
    ensures (set e | e in NextEdges(db.chunks, listing)) == Expected(db).next
  {
    forall e ensures e in NextEdges(db.chunks, listing) <==> e in Expected(db).next {
      NextEdgesAreConsecutive(db.chunks, listing, e);
      ExpectedNext(db, e);
    }
  }
}
