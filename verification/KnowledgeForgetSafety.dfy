/** What a source forget keeps, exactly when it equals mark and sweep, and what it does to the projection. */
module KnowledgeForgetSafety {
  import opened Wrappers
  import opened Ordering
  import opened GraphProjection
  import opened KnowledgeStore
  import opened KnowledgeForget

  /* ----- the effect, in terms of the rows before ----- */

  /** Active chunks that the forget leaves. */
  predicate Remaining(db: Db, source: Id, chunk: Id) {
    LiveChunk(db, chunk) && db.chunks[chunk].source != source
  }

  /** Remaining chunks the authoritative queries will count: those whose source is ACTIVE. */
  predicate Vouching(db: Db, source: Id, chunk: Id) {
    Remaining(db, source, chunk) && db.chunks[chunk].source in db.sources
        && db.sources[db.chunks[chunk].source] == Active
  }

  predicate TouchedRelation(db: Db, source: Id, id: Id) {
    HasEvidenceOn(db, id, ChunksOf(db, source))
  }

  predicate TouchedEntity(db: Db, source: Id, id: Id) {
    HasMentionOn(db, id, ChunksOf(db, source))
  }

  predicate VouchedRelation(db: Db, source: Id, id: Id) {
    exists v :: v in db.evidence && v.relation == id && Vouching(db, source, v.chunk)
  }

  predicate VouchedMention(db: Db, source: Id, id: Id) {
    exists m :: m in db.mentions && m.entity == id && Vouching(db, source, m.chunk)
  }

  /** The relation stays active. */
  predicate KeptRelation(db: Db, source: Id, id: Id) {
    ListedRelation(db, id) && (TouchedRelation(db, source, id) ==> VouchedRelation(db, source, id))
  }

  predicate KeptIncident(db: Db, source: Id, entity: Id) {
    exists r :: r in db.relations && KeptRelation(db, source, r)
                && (db.relations[r].source == entity || db.relations[r].target == entity)
  }

  predicate KeptEntity(db: Db, source: Id, id: Id) {
    LiveEntity(db, id)
    && (TouchedEntity(db, source, id) ==> VouchedMention(db, source, id) || KeptIncident(db, source, id))
  }

  /** The content after step one: the source's documents and chunks are inactive. */
  function Marked(db: Db, source: Id): Db
    requires source in db.sources
  {
    WithoutContent(db.(sources := db.sources[source := Deleting]), DocumentsOfSource(db, source), ChunksOf(db, source))
  }

  lemma MarkedChunks(db: Db, source: Id, chunk: Id)
    requires RowsOk(db) && source in db.sources
    ensures LiveChunk(Marked(db, source), chunk) <==> Remaining(db, source, chunk)
    ensures AuthoritativeChunk(Marked(db, source), chunk) <==> Vouching(db, source, chunk)
  {
    if Remaining(db, source, chunk) {
      assert db.documents[db.chunks[chunk].document].active;
      assert db.chunks[chunk].document !in DocumentsOfSource(db, source);
    }
  }

  lemma MarkedRelation(db: Db, source: Id, id: Id)
    requires RowsOk(db) && source in db.sources
    ensures id in OrphanRelations(Marked(db, source), ChunksOf(db, source)) <==>
              LiveRelation(db, id) && !KeptRelation(db, source, id)
  {
    var marked := Marked(db, source);
    assert HasAuthoritativeEvidence(marked, id) <==> VouchedRelation(db, source, id) by {
      forall v | v in db.evidence ensures AuthoritativeChunk(marked, v.chunk) <==> Vouching(db, source, v.chunk) {
        MarkedChunks(db, source, v.chunk);
      }
    }
    assert HasEvidenceOn(marked, id, ChunksOf(db, source)) <==> TouchedRelation(db, source, id);
    assert ListedRelation(marked, id) <==> ListedRelation(db, id);
    assert LiveRelation(db, id) ==> ListedRelation(db, id);
  }

  /** The rows once orphan relations are inactive, before the entity queries run. */
  function Pruned(db: Db, source: Id): Db
    requires source in db.sources
  {
    WithoutRelations(Marked(db, source), OrphanRelations(Marked(db, source), ChunksOf(db, source)))
  }

  lemma PrunedRelation(db: Db, source: Id, id: Id)
    requires RowsOk(db) && source in db.sources
    ensures LiveRelation(Pruned(db, source), id) <==> KeptRelation(db, source, id)
    ensures ListedRelation(Pruned(db, source), id) <==> KeptRelation(db, source, id)
  {
    MarkedRelation(db, source, id);
    assert LiveRelation(db, id) ==> ListedRelation(db, id);
  }

  lemma PrunedEntity(db: Db, source: Id, id: Id)
    requires RowsOk(db) && source in db.sources
    ensures id in OrphanEntities(Pruned(db, source), ChunksOf(db, source)) <==>
              LiveEntity(db, id) && !KeptEntity(db, source, id)
  {
    var pruned := Pruned(db, source);
    assert HasIncidentRelation(pruned, id) <==> KeptIncident(db, source, id) by {
      forall r | r in db.relations
        ensures Incident(pruned, r, id) <==>
                  KeptRelation(db, source, r) && (db.relations[r].source == id || db.relations[r].target == id)
      {
        PrunedRelation(db, source, r);
      }
    }
    assert HasAuthoritativeMention(pruned, id) <==> VouchedMention(db, source, id) by {
      forall m | m in db.mentions ensures AuthoritativeChunk(pruned, m.chunk) <==> Vouching(db, source, m.chunk) {
        MarkedChunks(db, source, m.chunk);
        assert AuthoritativeChunk(pruned, m.chunk) <==> AuthoritativeChunk(Marked(db, source), m.chunk);
      }
    }
    assert HasMentionOn(pruned, id, ChunksOf(db, source)) <==> TouchedEntity(db, source, id);
  }

  /** Which rows a source forget leaves active, row by row. */
  lemma ForgetLeaves(db: Db, source: Id, id: Id)
    requires RowsOk(db) && source in db.sources
    ensures var after := ForgetRows(db, source).db;
            && (LiveChunk(after, id) <==> Remaining(db, source, id))
            && (LiveRelation(after, id) <==> KeptRelation(db, source, id))
            && (LiveEntity(after, id) <==> KeptEntity(db, source, id))
  {
    MarkedChunks(db, source, id);
    PrunedRelation(db, source, id);
    PrunedEntity(db, source, id);
  }

  /* ----- what a forget keeps ----- */

  /** The same rows; only statuses and active flags may differ. */
  ghost predicate SameRows(a: Db, b: Db) {
    && a.sources.Keys == b.sources.Keys && a.documents.Keys == b.documents.Keys && a.chunks.Keys == b.chunks.Keys
    && a.entities.Keys == b.entities.Keys && a.relations.Keys == b.relations.Keys
    && a.mentions == b.mentions && a.evidence == b.evidence && a.next == b.next
    && (forall id :: id in a.documents ==> b.documents[id] == a.documents[id].(active := b.documents[id].active))
    && (forall id :: id in a.chunks ==> b.chunks[id] == a.chunks[id].(active := b.chunks[id].active))
    && (forall id :: id in a.entities ==> b.entities[id] == a.entities[id].(active := b.entities[id].active))
    && (forall id :: id in a.relations ==> b.relations[id] == a.relations[id].(active := b.relations[id].active))
  }

  lemma ForgetSameRows(db: Db, source: Id)
    requires source in db.sources
    ensures SameRows(db, ForgetRows(db, source).db)
  {
    assert db.sources[source := Deleting].Keys == db.sources.Keys;
  }

  lemma SameRowsKeepStructure(a: Db, b: Db)
    requires SameRows(a, b) && RowsOk(a)
    ensures RefsOk(b) && IdsBelow(b) && UniqueMentions(b) && UniqueOrdinals(b)
  {
  }

  lemma SameRowsKeepEvidence(a: Db, b: Db)
    requires SameRows(a, b) && RowsOk(a)
    ensures EvidenceIsMentioned(b)
  {
    forall v | v in b.evidence && v.relation in b.relations
      ensures HasMention(b, b.relations[v.relation].source, v.chunk)
      ensures HasMention(b, b.relations[v.relation].target, v.chunk)
    {
      assert HasMention(a, a.relations[v.relation].source, v.chunk)
          && HasMention(a, a.relations[v.relation].target, v.chunk);
    }
  }

  /** Rows that only lose their active flag stay unique. */
  lemma FewerStayUnique(a: Db, b: Db)
    requires SameRows(a, b) && UniqueKeys(a) && UniqueIdentities(a)
    requires forall id :: LiveEntity(b, id) ==> LiveEntity(a, id)
    requires forall id :: LiveRelation(b, id) ==> LiveRelation(a, id)
    ensures UniqueKeys(b) && UniqueIdentities(b)
  {
    forall x, y | LiveEntity(b, x) && LiveEntity(b, y) && b.entities[x].key == b.entities[y].key ensures x == y {
      assert LiveEntity(a, x) && LiveEntity(a, y) && a.entities[x].key == a.entities[y].key;
    }
    forall x, y | LiveRelation(b, x) && LiveRelation(b, y) && SameIdentity(b.relations[x], b.relations[y])
      ensures x == y
    {
      assert LiveRelation(a, x) && LiveRelation(a, y) && SameIdentity(a.relations[x], a.relations[y]);
    }
  }

  predicate SurvivingRelation(db: Db, source: Id, id: Id) {
    exists v :: v in db.evidence && v.relation == id && Remaining(db, source, v.chunk)
  }

  predicate SurvivingEntity(db: Db, source: Id, id: Id) {
    exists m :: m in db.mentions && m.entity == id && Remaining(db, source, m.chunk)
  }

  lemma SupportAfter(db: Db, source: Id, id: Id)
    requires RowsOk(db) && source in db.sources
    ensures var after := ForgetRows(db, source).db;
            && (SupportedRelation(after, id) <==> SurvivingRelation(db, source, id))
            && (SupportedEntity(after, id) <==> SurvivingEntity(db, source, id))
  {
    var after := ForgetRows(db, source).db;
    forall c: Id ensures LiveChunk(after, c) <==> Remaining(db, source, c) {
      ForgetLeaves(db, source, c);
    }
  }

  /** A relation left active has evidence on a remaining chunk. */
  lemma KeptRelationSurvives(db: Db, source: Id, id: Id)
    requires Inv(db) && KeptRelation(db, source, id)
    ensures SurvivingRelation(db, source, id)
  {
    if !TouchedRelation(db, source, id) {
      assert SupportedRelation(db, id);
      var v :| v in db.evidence && v.relation == id && LiveChunk(db, v.chunk);
      assert v.chunk !in ChunksOf(db, source);
      assert Remaining(db, source, v.chunk);
    }
  }

  /** An entity left active has a mention on a remaining chunk. */
  lemma KeptEntitySurvives(db: Db, source: Id, id: Id)
    requires Inv(db) && KeptEntity(db, source, id)
    ensures SurvivingEntity(db, source, id)
  {
    if !TouchedEntity(db, source, id) {
      assert SupportedEntity(db, id);
      var m :| m in db.mentions && m.entity == id && LiveChunk(db, m.chunk);
      assert m.chunk !in ChunksOf(db, source);
      assert Remaining(db, source, m.chunk);
    } else if !VouchedMention(db, source, id) {
      var r :| r in db.relations && KeptRelation(db, source, r)
          && (db.relations[r].source == id || db.relations[r].target == id);
      EndpointSurvives(db, source, r, id);
    }
  }

  lemma EndpointSurvives(db: Db, source: Id, relation: Id, entity: Id)
    requires Inv(db) && KeptRelation(db, source, relation)
    requires db.relations[relation].source == entity || db.relations[relation].target == entity
    ensures SurvivingEntity(db, source, entity)
  {
    KeptRelationSurvives(db, source, relation);
    var v :| v in db.evidence && v.relation == relation && Remaining(db, source, v.chunk);
    assert HasMention(db, entity, v.chunk);
  }

  lemma ForgetKeepsContent(db: Db, source: Id)
    requires RefsOk(db) && ChunksFollowDocuments(db) && source in db.sources
    ensures ChunksFollowDocuments(ForgetRows(db, source).db)
  {
    var after := ForgetRows(db, source).db;
    forall c | c in after.chunks ensures after.chunks[c].active <==> after.documents[after.chunks[c].document].active {
      assert db.chunks[c].active <==> db.documents[db.chunks[c].document].active;
    }
  }

  lemma KeptRelationStaysListed(db: Db, source: Id, id: Id)
    requires Inv(db) && source in db.sources && KeptRelation(db, source, id)
    ensures ListedRelation(ForgetRows(db, source).db, id)
  {
    var after := ForgetRows(db, source).db;
    ForgetSameRows(db, source);
    var r := db.relations[id];
    ForgetLeaves(db, source, id);
    ForgetLeaves(db, source, r.source);
    ForgetLeaves(db, source, r.target);
    assert KeptIncident(db, source, r.source) && KeptIncident(db, source, r.target);
    assert after.relations[id] == r.(active := after.relations[id].active);
  }

  /** A source forget keeps the invariant: among others, no active relation is left with an inactive endpoint. */
  lemma ForgetKeepsInv(db: Db, source: Id)
    requires Inv(db) && source in db.sources
    ensures Inv(ForgetRows(db, source).db)
  {
    var after := ForgetRows(db, source).db;
    ForgetSameRows(db, source);
    SameRowsKeepStructure(db, after);
    SameRowsKeepEvidence(db, after);
    ForgetKeepsContent(db, source);
    forall id: Id
      ensures LiveEntity(after, id) ==> LiveEntity(db, id) && SupportedEntity(after, id)
      ensures LiveRelation(after, id) ==>
              LiveRelation(db, id) && SupportedRelation(after, id) && ListedRelation(after, id)
    {
      ForgetLeaves(db, source, id);
      SupportAfter(db, source, id);
      if LiveEntity(after, id) { KeptEntitySurvives(db, source, id); }
      if LiveRelation(after, id) {
        KeptRelationSurvives(db, source, id);
        KeptRelationStaysListed(db, source, id);
      }
    }
    FewerStayUnique(db, after);
  }

  /* ----- when it is mark and sweep ----- */

  /**
   The forgotten chunks touch the relation, a remaining chunk supports it, and nothing the queries count vouches for
   it.
  */
  predicate StrandedRelation(db: Db, source: Id, id: Id) {
    LiveRelation(db, id) && TouchedRelation(db, source, id) && SurvivingRelation(db, source, id)
        && !VouchedRelation(db, source, id)
  }

  predicate StrandedEntity(db: Db, source: Id, id: Id) {
    && LiveEntity(db, id) && TouchedEntity(db, source, id) && SurvivingEntity(db, source, id)
    && !VouchedMention(db, source, id) && !KeptIncident(db, source, id)
  }

  /** The guard a caller can check before forgetting. */
  ghost predicate NothingStranded(db: Db, source: Id) {
    && (forall id :: id in db.relations ==> !StrandedRelation(db, source, id))
    && (forall id :: id in db.entities ==> !StrandedEntity(db, source, id))
  }

  predicate SweptRelation(db: Db, id: Id)
    requires id in db.relations
  {
    db.relations[id].active <==> SupportedRelation(db, id)
  }

  predicate SweptEntity(db: Db, id: Id)
    requires id in db.entities
  {
    db.entities[id].active <==> SupportedEntity(db, id)
  }

  /** For one relation, the forget agrees with mark and sweep exactly if it is not stranded. */
  lemma RelationSwept(db: Db, source: Id, id: Id)
    requires Inv(db) && Exact(db) && source in db.sources && id in db.relations
    ensures var after := ForgetRows(db, source).db;
            id in after.relations && (SweptRelation(after, id) <==> !StrandedRelation(db, source, id))
  {
    ForgetSameRows(db, source);
    ForgetLeaves(db, source, id);
    SupportAfter(db, source, id);
    assert db.relations[id].active <==> SupportedRelation(db, id);
    if KeptRelation(db, source, id) { KeptRelationSurvives(db, source, id); }
    if SurvivingRelation(db, source, id) { assert SupportedRelation(db, id); }
  }

  lemma EntitySwept(db: Db, source: Id, id: Id)
    requires Inv(db) && Exact(db) && source in db.sources && id in db.entities
    ensures var after := ForgetRows(db, source).db;
            id in after.entities && (SweptEntity(after, id) <==> !StrandedEntity(db, source, id))
  {
    ForgetSameRows(db, source);
    ForgetLeaves(db, source, id);
    SupportAfter(db, source, id);
    assert db.entities[id].active <==> SupportedEntity(db, id);
    if KeptEntity(db, source, id) { KeptEntitySurvives(db, source, id); }
    if SurvivingEntity(db, source, id) { assert SupportedEntity(db, id); }
  }

  lemma ExactIsSwept(db: Db)
    ensures Exact(db) <==> (forall id :: id in db.relations ==> SweptRelation(db, id))
                           && (forall id :: id in db.entities ==> SweptEntity(db, id))
  {
  }

  /**
   From a state that mark and sweep would not change, forgetting a source by local
   candidates leaves such a state again exactly when nothing is stranded.
  */
  lemma ForgetIsMarkAndSweep(db: Db, source: Id)
    requires Inv(db) && Exact(db) && source in db.sources
    ensures Exact(ForgetRows(db, source).db) <==> NothingStranded(db, source)
  {
    var after := ForgetRows(db, source).db;
    assert after.relations.Keys == db.relations.Keys && after.entities.Keys == db.entities.Keys by {
      ForgetSameRows(db, source);
    }
    ExactIsSwept(after);
    forall id | id in db.relations ensures SweptRelation(after, id) <==> !StrandedRelation(db, source, id) {
      RelationSwept(db, source, id);
    }
    forall id | id in db.entities ensures SweptEntity(after, id) <==> !StrandedEntity(db, source, id) {
      EntitySwept(db, source, id);
    }
  }

  /** Whatever other sources' active chunks mention, those sources are ACTIVE. */
  ghost predicate OthersActive(db: Db, source: Id) {
    forall m :: m in db.mentions && Remaining(db, source, m.chunk) ==> Vouching(db, source, m.chunk)
  }

  /** When no other source with mentions on active chunks is FAILED, incremental forget is mark and sweep. */
  lemma ForgetIsExactWhenOthersActive(db: Db, source: Id)
    requires Inv(db) && Exact(db) && source in db.sources && OthersActive(db, source)
    ensures NothingStranded(db, source) && Exact(ForgetRows(db, source).db)
  {
    forall id | SurvivingRelation(db, source, id) ensures VouchedRelation(db, source, id) {
      var v :| v in db.evidence && v.relation == id && Remaining(db, source, v.chunk);
      assert HasMention(db, db.relations[id].source, v.chunk);
      var m :| m in db.mentions && m.entity == db.relations[id].source && m.chunk == v.chunk;
      assert Vouching(db, source, m.chunk);
    }
    forall id | SurvivingEntity(db, source, id) ensures VouchedMention(db, source, id) {
      var m :| m in db.mentions && m.entity == id && Remaining(db, source, m.chunk);
      assert Vouching(db, source, m.chunk);
    }
    ForgetIsMarkAndSweep(db, source);
  }

  /* ----- what the delete commands do to the projection ----- */

  /** The active rows of `after` are those of `db` outside the given sets. */
  ghost predicate LosesExactly(db: Db, after: Db, chunks: set<Id>, relations: set<Id>, entities: set<Id>) {
    && SameRows(db, after) && RelationsAttached(db) && RelationsAttached(after)
    && (forall id :: LiveChunk(after, id) <==> LiveChunk(db, id) && id !in chunks)
    && (forall id :: LiveRelation(after, id) <==> LiveRelation(db, id) && id !in relations)
    && (forall id :: LiveEntity(after, id) <==> LiveEntity(db, id) && id !in entities)
  }

  lemma DeletesProject(
    db: Db, after: Db, commands: seq<Command>,
    chunks: set<Id>, edges: seq<NextEdge>, mentions: seq<Mention>, relations: set<Id>, entities: set<Id>)
    requires DeletesExactly(db, commands, chunks, edges, mentions, relations, entities)
    requires LosesExactly(db, after, chunks, relations, entities)
    requires (forall e :: e in edges ==> e.from in chunks) && (forall m :: m in mentions ==> m.chunk in chunks)
    ensures Replay(Expected(db), commands, |commands|) == Some(Expected(after))
  {
    assert forall i :: 0 <= i < |commands| ==> !IsUpsert(commands[i]);
    ReplayDeletes(Expected(db), commands, |commands|);
    assert commands[..|commands|] == commands;
    var p := Replay(Expected(db), commands, |commands|).value;
    NodesProject(db, after, commands, chunks, edges, mentions, relations, entities, p);
    MentionsProject(db, after, commands, chunks, edges, mentions, relations, entities, p);
    RelationsProject(db, after, commands, chunks, edges, mentions, relations, entities, p);
    NextsProject(db, after, commands, chunks, edges, mentions, relations, entities, p);
  }

  lemma NodesProject(
    db: Db, after: Db, commands: seq<Command>,
    chunks: set<Id>, edges: seq<NextEdge>, mentions: seq<Mention>, relations: set<Id>, entities: set<Id>, p: Projection)
    requires DeletesExactly(db, commands, chunks, edges, mentions, relations, entities)
    requires LosesExactly(db, after, chunks, relations, entities) && Removes(Expected(db), commands, p)
    ensures p.entities == Expected(after).entities && p.chunks == Expected(after).chunks
  {
    forall id: Id
      ensures id in p.entities <==> id in Expected(after).entities
      ensures id in p.chunks <==> id in Expected(after).chunks
    {
      assert LiveChunk(after, id) <==> LiveChunk(db, id) && id !in chunks;
      assert LiveEntity(after, id) <==> LiveEntity(db, id) && id !in entities;
    }
  }

  lemma MentionsProject(
    db: Db, after: Db, commands: seq<Command>,
    chunks: set<Id>, edges: seq<NextEdge>, mentions: seq<Mention>, relations: set<Id>, entities: set<Id>, p: Projection)
    requires DeletesExactly(db, commands, chunks, edges, mentions, relations, entities)
    requires LosesExactly(db, after, chunks, relations, entities) && Removes(Expected(db), commands, p)
    requires forall m :: m in mentions ==> m.chunk in chunks
    ensures p.mentions == Expected(after).mentions
  {
    forall m ensures m in p.mentions <==> m in Expected(after).mentions {
      assert LiveChunk(after, m.chunk) <==> LiveChunk(db, m.chunk) && m.chunk !in chunks;
      assert LiveEntity(after, m.entity) <==> LiveEntity(db, m.entity) && m.entity !in entities;
    }
  }

  lemma ExpectedRelation(db: Db, r: RelationEdge)
    ensures r in Expected(db).relations <==> r.id in db.relations && ListedRelation(db, r.id) && r == EdgeOf(db, r.id)
  {
  }

  lemma RelationsProject(
    db: Db, after: Db, commands: seq<Command>,
    chunks: set<Id>, edges: seq<NextEdge>, mentions: seq<Mention>, relations: set<Id>, entities: set<Id>, p: Projection)
    requires DeletesExactly(db, commands, chunks, edges, mentions, relations, entities)
    requires LosesExactly(db, after, chunks, relations, entities) && Removes(Expected(db), commands, p)
    ensures p.relations == Expected(after).relations
  {
    forall r ensures r in p.relations <==> r in Expected(after).relations {
      ExpectedRelation(db, r);
      ExpectedRelation(after, r);
      if r.id in db.relations {
        assert LiveRelation(after, r.id) <==> LiveRelation(db, r.id) && r.id !in relations;
        assert LiveRelation(after, r.id) ==> ListedRelation(after, r.id);
        assert EdgeOf(after, r.id) == EdgeOf(db, r.id);
      }
    }
  }

  lemma NextsProject(
    db: Db, after: Db, commands: seq<Command>,
    chunks: set<Id>, edges: seq<NextEdge>, mentions: seq<Mention>, relations: set<Id>, entities: set<Id>, p: Projection)
    requires DeletesExactly(db, commands, chunks, edges, mentions, relations, entities)
    requires LosesExactly(db, after, chunks, relations, entities) && Removes(Expected(db), commands, p)
    requires forall e :: e in edges ==> e.from in chunks
    ensures p.next == Expected(after).next
  {
    forall e ensures e in p.next <==> e in Expected(after).next {
      ExpectedNext(db, e);
      ExpectedNext(after, e);
      assert LiveChunk(after, e.from) <==> LiveChunk(db, e.from) && e.from !in chunks;
      assert LiveChunk(after, e.to) <==> LiveChunk(db, e.to) && e.to !in chunks;
    }
  }

  lemma ListingOrdinals(db: Db, listing: seq<Id>)
    requires UniqueOrdinals(db) && forall id :: id in listing ==> id in db.chunks
    ensures DistinctOrdinals(db.chunks, listing)
  {
  }

  lemma NextEdgesStartIn(db: Db, listing: seq<Id>, chunks: set<Id>)
    requires UniqueOrdinals(db) && chunks <= db.chunks.Keys && forall id :: id in listing <==> id in chunks
    ensures forall e :: e in NextEdges(db.chunks, listing) ==> e.from in chunks
  {
    ListingOrdinals(db, listing);
    forall e | e in NextEdges(db.chunks, listing) ensures e.from in chunks {
      NextEdgesAreConsecutive(db.chunks, listing, e);
    }
  }

  /** Replaying a source forget's commands on a projection in step with the rows keeps it in step. */
  lemma ForgetProjects(db: Db, source: Id)
    requires Inv(db) && source in db.sources
    ensures var commands := SourceCommands(db, source);
            Replay(Expected(db), commands, |commands|) == Some(Expected(ForgetRows(db, source).db))
  {
    var f := ForgetRows(db, source);
    var chunks := ChunksOf(db, source);
    var listing := SourceListing(db, source);
    var mentions := MentionsOn(db.mentions, chunks);
    ForgetCommandsAre(db, listing, chunks, mentions, f.relations, f.entities);
    NextEdgesStartIn(db, listing, chunks);
    ForgetSameRows(db, source);
    ForgetKeepsInv(db, source);
    assert LosesExactly(db, f.db, chunks, f.relations, f.entities) by {
      forall id: Id
        ensures LiveChunk(f.db, id) <==> LiveChunk(db, id) && id !in chunks
        ensures LiveRelation(f.db, id) <==> LiveRelation(db, id) && id !in f.relations
        ensures LiveEntity(f.db, id) <==> LiveEntity(db, id) && id !in f.entities
      {
        ForgetLeaves(db, source, id);
      }
    }
    DeletesProject(db, f.db, SourceCommands(db, source), chunks, NextEdges(db.chunks, listing), mentions, f.relations,
        f.entities);
  }

  /* ----- dataset scope ----- */

  ghost predicate NothingLive(db: Db) {
    forall id: Id :: !LiveChunk(db, id) && !LiveRelation(db, id) && !LiveEntity(db, id)
  }

  lemma ForgetAllLeavesNothing(db: Db)
    requires RelationsAttached(db)
    ensures NothingLive(ForgetAllRows(db)) && SameRows(db, ForgetAllRows(db))
  {
    var after := ForgetAllRows(db);
    forall id: Id ensures !LiveChunk(after, id) && !LiveRelation(after, id) && !LiveEntity(after, id) {
      assert LiveRelation(db, id) ==> ListedRelation(db, id);
    }
  }

  lemma ForgetAllKeepsInv(db: Db)
    requires Inv(db)
    ensures Inv(ForgetAllRows(db))
  {
    var after := ForgetAllRows(db);
    ForgetAllLeavesNothing(db);
    SameRowsKeepStructure(db, after);
    SameRowsKeepEvidence(db, after);
    FewerStayUnique(db, after);
  }

  lemma NothingLiveProjectsNothing(db: Db)
    requires NothingLive(db)
    ensures Expected(db) == Nothing
  {
    var p := Expected(db);
    forall id: Id ensures id !in p.entities && id !in p.chunks {
      assert !LiveChunk(db, id) && !LiveEntity(db, id);
    }
    forall m ensures m !in p.mentions { assert !LiveChunk(db, m.chunk); }
    assert p.entities == {} && p.chunks == {} && p.mentions == {};
    forall r ensures r !in p.relations { ExpectedRelation(db, r); }
    forall e ensures e !in p.next { ExpectedNext(db, e); }
    assert p.relations == {} && p.next == {};
  }

  lemma NothingLiveLosesAll(db: Db, after: Db)
    requires RelationsAttached(db) && SameRows(db, after) && NothingLive(after)
    ensures LosesExactly(db, after, LiveChunks(db), ListedRelations(db), LiveEntities(db))
  {
    forall id | LiveRelation(db, id) ensures id in ListedRelations(db) {
      assert ListedRelation(db, id);
    }
  }

  /** A dataset forget leaves nothing to project, and its commands take a projection in step with the rows there. */
  lemma ForgetAllProjects(db: Db)
    requires Inv(db)
    ensures Expected(ForgetAllRows(db)) == Nothing
    ensures var commands := DatasetCommands(db); Replay(Expected(db), commands, |commands|) == Some(Nothing)
  {
    var chunks, relations, entities := LiveChunks(db), ListedRelations(db), LiveEntities(db);
    var listing := DatasetListing(db);
    var mentions := MentionsOn(db.mentions, chunks);
    ForgetAllLeavesNothing(db);
    NothingLiveProjectsNothing(ForgetAllRows(db));
    NothingLiveLosesAll(db, ForgetAllRows(db));
    ForgetCommandsAre(db, listing, chunks, mentions, relations, entities);
    NextEdgesStartIn(db, listing, chunks);
    DeletesProject(db, ForgetAllRows(db), DatasetCommands(db), chunks, NextEdges(db.chunks, listing), mentions,
        relations, entities);
  }

  lemma NothingLiveIsExact(db: Db)
    requires NothingLive(db)
    ensures Exact(db)
  {
    forall id: Id ensures !SupportedRelation(db, id) && !SupportedEntity(db, id) && !LiveRelation(db, id)
        && !LiveEntity(db, id) {
      assert forall v :: v in db.evidence ==> !LiveChunk(db, v.chunk);
      assert forall m :: m in db.mentions ==> !LiveChunk(db, m.chunk);
    }
    forall id | id in db.relations ensures db.relations[id].active <==> SupportedRelation(db, id) {
      assert !LiveRelation(db, id);
    }
    forall id | id in db.entities ensures db.entities[id].active <==> SupportedEntity(db, id) {
      assert !LiveEntity(db, id);
    }
  }

  /** After a dataset forget mark and sweep has nothing to keep. */
  lemma ForgetAllIsExact(db: Db)
    requires RelationsAttached(db)
    ensures Exact(ForgetAllRows(db))
  {
    ForgetAllLeavesNothing(db);
    NothingLiveIsExact(ForgetAllRows(db));
  }
}
