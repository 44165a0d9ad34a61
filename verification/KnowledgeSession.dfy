/** Cognify and forget as they run: rows of one open transaction changed in place, in loops. */
module KnowledgeSession {
  import opened Ordering
  import opened GraphProjection
  import opened KnowledgeStore
  import opened KnowledgeForget
  import opened KnowledgeCognify

  /* ----- building command lists ----- */

  /** The adjacent pairs of one sorted group: zip(ordered, ordered[1:]). */
  method ScanGroup(chunks: map<Id, Chunk>, group: seq<Id>) returns (edges: seq<NextEdge>)
    requires forall id :: id in group ==> id in chunks
    ensures edges == Scan(chunks, group, |group|)
  {
    edges := [];
    var n := 0;
    while n < |group|
      invariant 0 <= n <= |group| && edges == Scan(chunks, group, n)
    {
      if n > 0 && chunks[group[n]].ordinal == chunks[group[n - 1]].ordinal + 1 {
        edges := edges + [NextEdge(group[n - 1], group[n])];
      }
      n := n + 1;
    }
  }

  /** Chunks grouped by document in order of appearance, each group scanned. */
  method FindNextEdges(chunks: map<Id, Chunk>, listing: seq<Id>) returns (edges: seq<NextEdge>)
    requires forall id :: id in listing ==> id in chunks
    ensures edges == NextEdges(chunks, listing)
  {
    var documents := [];
    for n := 0 to |listing|
      invariant documents == DocumentsOf(chunks, listing, n)
    {
      documents := AddOnce(documents, chunks[listing[n]].document);
    }
    edges := [];
    for n := 0 to |documents|
      invariant edges == ScanGroups(chunks, listing, documents, n)
    {
      var found := ScanGroup(chunks, SortedGroup(chunks, listing, documents[n]));
      edges := edges + found;
    }
  }

  /** _add_command for a whole list: an identity already there stays where it was. */
  method AddCommands(kept: seq<Command>, ghost before: seq<Command>, commands: seq<Command>) returns (all: seq<Command>)
    requires kept == Distinct(before, |before|)
    ensures all == Distinct(before + commands, |before + commands|)
  {
    all := kept;
    assert before + commands[..0] == before;
    for n := 0 to |commands|
      invariant all == Distinct(before + commands[..n], |before + commands[..n]|)
    {
      DistinctOneMore(before + commands[..n], commands[n]);
      assert before + commands[..n + 1] == (before + commands[..n]) + [commands[n]];
      all := AddOnce(all, commands[n]);
    }
    assert commands[..|commands|] == commands;
  }

  lemma {:induction false} DistinctPrefix(a: seq<Command>, b: seq<Command>, n: nat)
    requires n <= |a|
    ensures Distinct(a + b, n) == Distinct(a, n)
  {
    if n > 0 {
      DistinctPrefix(a, b, n - 1);
      assert (a + b)[n - 1] == a[n - 1];
    }
  }

  lemma DistinctOneMore(a: seq<Command>, c: Command)
    ensures Distinct(a + [c], |a + [c]|) == AddOnce(Distinct(a, |a|), c)
  {
    DistinctPrefix(a, [c], |a|);
    assert (a + [c])[|a|] == c;
  }

  /** forget_projection_commands */
  method BuildForgetCommands(db: Db, listing: seq<Id>, mentions: seq<Mention>, relations: set<Id>, entities: set<Id>)
    returns (commands: seq<Command>)
    requires (forall id :: id in listing ==> id in db.chunks) && relations <= db.relations.Keys
    ensures commands == ForgetCommands(db, listing, mentions, relations, entities)
  {
    var edges := FindNextEdges(db.chunks, listing);
    ghost var a, b, c := DeleteChunks(listing), DeleteNexts(edges), DeleteMentions(mentions);
    ghost var d, e := DeleteRelations(db, SortedIds(relations)), DeleteEntities(SortedIds(entities));
    commands := AddCommands([], [], DeleteChunks(listing));
    assert [] + a == a;
    commands := AddCommands(commands, a, DeleteNexts(edges));
    commands := AddCommands(commands, a + b, DeleteMentions(mentions));
    commands := AddCommands(commands, a + b + c, DeleteRelations(db, SortedIds(relations)));
    commands := AddCommands(commands, a + b + c + d, DeleteEntities(SortedIds(entities)));
  }

  /* ----- orphan queries ----- */

  lemma SortedIdsAre(ids: set<Id>)
    ensures (set id | id in SortedIds(ids)) == ids
  {
  }

  /** Candidates from the forgotten chunks' evidence that nothing authoritative vouches for. */
  method FindOrphanRelations(db: Db, chunks: set<Id>) returns (orphans: set<Id>)
    ensures orphans == OrphanRelations(db, chunks)
  {
    var touched := set v | v in db.evidence && v.chunk in chunks :: v.relation;
    var candidates := SortedIds(set id | id in touched && id in db.relations && ListedRelation(db, id));
    orphans := {};
    for n := 0 to |candidates|
      invariant orphans == set id | id in candidates[..n] && !HasAuthoritativeEvidence(db, id)
    {
      assert candidates[..n + 1] == candidates[..n] + [candidates[n]];
      if !HasAuthoritativeEvidence(db, candidates[n]) {
        orphans := orphans + {candidates[n]};
      }
    }
    assert candidates[..|candidates|] == candidates;
    assert forall id :: id in touched <==> HasEvidenceOn(db, id, chunks);
  }

  /** Candidates from the forgotten chunks' mentions that neither a mention nor a relation keeps. */
  method FindOrphanEntities(db: Db, chunks: set<Id>) returns (orphans: set<Id>)
    ensures orphans == OrphanEntities(db, chunks)
  {
    var touched := set m | m in db.mentions && m.chunk in chunks :: m.entity;
    var candidates := SortedIds(set id | id in touched && id in db.entities && LiveEntity(db, id));
    orphans := {};
    for n := 0 to |candidates|
      invariant orphans == set id | id in candidates[..n] && !HasAuthoritativeMention(db, id)
                && !HasIncidentRelation(db, id)
    {
      assert candidates[..n + 1] == candidates[..n] + [candidates[n]];
      if !HasAuthoritativeMention(db, candidates[n]) && !HasIncidentRelation(db, candidates[n]) {
        orphans := orphans + {candidates[n]};
      }
    }
    assert candidates[..|candidates|] == candidates;
    assert forall id :: id in touched <==> HasMentionOn(db, id, chunks);
  }

  /* ----- one transaction ----- */

  class KnowledgeUnitOfWork {
    var db: Db

    constructor (rows: Db)
      ensures db == rows
    {
      db := rows;
    }

    /** for document in documents: is_active = False; for chunk in chunks: is_active = False */
    method DeactivateContent(documents: seq<Id>, chunks: seq<Id>)
      requires (forall id :: id in documents ==> id in db.documents) && (forall id :: id in chunks ==> id in db.chunks)
      modifies this
      ensures db == WithoutContent(old(db), set id | id in documents, set id | id in chunks)
    {
      for n := 0 to |documents|
        invariant db == WithoutContent(old(db), set id | id in documents[..n], {})
      {
        var row := db.documents[documents[n]];
        db := db.(documents := db.documents[documents[n] := row.(active := false)]);
        assert documents[..n + 1] == documents[..n] + [documents[n]];
      }
      assert documents[..|documents|] == documents;
      for n := 0 to |chunks|
        invariant db == WithoutContent(old(db), set id | id in documents, set id | id in chunks[..n])
      {
        var row := db.chunks[chunks[n]];
        db := db.(chunks := db.chunks[chunks[n] := row.(active := false)]);
        assert chunks[..n + 1] == chunks[..n] + [chunks[n]];
      }
      assert chunks[..|chunks|] == chunks;
    }

    method FlipRelations(ids: seq<Id>)
      requires forall id :: id in ids ==> id in db.relations
      modifies this
      ensures db == WithoutRelations(old(db), set id | id in ids)
    {
      for n := 0 to |ids|
        invariant db == WithoutRelations(old(db), set id | id in ids[..n])
      {
        var row := db.relations[ids[n]];
        db := db.(relations := db.relations[ids[n] := row.(active := false)]);
        assert ids[..n + 1] == ids[..n] + [ids[n]];
      }
      assert ids[..|ids|] == ids;
    }

    method FlipEntities(ids: seq<Id>)
      requires forall id :: id in ids ==> id in db.entities
      modifies this
      ensures db == WithoutEntities(old(db), set id | id in ids)
    {
      for n := 0 to |ids|
        invariant db == WithoutEntities(old(db), set id | id in ids[..n])
      {
        var row := db.entities[ids[n]];
        db := db.(entities := db.entities[ids[n] := row.(active := false)]);
        assert ids[..n + 1] == ids[..n] + [ids[n]];
      }
      assert ids[..|ids|] == ids;
    }

    method DropRelations(ids: set<Id>)
      requires ids <= db.relations.Keys
      modifies this
      ensures db == WithoutRelations(old(db), ids)
    {
      SortedIdsAre(ids);
      FlipRelations(SortedIds(ids));
    }

    method DropEntities(ids: set<Id>)
      requires ids <= db.entities.Keys
      modifies this
      ensures db == WithoutEntities(old(db), ids)
    {
      SortedIdsAre(ids);
      FlipEntities(SortedIds(ids));
    }

    method DropContent(documents: set<Id>, chunks: set<Id>)
      requires documents <= db.documents.Keys && chunks <= db.chunks.Keys
      modifies this
      ensures db == WithoutContent(old(db), documents, chunks)
    {
      SortedIdsAre(documents);
      SortedIdsAre(chunks);
      DeactivateContent(SortedIds(documents), SortedIds(chunks));
    }

    /** source.status = DELETING, and the source's documents and chunks deactivated. */
    method MarkSource(source: Id)
      requires source in db.sources
      modifies this
      ensures db == WithoutContent(old(db).(sources := old(db).sources[source := Deleting]),
                                   DocumentsOfSource(old(db), source), ChunksOf(old(db), source))
    {
      var documents, chunks := DocumentsOfSource(db, source), ChunksOf(db, source);
      db := db.(sources := db.sources[source := Deleting]);
      DropContent(documents, chunks);
    }

    method DeactivateOrphanRelations(chunks: set<Id>) returns (orphans: set<Id>)
      modifies this
      ensures orphans == OrphanRelations(old(db), chunks) && db == WithoutRelations(old(db), orphans)
    {
      orphans := FindOrphanRelations(db, chunks);
      DropRelations(orphans);
    }

    method DeactivateOrphanEntities(chunks: set<Id>) returns (orphans: set<Id>)
      modifies this
      ensures orphans == OrphanEntities(old(db), chunks) && db == WithoutEntities(old(db), orphans)
    {
      orphans := FindOrphanEntities(db, chunks);
      DropEntities(orphans);
    }

    /** The row changes of apply_source_forget_mutation: content, then orphan relations, then orphan entities. */
    method ForgetContent(source: Id) returns (relations: set<Id>, entities: set<Id>)
      requires source in db.sources
      modifies this
      ensures Forgotten(db, relations, entities) == ForgetRows(old(db), source)
    {
      var chunks := ChunksOf(db, source);
      MarkSource(source);
      relations := DeactivateOrphanRelations(chunks);
      entities := DeactivateOrphanEntities(chunks);
    }

    /** _mutate_source with apply_source_forget_mutation */
    method ForgetSourceRows(source: Id, memoryOnly: bool)
      modifies this
      ensures db == ForgetSource(old(db), source, memoryOnly)
    {
      if source !in db.sources || NothingToForget(db.sources[source], memoryOnly) {
        return;
      }
      var before := db;
      var listing := SourceListing(db, source);
      var relations, entities := ForgetContent(source);
      ghost var rows := db;
      if memoryOnly && DocumentsOfSource(before, source) != {} {
        db := WithResetDocument(db, source);
      }
      var mentions := MentionsOn(before.mentions, ChunksOf(before, source));
      var commands := BuildForgetCommands(before, listing, mentions, relations, entities);
      assert commands == SourceCommands(before, source);
      assert db.outbox == before.outbox;
      db := db.(outbox := db.outbox + commands);
    }

    /** apply_dataset_forget_mutation: everything active goes, with no orphan detection. */
    method ForgetDatasetRows(memoryOnly: bool)
      modifies this
      ensures db == ForgetDataset(old(db), memoryOnly)
    {
      var before := db;
      var listing := DatasetListing(db);
      var mentions := MentionsOn(db.mentions, LiveChunks(db));
      var relations, entities := ListedRelations(db), LiveEntities(db);
      DeactivateDataset(relations, entities);
      if memoryOnly {
        ResetDocuments(SourcesWithDocuments(before));
      }
      var commands := BuildForgetCommands(before, listing, mentions, relations, entities);
      db := db.(outbox := before.outbox + commands);
    }

    method DeactivateDataset(relations: set<Id>, entities: set<Id>)
      requires relations == ListedRelations(db) && entities == LiveEntities(db)
      modifies this
      ensures db == ForgetAllRows(old(db))
    {
      var documents, chunks := LiveDocuments(db), LiveChunks(db);
      db := db.(sources := AllDeleting(db.sources));
      DropContent(documents, chunks);
      DropRelations(relations);
      DropEntities(entities);
    }

    method ResetDocuments(sources: set<Id>)
      modifies this
      ensures db == ResetSources(old(db), sources)
    {
      var rest := sources;
      while rest != {}
        invariant ResetSources(db, rest) == ResetSources(old(db), sources)
        decreases rest
      {
        var source := First(_ => 0, rest);
        db := WithResetDocument(db, source);
        rest := rest - {source};
      }
    }

    /* ----- cognify ----- */

    /** _apply_entity_plan, and the mention if the entity has none in the chunk. */
    method ApplyEntityPlan(chunk: Id, key: Key, plan: PlannedEntity) returns (id: Id, added: seq<Mention>, created: nat)
      modifies this
      ensures id == EntityRow(old(db), key, plan).0 && created == (if ActiveByKey(old(db), key).None? then 1 else 0)
      ensures db == PutMention(PutEntity(old(db), id, EntityRow(old(db), key, plan).1), id, chunk)
      ensures added == if HasMention(old(db), id, chunk) then [] else [Mention(old(db).next, id, chunk)]
    {
      var found := ActiveByKey(db, key);
      if found.Some? {
        var row := db.entities[found.value];
        id, created := found.value, 0;
        db := PutEntity(db, id, row.(aliases := MergedAliases(row.aliases, plan.aliases),
                                     confidence := Larger(row.confidence, plan.confidence)));
      } else {
        id, created := plan.id, 1;
        db := PutEntity(db, id, Entity(key, plan.data, plan.aliases, plan.confidence, true));
      }
      assert HasMention(db, id, chunk) <==> HasMention(old(db), id, chunk);
      added := [];
      if !HasMention(db, id, chunk) {
        added := [Mention(db.next, id, chunk)];
        db := db.(mentions := db.mentions + added, next := db.next + 1);
      }
    }

    /** _apply_relation_plan, and the evidence row. */
    method ApplyRelationPlan(chunk: Id, source: Id, target: Id, predicateName: string, plan: PlannedRelation)
      returns (id: Id, created: nat)
      modifies this
      ensures id == RelationRow(old(db), source, target, predicateName, plan).0
      ensures created == if ActiveByIdentity(old(db), source, target, predicateName).None? then 1 else 0
      ensures db == PutEvidence(PutRelation(old(db), id, RelationRow(old(db), source, target, predicateName, plan).1),
              id, chunk)
    {
      var found := ActiveByIdentity(db, source, target, predicateName);
      if found.Some? {
        var row := db.relations[found.value];
        id, created := found.value, 0;
        db := PutRelation(db, id, row.(confidence := Larger(row.confidence, plan.confidence),
                                       description := if row.description == "" then plan.description
                                           else row.description));
      } else {
        id, created := plan.id, 1;
        db := PutRelation(db, id, Relation(source, target, predicateName, plan.description, plan.confidence, true));
      }
      if Evidence(id, chunk) !in db.evidence {
        db := db.(evidence := db.evidence + {Evidence(id, chunk)});
      }
      assert db.evidence == old(db).evidence + {Evidence(id, chunk)};
    }

    /** One operation, with what it touched. */
    method PersistOp(
        r: Resolver, op: Op, entities: seq<Id>, mentions: seq<Mention>, relations: seq<Id>, created: Counts)
      returns (w: Work)
      modifies this
      ensures w == ApplyOp(Work(old(db), entities, mentions, relations, created), r, op) && w.db == db
    {
      if !Applicable(db, r, op) {
        return Work(db, entities, mentions, relations, created);
      }
      match op
      case MentionOp(chunk, e) =>
        var id, added, one := ApplyEntityPlan(chunk, e.key, r.entities[e.key]);
        w := Work(db, AddOnce(entities, id), mentions + added, relations, Plus(created, Counts(one, 0)));
      case EvidenceOp(chunk, i, _) =>
        var source, target := ActiveByKey(db, i.source).value, ActiveByKey(db, i.target).value;
        var id, one := ApplyRelationPlan(chunk, source, target, i.predicateName, r.relations[i]);
        w := Work(db, entities, mentions, AddOnce(relations, id), Plus(created, Counts(0, one)));
    }

    /** _persist_source_plan: chunks, then every chunk's knowledge, then markers, commands and status. */
    method PersistSourcePlan(r: Resolver, plan: SourcePlan) returns (created: Counts)
      modifies this
      ensures db == PersistSource(old(db), r, plan) && created == SourceWork(old(db), r, plan).created
    {
      db := db.(chunks := db.chunks + plan.added);
      var w := Work(db, [], [], [], Counts(0, 0));
      var n := 0;
      while n < |plan.ops|
        invariant 0 <= n <= |plan.ops| && w.db == db
        invariant ApplyFrom(w, r, plan.ops, n) == SourceWork(old(db), r, plan)
      {
        w := PersistOp(r, plan.ops[n], w.entities, w.mentions, w.relations, w.created);
        n := n + 1;
      }
      created := w.created;
      db := Finished(w, plan);
    }

    /** A source under its savepoint, which restores the rows if it rolls back. */
    method PersistUnderSavepoint(r: Resolver, plan: SourcePlan, rollsBack: bool) returns (landed: Counts)
      modifies this
      ensures db == PersistOne(old(db), r, plan, rollsBack)
      ensures landed == if rollsBack then Counts(0, 0) else SourceWork(old(db), r, plan).created
    {
      var savepoint := db;
      landed := PersistSourcePlan(r, plan);
      if rollsBack {
        db, landed := savepoint, Counts(0, 0);
        MarkSources([plan.source], Failed);
      }
    }

    method PersistPlans(r: Resolver, plans: seq<SourcePlan>, rollbacks: Rollbacks) returns (totals: Counts)
      modifies this
      ensures db == PersistFrom(old(db), r, plans, rollbacks, 0)
      ensures totals == PersistedFrom(old(db), r, plans, rollbacks, 0)
    {
      totals := Counts(0, 0);
      var n := 0;
      while n < |plans|
        invariant 0 <= n <= |plans|
        invariant PersistFrom(db, r, plans, rollbacks, n) == PersistFrom(old(db), r, plans, rollbacks, 0)
        invariant Plus(totals, PersistedFrom(db, r, plans, rollbacks, n))
                  == PersistedFrom(old(db), r, plans, rollbacks, 0)
      {
        ghost var before := db;
        var landed := PersistUnderSavepoint(r, plans[n], rollbacks(n));
        LandedStep(before, db, landed, totals, r, plans, rollbacks, n);
        totals := Plus(totals, landed);
        n := n + 1;
      }
    }

    /** persist_batch */
    method PersistPreparedBatch(batch: Batch, rollbacks: Rollbacks) returns (totals: Counts)
      modifies this
      ensures db == PersistBatch(old(db), batch, rollbacks)
      ensures totals == PersistedFrom(Reserved(old(db), batch.resolver), batch.resolver, batch.plans, rollbacks, 0)
    {
      db := Reserved(db, batch.resolver);
      totals := PersistPlans(batch.resolver, batch.plans, rollbacks);
      MarkSources(batch.activate, Active);
      MarkSources(batch.failed, Failed);
    }

    method MarkSources(sources: seq<Id>, status: SourceStatus)
      modifies this
      ensures db == SetStatuses(old(db), sources, status, |sources|)
    {
      for n := 0 to |sources|
        invariant db == SetStatuses(old(db), sources, status, n)
      {
        if sources[n] in db.sources {
          db := db.(sources := db.sources[sources[n] := status]);
        }
      }
    }
  }

  lemma LandedStep(
    before: Db, next: Db, landed: Counts, totals: Counts, r: Resolver, plans: seq<SourcePlan>, rollbacks: Rollbacks,
        n: nat)
    requires n < |plans| && next == PersistOne(before, r, plans[n], rollbacks(n))
    requires landed == if rollbacks(n) then Counts(0, 0) else SourceWork(before, r, plans[n]).created
    ensures PersistFrom(before, r, plans, rollbacks, n) == PersistFrom(next, r, plans, rollbacks, n + 1)
    ensures Plus(totals, PersistedFrom(before, r, plans, rollbacks, n))
            == Plus(Plus(totals, landed), PersistedFrom(next, r, plans, rollbacks, n + 1))
  {
    var rest := PersistedFrom(next, r, plans, rollbacks, n + 1);
    LandedCounts(before, landed, rest, r, plans, rollbacks, n);
    PlusAssociates(totals, landed, rest);
  }

  lemma LandedCounts(
    before: Db, landed: Counts, rest: Counts, r: Resolver, plans: seq<SourcePlan>, rollbacks: Rollbacks, n: nat)
    requires n < |plans| && landed == if rollbacks(n) then Counts(0, 0) else SourceWork(before, r, plans[n]).created
    requires rest == PersistedFrom(PersistOne(before, r, plans[n], rollbacks(n)), r, plans, rollbacks, n + 1)
    ensures PersistedFrom(before, r, plans, rollbacks, n) == Plus(landed, rest)
  {
  }

  /** _resolve_source_knowledge: the resolver filled operation by operation, nothing written. */
  method ResolveSourceKnowledge(db: Db, r: Resolver, ops: seq<Op>) returns (resolver: Resolver, planned: Counts)
    ensures resolver == SeeFrom(db, r, ops, 0) && planned == PlannedFrom(db, r, ops, 0)
  {
    resolver, planned := r, Counts(0, 0);
    var n := 0;
    while n < |ops|
      invariant 0 <= n <= |ops|
      invariant SeeFrom(db, resolver, ops, n) == SeeFrom(db, r, ops, 0)
      invariant Plus(planned, PlannedFrom(db, resolver, ops, n)) == PlannedFrom(db, r, ops, 0)
    {
      planned := Plus(planned, Planned(db, resolver, ops[n]));
      resolver := See(db, resolver, ops[n]);
      n := n + 1;
    }
  }
}
