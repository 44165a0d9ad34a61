/**
 A normal (non-rebuild) cognify: identities are resolved in memory for a whole batch,
 then each source's rows are written under its own savepoint.
*/
module KnowledgeCognify {
  import opened Wrappers
  import opened Ordering
  import opened GraphProjection
  import opened KnowledgeStore
  import opened KnowledgeForget

  /* ----- what the extraction provider returns ----- */

  datatype ExtractedEntity = ExtractedEntity(localId: string, key: Key, data: string, aliases: seq<string>,
                                             confidence: real)

  datatype ExtractedRelation = ExtractedRelation(
    sourceLocal: string, targetLocal: string, predicateName: string, description: string, confidence: real)

  datatype Extraction = Extraction(entities: seq<ExtractedEntity>, relations: seq<ExtractedRelation>)

  predicate Declares(x: Extraction, localId: string) {
    exists e :: e in x.entities && e.localId == localId
  }

  /** validate_local_graph: local ids are unique and relations connect two declared ones. */
  ghost predicate ValidLocalGraph(x: Extraction) {
    && (forall d, e :: d in x.entities && e in x.entities && d.localId == e.localId ==> d == e)
    && (forall r :: r in x.relations ==>
          Declares(x, r.sourceLocal) && Declares(x, r.targetLocal) && r.sourceLocal != r.targetLocal)
  }

  /** keys_by_local_id after the first `n` entities: the last declaration of an id wins. */
  function KeyOf(entities: seq<ExtractedEntity>, n: nat, localId: string): (key: Key)
    requires n <= |entities| && exists e :: e in entities[..n] && e.localId == localId
    ensures exists e :: e in entities[..n] && e.localId == localId && e.key == key
  {
    assert entities[..n] == entities[..n - 1] + [entities[n - 1]];
    if entities[n - 1].localId == localId then entities[n - 1].key else KeyOf(entities, n - 1, localId)
  }

  /* ----- identities, plans, and the operations a chunk contributes ----- */

  /** (source canonical key, target canonical key, normalized predicate) */
  datatype Identity = Identity(source: Key, target: Key, predicateName: string)

  datatype PlannedEntity = PlannedEntity(id: Id, data: string, aliases: seq<string>, confidence: real, isNew: bool)

  datatype PlannedRelation = PlannedRelation(id: Id, description: string, confidence: real, isNew: bool)

  datatype Resolver = Resolver(entities: map<Key, PlannedEntity>, relations: map<Identity, PlannedRelation>, next: Id)

  /** One entity mention or one relation sighting of one chunk, its identity resolved. */
  datatype Op =
    | MentionOp(chunk: Id, entity: ExtractedEntity)
    | EvidenceOp(chunk: Id, identity: Identity, relation: ExtractedRelation)

  function MentionOps(chunk: Id, entities: seq<ExtractedEntity>): (ops: seq<Op>)
    ensures |ops| == |entities| && forall i :: 0 <= i < |ops| ==> ops[i] == MentionOp(chunk, entities[i])
  {
    seq(|entities|, i requires 0 <= i < |entities| => MentionOp(chunk, entities[i]))
  }

  function IdentityOf(x: Extraction, r: ExtractedRelation): Identity
    requires Declares(x, r.sourceLocal) && Declares(x, r.targetLocal)
  {
    assert x.entities[..|x.entities|] == x.entities;
    Identity(KeyOf(x.entities, |x.entities|, r.sourceLocal), KeyOf(x.entities, |x.entities|, r.targetLocal),
        r.predicateName)
  }

  function EvidenceOps(chunk: Id, x: Extraction): (ops: seq<Op>)
    requires ValidLocalGraph(x)
    ensures |ops| == |x.relations|
    ensures forall i :: 0 <= i < |ops| ==>
              Declares(x, x.relations[i].sourceLocal) && Declares(x, x.relations[i].targetLocal)
              && ops[i] == EvidenceOp(chunk, IdentityOf(x, x.relations[i]), x.relations[i])
  {
    seq(|x.relations|, i requires 0 <= i < |x.relations| =>
      assert x.relations[i] in x.relations; EvidenceOp(chunk, IdentityOf(x, x.relations[i]), x.relations[i]))
  }

  /** All of a chunk's entities come before its relations. */
  function ChunkOps(chunk: Id, x: Extraction): seq<Op>
    requires ValidLocalGraph(x)
  {
    MentionOps(chunk, x.entities) + EvidenceOps(chunk, x)
  }

  /* ----- lookups ----- */

  function EntitiesWithKey(db: Db, key: Key): set<Id> {
    set id | id in db.entities && db.entities[id].active && db.entities[id].key == key
  }

  /** get_active_by_canonical_key */
  function ActiveByKey(db: Db, key: Key): (found: Option<Id>)
    ensures found.Some? ==> LiveEntity(db, found.value) && db.entities[found.value].key == key
    ensures found.None? ==> forall id :: LiveEntity(db, id) ==> db.entities[id].key != key
  {
    if EntitiesWithKey(db, key) == {} then
      assert forall id :: LiveEntity(db, id) && db.entities[id].key == key ==> id in EntitiesWithKey(db, key);
      None
    else Some(First(_ => 0, EntitiesWithKey(db, key)))
  }

  predicate Identifies(r: Relation, source: Id, target: Id, predicateName: string) {
    r.source == source && r.target == target && r.predicateName == predicateName
  }

  function RelationsIdentified(db: Db, source: Id, target: Id, predicateName: string): set<Id> {
    set id | id in db.relations && db.relations[id].active
        && Identifies(db.relations[id], source, target, predicateName)
  }

  /** get_active_by_identity */
  function ActiveByIdentity(db: Db, source: Id, target: Id, predicateName: string): (found: Option<Id>)
    ensures found.Some? ==>
              LiveRelation(db, found.value) && Identifies(db.relations[found.value], source, target, predicateName)
    ensures found.None? ==>
              forall id :: LiveRelation(db, id) ==> !Identifies(db.relations[id], source, target, predicateName)
  {
    if RelationsIdentified(db, source, target, predicateName) == {} then
      assert forall id :: LiveRelation(db, id) && Identifies(db.relations[id], source, target, predicateName)
                          ==> id in RelationsIdentified(db, source, target, predicateName);
      None
    else Some(First(_ => 0, RelationsIdentified(db, source, target, predicateName)))
  }

  function MergedAliases(stored: seq<string>, added: seq<string>): seq<string> {
    Distinct(stored + added, |stored + added|)
  }

  function Larger(a: real, b: real): real {
    if a < b then b else a
  }

  /* ----- preparing ----- */

  /** _plan_entity */
  function PlanEntity(db: Db, e: ExtractedEntity, newId: Id): PlannedEntity {
    match ActiveByKey(db, e.key)
    case Some(id) =>
      var row := db.entities[id];
      PlannedEntity(id, row.data, row.aliases, row.confidence, false)
    case None => PlannedEntity(newId, e.data, [], e.confidence, true)
  }

  /** _plan_relation: only durable endpoints can have a durable relation between them. */
  function PlanRelation(
      db: Db, identity: Identity, source: PlannedEntity, target: PlannedEntity, x: ExtractedRelation, newId: Id)
    : PlannedRelation
  {
    var existing :=
      if source.isNew || target.isNew then None else ActiveByIdentity(db, source.id, target.id, identity.predicateName);
    match existing
    case Some(id) => PlannedRelation(id, db.relations[id].description, db.relations[id].confidence, false)
    case None => PlannedRelation(newId, x.description, x.confidence, true)
  }

  /** The resolver knows every identity the operation needs before it is seen. */
  predicate Resolvable(r: Resolver, op: Op) {
    op.EvidenceOp? ==> op.identity.source in r.entities && op.identity.target in r.entities
  }

  /**
   One operation resolved: reuse the batch's plan or make one, and let aliases and
   confidence accumulate. An undeclared endpoint would be an error of the source's own;
   validate_local_graph rules it out.
  */
  function See(db: Db, r: Resolver, op: Op): Resolver {
    if !Resolvable(r, op) then r
    else
      match op
      case MentionOp(_, e) => SeeEntity(db, r, e)
      case EvidenceOp(_, i, x) => SeeRelation(db, r, i, x)
  }

  function SeeEntity(db: Db, r: Resolver, e: ExtractedEntity): Resolver {
    var known := e.key in r.entities;
    var plan := if known then r.entities[e.key] else PlanEntity(db, e, r.next);
    var merged := plan.(aliases := MergedAliases(plan.aliases, e.aliases),
        confidence := Larger(plan.confidence, e.confidence));
    r.(entities := r.entities[e.key := merged], next := if known then r.next else r.next + 1)
  }

  function SeeRelation(db: Db, r: Resolver, i: Identity, x: ExtractedRelation): Resolver
    requires i.source in r.entities && i.target in r.entities
  {
    var known := i in r.relations;
    var plan := if known then r.relations[i]
        else PlanRelation(db, i, r.entities[i.source], r.entities[i.target], x, r.next);
    var merged := plan.(confidence := Larger(plan.confidence, x.confidence),
                        description := if plan.description == "" then x.description else plan.description);
    r.(relations := r.relations[i := merged], next := if known then r.next else r.next + 1)
  }

  datatype Counts = Counts(entities: nat, relations: nat)

  function Plus(a: Counts, b: Counts): Counts {
    Counts(a.entities + b.entities, a.relations + b.relations)
  }

  lemma PlusAssociates(a: Counts, b: Counts, c: Counts)
    ensures Plus(Plus(a, b), c) == Plus(a, Plus(b, c))
  {
  }

  /** What seeing the operation adds to entities_created and relations_created. */
  function Planned(db: Db, r: Resolver, op: Op): Counts {
    if !Resolvable(r, op) then Counts(0, 0)
    else
      match op
      case MentionOp(_, e) => Counts(if e.key !in r.entities && PlanEntity(db, e, r.next).isNew then 1 else 0, 0)
      case EvidenceOp(_, i, x) =>
        var isNew := i !in r.relations
            && PlanRelation(db, i, r.entities[i.source], r.entities[i.target], x, r.next).isNew;
        Counts(0, if isNew then 1 else 0)
  }

  /** Every relation comes after mentions of both its endpoints in the same chunk. */
  ghost predicate Grounded(ops: seq<Op>) {
    forall i :: 0 <= i < |ops| && ops[i].EvidenceOp? ==>
      MentionedBefore(ops, i, ops[i].identity.source, ops[i].chunk)
          && MentionedBefore(ops, i, ops[i].identity.target, ops[i].chunk)
  }

  ghost predicate MentionedBefore(ops: seq<Op>, n: nat, key: Key, chunk: Id) {
    exists j :: 0 <= j < n && j < |ops| && ops[j].MentionOp? && ops[j].entity.key == key && ops[j].chunk == chunk
  }

  /** The resolver after the operations from the `n`th on. */
  function SeeFrom(db: Db, r: Resolver, ops: seq<Op>, n: nat): Resolver
    requires n <= |ops|
    decreases |ops| - n
  {
    if n == |ops| then r else SeeFrom(db, See(db, r, ops[n]), ops, n + 1)
  }

  function PlannedFrom(db: Db, r: Resolver, ops: seq<Op>, n: nat): Counts
    requires n <= |ops|
    decreases |ops| - n
  {
    if n == |ops| then Counts(0, 0) else Plus(Planned(db, r, ops[n]), PlannedFrom(db, See(db, r, ops[n]), ops, n + 1))
  }

  /* ----- persisting one source ----- */

  /** A source's transaction in progress: its rows, and the commands' subjects gathered so far. */
  datatype Work = Work(db: Db, entities: seq<Id>, mentions: seq<Mention>, relations: seq<Id>, created: Counts)

  /** _apply_entity_plan: re-checked against the transaction's own rows. */
  function EntityRow(db: Db, key: Key, plan: PlannedEntity): (Id, Entity) {
    match ActiveByKey(db, key)
    case Some(id) =>
      var row := db.entities[id];
      (id, row.(aliases := MergedAliases(row.aliases, plan.aliases),
          confidence := Larger(row.confidence, plan.confidence)))
    case None => (plan.id, Entity(key, plan.data, plan.aliases, plan.confidence, true))
  }

  /** _apply_relation_plan */
  function RelationRow(db: Db, source: Id, target: Id, predicateName: string, plan: PlannedRelation): (Id, Relation) {
    match ActiveByIdentity(db, source, target, predicateName)
    case Some(id) =>
      var row := db.relations[id];
      (id, row.(confidence := Larger(row.confidence, plan.confidence),
                description := if row.description == "" then plan.description else row.description))
    case None => (plan.id, Relation(source, target, predicateName, plan.description, plan.confidence, true))
  }

  predicate Applicable(db: Db, r: Resolver, op: Op) {
    match op
    case MentionOp(_, e) => e.key in r.entities
    case EvidenceOp(_, i, _) => i in r.relations && ActiveByKey(db, i.source).Some? && ActiveByKey(db, i.target).Some?
  }

  function PutEntity(db: Db, id: Id, row: Entity): Db {
    db.(entities := db.entities[id := row])
  }

  /** A mention row is added unless the entity already has one in the chunk. */
  function PutMention(db: Db, entity: Id, chunk: Id): Db {
    if HasMention(db, entity, chunk) then db
    else db.(mentions := db.mentions + [Mention(db.next, entity, chunk)], next := db.next + 1)
  }

  function PutRelation(db: Db, id: Id, row: Relation): Db {
    db.(relations := db.relations[id := row])
  }

  function PutEvidence(db: Db, relation: Id, chunk: Id): Db {
    db.(evidence := db.evidence + {Evidence(relation, chunk)})
  }

  function ApplyMention(w: Work, chunk: Id, key: Key, plan: PlannedEntity): Work {
    var (id, row) := EntityRow(w.db, key, plan);
    var created := if ActiveByKey(w.db, key).None? then 1 else 0;
    var added := if HasMention(w.db, id, chunk) then [] else [Mention(w.db.next, id, chunk)];
    Work(PutMention(PutEntity(w.db, id, row), id, chunk), AddOnce(w.entities, id), w.mentions + added, w.relations,
         Plus(w.created, Counts(created, 0)))
  }

  function ApplyEvidence(
      w: Work, chunk: Id, source: Id, target: Id, predicateName: string, plan: PlannedRelation): Work {
    var (id, row) := RelationRow(w.db, source, target, predicateName, plan);
    var created := if ActiveByIdentity(w.db, source, target, predicateName).None? then 1 else 0;
    Work(PutEvidence(PutRelation(w.db, id, row), id, chunk), w.entities, w.mentions, AddOnce(w.relations, id),
         Plus(w.created, Counts(0, created)))
  }

  /** One operation written. An unresolved one would be a KeyError; a prepared batch has none. */
  function ApplyOp(w: Work, r: Resolver, op: Op): Work {
    if !Applicable(w.db, r, op) then w
    else
      match op
      case MentionOp(chunk, e) => ApplyMention(w, chunk, e.key, r.entities[e.key])
      case EvidenceOp(chunk, i, _) =>
        ApplyEvidence(w, chunk, ActiveByKey(w.db, i.source).value, ActiveByKey(w.db, i.target).value, i.predicateName,
            r.relations[i])
  }

  /** The operations from the `n`th on. */
  function ApplyFrom(w: Work, r: Resolver, ops: seq<Op>, n: nat): Work
    requires n <= |ops|
    decreases |ops| - n
  {
    if n == |ops| then w else ApplyFrom(ApplyOp(w, r, ops[n]), r, ops, n + 1)
  }

  /** What one source's external phase decided. */
  datatype SourcePlan = SourcePlan(
    source: Id, document: Id, added: map<Id, Chunk>, extracted: set<Id>, ops: seq<Op>, planned: Counts)

  function UpsertEntities(ids: seq<Id>): (commands: seq<Command>)
    ensures forall c :: c in commands <==> c.UpsertEntity? && c.entity in ids
  {
    if ids == [] then []
    else
      var last := ids[|ids| - 1];
      assert ids == ids[..|ids| - 1] + [last];
      UpsertEntities(ids[..|ids| - 1]) + [UpsertEntity(last)]
  }

  function UpsertChunks(ids: seq<Id>): (commands: seq<Command>)
    ensures forall c :: c in commands <==> c.UpsertChunk? && c.chunk in ids
  {
    if ids == [] then []
    else
      var last := ids[|ids| - 1];
      assert ids == ids[..|ids| - 1] + [last];
      UpsertChunks(ids[..|ids| - 1]) + [UpsertChunk(last)]
  }

  function UpsertMentions(mentions: seq<Mention>): (commands: seq<Command>)
    ensures forall c :: c in commands <==> c.UpsertMention? && c.mention in mentions
  {
    if mentions == [] then []
    else
      var last := mentions[|mentions| - 1];
      assert mentions == mentions[..|mentions| - 1] + [last];
      UpsertMentions(mentions[..|mentions| - 1]) + [UpsertMention(last)]
  }

  function UpsertRelations(db: Db, ids: seq<Id>): (commands: seq<Command>)
    requires forall id :: id in ids ==> id in db.relations
    ensures forall c :: c in commands <==>
            c.UpsertRelation? && c.relation.id in ids && c.relation == EdgeOf(db, c.relation.id)
  {
    if ids == [] then []
    else
      var last := ids[|ids| - 1];
      assert ids == ids[..|ids| - 1] + [last];
      UpsertRelations(db, ids[..|ids| - 1]) + [UpsertRelation(EdgeOf(db, last))]
  }

  function UpsertNexts(edges: seq<NextEdge>): (commands: seq<Command>)
    ensures forall c :: c in commands <==> c.UpsertNext? && c.next in edges
  {
    if edges == [] then []
    else
      var last := edges[|edges| - 1];
      assert edges == edges[..|edges| - 1] + [last];
      UpsertNexts(edges[..|edges| - 1]) + [UpsertNext(last)]
  }

  function Written(db: Db, ids: seq<Id>): (written: seq<Id>)
    ensures forall id :: id in written ==> id in db.relations
  {
    if ids == [] then []
    else
      var last := ids[|ids| - 1];
      Written(db, ids[..|ids| - 1]) + (if last in db.relations then [last] else [])
  }

  function CognifyNodes(w: Work, source: Id): (commands: seq<Command>)
    ensures forall c :: c in commands <==>
              (c.UpsertEntity? && c.entity in w.entities) || (c.UpsertChunk? && c.chunk in ChunksOf(w.db, source))
  {
    UpsertEntities(w.entities) + UpsertChunks(SourceListing(w.db, source))
  }

  function CognifyEdges(w: Work, source: Id): seq<Command> {
    UpsertMentions(w.mentions) + UpsertRelations(w.db, Written(w.db, w.relations))
      + UpsertNexts(NextEdges(w.db.chunks, SourceListing(w.db, source)))
  }

  /** Nodes before edges, each identity once: the order that keeps every endpoint in place. */
  function CognifyCommands(w: Work, source: Id): seq<Command> {
    var all := CognifyNodes(w, source) + CognifyEdges(w, source);
    Distinct(all, |all|)
  }

  function WithAdded(db: Db, plan: SourcePlan): Db {
    db.(chunks := db.chunks + plan.added)
  }

  function StartWork(db: Db, plan: SourcePlan): Work {
    Work(WithAdded(db, plan), [], [], [], Counts(0, 0))
  }

  /** The work of a source's transaction once its chunks and knowledge are written. */
  function SourceWork(db: Db, r: Resolver, plan: SourcePlan): Work {
    ApplyFrom(StartWork(db, plan), r, plan.ops, 0)
  }

  function MarkExtracted(chunks: map<Id, Chunk>, ids: set<Id>): (marked: map<Id, Chunk>)
    ensures marked.Keys == chunks.Keys
    ensures forall id :: id in chunks ==> marked[id] == chunks[id].(extracted := marked[id].extracted)
  {
    map id | id in chunks :: if id in ids then chunks[id].(extracted := true) else chunks[id]
  }

  function MarkSummarized(documents: map<Id, Document>, document: Id): (marked: map<Id, Document>)
    ensures marked.Keys == documents.Keys
    ensures forall id :: id in documents ==> marked[id] == documents[id].(summarized := marked[id].summarized)
  {
    map id | id in documents :: if id == document then documents[id].(summarized := true) else documents[id]
  }

  /** The closing writes: extraction and summary markers, commands, and the source's status. */
  function Finished(w: Work, plan: SourcePlan): Db {
    w.db.(chunks := MarkExtracted(w.db.chunks, plan.extracted),
          documents := MarkSummarized(w.db.documents, plan.document),
          outbox := w.db.outbox + CognifyCommands(w, plan.source),
          sources := w.db.sources[plan.source := Active])
  }

  /** _persist_source_plan */
  function PersistSource(db: Db, r: Resolver, plan: SourcePlan): Db {
    Finished(SourceWork(db, r, plan), plan)
  }

  /* ----- preparing a batch ----- */

  /** What the outside returns for a source: a permanent refusal, or how many chunks and what each extracts to. */
  datatype Provider = Provider(refused: Id -> bool, chunkCount: Id -> nat, extract: (Id, nat) -> Extraction)

  ghost predicate ExtractsValid(p: Provider, source: Id, ordinal: nat) {
    ValidLocalGraph(p.extract(source, ordinal))
  }

  ghost predicate ValidProvider(p: Provider) {
    forall source, ordinal :: ExtractsValid(p, source, ordinal)
  }

  datatype Decision = NoDocument | Skip | Activate | Process(document: Id)

  /** get_for_source_generation: the newest active document. */
  function NewestDocument(db: Db, source: Id): (document: Option<Id>)
    ensures document.Some? ==> document.value in DocumentsOfSource(db, source)
  {
    var documents := DocumentsOfSource(db, source);
    if documents == {} then None else Some(First(id => if id <= db.next then db.next - id else 0, documents))
  }

  predicate Complete(db: Db, source: Id, document: Id)
    requires document in db.documents
  {
    && ChunksOf(db, source) != {} && db.documents[document].summarized
    && forall id :: id in ChunksOf(db, source) ==> db.chunks[id].extracted
  }

  /** _decide_source_work_item, for the sources _select_source_ids lets through. */
  function Decide(db: Db, source: Id, allowFailed: bool): (d: Decision)
    requires source in db.sources
    ensures d.Process? ==> NewestDocument(db, source) == Some(d.document)
  {
    var status := db.sources[source];
    if status == Deleting || status == Deleted then Skip
    else
      match NewestDocument(db, source)
      case None => NoDocument
      case Some(document) =>
        if Complete(db, source, document) then (if status == Active then Skip else Activate)
        else if status == Failed && !allowFailed then Skip
        else if ChunksOf(db, source) == {} && status == Active then Skip
        else Process(document)
  }

  /** The chunk rows of a fresh text, with consecutive ids and ordinals. */
  function NewChunks(source: Id, document: Id, first: Id, count: nat): (added: map<Id, Chunk>)
    ensures forall id :: id in added <==> first <= id < first + count
    ensures forall id :: id in added ==> added[id] == Chunk(document, source, id - first, true, false)
    ensures |added| == count
  {
    if count == 0 then map[]
    else
      var before := NewChunks(source, document, first, count - 1);
      before[first + count - 1 := Chunk(document, source, count - 1, true, false)]
  }

  /** Existing chunks are extracted if they are not already; else the text is chunked anew. */
  function AddedCount(db: Db, source: Id, p: Provider): nat {
    if ChunksOf(db, source) != {} then 0 else p.chunkCount(source)
  }

  function ToExtract(db: Db, source: Id, added: map<Id, Chunk>): set<Id> {
    if ChunksOf(db, source) != {} then set id | id in ChunksOf(db, source) && !db.chunks[id].extracted else added.Keys
  }

  predicate OpsInChunks(ops: seq<Op>, ids: seq<Id>, n: nat)
    requires n <= |ids|
  {
    forall k :: 0 <= k < |ops| ==> ops[k].chunk in ids[..n]
  }

  lemma GroundedConcat(a: seq<Op>, b: seq<Op>)
    requires Grounded(a) && Grounded(b)
    ensures Grounded(a + b)
  {
    forall i | 0 <= i < |a + b| && (a + b)[i].EvidenceOp?
      ensures MentionedBefore(a + b, i, (a + b)[i].identity.source, (a + b)[i].chunk)
      ensures MentionedBefore(a + b, i, (a + b)[i].identity.target, (a + b)[i].chunk)
    {
      var op := (a + b)[i];
      if i < |a| {
        assert op == a[i];
        MentionedInConcat(a, b, i, op.identity.source, op.chunk);
        MentionedInConcat(a, b, i, op.identity.target, op.chunk);
      } else {
        assert op == b[i - |a|];
        MentionedInSuffix(a, b, i - |a|, op.identity.source, op.chunk);
        MentionedInSuffix(a, b, i - |a|, op.identity.target, op.chunk);
      }
    }
  }

  lemma MentionedInConcat(a: seq<Op>, b: seq<Op>, n: nat, key: Key, chunk: Id)
    requires n <= |a| && MentionedBefore(a, n, key, chunk)
    ensures MentionedBefore(a + b, n, key, chunk)
  {
    var j :| 0 <= j < n && j < |a| && a[j].MentionOp? && a[j].entity.key == key && a[j].chunk == chunk;
    assert (a + b)[j] == a[j];
  }

  lemma MentionedInSuffix(a: seq<Op>, b: seq<Op>, n: nat, key: Key, chunk: Id)
    requires n <= |b| && MentionedBefore(b, n, key, chunk)
    ensures MentionedBefore(a + b, |a| + n, key, chunk)
  {
    var j :| 0 <= j < n && j < |b| && b[j].MentionOp? && b[j].entity.key == key && b[j].chunk == chunk;
    assert (a + b)[|a| + j] == b[j];
  }

  lemma ChunkOpsGrounded(chunk: Id, x: Extraction)
    requires ValidLocalGraph(x)
    ensures Grounded(ChunkOps(chunk, x)) && forall k :: 0 <= k < |ChunkOps(chunk, x)| ==>
            ChunkOps(chunk, x)[k].chunk == chunk
  {
    var ops := ChunkOps(chunk, x);
    forall i | 0 <= i < |ops| && ops[i].EvidenceOp?
      ensures MentionedBefore(ops, i, ops[i].identity.source, chunk)
              && MentionedBefore(ops, i, ops[i].identity.target, chunk)
    {
      var rel := x.relations[i - |x.entities|];
      KeyIsMentioned(chunk, x, i, rel.sourceLocal);
      KeyIsMentioned(chunk, x, i, rel.targetLocal);
    }
  }

  lemma KeyIsMentioned(chunk: Id, x: Extraction, n: nat, localId: string)
    requires ValidLocalGraph(x) && |x.entities| <= n && Declares(x, localId)
    ensures x.entities[..|x.entities|] == x.entities
    ensures MentionedBefore(ChunkOps(chunk, x), n, KeyOf(x.entities, |x.entities|, localId), chunk)
  {
    assert x.entities[..|x.entities|] == x.entities;
    var key := KeyOf(x.entities, |x.entities|, localId);
    var e :| e in x.entities && e.localId == localId && e.key == key;
    var j :| 0 <= j < |x.entities| && x.entities[j] == e;
    assert ChunkOps(chunk, x)[j] == MentionOp(chunk, e);
  }

  /** The operations of the first `n` chunks to extract, in ordinal order. */
  function OpsOf(rows: map<Id, Chunk>, source: Id, ids: seq<Id>, p: Provider, n: nat): (ops: seq<Op>)
    requires n <= |ids| && ValidProvider(p) && forall id :: id in ids ==> id in rows
    ensures Grounded(ops) && OpsInChunks(ops, ids, n)
  {
    if n == 0 then []
    else
      var before := OpsOf(rows, source, ids, p, n - 1);
      var x := p.extract(source, rows[ids[n - 1]].ordinal);
      assert ExtractsValid(p, source, rows[ids[n - 1]].ordinal);
      ChunkOpsGrounded(ids[n - 1], x);
      GroundedConcat(before, ChunkOps(ids[n - 1], x));
      assert ids[..n] == ids[..n - 1] + [ids[n - 1]];
      before + ChunkOps(ids[n - 1], x)
  }

  function SourceOps(db: Db, source: Id, added: map<Id, Chunk>, p: Provider): (ops: seq<Op>)
    requires ValidProvider(p)
    ensures Grounded(ops) && forall k :: 0 <= k < |ops| ==> ops[k].chunk in ToExtract(db, source, added)
  {
    var rows := db.chunks + added;
    var ids := SortedBy(OrdinalRank(rows), ToExtract(db, source, added));
    var ops := OpsOf(rows, source, ids, p, |ids|);
    assert ids[..|ids|] == ids;
    ops
  }

  function Reserve(r: Resolver, count: nat): Resolver {
    r.(next := r.next + count)
  }

  /** _prepare_source and _resolve_source_knowledge. */
  function PlanSource(db: Db, r: Resolver, source: Id, document: Id, p: Provider): SourcePlan
    requires ValidProvider(p)
  {
    var added := NewChunks(source, document, r.next, AddedCount(db, source, p));
    var ops := SourceOps(db, source, added, p);
    SourcePlan(source, document, added, ToExtract(db, source, added), ops,
               PlannedFrom(db, Reserve(r, AddedCount(db, source, p)), ops, 0))
  }

  /** The resolver a planned source leaves behind. */
  function ResolverAfter(db: Db, r: Resolver, count: nat, ops: seq<Op>): Resolver {
    SeeFrom(db, Reserve(r, count), ops, 0)
  }

  datatype Batch = Batch(plans: seq<SourcePlan>, activate: seq<Id>, failed: seq<Id>, resolver: Resolver)

  /** One requested source; None when the request itself is invalid. */
  function PrepareOne(db: Db, b: Batch, source: Id, allowFailed: bool, p: Provider): Option<Batch>
    requires ValidProvider(p)
  {
    if source !in db.sources then None
    else
      match Decide(db, source, allowFailed)
      case NoDocument => None
      case Skip => Some(b)
      case Activate => Some(b.(activate := b.activate + [source]))
      case Process(document) =>
        if p.refused(source) then Some(b.(failed := b.failed + [source]))
        else Some(WithPlan(db, b, source, document, p))
  }

  function WithPlan(db: Db, b: Batch, source: Id, document: Id, p: Provider): Batch
    requires ValidProvider(p)
  {
    var plan := PlanSource(db, b.resolver, source, document, p);
    b.(plans := b.plans + [plan], resolver := ResolverAfter(db, b.resolver, AddedCount(db, source, p), plan.ops))
  }

  /** prepare_batch over the requested sources from the `n`th on. */
  function PrepareFrom(db: Db, b: Batch, sources: seq<Id>, allowFailed: bool, p: Provider, n: nat): Option<Batch>
    requires n <= |sources| && ValidProvider(p)
    decreases |sources| - n
  {
    if n == |sources| then Some(b)
    else
      var next := PrepareOne(db, b, sources[n], allowFailed, p);
      if next.None? then None else PrepareFrom(db, next.value, sources, allowFailed, p, n + 1)
  }

  function EmptyBatch(db: Db): Batch {
    Batch([], [], [], Resolver(map[], map[], db.next))
  }

  /* ----- persisting a batch ----- */

  function SetStatuses(db: Db, sources: seq<Id>, status: SourceStatus, n: nat): Db
    requires n <= |sources|
  {
    if n == 0 then db
    else
      var before := SetStatuses(db, sources, status, n - 1);
      if sources[n - 1] in before.sources then before.(sources := before.sources[sources[n - 1] := status]) else before
  }

  /** Which sources' savepoints roll back. */
  type Rollbacks = nat -> bool

  /** One source under its savepoint: rolled back, it is only marked FAILED. */
  function PersistOne(db: Db, r: Resolver, plan: SourcePlan, rollsBack: bool): Db {
    if rollsBack then SetStatuses(db, [plan.source], Failed, 1) else PersistSource(db, r, plan)
  }

  /** The plans from the `n`th on. */
  function PersistFrom(db: Db, r: Resolver, plans: seq<SourcePlan>, rollbacks: Rollbacks, n: nat): Db
    requires n <= |plans|
    decreases |plans| - n
  {
    if n == |plans| then db else PersistFrom(PersistOne(db, r, plans[n], rollbacks(n)), r, plans, rollbacks, n + 1)
  }

  /** The counters persist_batch sums over the sources that land. */
  function PersistedFrom(db: Db, r: Resolver, plans: seq<SourcePlan>, rollbacks: Rollbacks, n: nat): Counts
    requires n <= |plans|
    decreases |plans| - n
  {
    if n == |plans| then Counts(0, 0)
    else
      var rest := PersistedFrom(PersistOne(db, r, plans[n], rollbacks(n)), r, plans, rollbacks, n + 1);
      if rollbacks(n) then rest else Plus(SourceWork(db, r, plans[n]).created, rest)
  }

  /** The rows a batch is persisted on: the prepared ids are taken. */
  function Reserved(db: Db, r: Resolver): Db {
    db.(next := r.next)
  }

  function PlannedTotal(plans: seq<SourcePlan>, n: nat): Counts
    requires n <= |plans|
    decreases |plans| - n
  {
    if n == |plans| then Counts(0, 0) else Plus(plans[n].planned, PlannedTotal(plans, n + 1))
  }

  /** persist_batch */
  function PersistBatch(db: Db, batch: Batch, rollbacks: Rollbacks): Db {
    var persisted := PersistFrom(Reserved(db, batch.resolver), batch.resolver, batch.plans, rollbacks, 0);
    var activated := SetStatuses(persisted, batch.activate, Active, |batch.activate|);
    SetStatuses(activated, batch.failed, Failed, |batch.failed|)
  }

  /** The batch a request prepares, each source once; None when the request is invalid. */
  function BatchFor(db: Db, requested: seq<Id>, allowFailed: bool, p: Provider): Option<Batch>
    requires ValidProvider(p)
  {
    PrepareFrom(db, EmptyBatch(db), Distinct(requested, |requested|), allowFailed, p, 0)
  }

  /** A whole normal cognify: prepare without writing, then persist. */
  function Cognify(db: Db, requested: seq<Id>, allowFailed: bool, p: Provider, rollbacks: Rollbacks): Db
    requires ValidProvider(p)
  {
    match BatchFor(db, requested, allowFailed, p)
    case None => db
    case Some(batch) => PersistBatch(db, batch, rollbacks)
  }
}
