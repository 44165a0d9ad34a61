/** A cognify told by what the provider extracted: what each chunk says arrives, and nothing else does. */
module KnowledgeExtraction {
  import opened Ordering
  import opened KnowledgeStore
  import opened KnowledgeForget
  import opened KnowledgeCognify
  import opened KnowledgeCognifySource

  /* ----- what an extraction says ----- */

  /** It declares an entity under the key. */
  ghost predicate Says(x: Extraction, key: Key) {
    exists e :: e in x.entities && e.key == key
  }

  /** The local id is that of a declared entity with the key. */
  ghost predicate Names(x: Extraction, localId: string, key: Key) {
    exists e :: e in x.entities && e.localId == localId && e.key == key
  }

  /** One relation of an extraction is the one the identity asks for. */
  ghost predicate RelatesBy(x: Extraction, r: ExtractedRelation, i: Identity) {
    r.predicateName == i.predicateName && Names(x, r.sourceLocal, i.source) && Names(x, r.targetLocal, i.target)
  }

  /** It relates what `i.source` names to what `i.target` names, in that direction. */
  ghost predicate Relates(x: Extraction, i: Identity) {
    exists r :: r in x.relations && RelatesBy(x, r, i)
  }

  /* ----- operations say what extractions say ----- */

  lemma NamesIsKeyOf(x: Extraction, localId: string, key: Key)
    requires ValidLocalGraph(x) && Declares(x, localId)
    ensures x.entities[..|x.entities|] == x.entities
    ensures Names(x, localId, key) <==> KeyOf(x.entities, |x.entities|, localId) == key
  {
    assert x.entities[..|x.entities|] == x.entities;
    var declared := KeyOf(x.entities, |x.entities|, localId);
    var d :| d in x.entities && d.localId == localId && d.key == declared;
  }

  lemma MentionOpsSay(chunk: Id, entities: seq<ExtractedEntity>, k: Key, c: Id)
    ensures var ops := MentionOps(chunk, entities);
            MentionedBefore(ops, |ops|, k, c) <==> c == chunk && exists e :: e in entities && e.key == k
  {
    var ops := MentionOps(chunk, entities);
    if c == chunk && exists e :: e in entities && e.key == k {
      var e :| e in entities && e.key == k;
      var j :| 0 <= j < |entities| && entities[j] == e;
      assert ops[j] == MentionOp(chunk, e);
    }
  }

  lemma IdentitySays(x: Extraction, r: ExtractedRelation, i: Identity)
    requires ValidLocalGraph(x) && r in x.relations
    ensures Declares(x, r.sourceLocal) && Declares(x, r.targetLocal)
    ensures IdentityOf(x, r) == i <==> RelatesBy(x, r, i)
  {
    NamesIsKeyOf(x, r.sourceLocal, i.source);
    NamesIsKeyOf(x, r.targetLocal, i.target);
  }

  /** The operation is the one made of the relation, as far as `i` can tell. */
  ghost predicate SaysRelation(op: Op, chunk: Id, x: Extraction, r: ExtractedRelation, i: Identity) {
    op.EvidenceOp? && op.chunk == chunk && (op.identity == i <==> RelatesBy(x, r, i))
  }

  lemma EvidenceOpSays(chunk: Id, x: Extraction, j: nat, i: Identity)
    requires ValidLocalGraph(x) && j < |x.relations|
    ensures SaysRelation(EvidenceOps(chunk, x)[j], chunk, x, x.relations[j], i)
  {
    IdentitySays(x, x.relations[j], i);
  }

  lemma EvidencedByRelations(ops: seq<Op>, chunk: Id, x: Extraction, i: Identity, c: Id)
    requires |ops| == |x.relations|
    requires forall j :: 0 <= j < |ops| ==> SaysRelation(ops[j], chunk, x, x.relations[j], i)
    ensures EvidencedBefore(ops, |ops|, i, c) <==> c == chunk && Relates(x, i)
  {
    if EvidencedBefore(ops, |ops|, i, c) {
      var j :| 0 <= j < |ops| && ops[j].EvidenceOp? && ops[j].identity == i && ops[j].chunk == c;
      assert SaysRelation(ops[j], chunk, x, x.relations[j], i);
    }
    if c == chunk && Relates(x, i) {
      var r :| r in x.relations && RelatesBy(x, r, i);
      var j :| 0 <= j < |x.relations| && x.relations[j] == r;
      assert SaysRelation(ops[j], chunk, x, x.relations[j], i);
    }
  }

  lemma EvidenceOpsSay(chunk: Id, x: Extraction, i: Identity, c: Id)
    requires ValidLocalGraph(x)
    ensures var ops := EvidenceOps(chunk, x); EvidencedBefore(ops, |ops|, i, c) <==> c == chunk && Relates(x, i)
  {
    var ops := EvidenceOps(chunk, x);
    forall j | 0 <= j < |ops| ensures SaysRelation(ops[j], chunk, x, x.relations[j], i) {
      EvidenceOpSays(chunk, x, j, i);
    }
    EvidencedByRelations(ops, chunk, x, i, c);
  }

  lemma MentionedConcat(a: seq<Op>, b: seq<Op>, k: Key, c: Id)
    ensures MentionedBefore(a + b, |a + b|, k, c) <==> MentionedBefore(a, |a|, k, c) || MentionedBefore(b, |b|, k, c)
  {
    var all := a + b;
    assert forall j :: 0 <= j < |a| ==> all[j] == a[j];
    assert forall j :: 0 <= j < |b| ==> all[|a| + j] == b[j];
    if MentionedBefore(all, |all|, k, c) {
      var j :| 0 <= j < |all| && all[j].MentionOp? && all[j].entity.key == k && all[j].chunk == c;
      if j >= |a| { assert all[j] == b[j - |a|]; }
    }
  }

  lemma EvidencedConcat(a: seq<Op>, b: seq<Op>, i: Identity, c: Id)
    ensures EvidencedBefore(a + b, |a + b|, i, c) <==> EvidencedBefore(a, |a|, i, c) || EvidencedBefore(b, |b|, i, c)
  {
    var all := a + b;
    assert forall j :: 0 <= j < |a| ==> all[j] == a[j];
    assert forall j :: 0 <= j < |b| ==> all[|a| + j] == b[j];
    if EvidencedBefore(all, |all|, i, c) {
      var j :| 0 <= j < |all| && all[j].EvidenceOp? && all[j].identity == i && all[j].chunk == c;
      if j >= |a| { assert all[j] == b[j - |a|]; }
    }
  }

  lemma ChunkOpsSay(chunk: Id, x: Extraction, k: Key, i: Identity, c: Id)
    requires ValidLocalGraph(x)
    ensures var ops := ChunkOps(chunk, x);
            && (MentionedBefore(ops, |ops|, k, c) <==> c == chunk && Says(x, k))
            && (EvidencedBefore(ops, |ops|, i, c) <==> c == chunk && Relates(x, i))
  {
    var mentions, evidence := MentionOps(chunk, x.entities), EvidenceOps(chunk, x);
    MentionOpsSay(chunk, x.entities, k, c);
    EvidenceOpsSay(chunk, x, i, c);
    MentionedConcat(mentions, evidence, k, c);
    EvidencedConcat(mentions, evidence, i, c);
  }

  /** What the provider extracts from a chunk row. */
  function ReadFrom(p: Provider, source: Id, row: Chunk): Extraction {
    p.extract(source, row.ordinal)
  }

  ghost predicate OpsSay(
      ops: seq<Op>, rows: map<Id, Chunk>, source: Id, ids: seq<Id>, p: Provider, k: Key, i: Identity, c: Id)
    requires forall id :: id in ids ==> id in rows
  {
    && (MentionedBefore(ops, |ops|, k, c) <==> c in ids && Says(ReadFrom(p, source, rows[c]), k))
    && (EvidencedBefore(ops, |ops|, i, c) <==> c in ids && Relates(ReadFrom(p, source, rows[c]), i))
  }

  lemma {:induction false} OpsOfSay(
      rows: map<Id, Chunk>, source: Id, ids: seq<Id>, p: Provider, n: nat, k: Key, i: Identity, c: Id)
    requires n <= |ids| && ValidProvider(p) && forall id :: id in ids ==> id in rows
    ensures OpsSay(OpsOf(rows, source, ids, p, n), rows, source, ids[..n], p, k, i, c)
  {
    if n > 0 {
      var last := ids[n - 1];
      var before, x := OpsOf(rows, source, ids, p, n - 1), p.extract(source, rows[last].ordinal);
      OpsOfSay(rows, source, ids, p, n - 1, k, i, c);
      assert ExtractsValid(p, source, rows[last].ordinal);
      ChunkOpsSay(last, x, k, i, c);
      MentionedConcat(before, ChunkOps(last, x), k, c);
      EvidencedConcat(before, ChunkOps(last, x), i, c);
      assert ids[..n] == ids[..n - 1] + [last];
    }
  }

  /** The plan reads its chunks and nothing else. */
  ghost predicate PlanReads(db: Db, plan: SourcePlan, p: Provider, k: Key, i: Identity, c: Id) {
    var rows := db.chunks + plan.added;
    && (MentionedBefore(plan.ops, |plan.ops|, k, c) <==>
          c in plan.extracted && c in rows && Says(ReadFrom(p, plan.source, rows[c]), k))
    && (EvidencedBefore(plan.ops, |plan.ops|, i, c) <==>
          c in plan.extracted && c in rows && Relates(ReadFrom(p, plan.source, rows[c]), i))
  }

  lemma SourceOpsSay(db: Db, source: Id, added: map<Id, Chunk>, p: Provider, k: Key, i: Identity, c: Id)
    requires ValidProvider(p)
    ensures var ops, rows := SourceOps(db, source, added, p), db.chunks + added;
            var ids := SortedBy(OrdinalRank(rows), ToExtract(db, source, added));
            (forall id :: id in ids ==> id in rows) && OpsSay(ops, rows, source, ids, p, k, i, c)
  {
    var rows := db.chunks + added;
    var ids := SortedBy(OrdinalRank(rows), ToExtract(db, source, added));
    assert forall id :: id in ids ==> id in rows;
    OpsOfSay(rows, source, ids, p, |ids|, k, i, c);
    assert ids[..|ids|] == ids;
  }

  lemma PlanSaysWhatItReads(db: Db, plan: SourcePlan, p: Provider, k: Key, i: Identity, c: Id)
    requires ValidProvider(p) && plan.ops == SourceOps(db, plan.source, plan.added, p)
    requires plan.extracted == ToExtract(db, plan.source, plan.added)
    ensures PlanReads(db, plan, p, k, i, c)
  {
    SourceOpsSay(db, plan.source, plan.added, p, k, i, c);
  }
}
