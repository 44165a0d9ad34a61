/**
 What a forget leaves of sources and documents: which are gone, and which get an empty document to start over from.
*/
module KnowledgeDocuments {
  import opened Ordering
  import opened KnowledgeStore
  import opened KnowledgeForget
  import opened KnowledgeCognify
  import opened KnowledgeRuns

  predicate HasDocument(db: Db, source: Id, document: Id) {
    document in db.documents && db.documents[document].active && db.documents[document].source == source
  }

  predicate HasDocuments(db: Db, source: Id) {
    exists document :: document in db.documents && HasDocument(db, source, document)
  }

  predicate NoDocuments(db: Db, source: Id) {
    forall document :: document in db.documents ==> !HasDocument(db, source, document)
  }

  /** The source's one active document is new and has nothing in it. */
  ghost predicate StartsOver(db: Db, after: Db, source: Id, empty: Id) {
    && empty !in db.documents && empty in after.documents && after.documents[empty] == Document(source, true, false)
    && (forall document :: document in after.documents && HasDocument(after, source, document) ==> document == empty)
  }

  /**
   A forget for memory only gives a source that had a document an empty one; a full forget, or one that had none,
   none.
  */
  ghost predicate LeavesDocuments(db: Db, after: Db, source: Id, memoryOnly: bool) {
    if memoryOnly && HasDocuments(db, source) then exists empty: Id :: StartsOver(db, after, source, empty)
    else NoDocuments(after, source)
  }

  predicate NoChunks(db: Db, source: Id) {
    forall c :: c in db.chunks && db.chunks[c].source == source ==> !db.chunks[c].active
  }

  /** The source's documents and chunks are as they were. */
  ghost predicate ContentStays(db: Db, after: Db, source: Id) {
    && (forall document :: document in db.documents && db.documents[document].source == source ==>
          document in after.documents && after.documents[document] == db.documents[document])
    && (forall document :: document in after.documents && after.documents[document].source == source ==>
          document in db.documents)
    && (forall c :: c in db.chunks && db.chunks[c].source == source ==>
          c in after.chunks && after.chunks[c] == db.chunks[c])
  }

  /* ----- source scope ----- */

  /**
   What is forgotten: anything but a source already DELETED or being deleted, or a PENDING one for its memory only.
  */
  predicate Forgettable(db: Db, source: Id, memoryOnly: bool) {
    && source in db.sources
    && (db.sources[source] == Active || db.sources[source] == Failed || (db.sources[source] == Pending && !memoryOnly))
  }

  /** The source's documents and chunks are inactive; everything else is as it was. */
  ghost predicate Emptied(db: Db, rows: Db, source: Id) {
    && rows.documents.Keys == db.documents.Keys && rows.chunks.Keys == db.chunks.Keys
    && (forall d :: d in db.documents ==>
          rows.documents[d] ==
          if db.documents[d].source == source then db.documents[d].(active := false) else db.documents[d])
    && (forall c :: c in db.chunks ==>
          rows.chunks[c] == if db.chunks[c].source == source then db.chunks[c].(active := false) else db.chunks[c])
  }

  lemma ForgetRowsEmpties(db: Db, source: Id)
    requires source in db.sources
    ensures var rows := ForgetRows(db, source).db;
            Emptied(db, rows, source) && rows.sources == db.sources[source := Deleting] && rows.next == db.next
  {
  }

  lemma EmptiedStays(db: Db, rows: Db, source: Id, after: Db, other: Id)
    requires Emptied(db, rows, source) && after.chunks == rows.chunks && other != source
    requires forall d :: d in rows.documents ==> d in after.documents && after.documents[d] == rows.documents[d]
    requires forall d :: d in after.documents && d !in rows.documents ==> after.documents[d].source == source
    ensures ContentStays(db, after, other)
  {
  }

  /** An empty document is added for the source. */
  ghost predicate WithEmpty(rows: Db, after: Db, source: Id) {
    rows.next !in rows.documents && after.documents == rows.documents[rows.next := Document(source, true, false)]
  }

  lemma EmptiedLeaves(db: Db, rows: Db, source: Id, memoryOnly: bool, after: Db)
    requires Emptied(db, rows, source) && after.chunks == rows.chunks
    requires if memoryOnly && HasDocuments(db, source) then WithEmpty(rows, after, source)
             else after.documents == rows.documents
    ensures NoChunks(after, source) && LeavesDocuments(db, after, source, memoryOnly)
  {
    if memoryOnly && HasDocuments(db, source) {
      assert StartsOver(db, after, source, rows.next);
    }
  }

  lemma HasDocumentsIs(db: Db, source: Id)
    ensures HasDocuments(db, source) <==> DocumentsOfSource(db, source) != {}
  {
    if HasDocuments(db, source) {
      var document :| document in db.documents && HasDocument(db, source, document);
      assert document in DocumentsOfSource(db, source);
    }
  }

  /**
   A source forget that has something to forget leaves the source DELETING with no active chunk, with an empty document
   exactly if it is for memory only and the source had one, and every other source as it was. Any other is a no-op.
  */
  lemma SourceForgetLeaves(db: Db, source: Id, memoryOnly: bool, after: Db, other: Id)
    requires Inv(db) && after == ForgetSource(db, source, memoryOnly)
    ensures if !Forgettable(db, source, memoryOnly) then after == db
            else
              && after.sources == db.sources[source := Deleting] && NoChunks(after, source)
              && LeavesDocuments(db, after, source, memoryOnly)
              && (other != source ==> ContentStays(db, after, other))
  {
    if Forgettable(db, source, memoryOnly) {
      var rows := ForgetRows(db, source).db;
      ForgetRowsEmpties(db, source);
      HasDocumentsIs(db, source);
      ForgetSourceEmpties(db, source, memoryOnly, rows, after);
      ForgottenLeaves(db, rows, source, memoryOnly, after, other);
    } else {
      NothingForgotten(db, source, memoryOnly);
    }
  }

  lemma NothingForgotten(db: Db, source: Id, memoryOnly: bool)
    requires !Forgettable(db, source, memoryOnly)
    ensures ForgetSource(db, source, memoryOnly) == db
  {
  }

  lemma ForgottenLeaves(db: Db, rows: Db, source: Id, memoryOnly: bool, after: Db, other: Id)
    requires Emptied(db, rows, source) && after.chunks == rows.chunks && after.sources == rows.sources
    requires rows.sources == db.sources[source := Deleting]
    requires if memoryOnly && HasDocuments(db, source) then WithEmpty(rows, after, source)
             else after.documents == rows.documents
    ensures after.sources == db.sources[source := Deleting] && NoChunks(after, source)
    ensures LeavesDocuments(db, after, source, memoryOnly) && (other != source ==> ContentStays(db, after, other))
  {
    EmptiedLeaves(db, rows, source, memoryOnly, after);
    if other != source { EmptiedStays(db, rows, source, after, other); }
  }

  lemma ForgetSourceEmpties(db: Db, source: Id, memoryOnly: bool, rows: Db, after: Db)
    requires IdsBelow(db) && Forgettable(db, source, memoryOnly) && after == ForgetSource(db, source, memoryOnly)
    requires rows == ForgetRows(db, source).db && rows.documents.Keys == db.documents.Keys && rows.next == db.next
    requires HasDocuments(db, source) <==> DocumentsOfSource(db, source) != {}
    ensures after.chunks == rows.chunks && after.sources == rows.sources
    ensures if memoryOnly && HasDocuments(db, source) then WithEmpty(rows, after, source)
            else after.documents == rows.documents
  {
  }

  /* ----- dataset scope ----- */

  /** The rows but for empty documents, one for each source of `sources`. */
  ghost predicate Resets(rows: Db, after: Db, sources: set<Id>) {
    && (forall d :: d in rows.documents ==> d in after.documents && after.documents[d] == rows.documents[d])
    && (forall d :: d in after.documents && d !in rows.documents ==>
          d >= rows.next && after.documents[d].source in sources
          && after.documents[d] == Document(after.documents[d].source, true, false))
    && (forall d, e :: d in after.documents && e in after.documents ==> !SameNew(rows, after, d, e))
    && (forall source :: source in sources ==> exists d :: d in after.documents && NewFor(rows, after, source, d))
    && after.sources == rows.sources && after.chunks == rows.chunks
  }

  /** Two added documents of one source. */
  predicate SameNew(rows: Db, after: Db, d: Id, e: Id)
    requires d in after.documents && e in after.documents
  {
    d != e && d !in rows.documents && e !in rows.documents && after.documents[d].source == after.documents[e].source
  }

  predicate NewFor(rows: Db, after: Db, source: Id, d: Id) {
    d !in rows.documents && d in after.documents && after.documents[d].source == source
  }

  lemma {:induction false} ResetSourcesResets(rows: Db, sources: set<Id>)
    requires forall d :: d in rows.documents ==> d < rows.next
    ensures Resets(rows, ResetSources(rows, sources), sources)
    decreases sources
  {
    if sources != {} {
      var source := First(_ => 0, sources);
      var next := WithResetDocument(rows, source);
      ResetSourcesResets(next, sources - {source});
      OneMoreReset(rows, source, next, ResetSources(next, sources - {source}), sources);
    }
  }

  lemma OneMoreReset(rows: Db, source: Id, next: Db, after: Db, sources: set<Id>)
    requires (forall d :: d in rows.documents ==> d < rows.next) && source in sources
    requires next == WithResetDocument(rows, source) && Resets(next, after, sources - {source})
    ensures Resets(rows, after, sources)
  {
    assert rows.next in after.documents && NewFor(rows, after, source, rows.next);
    forall other | other in sources ensures exists d :: d in after.documents && NewFor(rows, after, other, d) {
      if other != source { NewStays(rows, source, next, after, sources - {source}, other); }
    }
    forall d, e | d in after.documents && e in after.documents ensures !SameNew(rows, after, d, e) {
      assert !SameNew(next, after, d, e);
    }
  }

  lemma NewStays(rows: Db, source: Id, next: Db, after: Db, rest: set<Id>, other: Id)
    requires next == WithResetDocument(rows, source) && Resets(next, after, rest) && other in rest
    ensures exists d :: d in after.documents && NewFor(rows, after, other, d)
  {
    var d :| d in after.documents && NewFor(next, after, other, d);
    assert d !in rows.documents;
    assert NewFor(rows, after, other, d);
  }

  /** Every document and every chunk is inactive. */
  ghost predicate AllEmptied(db: Db, rows: Db) {
    && rows.documents.Keys == db.documents.Keys && rows.chunks.Keys == db.chunks.Keys
    && (forall d :: d in db.documents ==> rows.documents[d] == db.documents[d].(active := false))
    && (forall c :: c in db.chunks ==> rows.chunks[c] == db.chunks[c].(active := false))
  }

  lemma ForgetAllEmpties(db: Db)
    ensures var rows := ForgetAllRows(db);
            AllEmptied(db, rows) && rows.sources == AllDeleting(db.sources) && rows.next == db.next
  {
  }

  lemma ResetLeaves(db: Db, rows: Db, after: Db, source: Id)
    requires source in db.sources && AllEmptied(db, rows) && Resets(rows, after, SourcesWithDocuments(db))
    ensures NoChunks(after, source)
    ensures if db.sources[source] == Deleted then NoDocuments(after, source)
            else LeavesDocuments(db, after, source, true)
  {
    HasDocumentsIs(db, source);
    if source in SourcesWithDocuments(db) {
      var empty :| empty in after.documents && NewFor(rows, after, source, empty);
      forall document | document in after.documents && HasDocument(after, source, document) ensures document == empty {
        assert !SameNew(rows, after, document, empty);
      }
      assert StartsOver(db, after, source, empty);
    }
  }

  lemma AllEmptiedLeaves(db: Db, rows: Db, source: Id)
    requires AllEmptied(db, rows)
    ensures NoChunks(rows, source) && NoDocuments(rows, source)
  {
  }

  lemma OutboxAside(db: Db, a: Db, b: Db, source: Id, memoryOnly: bool)
    requires b == a.(outbox := b.outbox)
    ensures NoChunks(a, source) ==> NoChunks(b, source)
    ensures NoDocuments(a, source) ==> NoDocuments(b, source)
    ensures LeavesDocuments(db, a, source, memoryOnly) ==> LeavesDocuments(db, b, source, memoryOnly)
  {
    if memoryOnly && HasDocuments(db, source) && LeavesDocuments(db, a, source, memoryOnly) {
      var empty: Id :| StartsOver(db, a, source, empty);
      assert StartsOver(db, b, source, empty);
    }
  }

  /**
   A dataset forget leaves every source that was not DELETED already DELETING, none with an active chunk, and an empty
   document exactly where it is for memory only and such a source had one.
  */
  lemma DatasetForgetLeaves(db: Db, memoryOnly: bool, after: Db, source: Id)
    requires Inv(db) && source in db.sources && after == ForgetDataset(db, memoryOnly)
    ensures after.sources.Keys == db.sources.Keys && NoChunks(after, source)
    ensures if db.sources[source] == Deleted then after.sources[source] == Deleted && NoDocuments(after, source)
            else after.sources[source] == Deleting && LeavesDocuments(db, after, source, memoryOnly)
  {
    var rows := ForgetAllRows(db);
    ForgetAllEmpties(db);
    if memoryOnly {
      var reset := ResetSources(rows, SourcesWithDocuments(db));
      ResetSourcesResets(rows, SourcesWithDocuments(db));
      ResetLeaves(db, rows, reset, source);
      OutboxAside(db, reset, after, source, memoryOnly);
    } else {
      AllEmptiedLeaves(db, rows, source);
      OutboxAside(db, rows, after, source, memoryOnly);
    }
  }

  /* ----- and afterwards ----- */

  /** A forget's last step settles a DELETING source, as PENDING if it was for memory only and as DELETED if not. */
  lemma FinalizeSettles(db: Db, source: Id, pending: bool, id: Id)
    requires id in db.sources
    ensures var after := Finalized(db, source, pending);
            && after == db.(sources := after.sources) && id in after.sources
            && after.sources[id] ==
               if id == source && db.sources[id] == Deleting then (if pending then Pending else Deleted)
               else db.sources[id]
  {
  }

  lemma DecidedAnew(db: Db, source: Id, empty: Id, allowFailed: bool)
    requires source in db.sources && db.sources[source] == Pending && NoChunks(db, source)
    requires empty in db.documents && HasDocument(db, source, empty)
    requires forall document :: document in db.documents && HasDocument(db, source, document) ==> document == empty
    ensures Decide(db, source, allowFailed) == Process(empty)
  {
    assert DocumentsOfSource(db, source) == {empty};
    assert ChunksOf(db, source) == {};
  }

  /** Forgotten for its memory only and settled, a source is there to be cognified from its empty document. */
  lemma ForgottenMemoryStartsOver(db: Db, source: Id, allowFailed: bool, after: Db, settled: Db)
    requires Inv(db) && Forgettable(db, source, true) && HasDocuments(db, source)
    requires after == ForgetSource(db, source, true) && settled == Finalized(after, source, true)
    ensures source in settled.sources
    ensures var d := Decide(settled, source, allowFailed);
            d.Process? && StartsOver(db, settled, source, d.document)
  {
    SourceForgetLeaves(db, source, true, after, source);
    FinalizeSettles(after, source, true, source);
    var empty: Id :| StartsOver(db, after, source, empty);
    SettledAnew(db, after, source, empty, settled);
    DecidedAnew(settled, source, empty, allowFailed);
  }

  lemma SettledAnew(db: Db, after: Db, source: Id, empty: Id, settled: Db)
    requires StartsOver(db, after, source, empty) && NoChunks(after, source)
    requires settled == after.(sources := settled.sources)
    ensures StartsOver(db, settled, source, empty) && NoChunks(settled, source) && HasDocument(settled, source, empty)
  {
  }

  /** A source forgotten in full and settled is never cognified again. */
  lemma DeletedStaysDeleted(db: Db, source: Id, allowFailed: bool, settled: Db)
    requires Inv(db) && Forgettable(db, source, false)
    requires settled == Finalized(ForgetSource(db, source, false), source, false)
    ensures source in settled.sources && settled.sources[source] == Deleted
            && Decide(settled, source, allowFailed) == Skip
  {
    SourceForgetLeaves(db, source, false, ForgetSource(db, source, false), source);
  }
}
