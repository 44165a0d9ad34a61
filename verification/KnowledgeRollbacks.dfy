/** What a rolled back source leaves behind: no row, no mention and no evidence, but its words in another's row. */
module KnowledgeRollbacks {
  import opened Wrappers
  import opened Ordering
  import opened KnowledgeStore
  import opened KnowledgeForget
  import opened KnowledgeCognify
  import opened KnowledgeCognifySafety
  import opened KnowledgeCognifyTheorems
  import opened KnowledgeRuns
  import opened KnowledgeFailures
  import opened KnowledgeExtraction
  import opened KnowledgeArrivals
  import opened KnowledgeTold
  import opened KnowledgeLanding
  import opened KnowledgeContents

  /** Each source calls Ada by a name of its own. */
  function NameFrom(source: Id): string {
    if source == 0 then "Ada, says the first" else "Ada, says the second"
  }

  function Naming(): Provider {
    Provider(NoneRefused, _ => 1, (source: Id, ordinal: nat) => Extraction([Ada.(data := NameFrom(source))], []))
  }

  const FirstFails: Rollbacks := j => j == 0

  lemma NamingIsValid()
    ensures ValidProvider(Naming())
  {
    forall source, ordinal ensures ExtractsValid(Naming(), source, ordinal) {
    }
  }

  /* ----- the first that is heard names a new entity ----- */

  lemma {:induction false} FirstIsHeard(heard: seq<Op>, k: Key)
    ensures match FirstData(heard, k)
            case Some(data) =>
              exists j :: 0 <= j < |heard| && heard[j].MentionOp? && heard[j].entity.key == k
                  && heard[j].entity.data == data
            case None => forall j :: 0 <= j < |heard| && heard[j].MentionOp? ==> heard[j].entity.key != k
  {
    if heard != [] {
      var n := |heard| - 1;
      FirstIsHeard(heard[..n], k);
      assert forall j :: 0 <= j < n ==> heard[..n][j] == heard[j];
    }
  }

  lemma {:induction false} FirstOfBoth(a: seq<Op>, b: seq<Op>, k: Key)
    ensures FirstData(a + b, k) == if FirstData(a, k).Some? then FirstData(a, k) else FirstData(b, k)
    decreases |b|
  {
    if b == [] {
      assert a + b == a;
    } else {
      var n := |b| - 1;
      FirstOfBoth(a, b[..n], k);
      assert (a + b)[..|a + b| - 1] == a + b[..n] && (a + b)[|a + b| - 1] == b[n];
    }
  }

  lemma NamedByExtraction(source: Id, ordinal: nat, op: Op)
    requires States(Naming().extract(source, ordinal), op)
    ensures op.MentionOp? ==> op.entity.data == NameFrom(source)
  {
  }

  lemma OpIsNamed(db: Db, plan: SourcePlan, p: Provider, op: Op)
    requires p == Naming() && ValidProvider(p) && IsPlan(db, plan, p) && op in plan.ops
    ensures op.MentionOp? ==> op.entity.data == NameFrom(plan.source)
  {
    var ordinal := PlanOpStated(db, plan, p, op);
    NamedByExtraction(plan.source, ordinal, op);
  }

  lemma AdaIsMentioned(db: Db, plan: SourcePlan, p: Provider) returns (c: Id)
    requires p == Naming() && ValidProvider(p) && IsPlan(db, plan, p) && ChunksOf(db, plan.source) == {}
    ensures MentionedBefore(plan.ops, |plan.ops|, Ada.key, c)
  {
    c := PlanChunks(db, plan, p);
    FirstIsAdded(plan, c);
    PlanTells(db, plan, p, Ada.key, Identity("", "", ""), c);
    SaysAda(plan.source, (db.chunks + plan.added)[c].ordinal);
  }

  lemma FirstIsAdded(plan: SourcePlan, c: Id)
    requires plan.extracted == plan.added.Keys && plan.added == NewChunks(plan.source, plan.document, c, 1)
    ensures c in plan.extracted && c in plan.added
  {
  }

  lemma SaysAda(source: Id, ordinal: nat)
    ensures Says(Naming().extract(source, ordinal), Ada.key)
  {
    var x := Naming().extract(source, ordinal);
    assert x.entities[0] in x.entities;
  }

  lemma FirstIsNamed(ops: seq<Op>, c: Id, name: string)
    requires MentionedBefore(ops, |ops|, Ada.key, c)
    requires forall op :: op in ops && op.MentionOp? ==> op.entity.data == name
    ensures FirstData(ops, Ada.key) == Some(name)
  {
    FirstIsHeard(ops, Ada.key);
  }

  /** A source that has no chunks yet mentions Ada, and by its own name. */
  lemma FirstMentionsAda(db: Db, plan: SourcePlan, p: Provider)
    requires p == Naming() && ValidProvider(p) && IsPlan(db, plan, p) && ChunksOf(db, plan.source) == {}
    ensures FirstData(plan.ops, Ada.key) == Some(NameFrom(plan.source))
  {
    var c := AdaIsMentioned(db, plan, p);
    forall op | op in plan.ops && op.MentionOp? ensures op.entity.data == NameFrom(plan.source) {
      OpIsNamed(db, plan, p, op);
    }
    FirstIsNamed(plan.ops, c, NameFrom(plan.source));
  }

  /* ----- a batch of two ----- */

  lemma DistinctTwo()
    ensures Distinct([0, 1], 2) == [0, 1]
  {
    assert Distinct([0, 1], 0) == [] && Distinct([0, 1], 1) == [0];
  }

  /** Both sources are planned, in the order they were asked for. */
  lemma TwoArePlanned(db: Db, p: Provider)
    requires db == TwoRemembered() && p == Naming() && ValidProvider(p)
    ensures BatchFor(db, [0, 1], false, p).Some?
    ensures var plans := BatchFor(db, [0, 1], false, p).value.plans;
            |plans| == 2 && plans[0].source == 0 && plans[1].source == 1
  {
    TwoAreUnread();
    DistinctTwo();
    FirstDecision(db, 0, 0);
    FirstDecision(db, 1, 1);
    var none := EmptyBatch(db);
    var one := WithPlan(db, none, 0, 0, p);
    var two := WithPlan(db, one, 1, 1, p);
    Prepared(db, none, 0, 0, p, one);
    Prepared(db, one, 1, 1, p, two);
    PreparedTwo(db, none, one, two, p);
    PlansAppended(db, none, 0, 0, p, one);
    PlansAppended(db, one, 1, 1, p, two);
  }

  lemma PreparedTwo(db: Db, none: Batch, one: Batch, two: Batch, p: Provider)
    requires ValidProvider(p)
    requires PrepareOne(db, none, 0, false, p) == Some(one) && PrepareOne(db, one, 1, false, p) == Some(two)
    ensures PrepareFrom(db, none, [0, 1], false, p, 0) == Some(two)
  {
    assert PrepareFrom(db, two, [0, 1], false, p, 2) == Some(two);
    assert PrepareFrom(db, one, [0, 1], false, p, 1) == Some(two);
  }

  lemma PlansAppended(db: Db, b: Batch, source: Id, document: Id, p: Provider, next: Batch)
    requires ValidProvider(p) && next == WithPlan(db, b, source, document, p)
    ensures |next.plans| == |b.plans| + 1 && next.plans[..|b.plans|] == b.plans
    ensures next.plans[|b.plans|].source == source
  {
  }

  /* ----- the counterexample ----- */

  lemma SecondLands(db: Db, p: Provider)
    requires db == TwoRemembered() && p == Naming() && ValidProvider(p)
    ensures Lands(db, [0, 1], false, p, FirstFails, 1) && !Lands(db, [0, 1], false, p, FirstFails, 0)
  {
    TwoArePlanned(db, p);
    TwoRows();
    TwoAreUnread();
    FirstDecision(db, 1, 1);
    var plans := BatchFor(db, [0, 1], false, p).value.plans;
    assert plans[0].source == 0 && FirstFails(0);
  }

  lemma AdaArrives(db: Db, p: Provider, after: Db) returns (id: Id, c: Id)
    requires db == TwoRemembered() && Inv(db) && p == Naming() && ValidProvider(p)
    requires after == Cognify(db, [0, 1], false, p, FirstFails)
    ensures KeyedEntity(after, id, Ada.key) && HasMention(after, id, c)
    ensures c in ChunksOf(after, 1) && ChunksOf(after, 0) == {}
  {
    SecondLands(db, p);
    TwoRows();
    var document, first := LandedSourceIsDone(db, [0, 1], false, p, FirstFails, after, 1);
    assert !HasChunks(db, 1);
    c := first;
    assert c in ChunksOf(after, 1) && NewlyRead(db.chunks, after.chunks, c);
    var x := Said(p, after.chunks[c]);
    assert x.entities[0] in x.entities;
    id := SaidEntityArrives(db, [0, 1], false, p, FirstFails, after, c, x.entities[0]);
    UnlandedSourceIsKept(db, [0, 1], false, p, FirstFails, after, 0);
  }

  lemma FirstIsFirst(db: Db, p: Provider)
    requires db == TwoRemembered() && p == Naming() && ValidProvider(p)
    ensures var batch := BatchFor(db, [0, 1], false, p);
            batch.Some? && FirstData(HeardBy(batch.value.plans), Ada.key) == Some(NameFrom(0))
  {
    TwoArePlanned(db, p);
    TwoRows();
    BatchPlansAre(db, [0, 1], false, p);
    var plans := BatchFor(db, [0, 1], false, p).value.plans;
    assert IsPlan(db, plans[0], p);
    FirstMentionsAda(db, plans[0], p);
    HeardByTwo(plans);
    FirstOfBoth(plans[0].ops, plans[1].ops, Ada.key);
  }

  lemma HeardByTwo(plans: seq<SourcePlan>)
    requires |plans| == 2
    ensures HeardBy(plans) == plans[0].ops + plans[1].ops
  {
    assert plans[..1][..0] == [] && HeardBy(plans[..1]) == [] + plans[0].ops;
  }

  /**
   A source that rolls back leaves no chunk and no mention, but a name it gave can stay: of two sources that mention
   the same new entity the first rolls back, and the row the second leaves carries the name the first gave.
  */
  lemma RolledBackNameStays() returns (after: Db, id: Id, c: Id)
    ensures ValidProvider(Naming()) && after == Cognify(TwoRemembered(), [0, 1], false, Naming(), FirstFails)
    ensures ChunksOf(after, 0) == {} && c in ChunksOf(after, 1) && HasMention(after, id, c)
    ensures LiveEntity(after, id) && after.entities[id].data == NameFrom(0) != NameFrom(1)
  {
    var db, p := TwoRemembered(), Naming();
    NamingIsValid();
    TwoAreGood();
    TwoRows();
    after := Cognify(db, [0, 1], false, p, FirstFails);
    id, c := AdaArrives(db, p, after);
    FirstIsFirst(db, p);
    EntityNamed(db, p, after, id);
  }

  lemma EntityNamed(db: Db, p: Provider, after: Db, id: Id)
    requires db == TwoRemembered() && Inv(db) && p == Naming() && ValidProvider(p)
    requires after == Cognify(db, [0, 1], false, p, FirstFails) && KeyedEntity(after, id, Ada.key)
    requires var batch := BatchFor(db, [0, 1], false, p);
             batch.Some? && FirstData(HeardBy(batch.value.plans), Ada.key) == Some(NameFrom(0))
    ensures after.entities[id].data == NameFrom(0)
  {
    CognifyFromHeard(db, [0, 1], false, p, FirstFails, after, Ada.key, Identity(Ada.key, Ada.key, ""));
    CognifyKeeps(db, [0, 1], false, p, FirstFails, after);
    KeyLookup(after, id);
    assert db.entities == map[];
  }
}
