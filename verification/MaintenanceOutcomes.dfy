/** What a maintenance pass leaves of every row and tells the projection, with weights and degrees written out. */
module MaintenanceOutcomes {
  import opened Ordering
  import opened Importance
  import opened GraphMaintenance

  /* ----- the blend ----- */

  function Clipped(x: real): real {
    if x < 0.0 then 0.0 else if x > 1.0 then 1.0 else x
  }

  predicate Rounded(round4: Rounding, x: real) {
    0.0 <= x <= 1.0 && round4(x) == x
  }

  ghost predicate GrowingRounding(round4: Rounding) {
    forall x, y :: x <= y ==> round4(x) <= round4(y)
  }

  /** Of weights already in range and rounded, the effective weight is the rounded mean. */
  lemma EffectiveIsTheMean(round4: Rounding, feedback: real, centrality: real)
    requires Rounded(round4, feedback) && Rounded(round4, centrality)
    ensures Effective(round4, feedback, centrality) == round4((feedback + centrality) / 2.0)
  {
  }

  /** Others are clipped first. */
  lemma EffectiveClips(round4: Rounding, feedback: real, centrality: real)
    ensures Effective(round4, feedback, centrality) ==
            round4((round4(Clipped(feedback)) + round4(Clipped(centrality))) / 2.0)
  {
  }

  /** More feedback or more centrality never lowers the effective weight. */
  lemma EffectiveGrows(round4: Rounding, feedback: real, more: real, centrality: real, further: real)
    requires GrowingRounding(round4) && feedback <= more && centrality <= further
    ensures Effective(round4, feedback, centrality) <= Effective(round4, more, further)
  {
    EffectiveClips(round4, feedback, centrality);
    EffectiveClips(round4, more, further);
    assert round4(Clipped(feedback)) <= round4(Clipped(more));
    assert round4(Clipped(centrality)) <= round4(Clipped(further));
  }

  /** Feedback comes from a marker of this version with two weights in [0, 1], and otherwise from the row's weight. */
  lemma FeedbackIs(round4: Rounding, row: Row)
    ensures FeedbackOf(round4, row) ==
            var key := "_sofias_memory_importance";
            if key in row.properties && row.properties[key].Marker? && row.properties[key].version == "degree-v1"
               && row.properties[key].feedback.Number? && 0.0 <= row.properties[key].feedback.value <= 1.0
               && row.properties[key].centrality.Number? && 0.0 <= row.properties[key].centrality.value <= 1.0
            then round4(row.properties[key].feedback.value) else round4(Clipped(row.weight))
  {
  }

  /**
   The row afterwards carries the marker of its feedback and centrality and their mean, and all its other properties.
  */
  ghost predicate IsRefreshed(round4: Rounding, before: Row, after: Row, centrality: real) {
    var key, feedback := "_sofias_memory_importance", FeedbackOf(round4, before);
    && key in after.properties
    && after.properties[key] == Marker("degree-v1", Number(feedback), Number(centrality), map[])
    && (forall k :: k != key ==> (k in after.properties <==> k in before.properties))
    && (forall k :: k != key && k in before.properties ==> after.properties[k] == before.properties[k])
    && round4(after.weight) == round4((feedback + centrality) / 2.0)
  }

  lemma RefreshedIs(round4: Rounding, row: Row, centrality: real)
    requires ValidRounding(round4) && Rounded(round4, centrality)
    ensures IsRefreshed(round4, row, Refreshed(round4, row, centrality), centrality)
  {
    FeedbackIsRounded(round4, row);
    EffectiveIsTheMean(round4, FeedbackOf(round4, row), centrality);
  }

  lemma FeedbackIsRounded(round4: Rounding, row: Row)
    requires ValidRounding(round4)
    ensures Rounded(round4, FeedbackOf(round4, row))
  {
    FeedbackIs(round4, row);
    ClampBounds(round4, row.weight);
  }

  /* ----- degrees ----- */

  /** Positions of the listing, among the first `n`, of supported relations that join `id` to another entity. */
  function Joining(g: Graph, evidence: set<Id>, n: nat, id: Id): set<int>
    requires n <= |g.order|
  {
    set i | 0 <= i < n && Joins(g, evidence, g.order[i], id)
  }

  predicate Joins(g: Graph, evidence: set<Id>, relation: Id, id: Id) {
    && Listed(g, relation) && relation in evidence
    && var ends := g.relations[relation].data.ends;
       ends.source != ends.target && (ends.source == id || ends.target == id)
  }

  function KeptAmong(g: Graph, evidence: set<Id>, n: nat): (kept: seq<Id>)
    requires n <= |g.order|
    ensures forall id :: id in kept ==> id in g.relations
  {
    Having(Listing(g, n), evidence, true)
  }

  lemma {:induction false} DegreePrefix(a: seq<Endpoints>, b: seq<Endpoints>, n: nat, id: Id)
    requires n <= |a| && n <= |b| && a[..n] == b[..n]
    ensures Degree(a, n, id) == Degree(b, n, id)
  {
    if n > 0 {
      assert a[..n - 1] == a[..n][..n - 1] && b[..n - 1] == b[..n][..n - 1];
      DegreePrefix(a, b, n - 1, id);
      assert a[n - 1] == a[..n][n - 1] && b[n - 1] == b[..n][n - 1];
    }
  }

  lemma KeptStep(g: Graph, evidence: set<Id>, n: nat)
    requires 0 < n <= |g.order|
    ensures KeptAmong(g, evidence, n) ==
            KeptAmong(g, evidence, n - 1)
            + (if Listed(g, g.order[n - 1]) && g.order[n - 1] in evidence then [g.order[n - 1]] else [])
  {
    var shorter, all := Listing(g, n - 1), Listing(g, n);
    if all != shorter {
      assert all[..|all| - 1] == shorter;
    }
  }

  lemma DegreeStep(g: Graph, kept: seq<Id>, relation: Id, id: Id)
    requires (forall r :: r in kept ==> r in g.relations) && relation in g.relations
    ensures var ends := EndsOf(g, kept + [relation]);
            Degree(ends, |ends|, id) ==
            Degree(EndsOf(g, kept), |kept|, id) + (if Touches(g.relations[relation].data.ends, id) then 1 else 0)
  {
    var all := kept + [relation];
    var ends := EndsOf(g, all);
    assert ends[..|kept|] == EndsOf(g, kept)[..|kept|] by {
      forall i | 0 <= i < |kept| ensures ends[i] == EndsOf(g, kept)[i] {
        assert all[i] == kept[i];
      }
    }
    DegreePrefix(ends, EndsOf(g, kept), |kept|, id);
    assert all[|kept|] == relation;
  }

  lemma JoiningStep(g: Graph, evidence: set<Id>, n: nat, id: Id)
    requires 0 < n <= |g.order|
    ensures |Joining(g, evidence, n, id)| ==
            |Joining(g, evidence, n - 1, id)| + (if Joins(g, evidence, g.order[n - 1], id) then 1 else 0)
  {
    var before := Joining(g, evidence, n - 1, id);
    assert Joining(g, evidence, n, id) == if Joins(g, evidence, g.order[n - 1], id) then before + {n - 1} else before;
  }

  /** A degree is the number of supported relations that join the entity to another. */
  lemma {:induction false} DegreeIsCount(g: Graph, evidence: set<Id>, n: nat, id: Id)
    requires n <= |g.order|
    ensures var ends := EndsOf(g, KeptAmong(g, evidence, n)); Degree(ends, |ends|, id) == |Joining(g, evidence, n, id)|
  {
    if n > 0 {
      DegreeIsCount(g, evidence, n - 1, id);
      KeptStep(g, evidence, n);
      JoiningStep(g, evidence, n, id);
      var relation := g.order[n - 1];
      var shorter := KeptAmong(g, evidence, n - 1);
      if Listed(g, relation) && relation in evidence {
        assert KeptAmong(g, evidence, n) == shorter + [relation];
        DegreeStep(g, shorter, relation, id);
        assert Touches(g.relations[relation].data.ends, id) <==> Joins(g, evidence, relation, id);
      } else {
        assert KeptAmong(g, evidence, n) == shorter;
      }
    } else {
      assert Joining(g, evidence, 0, id) == {};
    }
  }

  function DegreeIn(g: Graph, evidence: set<Id>, id: Id): nat {
    |Joining(g, evidence, |g.order|, id)|
  }

  /** The entity's degree over the largest of any listed entity, rounded; zero where no entity has one. */
  ghost predicate IsCentrality(round4: Rounding, g: Graph, evidence: set<Id>, id: Id, weight: real) {
    if exists other :: other in ListedEntities(g) && DegreeIn(g, evidence, other) > 0 then
      exists top :: top in ListedEntities(g) && DegreeIn(g, evidence, top) > 0
        && (forall other :: other in ListedEntities(g) ==> DegreeIn(g, evidence, other) <= DegreeIn(g, evidence, top))
        && weight == round4(DegreeIn(g, evidence, id) as real / DegreeIn(g, evidence, top) as real)
    else weight == 0.0
  }

  lemma CentralityIs(round4: Rounding, g: Graph, evidence: set<Id>, id: Id)
    requires id in ListedEntities(g)
    ensures IsCentrality(round4, g, evidence, id, EntityWeights(round4, g, evidence)[id])
  {
    var ids, ends := ListedEntities(g), EndsOf(g, Kept(g, evidence));
    forall other: Id ensures Degree(ends, |ends|, other) == DegreeIn(g, evidence, other) {
      DegreeIsCount(g, evidence, |g.order|, other);
    }
    var most := MostConnected(ids, ends);
    if most > 0 {
      var top :| top in ids && Degree(ends, |ends|, top) == most;
      assert DegreeIn(g, evidence, top) == most;
    }
  }

  /* ----- a pass, row by row ----- */

  /** A listed relation without evidence. */
  predicate Unsupported(g: Graph, evidence: set<Id>, id: Id) {
    Listed(g, id) && id !in evidence
  }

  function WeightIn(round4: Rounding, g: Graph, evidence: set<Id>, id: Id): real {
    WeightOf(EntityWeights(round4, g, evidence), id)
  }

  lemma UnsupportedAre(g: Graph, evidence: set<Id>, id: Id)
    requires id in g.order
    ensures id in Having(Listing(g, |g.order|), evidence, false) <==> Unsupported(g, evidence, id)
    ensures id in KeptIds(g, evidence) <==> Listed(g, id) && id in evidence
  {
    assert g.order[..|g.order|] == g.order;
    if Listed(g, id) { ListingCovers(g, |g.order|, id); }
  }

  /** A pass deactivates exactly the listed relations without evidence, and drops their embeddings. */
  lemma PassDeactivates(round4: Rounding, g: Graph, evidence: set<Id>, id: Id)
    requires id in g.order
    ensures var after := AppliedPlan(g, PlanOf(round4, g, evidence)).graph;
            && (id in after.liveRelations <==> id in g.liveRelations && !Unsupported(g, evidence, id))
            && (id in after.embedded <==> id in g.embedded && !Unsupported(g, evidence, id))
            && after.liveEntities == g.liveEntities && after.status == g.status && after.generation == g.generation
  {
    var unsupported := Having(Listing(g, |g.order|), evidence, false);
    assert unsupported[..|unsupported|] == unsupported;
    DeactivatedRows(g, unsupported, |unsupported|);
    UnsupportedAre(g, evidence, id);
  }

  lemma WeightIsRounded(round4: Rounding, g: Graph, evidence: set<Id>, id: Id)
    requires ValidRounding(round4) && round4(0.0) == 0.0
    ensures Rounded(round4, WeightIn(round4, g, evidence, id))
  {
    KeptWeightsAreWeights(round4, g, evidence);
    if id in ListedEntities(g) { CentralityIs(round4, g, evidence, id); }
  }

  lemma PassTables(round4: Rounding, g: Graph, evidence: set<Id>)
    ensures var after := AppliedPlan(g, PlanOf(round4, g, evidence)).graph;
            var entityIds, relationIds := EntityIds(g), KeptIds(g, evidence);
            && after.entities ==
               InPlace(round4, g.entities, EntityWeights(round4, g, evidence), entityIds, |entityIds|).table
            && after.relations ==
               InPlace(round4, g.relations, KeptWeights(round4, g, evidence), relationIds, |relationIds|).table
  {
    PlanThenApplyEqualsInPlace(round4, g, evidence);
  }

  /** One row of a table refreshed in place. */
  lemma OneRefreshed<D>(round4: Rounding, t: Table<D>, weights: map<Id, real>, ids: seq<Id>, id: Id)
    requires ValidRounding(round4) && Increasing(ids) && id in t && forall i :: i in ids ==> i in t
    requires id in ids ==> Rounded(round4, WeightOf(weights, id))
    ensures var after := InPlace(round4, t, weights, ids, |ids|).table;
            && after[id].data == t[id].data
            && if id in ids then IsRefreshed(round4, t[id].row, after[id].row, WeightOf(weights, id))
               else after[id] == t[id]
  {
    InPlaceRefreshes(round4, t, weights, ids, |ids|, id);
    assert ids[..|ids|] == ids;
    if id in ids { RefreshedIs(round4, t[id].row, WeightOf(weights, id)); }
  }

  /** A pass refreshes every listed entity with its centrality, and no other. */
  lemma PassRefreshesEntities(round4: Rounding, g: Graph, evidence: set<Id>, id: Id)
    requires ValidRounding(round4) && round4(0.0) == 0.0 && id in g.entities
    ensures var after, weight :=
            AppliedPlan(g, PlanOf(round4, g, evidence)).graph.entities, WeightIn(round4, g, evidence, id);
            && id in after && after[id].data == g.entities[id].data
            && if id in ListedEntities(g) then
                 && IsCentrality(round4, g, evidence, id, weight)
                 && IsRefreshed(round4, g.entities[id].row, after[id].row, weight)
               else after[id] == g.entities[id]
  {
    PassTables(round4, g, evidence);
    WeightIsRounded(round4, g, evidence, id);
    if id in ListedEntities(g) { CentralityIs(round4, g, evidence, id); }
    OneRefreshed(round4, g.entities, EntityWeights(round4, g, evidence), EntityIds(g), id);
  }

  /** The rounded mean of the centralities of a relation's endpoints. */
  function MeanOfEnds(round4: Rounding, weights: map<Id, real>, ends: Endpoints): real {
    round4((WeightOf(weights, ends.source) + WeightOf(weights, ends.target)) / 2.0)
  }

  lemma MeanOfRounded(round4: Rounding, a: real, b: real)
    requires ValidRounding(round4) && Rounded(round4, a) && Rounded(round4, b)
    ensures Rounded(round4, round4((a + b) / 2.0))
  {
  }

  lemma RelationWeightIs(round4: Rounding, g: Graph, weights: map<Id, real>, ids: set<Id>, id: Id)
    requires ids <= g.relations.Keys && id in ids
    ensures WeightOf(RelationWeights(round4, g, weights, ids), id) ==
            MeanOfEnds(round4, weights, g.relations[id].data.ends)
  {
  }

  lemma MeanIsRounded(round4: Rounding, g: Graph, evidence: set<Id>, ends: Endpoints)
    requires ValidRounding(round4) && round4(0.0) == 0.0
    ensures Rounded(round4, MeanOfEnds(round4, EntityWeights(round4, g, evidence), ends))
  {
    var a, b := WeightIn(round4, g, evidence, ends.source), WeightIn(round4, g, evidence, ends.target);
    WeightIsRounded(round4, g, evidence, ends.source);
    WeightIsRounded(round4, g, evidence, ends.target);
    MeanOfRounded(round4, a, b);
  }

  /** A pass refreshes every supported relation with the mean of its endpoints' centralities, and no other. */
  lemma PassRefreshesRelations(round4: Rounding, g: Graph, evidence: set<Id>, id: Id)
    requires ValidRounding(round4) && round4(0.0) == 0.0 && id in g.relations && id in g.order
    ensures var after, edge := AppliedPlan(g, PlanOf(round4, g, evidence)).graph.relations, g.relations[id];
            && id in after && after[id].data == edge.data
            && if Listed(g, id) && id in evidence then
                 var weights := EntityWeights(round4, g, evidence);
                 IsRefreshed(round4, edge.row, after[id].row, MeanOfEnds(round4, weights, edge.data.ends))
               else after[id] == edge
  {
    PassTables(round4, g, evidence);
    UnsupportedAre(g, evidence, id);
    if id in KeptIds(g, evidence) {
      RelationWeightIs(round4, g, EntityWeights(round4, g, evidence), IdSet(Kept(g, evidence)), id);
      MeanIsRounded(round4, g, evidence, g.relations[id].data.ends);
    }
    OneRefreshed(round4, g.relations, KeptWeights(round4, g, evidence), KeptIds(g, evidence), id);
  }

  /* ----- what the projection is told ----- */

  lemma ChangedIsWritten(round4: Rounding, row: Row, centrality: real)
    requires ValidRounding(round4)
    ensures Changed(round4, row, NextRow(round4, row, centrality)) <==> Refreshed(round4, row, centrality) != row
  {
    EffectiveBounds(round4, FeedbackOf(round4, row), centrality);
  }

  /** The upsert is one of `w` exactly if it is that of a row it changed, with what it changed to. */
  predicate UpsertFits<D(==)>(t: Table<D>, w: Written<D>, u: Upsert<D>)
    requires w.table.Keys == t.Keys
  {
    u in w.upserts <==>
      u.id in t && w.table[u.id] != t[u.id] && u == Upsert(u.id, t[u.id].data, w.table[u.id].row.weight)
  }

  /** The upserts of a visit in place are exactly those of the rows it changed, with what they changed to. */
  lemma {:induction false} UpsertsAre<D>(
      round4: Rounding, t: Table<D>, weights: map<Id, real>, ids: seq<Id>, n: nat, u: Upsert<D>)
    requires ValidRounding(round4) && n <= |ids| && Increasing(ids) && forall i :: i in ids ==> i in t
    ensures UpsertFits(t, InPlace(round4, t, weights, ids, n), u)
  {
    if n > 0 {
      UpsertsAre(round4, t, weights, ids, n - 1, u);
      UpsertStep(round4, t, weights, ids, n, u);
    } else {
      NoUpserts(t, u);
    }
  }

  lemma NoUpserts<D>(t: Table<D>, u: Upsert<D>)
    ensures UpsertFits(t, Written(t, []), u)
  {
  }

  lemma UpsertStep<D>(round4: Rounding, t: Table<D>, weights: map<Id, real>, ids: seq<Id>, n: nat, u: Upsert<D>)
    requires ValidRounding(round4) && 0 < n <= |ids| && Increasing(ids) && forall i :: i in ids ==> i in t
    requires UpsertFits(t, InPlace(round4, t, weights, ids, n - 1), u)
    ensures UpsertFits(t, InPlace(round4, t, weights, ids, n), u)
  {
    var id := ids[n - 1];
    assert id !in ids[..n - 1];
    InPlaceStep(round4, t, weights, ids, n);
    InPlaceRefreshes(round4, t, weights, ids, n - 1, id);
    ChangedIsWritten(round4, t[id].row, WeightOf(weights, id));
  }

  lemma {:induction false} DeletesAre(g: Graph, ids: seq<Id>, n: nat, c: Command)
    requires n <= |ids| && (forall id :: id in ids ==> Listed(g, id))
    ensures c in Deactivated(g, ids, n).commands <==>
              c.RelationDelete? && c.id in ids[..n] && c.id in g.relations && c.ends == g.relations[c.id].data.ends
  {
    if n > 0 {
      var id := ids[n - 1];
      DeletesAre(g, ids, n - 1, c);
      DeactivatedRows(g, ids, n - 1);
      assert ids[..n] == ids[..n - 1] + [id] && Listed(g, id);
      var o := Deactivated(g, ids, n - 1);
      assert ListedEntities(o.graph) == ListedEntities(g);
      assert !Listed(o.graph, id) ==> id in ids[..n - 1];
    }
  }

  lemma AssembledCommands(o: Outcome, entities: Written<string>, relations: Written<Edge>, c: Command)
    ensures c in Assembled(o, entities, relations).commands <==>
              || c in o.commands || (c.EntityUpsert? && c.entity in entities.upserts)
              || (c.RelationUpsert? && c.relation in relations.upserts)
  {
    if c.EntityUpsert? && c.entity in entities.upserts {
      var i :| 0 <= i < |entities.upserts| && entities.upserts[i] == c.entity;
      assert EntityCommands(entities.upserts)[i] == c;
    }
    if c.RelationUpsert? && c.relation in relations.upserts {
      var i :| 0 <= i < |relations.upserts| && relations.upserts[i] == c.relation;
      assert RelationCommands(relations.upserts)[i] == c;
    }
  }

  /**
   A pass tells the projection exactly what it changed: a delete for every relation it deactivated, and for every row
   it rewrote an upsert with the row's own data and its new weight.
  */
  lemma PassIsProjected(round4: Rounding, g: Graph, evidence: set<Id>, c: Command)
    requires ValidRounding(round4)
    ensures var o := AppliedPlan(g, PlanOf(round4, g, evidence));
            c in o.commands <==>
              match c
              case RelationDelete(id, ends) =>
                id in g.order && Unsupported(g, evidence, id) && ends == g.relations[id].data.ends
              case EntityUpsert(u) =>
                && u.id in g.entities && o.graph.entities[u.id] != g.entities[u.id]
                && u == Upsert(u.id, g.entities[u.id].data, o.graph.entities[u.id].row.weight)
              case RelationUpsert(u) =>
                && u.id in g.relations && o.graph.relations[u.id] != g.relations[u.id]
                && u == Upsert(u.id, g.relations[u.id].data, o.graph.relations[u.id].row.weight)
  {
    PlanThenApplyEqualsInPlace(round4, g, evidence);
    var unsupported := Having(Listing(g, |g.order|), evidence, false);
    var entityIds, relationIds := EntityIds(g), KeptIds(g, evidence);
    var entities := InPlace(round4, g.entities, EntityWeights(round4, g, evidence), entityIds, |entityIds|);
    var relations := InPlace(round4, g.relations, KeptWeights(round4, g, evidence), relationIds, |relationIds|);
    var o := Deactivated(g, unsupported, |unsupported|);
    assert unsupported[..|unsupported|] == unsupported;
    AssembledCommands(o, entities, relations, c);
    DeletesAre(g, unsupported, |unsupported|, c);
    match c
    case RelationDelete(id, _) =>
      if id in g.order { UnsupportedAre(g, evidence, id); }
      if id in unsupported { ListedInOrder(g, |g.order|, id); }
    case EntityUpsert(u) =>
      UpsertsAre(round4, g.entities, EntityWeights(round4, g, evidence), entityIds, |entityIds|, u);
    case RelationUpsert(u) =>
      UpsertsAre(round4, g.relations, KeptWeights(round4, g, evidence), relationIds, |relationIds|, u);
  }
}
