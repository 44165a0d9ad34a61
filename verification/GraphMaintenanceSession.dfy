/** Graph maintenance as it runs: loops over the rows of one open unit of work, writing them in place. */
module GraphMaintenanceSession {
  import opened Wrappers
  import opened Ordering
  import opened Importance
  import opened GraphMaintenance

  datatype Counts = Counts(deactivated: nat, entities: nat, relations: nat, events: nat)

  /** The rows a unit of work sees, and the commands collected for the outbox. */
  class MaintenanceUnitOfWork {
    var graph: Graph
    var commands: seq<Command>

    constructor (g: Graph)
      ensures graph == g && commands == []
    {
      graph, commands := g, [];
    }

    /** The unit of work has made exactly the writes `w` since it held `g0` and `c0`. */
    ghost predicate EntitiesWritten(g0: Graph, c0: seq<Command>, w: Written<string>)
      reads this
    {
      graph == g0.(entities := w.table) && commands == c0 + EntityCommands(w.upserts)
    }

    /** The loop body of update_entity_importance. */
    method RefreshEntity(
      round4: Rounding, id: Id, weight: real, ghost g0: Graph, ghost c0: seq<Command>, ghost w: Written<string>)
      returns (updated: nat)
      requires EntitiesWritten(g0, c0, w) && id in w.table
      modifies this
      ensures EntitiesWritten(g0, c0, Visit(round4, w, id, weight))
      ensures |w.upserts| + updated == |Visit(round4, w, id, weight).upserts|
    {
      var item := graph.entities[id];
      var next := NextRow(round4, item.row, weight);
      if !Changed(round4, item.row, next) {
        return 0;
      }
      graph := graph.(entities := graph.entities[id := item.(row := next)]);
      commands := commands + [EntityUpsert(Upsert(id, item.data, next.weight))];
      updated := 1;
    }

    method RefreshEntities(round4: Rounding, weights: map<Id, real>, ids: seq<Id>) returns (updated: nat)
      requires forall id :: id in ids ==> id in graph.entities
      modifies this
      ensures var w := InPlace(round4, old(graph).entities, weights, ids, |ids|);
              EntitiesWritten(old(graph), old(commands), w) && updated == |w.upserts|
    {
      ghost var w := Written(graph.entities, []);
      updated := 0;
      for n := 0 to |ids|
        invariant EntitiesWritten(old(graph), old(commands), w) && updated == |w.upserts|
        invariant w == InPlace(round4, old(graph).entities, weights, ids, n)
      {
        assert ids[n] in w.table;
        var one := RefreshEntity(round4, ids[n], WeightOf(weights, ids[n]), old(graph), old(commands), w);
        w := Visit(round4, w, ids[n], WeightOf(weights, ids[n]));
        updated := updated + one;
      }
    }

    /** update_entity_importance */
    method UpdateEntityImportance(round4: Rounding, weights: map<Id, real>) returns (updated: nat)
      modifies this
      ensures var ids := EntityIds(old(graph));
              var w := InPlace(round4, old(graph).entities, weights, ids, |ids|);
              EntitiesWritten(old(graph), old(commands), w) && updated == |w.upserts|
    {
      updated := RefreshEntities(round4, weights, EntityIds(graph));
    }

    /** The unit of work has made exactly the writes `w` since it held `g0` and `c0`. */
    ghost predicate RelationsWritten(g0: Graph, c0: seq<Command>, w: Written<Edge>)
      reads this
    {
      graph == g0.(relations := w.table) && commands == c0 + RelationCommands(w.upserts)
    }

    /** The loop body of update_relation_importance. */
    method RefreshRelation(
      round4: Rounding, id: Id, weight: real, ghost g0: Graph, ghost c0: seq<Command>, ghost w: Written<Edge>)
      returns (updated: nat)
      requires RelationsWritten(g0, c0, w) && id in w.table
      modifies this
      ensures RelationsWritten(g0, c0, Visit(round4, w, id, weight))
      ensures |w.upserts| + updated == |Visit(round4, w, id, weight).upserts|
    {
      var item := graph.relations[id];
      var next := NextRow(round4, item.row, weight);
      if !Changed(round4, item.row, next) {
        return 0;
      }
      graph := graph.(relations := graph.relations[id := item.(row := next)]);
      commands := commands + [RelationUpsert(Upsert(id, item.data, next.weight))];
      updated := 1;
    }

    method RefreshRelations(
      round4: Rounding, weights: map<Id, real>, ids: seq<Id>, ghost means: map<Id, real>) returns (updated: nat)
      requires forall id :: id in ids ==>
        id in graph.relations && WeightOf(means, id) == MeanWeight(round4, weights, graph.relations[id].data.ends)
      modifies this
      ensures var w := InPlace(round4, old(graph).relations, means, ids, |ids|);
              RelationsWritten(old(graph), old(commands), w) && updated == |w.upserts|
    {
      ghost var w := Written(graph.relations, []);
      updated := 0;
      for n := 0 to |ids|
        invariant RelationsWritten(old(graph), old(commands), w) && updated == |w.upserts|
        invariant w == InPlace(round4, old(graph).relations, means, ids, n)
      {
        var id := ids[n];
        InPlaceKeepsData(round4, old(graph).relations, means, ids, n, id);
        var weight := MeanWeight(round4, weights, graph.relations[id].data.ends);
        assert weight == WeightOf(means, id);
        var one := RefreshRelation(round4, id, weight, old(graph), old(commands), w);
        w := Visit(round4, w, id, weight);
        updated := updated + one;
      }
    }

    /** update_relation_importance, over the given relations. */
    method UpdateRelationImportance(round4: Rounding, weights: map<Id, real>, relations: set<Id>) returns (updated: nat)
      requires relations <= graph.relations.Keys
      modifies this
      ensures var ids := SortedIds(relations);
              var w := InPlace(round4, old(graph).relations, RelationWeights(round4, old(graph), weights, relations),
                  ids, |ids|);
              RelationsWritten(old(graph), old(commands), w) && updated == |w.upserts|
    {
      updated := RefreshRelations(round4, weights, SortedIds(relations),
          RelationWeights(round4, graph, weights, relations));
    }

    method Deactivate(ids: seq<Id>) returns (count: nat)
      modifies this
      ensures var o := Deactivated(old(graph), ids, |ids|);
              graph == o.graph && commands == old(commands) + o.commands && count == |o.commands|
    {
      count := 0;
      for n := 0 to |ids|
        invariant var o := Deactivated(old(graph), ids, n);
                  graph == o.graph && commands == old(commands) + o.commands && count == |o.commands|
      {
        if Listed(graph, ids[n]) {
          commands := commands + [RelationDelete(ids[n], graph.relations[ids[n]].data.ends)];
          graph := graph.(liveRelations := graph.liveRelations - {ids[n]}, embedded := graph.embedded - {ids[n]});
          count := count + 1;
        }
      }
    }

    method WriteEntities(updates: seq<Update>) returns (count: nat)
      modifies this
      ensures var w := Applied(old(graph).entities, ListedEntities(old(graph)), updates, |updates|);
              && graph == old(graph).(entities := w.table)
              && commands == old(commands) + EntityCommands(w.upserts) && count == |w.upserts|
    {
      count := 0;
      for n := 0 to |updates|
        invariant var w := Applied(old(graph).entities, ListedEntities(old(graph)), updates, n);
                  && graph == old(graph).(entities := w.table)
                  && commands == old(commands) + EntityCommands(w.upserts) && count == |w.upserts|
      {
        var u := updates[n];
        assert ListedEntities(graph) == ListedEntities(old(graph));
        if u.id in ListedEntities(graph) {
          var item := graph.entities[u.id];
          graph := graph.(entities := graph.entities[u.id := item.(row := u.row)]);
          commands := commands + [EntityUpsert(Upsert(u.id, item.data, u.row.weight))];
          count := count + 1;
        }
      }
    }

    /** The column an update does not touch decides which relations stay listed. */
    method WriteRelations(updates: seq<Update>) returns (count: nat)
      modifies this
      ensures var w := Applied(old(graph).relations, ListedRelations(old(graph)), updates, |updates|);
              && graph == old(graph).(relations := w.table)
              && commands == old(commands) + RelationCommands(w.upserts) && count == |w.upserts|
    {
      count := 0;
      for n := 0 to |updates|
        invariant var w := Applied(old(graph).relations, ListedRelations(old(graph)), updates, n);
                  && graph == old(graph).(relations := w.table) && SameData(old(graph).relations, w.table)
                  && commands == old(commands) + RelationCommands(w.upserts) && count == |w.upserts|
      {
        var u := updates[n];
        assert ListedEntities(graph) == ListedEntities(old(graph));
        assert u.id in graph.relations ==> graph.relations[u.id].data == old(graph).relations[u.id].data;
        if Listed(graph, u.id) {
          var item := graph.relations[u.id];
          graph := graph.(relations := graph.relations[u.id := item.(row := u.row)]);
          commands := commands + [RelationUpsert(Upsert(u.id, item.data, u.row.weight))];
          count := count + 1;
        }
      }
    }

    /** apply_maintenance_plan: deletions, then entity updates, then relation updates. */
    method ApplyPlan(plan: Plan) returns (counts: Counts)
      modifies this
      ensures var o := AppliedPlan(old(graph), plan);
              graph == o.graph && commands == old(commands) + o.commands && counts.events == |o.commands|
      ensures counts.events == counts.deactivated + counts.entities + counts.relations
    {
      ghost var middle := Deactivated(graph, plan.deactivate, |plan.deactivate|).graph;
      var deactivated := Deactivate(plan.deactivate);
      assert ListedEntities(middle) == ListedEntities(old(graph));
      var entities := WriteEntities(plan.entityUpdates);
      assert ListedRelations(graph) == ListedRelations(middle) by {
        assert ListedEntities(graph) == ListedEntities(middle);
      }
      var relations := WriteRelations(plan.relationUpdates);
      counts := Counts(deactivated, entities, relations, deactivated + entities + relations);
    }
  }

  /** The read-only twin of both update methods. */
  method PlanUpdates<D>(round4: Rounding, t: Table<D>, weights: map<Id, real>, ids: seq<Id>)
    returns (updates: seq<Update>)
    requires forall id :: id in ids ==> id in t
    ensures updates == Planned(round4, t, weights, ids, |ids|)
  {
    updates := [];
    for n := 0 to |ids|
      invariant updates == Planned(round4, t, weights, ids, n)
    {
      var id := ids[n];
      var next := NextRow(round4, t[id].row, WeightOf(weights, id));
      if Changed(round4, t[id].row, next) {
        updates := updates + [Update(id, next)];
      }
    }
  }

  /** compute_maintenance_plan_with_uow */
  method ComputePlan(round4: Rounding, g: Option<Graph>, generation: nat, evidence: set<Id>)
    returns (plan: Option<Plan>)
    ensures plan == PlanFor(round4, g, generation, evidence)
  {
    if !Eligible(g, generation) {
      return None;
    }
    var graph := g.value;
    var listing := Listing(graph, |graph.order|);
    var unsupported, kept := [], [];
    for n := 0 to |listing|
      invariant unsupported == Filtered(listing[..n], evidence, false)
      invariant kept == Filtered(listing[..n], evidence, true)
    {
      assert listing[..n + 1][..n] == listing[..n];
      if listing[n] in evidence {
        kept := kept + [listing[n]];
      } else {
        unsupported := unsupported + [listing[n]];
      }
    }
    assert listing[..|listing|] == listing;
    assert kept == Kept(graph, evidence);
    var weights := EntityCentrality(round4, ListedEntities(graph), EndsOf(graph, kept));
    var entityUpdates := PlanUpdates(round4, graph.entities, weights, EntityIds(graph));
    var relationIds := KeptIds(graph, evidence);
    var relationUpdates := PlanUpdates(round4, graph.relations, KeptWeights(round4, graph, evidence), relationIds);
    plan := Some(Plan(unsupported, entityUpdates, relationUpdates));
  }

  /**
   maintain_dataset: plan and apply in one unit of work. An ineligible dataset is left
   alone; otherwise the pass does what updating in place would do, and a second pass
   with the same evidence would do nothing.
  */
  method MaintainDataset(round4: Rounding, uow: MaintenanceUnitOfWork, generation: nat, evidence: set<Id>)
    returns (counts: Counts)
    modifies uow
    ensures var g := old(uow.graph);
            var o := if Eligible(Some(g), generation) then UpdatedInPlace(round4, g, evidence) else Outcome(g, []);
            uow.graph == o.graph && uow.commands == old(uow.commands) + o.commands && counts.events == |o.commands|
    ensures ValidRounding(round4) && Eligible(Some(old(uow.graph)), generation) ==>
              PlanFor(round4, Some(uow.graph), generation, evidence) == Some(Plan([], [], []))
  {
    var plan := ComputePlan(round4, Some(uow.graph), generation, evidence);
    if plan.None? {
      return Counts(0, 0, 0, 0);
    }
    PlanThenApplyEqualsInPlace(round4, uow.graph, evidence);
    if ValidRounding(round4) {
      MaintenanceReachesFixedPoint(round4, uow.graph, evidence);
    }
    counts := uow.ApplyPlan(plan.value);
  }
}
