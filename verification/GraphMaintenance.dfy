/** Graph hygiene: plan, apply, and update in place, over the rows of one dataset's active generation. */
module GraphMaintenance {
  import opened Wrappers
  import opened Ordering
  import opened Importance

  datatype DatasetStatus = Active | Deleting | Deleted

  datatype Edge = Edge(ends: Endpoints, text: string)

  /** A row: the columns maintenance only copies into commands, and the ones it writes. */
  datatype Item<D> = Item(data: D, row: Row)

  type Table<D> = map<Id, Item<D>>

  datatype Update = Update(id: Id, row: Row)

  datatype Upsert<D> = Upsert(id: Id, data: D, weight: real)

  datatype Command =
    | RelationDelete(id: Id, ends: Endpoints)
    | EntityUpsert(entity: Upsert<string>)
    | RelationUpsert(relation: Upsert<Edge>)

  /** `order` lists relation ids by creation; `live` are the active rows. */
  datatype Graph = Graph(
    status: DatasetStatus, generation: nat,
    entities: Table<string>, liveEntities: set<Id>,
    relations: Table<Edge>, liveRelations: set<Id>, embedded: set<Id>, order: seq<Id>)

  datatype Plan = Plan(deactivate: seq<Id>, entityUpdates: seq<Update>, relationUpdates: seq<Update>)

  /** What one pass does to the database: its rows afterwards and the outbox commands it adds. */
  datatype Outcome = Outcome(graph: Graph, commands: seq<Command>)

  datatype Written<D> = Written(table: Table<D>, upserts: seq<Upsert<D>>)

  /* ----- the authoritative listings ----- */

  function ListedEntities(g: Graph): set<Id> {
    if g.status != Active then {} else set id | id in g.liveEntities && id in g.entities
  }

  predicate Listed(g: Graph, id: Id) {
    && g.status == Active && id in g.liveRelations && id in g.relations
    && g.relations[id].data.ends.source in ListedEntities(g)
    && g.relations[id].data.ends.target in ListedEntities(g)
  }

  function ListedRelations(g: Graph): set<Id> {
    set id | id in g.relations && Listed(g, id)
  }

  /** list_active_current_for_dataset, among the first `n` relations. */
  function Listing(g: Graph, n: nat): (ids: seq<Id>)
    requires n <= |g.order|
    ensures forall id :: id in ids ==> Listed(g, id)
  {
    if n == 0 then []
    else Listing(g, n - 1) + (if Listed(g, g.order[n - 1]) then [g.order[n - 1]] else [])
  }

  function Filtered(ids: seq<Id>, evidence: set<Id>, has: bool): seq<Id> {
    if ids == [] then []
    else
      var last := ids[|ids| - 1];
      Filtered(ids[..|ids| - 1], evidence, has) + (if (last in evidence) == has then [last] else [])
  }

  lemma {:induction false} FilteredMembers(ids: seq<Id>, evidence: set<Id>, has: bool, id: Id)
    ensures id in Filtered(ids, evidence, has) <==> id in ids && ((id in evidence) == has)
  {
    if ids != [] {
      FilteredMembers(ids[..|ids| - 1], evidence, has, id);
      assert ids == ids[..|ids| - 1] + [ids[|ids| - 1]];
    }
  }

  lemma {:induction false} FilteredAll(ids: seq<Id>, evidence: set<Id>, has: bool)
    requires forall id :: id in ids ==> ((id in evidence) == has)
    ensures Filtered(ids, evidence, has) == ids && Filtered(ids, evidence, !has) == []
  {
    if ids != [] {
      var before := ids[..|ids| - 1];
      var last := ids[|ids| - 1];
      assert last in ids && (forall id :: id in before ==> id in ids);
      FilteredAll(before, evidence, has);
      assert ids == before + [last];
    }
  }

  /** The relations of a listing that have authoritative evidence, or those that have none. */
  function Having(ids: seq<Id>, evidence: set<Id>, has: bool): (kept: seq<Id>)
    ensures forall id :: id in kept <==> id in ids && ((id in evidence) == has)
  {
    assert forall id :: id in Filtered(ids, evidence, has) <==> id in ids && ((id in evidence) == has) by {
      forall id: Id { FilteredMembers(ids, evidence, has, id); }
    }
    Filtered(ids, evidence, has)
  }

  function EndsOf(g: Graph, ids: seq<Id>): (ends: seq<Endpoints>)
    requires forall id :: id in ids ==> id in g.relations
    ensures |ends| == |ids|
  {
    seq(|ids|, i requires 0 <= i < |ids| => assert ids[i] in ids; g.relations[ids[i]].data.ends)
  }

  function IdSet(ids: seq<Id>): set<Id> {
    set id | id in ids
  }

  /** The weight each relation is refreshed with. */
  function RelationWeights(round4: Rounding, g: Graph, weights: map<Id, real>, ids: set<Id>): map<Id, real>
    requires ids <= g.relations.Keys
  {
    map id | id in ids :: MeanWeight(round4, weights, g.relations[id].data.ends)
  }

  /* ----- the three ways to visit rows ----- */

  /** The changed rows among the first `n` ids, as updates. */
  function Planned<D>(round4: Rounding, t: Table<D>, weights: map<Id, real>, ids: seq<Id>, n: nat): seq<Update>
    requires n <= |ids| && forall id :: id in ids ==> id in t
  {
    if n == 0 then []
    else
      var id := ids[n - 1];
      var next := NextRow(round4, t[id].row, WeightOf(weights, id));
      Planned(round4, t, weights, ids, n - 1) + (if Changed(round4, t[id].row, next) then [Update(id, next)] else [])
  }

  function Write<D>(w: Written<D>, id: Id, row: Row): Written<D>
    requires id in w.table
  {
    var item := w.table[id];
    Written(w.table[id := item.(row := row)], w.upserts + [Upsert(id, item.data, row.weight)])
  }

  /** Applying the first `n` updates; an id no longer listed is passed over. */
  function Applied<D>(t: Table<D>, listed: set<Id>, updates: seq<Update>, n: nat): (w: Written<D>)
    requires n <= |updates|
    ensures w.table.Keys == t.Keys
  {
    if n == 0 then Written(t, [])
    else
      var u := updates[n - 1];
      var w := Applied(t, listed, updates, n - 1);
      if u.id in listed && u.id in w.table then Write(w, u.id, u.row) else w
  }

  /** One row refreshed in place, if that changes it. */
  function Visit<D>(round4: Rounding, w: Written<D>, id: Id, weight: real): Written<D>
    requires id in w.table
  {
    var next := NextRow(round4, w.table[id].row, weight);
    if Changed(round4, w.table[id].row, next) then Write(w, id, next) else w
  }

  /** Refreshing the first `n` ids in place: each compares against the rows as they are now. */
  function InPlace<D>(round4: Rounding, t: Table<D>, weights: map<Id, real>, ids: seq<Id>, n: nat): (w: Written<D>)
    requires n <= |ids| && forall id :: id in ids ==> id in t
    ensures w.table.Keys == t.Keys
  {
    if n == 0 then Written(t, [])
    else
      Visit(round4, InPlace(round4, t, weights, ids, n - 1), ids[n - 1], WeightOf(weights, ids[n - 1]))
  }

  function RefreshedItem<D>(round4: Rounding, item: Item<D>, weights: map<Id, real>, id: Id): Item<D> {
    item.(row := Refreshed(round4, item.row, WeightOf(weights, id)))
  }

  /** In place, the first `n` ids are refreshed once and every other row is as before. */
  lemma {:induction false} InPlaceRefreshes<D>(
    round4: Rounding, t: Table<D>, weights: map<Id, real>, ids: seq<Id>, n: nat, id: Id)
    requires n <= |ids| && Increasing(ids) && id in t && forall i :: i in ids ==> i in t
    ensures var after := InPlace(round4, t, weights, ids, n).table[id];
            after == if id in ids[..n] then RefreshedItem(round4, t[id], weights, id) else t[id]
  {
    if n > 0 {
      InPlaceRefreshes(round4, t, weights, ids, n - 1, id);
      assert ids[..n] == ids[..n - 1] + [ids[n - 1]];
      var w := InPlace(round4, t, weights, ids, n - 1);
      if id == ids[n - 1] {
        assert id !in ids[..n - 1];
        assert w.table[id] == t[id];
      } else {
        assert InPlace(round4, t, weights, ids, n).table[id] == w.table[id];
      }
    }
  }

  lemma InPlaceStep<D>(round4: Rounding, t: Table<D>, weights: map<Id, real>, ids: seq<Id>, n: nat)
    requires 0 < n <= |ids| && Increasing(ids) && forall i :: i in ids ==> i in t
    ensures var w := InPlace(round4, t, weights, ids, n - 1);
            var next := NextRow(round4, t[ids[n - 1]].row, WeightOf(weights, ids[n - 1]));
            InPlace(round4, t, weights, ids, n)
            == if Changed(round4, t[ids[n - 1]].row, next) then Write(w, ids[n - 1], next) else w
  {
    InPlaceRefreshes(round4, t, weights, ids, n - 1, ids[n - 1]);
    assert ids[n - 1] !in ids[..n - 1];
  }

  ghost predicate PlanMeetsInPlace<D>(
    round4: Rounding, t: Table<D>, weights: map<Id, real>, listed: set<Id>, ids: seq<Id>, n: nat)
    requires n <= |ids| && forall id :: id in ids ==> id in t
  {
    var updates := Planned(round4, t, weights, ids, n);
    Applied(t, listed, updates, |updates|) == InPlace(round4, t, weights, ids, n)
  }

  /** Plan-then-apply is update-in-place: the same rows and the same commands in the same order. */
  lemma {:induction false} PlanThenApplyIsInPlace<D>(
    round4: Rounding, t: Table<D>, weights: map<Id, real>, listed: set<Id>, ids: seq<Id>, n: nat)
    requires n <= |ids| && Increasing(ids) && forall id :: id in ids ==> id in t && id in listed
    ensures PlanMeetsInPlace(round4, t, weights, listed, ids, n)
  {
    if n == 0 {
      var none := Planned(round4, t, weights, ids, 0);
      assert none == [];
    } else {
      PlanThenApplyIsInPlace(round4, t, weights, listed, ids, n - 1);
      assert PlanMeetsInPlace(round4, t, weights, listed, ids, n) by {
        PlanThenApplyStep(round4, t, weights, listed, ids, n);
      }
    }
  }

  lemma PlanThenApplyStep<D>(
    round4: Rounding, t: Table<D>, weights: map<Id, real>, listed: set<Id>, ids: seq<Id>, n: nat)
    requires 0 < n <= |ids| && Increasing(ids) && forall id :: id in ids ==> id in t && id in listed
    requires PlanMeetsInPlace(round4, t, weights, listed, ids, n - 1)
    ensures PlanMeetsInPlace(round4, t, weights, listed, ids, n)
  {
    var before := Planned(round4, t, weights, ids, n - 1);
    var all := Planned(round4, t, weights, ids, n);
    var w := InPlace(round4, t, weights, ids, n - 1);
    var id := ids[n - 1];
    var next := NextRow(round4, t[id].row, WeightOf(weights, id));
    InPlaceStep(round4, t, weights, ids, n);
    PlannedStep(round4, t, weights, ids, n);
    if Changed(round4, t[id].row, next) {
      AppliedStep(t, listed, before, all);
      assert Applied(t, listed, all, |all|) == Write(w, id, next);
    } else {
      assert Applied(t, listed, all, |all|) == w;
    }
  }

  lemma PlannedStep<D>(round4: Rounding, t: Table<D>, weights: map<Id, real>, ids: seq<Id>, n: nat)
    requires 0 < n <= |ids| && forall id :: id in ids ==> id in t
    ensures var before := Planned(round4, t, weights, ids, n - 1);
            var all := Planned(round4, t, weights, ids, n);
            var next := NextRow(round4, t[ids[n - 1]].row, WeightOf(weights, ids[n - 1]));
            && |before| <= |all| && all[..|before|] == before
            && (if Changed(round4, t[ids[n - 1]].row, next) then |all| == |before| + 1
               && all[|before|] == Update(ids[n - 1], next)
                else all == before)
  {
  }

  lemma AppliedStep<D>(t: Table<D>, listed: set<Id>, before: seq<Update>, all: seq<Update>)
    requires |all| == |before| + 1 && all[..|before|] == before
    requires all[|before|].id in listed && all[|before|].id in t
    ensures Applied(t, listed, all, |all|)
            == Write(Applied(t, listed, before, |before|), all[|before|].id, all[|before|].row)
  {
    AppliedPrefix(t, listed, all, before, |before|);
  }

  lemma {:induction false} AppliedPrefix<D>(
      t: Table<D>, listed: set<Id>, updates: seq<Update>, prefix: seq<Update>, n: nat)
    requires n <= |prefix| <= |updates| && updates[..|prefix|] == prefix
    ensures Applied(t, listed, updates, n) == Applied(t, listed, prefix, n)
  {
    if n > 0 {
      AppliedPrefix(t, listed, updates, prefix, n - 1);
      assert updates[n - 1] == prefix[n - 1];
    }
  }

  ghost predicate Settled<D>(round4: Rounding, t: Table<D>, weights: map<Id, real>, id: Id)
    requires id in t
  {
    !Changed(round4, t[id].row, NextRow(round4, t[id].row, WeightOf(weights, id)))
  }

  lemma {:induction false} NothingPlanned<D>(
      round4: Rounding, t: Table<D>, weights: map<Id, real>, ids: seq<Id>, n: nat)
    requires n <= |ids| && forall id :: id in ids ==> id in t && Settled(round4, t, weights, id)
    ensures Planned(round4, t, weights, ids, n) == []
  {
    if n > 0 {
      NothingPlanned(round4, t, weights, ids, n - 1);
      assert Settled(round4, t, weights, ids[n - 1]);
    }
  }

  /** After refreshing every id in place, planning the same ids with the same weights finds nothing to do. */
  lemma InPlaceSettles<D>(round4: Rounding, t: Table<D>, weights: map<Id, real>, ids: seq<Id>)
    requires ValidRounding(round4) && UnitWeights(weights) && Increasing(ids) && forall id :: id in ids ==> id in t
    ensures Planned(round4, InPlace(round4, t, weights, ids, |ids|).table, weights, ids, |ids|) == []
  {
    var after := InPlace(round4, t, weights, ids, |ids|).table;
    assert ids[..|ids|] == ids;
    forall id | id in ids ensures id in after && Settled(round4, after, weights, id) {
      RefreshIsStable(round4, t[id].row, WeightOf(weights, id));
      InPlaceRefreshes(round4, t, weights, ids, |ids|, id);
      assert after[id] == RefreshedItem(round4, t[id], weights, id);
    }
    NothingPlanned(round4, after, weights, ids, |ids|);
  }

  /* ----- a whole pass ----- */

  function EntityIds(g: Graph): seq<Id> {
    SortedIds(ListedEntities(g))
  }

  function Kept(g: Graph, evidence: set<Id>): (kept: seq<Id>)
    ensures forall id :: id in kept ==> id in g.relations
  {
    Having(Listing(g, |g.order|), evidence, true)
  }

  function KeptIds(g: Graph, evidence: set<Id>): (ids: seq<Id>)
    ensures Increasing(ids) && forall id :: id in ids ==> id in g.relations
  {
    SortedIds(IdSet(Kept(g, evidence)))
  }

  function EntityWeights(round4: Rounding, g: Graph, evidence: set<Id>): (weights: map<Id, real>)
    ensures weights.Keys == ListedEntities(g)
  {
    Centralities(round4, ListedEntities(g), EndsOf(g, Kept(g, evidence)))
  }

  function KeptWeights(round4: Rounding, g: Graph, evidence: set<Id>): map<Id, real> {
    RelationWeights(round4, g, EntityWeights(round4, g, evidence), IdSet(Kept(g, evidence)))
  }

  predicate Eligible(g: Option<Graph>, generation: nat) {
    g.Some? && g.value.status == Active && g.value.generation == generation
  }

  /** compute_maintenance_plan_with_uow: None when the dataset is missing, inactive, or has moved on. */
  function PlanFor(round4: Rounding, g: Option<Graph>, generation: nat, evidence: set<Id>): (plan: Option<Plan>)
    ensures plan.Some? <==> Eligible(g, generation)
  {
    if !Eligible(g, generation) then None else Some(PlanOf(round4, g.value, evidence))
  }

  function PlanOf(round4: Rounding, g: Graph, evidence: set<Id>): Plan {
    var entityIds := EntityIds(g);
    var relationIds := KeptIds(g, evidence);
    Plan(Having(Listing(g, |g.order|), evidence, false),
         Planned(round4, g.entities, EntityWeights(round4, g, evidence), entityIds, |entityIds|),
         Planned(round4, g.relations, KeptWeights(round4, g, evidence), relationIds, |relationIds|))
  }

  /** Deactivating the first `n` relations of a plan: each leaves the active rows and drops its embedding. */
  function Deactivated(g: Graph, ids: seq<Id>, n: nat): (o: Outcome)
    requires n <= |ids|
    ensures o.graph.relations == g.relations && o.graph.entities == g.entities && o.graph.liveEntities == g.liveEntities
    ensures o.graph.order == g.order && o.graph.status == g.status && o.graph.generation == g.generation
  {
    if n == 0 then Outcome(g, [])
    else
      var o := Deactivated(g, ids, n - 1);
      var id := ids[n - 1];
      if !Listed(o.graph, id) then o
      else
        Outcome(o.graph.(liveRelations := o.graph.liveRelations - {id}, embedded := o.graph.embedded - {id}),
                o.commands + [RelationDelete(id, g.relations[id].data.ends)])
  }

  function EntityCommands(upserts: seq<Upsert<string>>): seq<Command> {
    seq(|upserts|, i requires 0 <= i < |upserts| => EntityUpsert(upserts[i]))
  }

  function RelationCommands(upserts: seq<Upsert<Edge>>): seq<Command> {
    seq(|upserts|, i requires 0 <= i < |upserts| => RelationUpsert(upserts[i]))
  }

  function Assembled(o: Outcome, entities: Written<string>, relations: Written<Edge>): Outcome {
    Outcome(o.graph.(entities := entities.table, relations := relations.table),
            o.commands + EntityCommands(entities.upserts) + RelationCommands(relations.upserts))
  }

  /** apply_maintenance_plan, against whatever rows the database holds by then. */
  function AppliedPlan(g: Graph, plan: Plan): Outcome {
    var o := Deactivated(g, plan.deactivate, |plan.deactivate|);
    var entities := Applied(g.entities, ListedEntities(g), plan.entityUpdates, |plan.entityUpdates|);
    var relations := Applied(g.relations, ListedRelations(o.graph), plan.relationUpdates, |plan.relationUpdates|);
    Assembled(o, entities, relations)
  }

  /** The same pass with the update_* functions, which write rows as they visit them. */
  function UpdatedInPlace(round4: Rounding, g: Graph, evidence: set<Id>): Outcome {
    var unsupported := Having(Listing(g, |g.order|), evidence, false);
    var entityIds := EntityIds(g);
    var relationIds := KeptIds(g, evidence);
    Assembled(Deactivated(g, unsupported, |unsupported|),
              InPlace(round4, g.entities, EntityWeights(round4, g, evidence), entityIds, |entityIds|),
              InPlace(round4, g.relations, KeptWeights(round4, g, evidence), relationIds, |relationIds|))
  }

  /* ----- what a pass leaves ----- */

  lemma {:induction false} DeactivatedRows(g: Graph, ids: seq<Id>, n: nat)
    requires n <= |ids| && forall id :: id in ids ==> Listed(g, id)
    ensures Deactivated(g, ids, n).graph.liveRelations == g.liveRelations - IdSet(ids[..n])
    ensures Deactivated(g, ids, n).graph.embedded == g.embedded - IdSet(ids[..n])
  {
    if n > 0 {
      DeactivatedRows(g, ids, n - 1);
      assert ids[..n] == ids[..n - 1] + [ids[n - 1]];
      var o := Deactivated(g, ids, n - 1);
      assert ListedEntities(o.graph) == ListedEntities(g);
      assert Listed(g, ids[n - 1]);
      assert Listed(o.graph, ids[n - 1]) <==> ids[n - 1] in o.graph.liveRelations;
    }
  }

  lemma {:induction false} ListingCovers(g: Graph, n: nat, id: Id)
    requires n <= |g.order| && id in g.order[..n] && Listed(g, id)
    ensures id in Listing(g, n)
  {
    if g.order[n - 1] != id {
      assert g.order[..n] == g.order[..n - 1] + [g.order[n - 1]];
      ListingCovers(g, n - 1, id);
    }
  }

  /** A later graph that lists exactly the supported relations of an earlier one lists them in the same order. */
  lemma {:induction false} ListingNarrows(g: Graph, after: Graph, evidence: set<Id>, n: nat)
    requires n <= |g.order| && after.order == g.order
    requires forall id :: id in g.order ==> (Listed(after, id) <==> Listed(g, id) && id in evidence)
    ensures Listing(after, n) == Filtered(Listing(g, n), evidence, true)
  {
    if n > 0 {
      ListingNarrows(g, after, evidence, n - 1);
      var shorter := Listing(g, n - 1);
      var all := Listing(g, n);
      if all != shorter {
        assert all[..|all| - 1] == shorter;
      }
    }
  }

  /** Deactivating what lacks evidence leaves exactly the supported relations listed. */
  lemma DeactivatedListing(g: Graph, evidence: set<Id>)
    ensures var unsupported := Having(Listing(g, |g.order|), evidence, false);
            var after := Deactivated(g, unsupported, |unsupported|).graph;
            && ListedEntities(after) == ListedEntities(g)
            && forall id {:trigger Listed(after, id)} :: id in g.order ==>
               (Listed(after, id) <==> Listed(g, id) && id in evidence)
  {
    var unsupported := Having(Listing(g, |g.order|), evidence, false);
    DeactivatedRows(g, unsupported, |unsupported|);
    assert unsupported[..|unsupported|] == unsupported;
    var after := Deactivated(g, unsupported, |unsupported|).graph;
    assert ListedEntities(after) == ListedEntities(g);
    forall id | id in g.order ensures Listed(after, id) <==> Listed(g, id) && id in evidence {
      if Listed(g, id) {
        assert g.order[..|g.order|] == g.order;
        ListingCovers(g, |g.order|, id);
      }
    }
  }

  lemma ListedInOrder(g: Graph, n: nat, id: Id)
    requires n <= |g.order| && id in Listing(g, n)
    ensures id in g.order && Listed(g, id)
  {
  }

  /** In a pass every counted relation joins listed entities, so the degrees add up to twice the non-loop relations. */
  lemma PassHandshake(g: Graph, evidence: set<Id>)
    ensures var relations := EndsOf(g, Kept(g, evidence));
            SumDegrees(relations, |relations|, EntityIds(g)) == 2 * CountNonLoops(relations, |relations|)
  {
    var kept := Kept(g, evidence);
    forall i | 0 <= i < |kept| ensures Listed(g, kept[i]) {
      assert kept[i] in kept;
      ListedInOrder(g, |g.order|, kept[i]);
    }
    Handshake(ListedEntities(g), EndsOf(g, kept));
  }

  lemma EntityHalf(round4: Rounding, g: Graph, evidence: set<Id>)
    ensures var ids := EntityIds(g);
            var updates := PlanOf(round4, g, evidence).entityUpdates;
            Applied(g.entities, ListedEntities(g), updates, |updates|)
            == InPlace(round4, g.entities, EntityWeights(round4, g, evidence), ids, |ids|)
  {
    var ids := EntityIds(g);
    PlanThenApplyIsInPlace(round4, g.entities, EntityWeights(round4, g, evidence), ListedEntities(g), ids, |ids|);
  }

  lemma RelationHalf(round4: Rounding, g: Graph, evidence: set<Id>)
    ensures var plan := PlanOf(round4, g, evidence);
            var after := Deactivated(g, plan.deactivate, |plan.deactivate|).graph;
            var ids := KeptIds(g, evidence);
            Applied(g.relations, ListedRelations(after), plan.relationUpdates, |plan.relationUpdates|)
            == InPlace(round4, g.relations, KeptWeights(round4, g, evidence), ids, |ids|)
  {
    var unsupported := Having(Listing(g, |g.order|), evidence, false);
    var after := Deactivated(g, unsupported, |unsupported|).graph;
    var ids := KeptIds(g, evidence);
    DeactivatedListing(g, evidence);
    forall id | id in ids ensures id in g.relations && id in ListedRelations(after) {
      assert id in Kept(g, evidence);
      ListedInOrder(g, |g.order|, id);
      assert Listed(after, id);
    }
    PlanThenApplyIsInPlace(round4, g.relations, KeptWeights(round4, g, evidence), ListedRelations(after), ids, |ids|);
  }

  /** Plan then apply, on the rows the plan was made from, is the in-place pass: rows, order and commands alike. */
  lemma PlanThenApplyEqualsInPlace(round4: Rounding, g: Graph, evidence: set<Id>)
    ensures AppliedPlan(g, PlanOf(round4, g, evidence)) == UpdatedInPlace(round4, g, evidence)
  {
    EntityHalf(round4, g, evidence);
    RelationHalf(round4, g, evidence);
  }

  lemma {:induction false} InPlaceKeepsData<D>(
    round4: Rounding, t: Table<D>, weights: map<Id, real>, ids: seq<Id>, n: nat, id: Id)
    requires n <= |ids| && id in t && forall i :: i in ids ==> i in t
    ensures InPlace(round4, t, weights, ids, n).table[id].data == t[id].data
  {
    if n > 0 {
      InPlaceKeepsData(round4, t, weights, ids, n - 1, id);
    }
  }

  lemma KeptWeightsAreWeights(round4: Rounding, g: Graph, evidence: set<Id>)
    requires ValidRounding(round4)
    ensures UnitWeights(EntityWeights(round4, g, evidence)) && UnitWeights(KeptWeights(round4, g, evidence))
  {
    CentralitiesAreWeights(round4, ListedEntities(g), EndsOf(g, Kept(g, evidence)));
  }

  ghost predicate SameData<D>(a: Table<D>, b: Table<D>) {
    a.Keys == b.Keys && forall id :: id in a ==> a[id].data == b[id].data
  }

  /** Graphs that differ at most in the rows' properties and weights. */
  ghost predicate SameShape(a: Graph, b: Graph) {
    && a.status == b.status && a.generation == b.generation && a.order == b.order
    && a.liveEntities == b.liveEntities && a.liveRelations == b.liveRelations && a.embedded == b.embedded
    && SameData(a.entities, b.entities) && SameData(a.relations, b.relations)
  }

  lemma InPlaceSameData<D>(round4: Rounding, t: Table<D>, weights: map<Id, real>, ids: seq<Id>)
    requires forall i :: i in ids ==> i in t
    ensures SameData(t, InPlace(round4, t, weights, ids, |ids|).table)
  {
    forall id | id in t ensures InPlace(round4, t, weights, ids, |ids|).table[id].data == t[id].data {
      InPlaceKeepsData(round4, t, weights, ids, |ids|, id);
    }
  }

  lemma SameShapeListing(a: Graph, b: Graph, id: Id)
    requires SameShape(a, b)
    ensures ListedEntities(a) == ListedEntities(b) && (Listed(a, id) <==> Listed(b, id))
  {
  }

  /** A pass only removes unsupported relations and rewrites properties and weights. */
  lemma PassKeepsShape(round4: Rounding, g: Graph, evidence: set<Id>)
    ensures var unsupported := PlanOf(round4, g, evidence).deactivate;
            SameShape(Deactivated(g, unsupported, |unsupported|).graph, UpdatedInPlace(round4, g, evidence).graph)
  {
    var entityIds := EntityIds(g);
    var relationIds := KeptIds(g, evidence);
    InPlaceSameData(round4, g.entities, EntityWeights(round4, g, evidence), entityIds);
    InPlaceSameData(round4, g.relations, KeptWeights(round4, g, evidence), relationIds);
  }

  /** What the pass leaves listed: the entities as before, and the supported relations in the same order. */
  lemma PassListing(round4: Rounding, g: Graph, evidence: set<Id>)
    ensures var after := UpdatedInPlace(round4, g, evidence).graph;
            && after.order == g.order && ListedEntities(after) == ListedEntities(g)
            && Listing(after, |after.order|) == Kept(g, evidence)
  {
    var unsupported := Having(Listing(g, |g.order|), evidence, false);
    var middle := Deactivated(g, unsupported, |unsupported|).graph;
    var after := UpdatedInPlace(round4, g, evidence).graph;
    DeactivatedListing(g, evidence);
    PassKeepsShape(round4, g, evidence);
    SameShapeListing(middle, after, 0);
    forall id | id in g.order ensures Listed(after, id) <==> Listed(g, id) && id in evidence {
      SameShapeListing(middle, after, id);
    }
    ListingNarrows(g, after, evidence, |g.order|);
  }

  /** `after` lists the entities of `g` and its supported relations, in the same order and with the same endpoints. */
  ghost predicate ListsSupported(g: Graph, after: Graph, evidence: set<Id>) {
    && after.order == g.order && ListedEntities(after) == ListedEntities(g)
    && Listing(after, |after.order|) == Kept(g, evidence)
    && SameData(g.relations, after.relations)
  }

  lemma SameKeptNext(g: Graph, after: Graph, evidence: set<Id>)
    requires ListsSupported(g, after, evidence)
    ensures Kept(after, evidence) == Kept(g, evidence) && Having(Listing(after, |after.order|), evidence, false) == []
    ensures EndsOf(after, Kept(after, evidence)) == EndsOf(g, Kept(g, evidence))
  {
    var kept := Kept(g, evidence);
    FilteredAll(kept, evidence, true);
    forall i | 0 <= i < |kept| ensures EndsOf(after, kept)[i] == EndsOf(g, kept)[i] {
      assert kept[i] in kept;
    }
  }

  /** The next pass computes the same weights. */
  lemma SameEntityWeightsNext(round4: Rounding, g: Graph, after: Graph, evidence: set<Id>)
    requires ListsSupported(g, after, evidence)
    ensures EntityWeights(round4, after, evidence) == EntityWeights(round4, g, evidence)
  {
    SameKeptNext(g, after, evidence);
  }

  lemma SameKeptWeightsNext(round4: Rounding, g: Graph, after: Graph, evidence: set<Id>)
    requires ListsSupported(g, after, evidence)
    ensures KeptWeights(round4, after, evidence) == KeptWeights(round4, g, evidence)
  {
    SameKeptNext(g, after, evidence);
    SameEntityWeightsNext(round4, g, after, evidence);
    SameRelationWeights(round4, g, after, EntityWeights(round4, g, evidence), IdSet(Kept(g, evidence)));
  }

  lemma SameRelationWeights(round4: Rounding, g: Graph, after: Graph, weights: map<Id, real>, ids: set<Id>)
    requires SameData(g.relations, after.relations) && ids <= g.relations.Keys
    ensures RelationWeights(round4, after, weights, ids) == RelationWeights(round4, g, weights, ids)
  {
  }

  lemma PassListsSupported(round4: Rounding, g: Graph, evidence: set<Id>)
    ensures ListsSupported(g, UpdatedInPlace(round4, g, evidence).graph, evidence)
  {
    PassListing(round4, g, evidence);
    PassKeepsShape(round4, g, evidence);
  }

  lemma SettledEntities(round4: Rounding, g: Graph, after: Graph, evidence: set<Id>)
    requires ValidRounding(round4) && ListsSupported(g, after, evidence)
    requires var ids := EntityIds(g);
             after.entities == InPlace(round4, g.entities, EntityWeights(round4, g, evidence), ids, |ids|).table
    ensures PlanOf(round4, after, evidence).entityUpdates == []
  {
    SameEntityWeightsNext(round4, g, after, evidence);
    CentralitiesAreWeights(round4, ListedEntities(g), EndsOf(g, Kept(g, evidence)));
    InPlaceSettles(round4, g.entities, EntityWeights(round4, g, evidence), EntityIds(g));
  }

  lemma SettledRelations(round4: Rounding, g: Graph, after: Graph, evidence: set<Id>)
    requires ValidRounding(round4) && ListsSupported(g, after, evidence)
    requires var ids := KeptIds(g, evidence);
             after.relations == InPlace(round4, g.relations, KeptWeights(round4, g, evidence), ids, |ids|).table
    ensures PlanOf(round4, after, evidence).relationUpdates == []
  {
    SameKeptNext(g, after, evidence);
    SameKeptWeightsNext(round4, g, after, evidence);
    KeptWeightsAreWeights(round4, g, evidence);
    InPlaceSettles(round4, g.relations, KeptWeights(round4, g, evidence), KeptIds(g, evidence));
  }

  /**
   One pass reaches a fixed point: with the evidence unchanged, planning again after
   applying a plan finds nothing to deactivate and no weight to change.
   */
  lemma MaintenanceReachesFixedPoint(round4: Rounding, g: Graph, evidence: set<Id>)
    requires ValidRounding(round4)
    ensures var after := AppliedPlan(g, PlanOf(round4, g, evidence)).graph;
            && PlanOf(round4, after, evidence) == Plan([], [], [])
            && (Eligible(Some(g), g.generation) ==>
                  PlanFor(round4, Some(after), g.generation, evidence) == Some(Plan([], [], [])))
  {
    PlanThenApplyEqualsInPlace(round4, g, evidence);
    var after := UpdatedInPlace(round4, g, evidence).graph;
    PassListsSupported(round4, g, evidence);
    SameKeptNext(g, after, evidence);
    SettledEntities(round4, g, after, evidence);
    SettledRelations(round4, g, after, evidence);
  }

  ghost predicate KeepsFeedback<D>(round4: Rounding, before: Table<D>, after: Table<D>) {
    forall id :: id in before && id in after ==>
      && FeedbackOf(round4, after[id].row) == FeedbackOf(round4, before[id].row)
      && (0.0 <= before[id].row.weight <= 1.0 ==> 0.0 <= after[id].row.weight <= 1.0)
      && (after[id] != before[id] ==> 0.0 <= after[id].row.weight <= 1.0)
  }

  lemma InPlaceKeepsFeedback<D>(round4: Rounding, t: Table<D>, weights: map<Id, real>, ids: seq<Id>)
    requires ValidRounding(round4) && UnitWeights(weights) && Increasing(ids) && forall id :: id in ids ==> id in t
    ensures KeepsFeedback(round4, t, InPlace(round4, t, weights, ids, |ids|).table)
  {
    var after := InPlace(round4, t, weights, ids, |ids|).table;
    forall id | id in t
      ensures FeedbackOf(round4, after[id].row) == FeedbackOf(round4, t[id].row)
      ensures after[id] != t[id] ==> 0.0 <= after[id].row.weight <= 1.0
    {
      InPlaceRefreshes(round4, t, weights, ids, |ids|, id);
      RefreshKeepsFeedback(round4, t[id].row, WeightOf(weights, id));
      RefreshIsStable(round4, t[id].row, WeightOf(weights, id));
    }
  }

  /** A pass preserves every feedback component, and no weight it writes or finds in [0, 1] ends outside. */
  lemma MaintenanceKeepsFeedback(round4: Rounding, g: Graph, evidence: set<Id>)
    requires ValidRounding(round4)
    ensures var after := AppliedPlan(g, PlanOf(round4, g, evidence)).graph;
            && KeepsFeedback(round4, g.entities, after.entities)
            && KeepsFeedback(round4, g.relations, after.relations)
  {
    PlanThenApplyEqualsInPlace(round4, g, evidence);
    KeptWeightsAreWeights(round4, g, evidence);
    InPlaceKeepsFeedback(round4, g.entities, EntityWeights(round4, g, evidence), EntityIds(g));
    InPlaceKeepsFeedback(round4, g.relations, KeptWeights(round4, g, evidence), KeptIds(g, evidence));
  }

  /** Whatever plan is applied, however stale, only listed rows change and only planned relations are deactivated. */
  lemma StalePlanIsHarmless(g: Graph, plan: Plan, id: Id)
    ensures var after := AppliedPlan(g, plan).graph;
            && (id in g.entities && id !in ListedEntities(g) ==> after.entities[id] == g.entities[id])
            && (id in g.relations && !Listed(g, id) ==> after.relations[id] == g.relations[id])
            && (id in g.liveRelations && id !in after.liveRelations ==> Listed(g, id) && id in plan.deactivate)
  {
    DeactivatedOnlyPlanned(g, plan.deactivate, |plan.deactivate|, id);
    var middle := Deactivated(g, plan.deactivate, |plan.deactivate|).graph;
    if id in g.entities && id !in ListedEntities(g) {
      AppliedOnlyListed(g.entities, ListedEntities(g), plan.entityUpdates, |plan.entityUpdates|, id);
    }
    if id in g.relations && !Listed(g, id) {
      AppliedOnlyListed(g.relations, ListedRelations(middle), plan.relationUpdates, |plan.relationUpdates|, id);
    }
  }

  lemma {:induction false} DeactivatedOnlyPlanned(g: Graph, ids: seq<Id>, n: nat, id: Id)
    requires n <= |ids|
    ensures var after := Deactivated(g, ids, n).graph;
            && after.liveRelations <= g.liveRelations
            && (Listed(after, id) ==> Listed(g, id))
            && (id in g.liveRelations && id !in after.liveRelations ==> Listed(g, id) && id in ids)
  {
    if n > 0 {
      DeactivatedOnlyPlanned(g, ids, n - 1, id);
      assert ListedEntities(Deactivated(g, ids, n).graph) == ListedEntities(g);
      assert ListedEntities(Deactivated(g, ids, n - 1).graph) == ListedEntities(g);
    }
  }

  lemma {:induction false} AppliedOnlyListed<D>(t: Table<D>, listed: set<Id>, updates: seq<Update>, n: nat, id: Id)
    requires n <= |updates| && id in t && id !in listed
    ensures Applied(t, listed, updates, n).table[id] == t[id]
  {
    if n > 0 {
      AppliedOnlyListed(t, listed, updates, n - 1, id);
    }
  }
}
