/**
 Importance weights, their markers, and degree centrality. Weights are reals; rounding to four decimals is any
 function that is idempotent and stays inside [0, 1], so no statement depends on how
 floats break ties.
*/
module Importance {
  import opened Wrappers
  import opened Ordering

  type Rounding = real -> real

  const ImportanceMarkerKey := "_sofias_memory_importance"
  const ImportanceMarkerVersion := "degree-v1"

  /** What JSON may hold where a weight is expected: a finite number, or something that is not one. */
  datatype MarkerWeight = Number(value: real) | NotANumber

  /** One JSON property; a marker keeps whatever further keys its mapping has in `extra`. */
  datatype Property =
    | Marker(version: string, feedback: MarkerWeight, centrality: MarkerWeight, extra: map<string, string>)
    | Other(json: string)

  /** The part of an entity or relation row that maintenance reads and writes. */
  datatype Row = Row(properties: map<string, Property>, weight: real)

  datatype Components = Components(feedback: real, centrality: real)

  datatype Endpoints = Endpoints(source: Id, target: Id)

  ghost predicate ValidRounding(round4: Rounding) {
    && (forall x :: round4(round4(x)) == round4(x))
    && (forall x :: 0.0 <= x <= 1.0 ==> 0.0 <= round4(x) <= 1.0)
  }

  /* ----- weights and markers ----- */

  function Clamp(round4: Rounding, x: real): real {
    round4(if x < 0.0 then 0.0 else if x > 1.0 then 1.0 else x)
  }

  function Effective(round4: Rounding, feedback: real, centrality: real): real {
    round4((Clamp(round4, feedback) + Clamp(round4, centrality)) / 2.0)
  }

  predicate ValidMarkerWeight(w: MarkerWeight) {
    w.Number? && 0.0 <= w.value <= 1.0
  }

  function StoredComponents(round4: Rounding, properties: map<string, Property>): Option<Components> {
    if ImportanceMarkerKey !in properties then None
    else
      match properties[ImportanceMarkerKey]
      case Other(_) => None
      case Marker(version, feedback, centrality, _) =>
        if version != ImportanceMarkerVersion || !ValidMarkerWeight(feedback) || !ValidMarkerWeight(centrality) then
            None
        else Some(Components(Clamp(round4, feedback.value), Clamp(round4, centrality.value)))
  }

  /** The feedback component of a row: its marker's if it has a valid one, else its current weight. */
  function FeedbackOf(round4: Rounding, row: Row): real {
    match StoredComponents(round4, row.properties)
    case Some(components) => components.feedback
    case None => Clamp(round4, row.weight)
  }

  function NextRow(round4: Rounding, row: Row, centrality: real): Row {
    var feedback := FeedbackOf(round4, row);
    Row(row.properties[ImportanceMarkerKey :=
        Marker(ImportanceMarkerVersion, Number(feedback), Number(centrality), map[])],
        Effective(round4, feedback, centrality))
  }

  predicate Changed(round4: Rounding, row: Row, next: Row) {
    row.properties != next.properties || round4(row.weight) != next.weight
  }

  /** The row maintenance leaves behind. */
  function Refreshed(round4: Rounding, row: Row, centrality: real): Row {
    var next := NextRow(round4, row, centrality);
    if Changed(round4, row, next) then next else row
  }

  lemma ClampBounds(round4: Rounding, x: real)
    requires ValidRounding(round4)
    ensures 0.0 <= Clamp(round4, x) <= 1.0 && Clamp(round4, Clamp(round4, x)) == Clamp(round4, x)
  {
  }

  lemma EffectiveBounds(round4: Rounding, feedback: real, centrality: real)
    requires ValidRounding(round4)
    ensures 0.0 <= Effective(round4, feedback, centrality) <= 1.0
    ensures round4(Effective(round4, feedback, centrality)) == Effective(round4, feedback, centrality)
  {
    ClampBounds(round4, feedback);
    ClampBounds(round4, centrality);
  }

  /** Refreshing preserves the feedback component instead of compounding it, whatever the row held before. */
  lemma RefreshKeepsFeedback(round4: Rounding, row: Row, centrality: real)
    requires ValidRounding(round4) && 0.0 <= centrality <= 1.0
    ensures FeedbackOf(round4, Refreshed(round4, row, centrality)) == FeedbackOf(round4, row)
  {
    ClampBounds(round4, row.weight);
    match StoredComponents(round4, row.properties)
    case Some(_) =>
      var marker := row.properties[ImportanceMarkerKey];
      ClampBounds(round4, marker.feedback.value);
    case None =>
  }

  /** A refreshed row needs no further refresh, and if it was written its weight is in [0, 1]. */
  lemma RefreshIsStable(round4: Rounding, row: Row, centrality: real)
    requires ValidRounding(round4) && 0.0 <= centrality <= 1.0
    ensures var r := Refreshed(round4, row, centrality);
            && !Changed(round4, r, NextRow(round4, r, centrality))
            && (r != row ==> 0.0 <= r.weight <= 1.0)
  {
    RefreshKeepsFeedback(round4, row, centrality);
    EffectiveBounds(round4, FeedbackOf(round4, row), centrality);
    var r := Refreshed(round4, row, centrality);
    assert NextRow(round4, r, centrality).properties == r.properties;
  }

  /**
   A written marker is read back on the next pass exactly if the centrality was in [0, 1]. Outside it the marker
   is refused, and the feedback is then read from the blended weight: it compounds.
  */
  lemma CentralityMustBeAWeight(round4: Rounding, row: Row, centrality: real)
    requires ValidRounding(round4)
    ensures var next := NextRow(round4, row, centrality);
            && (StoredComponents(round4, next.properties).Some? <==> 0.0 <= centrality <= 1.0)
            && (!(0.0 <= centrality <= 1.0) ==>
                  FeedbackOf(round4, next) == Clamp(round4, Effective(round4, FeedbackOf(round4, row), centrality)))
  {
    ClampBounds(round4, row.weight);
    match StoredComponents(round4, row.properties)
    case Some(_) => ClampBounds(round4, row.properties[ImportanceMarkerKey].feedback.value);
    case None =>
  }

  /* ----- degree centrality ----- */

  predicate Touches(e: Endpoints, id: Id) {
    e.source != e.target && (e.source == id || e.target == id)
  }

  /** Non-loop relations incident to `id` among the first `n`. */
  function Degree(relations: seq<Endpoints>, n: nat, id: Id): (d: nat)
    requires n <= |relations|
    ensures d <= n
  {
    if n == 0 then 0 else Degree(relations, n - 1, id) + (if Touches(relations[n - 1], id) then 1 else 0)
  }

  /** max(degrees.values(), default=0) */
  function MaxDegree(ids: seq<Id>, relations: seq<Endpoints>): (m: nat)
    ensures forall id :: id in ids ==> Degree(relations, |relations|, id) <= m
    ensures m > 0 ==> exists id :: id in ids && Degree(relations, |relations|, id) == m
  {
    if ids == [] then 0
    else
      var rest := MaxDegree(ids[1..], relations);
      var first := Degree(relations, |relations|, ids[0]);
      if first > rest then first else rest
  }

  function MostConnected(ids: set<Id>, relations: seq<Endpoints>): (m: nat)
    ensures forall id :: id in ids ==> Degree(relations, |relations|, id) <= m
    ensures m > 0 ==> exists id :: id in ids && Degree(relations, |relations|, id) == m
  {
    MaxDegree(SortedIds(ids), relations)
  }

  /** The degree of an entity over the largest one, rounded. */
  function Ratio(round4: Rounding, degree: nat, most: nat): real {
    if most == 0 then 0.0 else round4(degree as real / most as real)
  }

  lemma RatioBounds(round4: Rounding, degree: nat, most: nat)
    requires ValidRounding(round4) && degree <= most
    ensures 0.0 <= Ratio(round4, degree, most) <= 1.0
    ensures degree == 0 && round4(0.0) == 0.0 ==> Ratio(round4, degree, most) == 0.0
  {
    if most > 0 {
      var q := degree as real / most as real;
      assert q * most as real == degree as real;
      UnitRatio(q, degree, most);
    }
  }

  lemma UnitRatio(q: real, degree: nat, most: nat)
    requires degree <= most && most > 0 && q * most as real == degree as real
    ensures 0.0 <= q <= 1.0 && (degree == 0 ==> q == 0.0)
  {
  }

  /** The dictionary entity_centrality returns: one weight for each entity. */
  function Centralities(round4: Rounding, ids: set<Id>, relations: seq<Endpoints>): (weights: map<Id, real>)
    ensures weights.Keys == ids
  {
    var most := MostConnected(ids, relations);
    map id | id in ids :: Ratio(round4, Degree(relations, |relations|, id), most)
  }

  /** centrality.get(id, 0.0) */
  function WeightOf(weights: map<Id, real>, id: Id): real {
    if id in weights then weights[id] else 0.0
  }

  ghost predicate UnitWeights(weights: map<Id, real>) {
    forall id :: id in weights ==> 0.0 <= weights[id] <= 1.0
  }

  lemma CentralitiesAreWeights(round4: Rounding, ids: set<Id>, relations: seq<Endpoints>)
    requires ValidRounding(round4)
    ensures UnitWeights(Centralities(round4, ids, relations))
  {
    forall id | id in ids ensures 0.0 <= Centralities(round4, ids, relations)[id] <= 1.0 {
      RatioBounds(round4, Degree(relations, |relations|, id), MostConnected(ids, relations));
    }
  }

  /** The rounded mean of the endpoints' centralities. */
  function MeanWeight(round4: Rounding, weights: map<Id, real>, e: Endpoints): real {
    round4((WeightOf(weights, e.source) + WeightOf(weights, e.target)) / 2.0)
  }

  /** How many endpoints of a non-loop relation are counted. */
  function Counted(e: Endpoints, ids: seq<Id>): nat {
    if e.source == e.target then 0 else (if e.source in ids then 1 else 0) + (if e.target in ids then 1 else 0)
  }

  function SumCounted(relations: seq<Endpoints>, n: nat, ids: seq<Id>): nat
    requires n <= |relations|
  {
    if n == 0 then 0 else SumCounted(relations, n - 1, ids) + Counted(relations[n - 1], ids)
  }

  function SumDegrees(relations: seq<Endpoints>, n: nat, ids: seq<Id>): nat
    requires n <= |relations|
  {
    if ids == [] then 0 else Degree(relations, n, ids[0]) + SumDegrees(relations, n, ids[1..])
  }

  lemma {:induction false} SumDegreesStep(relations: seq<Endpoints>, n: nat, ids: seq<Id>)
    requires 0 < n <= |relations| && Increasing(ids)
    ensures SumDegrees(relations, n, ids) == SumDegrees(relations, n - 1, ids) + Counted(relations[n - 1], ids)
  {
    if ids != [] {
      var rest := ids[1..];
      SumDegreesStep(relations, n, rest);
      assert ids[0] !in rest;
      assert forall id :: id in ids <==> id == ids[0] || id in rest;
    }
  }

  lemma {:induction false} DegreesCountEndpoints(relations: seq<Endpoints>, n: nat, ids: seq<Id>)
    requires n <= |relations| && Increasing(ids)
    ensures SumDegrees(relations, n, ids) == SumCounted(relations, n, ids)
  {
    if n == 0 {
      ZeroDegrees(relations, ids);
    } else {
      DegreesCountEndpoints(relations, n - 1, ids);
      SumDegreesStep(relations, n, ids);
    }
  }

  lemma {:induction false} ZeroDegrees(relations: seq<Endpoints>, ids: seq<Id>)
    ensures SumDegrees(relations, 0, ids) == 0
  {
    if ids != [] {
      ZeroDegrees(relations, ids[1..]);
    }
  }

  function CountNonLoops(relations: seq<Endpoints>, n: nat): nat
    requires n <= |relations|
  {
    if n == 0 then 0
    else CountNonLoops(relations, n - 1) + (if relations[n - 1].source != relations[n - 1].target then 1 else 0)
  }

  lemma {:induction false} CountedBothEnds(relations: seq<Endpoints>, n: nat, ids: seq<Id>)
    requires n <= |relations|
    ensures SumCounted(relations, n, ids) <= 2 * CountNonLoops(relations, n)
    ensures SumCounted(relations, n, ids) == 2 * CountNonLoops(relations, n) <==>
              forall i :: 0 <= i < n && relations[i].source != relations[i].target ==>
                relations[i].source in ids && relations[i].target in ids
  {
    if n > 0 {
      CountedBothEnds(relations, n - 1, ids);
    }
  }

  /** The handshake law: the degrees add up to two a relation exactly when no counted relation leaves the entity set. */
  lemma Handshake(ids: set<Id>, relations: seq<Endpoints>)
    ensures SumDegrees(relations, |relations|, SortedIds(ids)) == 2 * CountNonLoops(relations, |relations|) <==>
              forall i :: 0 <= i < |relations| && relations[i].source != relations[i].target ==>
                relations[i].source in ids && relations[i].target in ids
  {
    var sorted := SortedIds(ids);
    DegreesCountEndpoints(relations, |relations|, sorted);
    CountedBothEnds(relations, |relations|, sorted);
  }

  /** The dictionary of degrees after the first `n` relations. */
  ghost predicate CountsDegrees(degrees: map<Id, nat>, ids: set<Id>, relations: seq<Endpoints>, n: nat)
    requires n <= |relations|
  {
    degrees.Keys == ids && forall id :: id in ids ==> degrees[id] == Degree(relations, n, id)
  }

  /** One pass of the counting loop; a self-loop counts for nobody. */
  method CountRelation(degrees: map<Id, nat>, e: Endpoints) returns (next: map<Id, nat>)
    ensures next.Keys == degrees.Keys
    ensures forall id :: id in degrees ==> next[id] == degrees[id] + (if Touches(e, id) then 1 else 0)
  {
    next := degrees;
    if e.source != e.target {
      if e.source in next { next := next[e.source := next[e.source] + 1]; }
      if e.target in next { next := next[e.target := next[e.target] + 1]; }
    }
  }

  lemma CountsOneMore(degrees: map<Id, nat>, next: map<Id, nat>, ids: set<Id>, relations: seq<Endpoints>, n: nat)
    requires n < |relations| && CountsDegrees(degrees, ids, relations, n) && next.Keys == ids
    requires forall id :: id in degrees ==> next[id] == degrees[id] + (if Touches(relations[n], id) then 1 else 0)
    ensures CountsDegrees(next, ids, relations, n + 1)
  {
    forall id | id in ids ensures next[id] == Degree(relations, n + 1, id) {
      assert degrees[id] == Degree(relations, n, id);
    }
  }

  method CountDegrees(ids: set<Id>, relations: seq<Endpoints>) returns (degrees: map<Id, nat>)
    ensures CountsDegrees(degrees, ids, relations, |relations|)
  {
    degrees := map id | id in ids :: 0;
    for n := 0 to |relations|
      invariant CountsDegrees(degrees, ids, relations, n)
    {
      var next := CountRelation(degrees, relations[n]);
      CountsOneMore(degrees, next, ids, relations, n);
      degrees := next;
    }
  }

  /** entity_centrality: a dictionary of degrees filled relation by relation, then divided by the largest. */
  method EntityCentrality(round4: Rounding, ids: set<Id>, relations: seq<Endpoints>) returns (weights: map<Id, real>)
    ensures weights == Centralities(round4, ids, relations)
  {
    var degrees := CountDegrees(ids, relations);
    var most := MostConnected(ids, relations);
    weights := map id | id in ids :: Ratio(round4, degrees[id], most);
    forall id | id in ids ensures weights[id] == Centralities(round4, ids, relations)[id] {
      assert degrees[id] == Degree(relations, |relations|, id);
    }
  }
}
