/** The graph projection: outbox commands, what Neo4j does with them, and how a projection is compared. */
module GraphProjection {
  import opened Wrappers
  import opened Ordering

  datatype Mention = Mention(id: Id, entity: Id, chunk: Id)

  datatype RelationEdge = RelationEdge(id: Id, source: Id, target: Id)

  datatype NextEdge = NextEdge(from: Id, to: Id)

  datatype Command =
    | UpsertEntity(entity: Id) | UpsertChunk(chunk: Id)
    | UpsertMention(mention: Mention) | UpsertRelation(relation: RelationEdge) | UpsertNext(next: NextEdge)
    | DeleteEntity(entity: Id) | DeleteChunk(chunk: Id)
    | DeleteMention(mention: Mention) | DeleteRelation(relation: RelationEdge) | DeleteNext(next: NextEdge)

  /** The technical identities of a projection: nodes by id, edges by id and endpoints. */
  datatype Projection = Projection(
    entities: set<Id>, chunks: set<Id>, mentions: set<Mention>, relations: set<RelationEdge>, next: set<NextEdge>)

  const Nothing := Projection({}, {}, {}, {}, {})

  /** One command applied. None: an edge upsert found an endpoint missing. Deleting a node detaches its edges. */
  function Apply(p: Projection, c: Command): Option<Projection> {
    match c
    case UpsertEntity(id) => Some(p.(entities := p.entities + {id}))
    case UpsertChunk(id) => Some(p.(chunks := p.chunks + {id}))
    case UpsertMention(m) =>
      if m.entity in p.entities && m.chunk in p.chunks then Some(p.(mentions := p.mentions + {m})) else None
    case UpsertRelation(r) =>
      if r.source in p.entities && r.target in p.entities then Some(p.(relations := p.relations + {r})) else None
    case UpsertNext(e) =>
      if e.from in p.chunks && e.to in p.chunks then Some(p.(next := p.next + {e})) else None
    case DeleteEntity(id) =>
      Some(p.(entities := p.entities - {id},
              mentions := (set m | m in p.mentions && m.entity != id),
              relations := (set r | r in p.relations && r.source != id && r.target != id)))
    case DeleteChunk(id) =>
      Some(p.(chunks := p.chunks - {id},
              mentions := (set m | m in p.mentions && m.chunk != id),
              next := (set e | e in p.next && e.from != id && e.to != id)))
    case DeleteMention(m) => Some(p.(mentions := p.mentions - {m}))
    case DeleteRelation(r) => Some(p.(relations := p.relations - {r}))
    case DeleteNext(e) => Some(p.(next := p.next - {e}))
  }

  /** The first `n` commands applied in order; None once one has failed. */
  function Replay(p: Projection, commands: seq<Command>, n: nat): Option<Projection>
    requires n <= |commands|
  {
    if n == 0 then Some(p)
    else
      var before := Replay(p, commands, n - 1);
      if before.None? then None else Apply(before.value, commands[n - 1])
  }

  lemma {:induction false} ReplayConcat(p: Projection, a: seq<Command>, b: seq<Command>, n: nat)
    requires n <= |b| && Replay(p, a, |a|).Some?
    ensures Replay(p, a + b, |a| + n) == Replay(Replay(p, a, |a|).value, b, n)
  {
    if n == 0 {
      ReplayPrefix(p, a, b, |a|);
    } else {
      ReplayConcat(p, a, b, n - 1);
      assert (a + b)[|a| + n - 1] == b[n - 1];
    }
  }

  lemma {:induction false} ReplayPrefix(p: Projection, a: seq<Command>, b: seq<Command>, n: nat)
    requires n <= |a|
    ensures Replay(p, a + b, n) == Replay(p, a, n)
  {
    if n > 0 {
      ReplayPrefix(p, a, b, n - 1);
      assert (a + b)[n - 1] == a[n - 1];
    }
  }

  /* ----- a batch of upserts ----- */

  predicate IsUpsert(c: Command) {
    c.UpsertEntity? || c.UpsertChunk? || c.UpsertMention? || c.UpsertRelation? || c.UpsertNext?
  }

  /** The endpoints of `c` are in `p` or upserted by the first `n` commands. */
  ghost predicate EndpointsBy(p: Projection, commands: seq<Command>, n: nat, c: Command)
    requires n <= |commands|
  {
    match c
    case UpsertMention(m) =>
      && (m.entity in p.entities || UpsertEntity(m.entity) in commands[..n])
      && (m.chunk in p.chunks || UpsertChunk(m.chunk) in commands[..n])
    case UpsertRelation(r) =>
      && (r.source in p.entities || UpsertEntity(r.source) in commands[..n])
      && (r.target in p.entities || UpsertEntity(r.target) in commands[..n])
    case UpsertNext(e) =>
      && (e.from in p.chunks || UpsertChunk(e.from) in commands[..n])
      && (e.to in p.chunks || UpsertChunk(e.to) in commands[..n])
    case _ => true
  }

  /** Only upserts, and no edge before its endpoints. */
  ghost predicate WellOrdered(p: Projection, commands: seq<Command>) {
    forall i :: 0 <= i < |commands| ==> IsUpsert(commands[i]) && EndpointsBy(p, commands, i, commands[i])
  }

  lemma EndpointsStay(p: Projection, a: seq<Command>, n: nat, b: seq<Command>, m: nat, c: Command)
    requires n <= |a| && m <= |b| && EndpointsBy(p, a, n, c) && forall x :: x in a[..n] ==> x in b[..m]
    ensures EndpointsBy(p, b, m, c)
  {
  }

  /** Edges whose endpoints are in `p` or among `a` may follow `a`. */
  lemma WellOrderedConcat(p: Projection, a: seq<Command>, b: seq<Command>)
    requires WellOrdered(p, a) && forall c :: c in b ==> IsUpsert(c) && EndpointsBy(p, a, |a|, c)
    ensures WellOrdered(p, a + b)
  {
    forall i | 0 <= i < |a + b| ensures IsUpsert((a + b)[i]) && EndpointsBy(p, a + b, i, (a + b)[i]) {
      var c := (a + b)[i];
      if i < |a| {
        assert c == a[i] && (a + b)[..i] == a[..i];
        EndpointsStay(p, a, i, a + b, i, c);
      } else {
        assert c in b && a[..|a|] == a && (a + b)[..i] == a + b[..i - |a|];
        EndpointsStay(p, a, |a|, a + b, i, c);
      }
    }
  }

  /** Nodes first, then edges between them or nodes already there. */
  lemma NodesBeforeEdges(p: Projection, nodes: seq<Command>, edges: seq<Command>)
    requires forall c :: c in nodes ==> c.UpsertEntity? || c.UpsertChunk?
    requires forall c :: c in edges ==> IsUpsert(c) && EndpointsBy(p, nodes, |nodes|, c)
    ensures WellOrdered(p, nodes + edges)
  {
    forall i | 0 <= i < |nodes| ensures IsUpsert(nodes[i]) && EndpointsBy(p, nodes, i, nodes[i]) {
      assert nodes[i] in nodes;
    }
    WellOrderedConcat(p, nodes, edges);
  }

  /** Dropping repeats keeps every edge after its endpoints. */
  lemma {:induction false} DistinctStaysOrdered(p: Projection, commands: seq<Command>, n: nat)
    requires n <= |commands| && WellOrdered(p, commands)
    ensures WellOrdered(p, Distinct(commands, n))
  {
    if n > 0 {
      DistinctStaysOrdered(p, commands, n - 1);
      var before := Distinct(commands, n - 1);
      var c := commands[n - 1];
      assert IsUpsert(c) && EndpointsBy(p, commands, n - 1, c);
      assert before[..|before|] == before;
      EndpointsStay(p, commands, n - 1, before, |before|, c);
      if c !in before {
        WellOrderedConcat(p, before, [c]);
      }
    }
  }

  /** `after` is `p` with exactly what `commands` upsert. */
  ghost predicate Adds(p: Projection, commands: seq<Command>, after: Projection) {
    && (forall id :: id in after.entities <==> id in p.entities || UpsertEntity(id) in commands)
    && (forall id :: id in after.chunks <==> id in p.chunks || UpsertChunk(id) in commands)
    && (forall m :: m in after.mentions <==> m in p.mentions || UpsertMention(m) in commands)
    && (forall r :: r in after.relations <==> r in p.relations || UpsertRelation(r) in commands)
    && (forall e :: e in after.next <==> e in p.next || UpsertNext(e) in commands)
  }

  lemma {:induction false} ReplayUpserts(p: Projection, commands: seq<Command>, n: nat)
    requires n <= |commands| && WellOrdered(p, commands)
    ensures Replay(p, commands, n).Some? && Adds(p, commands[..n], Replay(p, commands, n).value)
  {
    if n > 0 {
      ReplayUpserts(p, commands, n - 1);
      var c := commands[n - 1];
      assert IsUpsert(c) && EndpointsBy(p, commands, n - 1, c);
      AddsOne(p, commands[..n - 1], c, Replay(p, commands, n - 1).value);
      assert commands[..n] == commands[..n - 1] + [c];
    }
  }

  lemma AddsOne(p: Projection, commands: seq<Command>, c: Command, middle: Projection)
    requires IsUpsert(c) && EndpointsBy(p, commands, |commands|, c) && Adds(p, commands, middle)
    ensures Apply(middle, c).Some? && Adds(p, commands + [c], Apply(middle, c).value)
  {
    assert commands[..|commands|] == commands;
    var after := Apply(middle, c).value;
    assert forall id :: UpsertEntity(id) in commands + [c] <==> UpsertEntity(id) in commands || UpsertEntity(id) == c;
    assert forall id :: UpsertChunk(id) in commands + [c] <==> UpsertChunk(id) in commands || UpsertChunk(id) == c;
    assert forall m :: UpsertMention(m) in commands + [c] <==> UpsertMention(m) in commands || UpsertMention(m) == c;
    assert forall r :: UpsertRelation(r) in commands + [c] <==> UpsertRelation(r) in commands || UpsertRelation(r) == c;
    assert forall e :: UpsertNext(e) in commands + [c] <==> UpsertNext(e) in commands || UpsertNext(e) == c;
  }

  /* ----- a batch of deletes ----- */

  /** `after` is `p` without what `commands` delete, edges of deleted nodes included. */
  ghost predicate Removes(p: Projection, commands: seq<Command>, after: Projection) {
    && (forall id :: id in after.entities <==> id in p.entities && DeleteEntity(id) !in commands)
    && (forall id :: id in after.chunks <==> id in p.chunks && DeleteChunk(id) !in commands)
    && (forall m :: m in after.mentions <==>
          m in p.mentions && DeleteMention(m) !in commands
          && DeleteEntity(m.entity) !in commands && DeleteChunk(m.chunk) !in commands)
    && (forall r :: r in after.relations <==>
          r in p.relations && DeleteRelation(r) !in commands
          && DeleteEntity(r.source) !in commands && DeleteEntity(r.target) !in commands)
    && (forall e :: e in after.next <==>
          e in p.next && DeleteNext(e) !in commands
          && DeleteChunk(e.from) !in commands && DeleteChunk(e.to) !in commands)
  }

  lemma {:induction false} ReplayDeletes(p: Projection, commands: seq<Command>, n: nat)
    requires n <= |commands| && forall i :: 0 <= i < |commands| ==> !IsUpsert(commands[i])
    ensures Replay(p, commands, n).Some? && Removes(p, commands[..n], Replay(p, commands, n).value)
  {
    if n > 0 {
      ReplayDeletes(p, commands, n - 1);
      var c := commands[n - 1];
      RemovesOne(p, commands[..n - 1], c, Replay(p, commands, n - 1).value);
      assert commands[..n] == commands[..n - 1] + [c];
    }
  }

  lemma RemovesOne(p: Projection, commands: seq<Command>, c: Command, middle: Projection)
    requires !IsUpsert(c) && Removes(p, commands, middle)
    ensures Apply(middle, c).Some? && Removes(p, commands + [c], Apply(middle, c).value)
  {
    assert forall id :: DeleteEntity(id) in commands + [c] <==> DeleteEntity(id) in commands || DeleteEntity(id) == c;
    assert forall id :: DeleteChunk(id) in commands + [c] <==> DeleteChunk(id) in commands || DeleteChunk(id) == c;
    assert forall m :: DeleteMention(m) in commands + [c] <==> DeleteMention(m) in commands || DeleteMention(m) == c;
    assert forall r :: DeleteRelation(r) in commands + [c] <==> DeleteRelation(r) in commands || DeleteRelation(r) == c;
    assert forall e :: DeleteNext(e) in commands + [c] <==> DeleteNext(e) in commands || DeleteNext(e) == c;
  }

  /* ----- reconciliation ----- */

  datatype Diff = Diff(
    entitiesMissing: nat, entitiesExtra: nat, chunksMissing: nat, chunksExtra: nat, mentionsMissing: nat,
        mentionsExtra: nat,
    relationsMissing: nat, relationsExtra: nat, nextMissing: nat, nextExtra: nat)

  const NoDiff := Diff(0, 0, 0, 0, 0, 0, 0, 0, 0, 0)

  function Compare(expected: Projection, actual: Projection): Diff {
    Diff(|expected.entities - actual.entities|, |actual.entities - expected.entities|,
         |expected.chunks - actual.chunks|, |actual.chunks - expected.chunks|,
         |expected.mentions - actual.mentions|, |actual.mentions - expected.mentions|,
         |expected.relations - actual.relations|, |actual.relations - expected.relations|,
         |expected.next - actual.next|, |actual.next - expected.next|)
  }

  lemma EmptyDifference<T>(a: set<T>, b: set<T>)
    ensures |a - b| == 0 && |b - a| == 0 <==> a == b
  {
    if |a - b| == 0 && |b - a| == 0 {
      assert a - b == {} && b - a == {};
      forall x ensures x in a <==> x in b {
        assert x !in a - b && x !in b - a;
      }
    }
  }

  /** The counts are all zero exactly when the two projections are the same. */
  lemma CompareIsExact(expected: Projection, actual: Projection)
    ensures Compare(expected, actual) == NoDiff <==> expected == actual
  {
    EmptyDifference(expected.entities, actual.entities);
    EmptyDifference(expected.chunks, actual.chunks);
    EmptyDifference(expected.mentions, actual.mentions);
    EmptyDifference(expected.relations, actual.relations);
    EmptyDifference(expected.next, actual.next);
  }
}
