/**
 Native cognitive memory: items, their provenance and the idempotency ledger, as the
 create, supersede and forget transactions read and write them.
*/
module CognitiveMemory {
  import opened Wrappers

  type Id = nat
  type Time = int

  datatype Lifecycle = Active | Superseded | Forgotten

  /** `serial` is the model's record of creation order; the table has no such column. */
  datatype Item = Item(
    serial: nat, memoryType: string, scope: Option<string>, content: Option<string>, embedding: Option<string>,
    lifecycle: Lifecycle, confidence: Option<real>, validFrom: Option<Time>, validUntil: Option<Time>,
    supersededAt: Option<Time>, supersededBy: Option<Id>, forgottenAt: Option<Time>)

  datatype Provenance = Provenance(
    originKind: string, sourceSystem: string, conversation: Option<string>, turn: Option<string>, task: Option<string>,
    confirmationRef: Option<string>, sourceRef: Option<string>, observedAt: Option<Time>)

  datatype Body = Body(
    content: string, confidence: Option<real>, validFrom: Option<Time>, validUntil: Option<Time>,
        provenance: Provenance)

  datatype Request =
    | Create(memoryType: string, scope: string, body: Body)
    | Supersede(target: Id, body: Body)
    | Forget(target: Id)

  datatype Operation = CreateOp | SupersedeOp | ForgetOp

  datatype Payload = CreatePayload(memoryType: string, scope: string, body: Body) | ReplacePayload(body: Body)
    | NoPayload

  /** The HMAC of the canonical request, taken as injective in what it covers. */
  datatype Digest = Digest(operation: Operation, target: Option<Id>, payload: Payload)

  datatype Entry = Entry(operation: Operation, digest: Digest, target: Option<Id>, result: Option<Id>)

  datatype Store = Store(items: map<Id, Item>, provenance: map<Id, Provenance>, ledger: map<string, Entry>)

  datatype Error =
    | ReservedKey | NotFound(id: Id) | StateConflict(id: Id) | IdempotencyConflict | EmbeddingUnavailable
    | NoWinnerRow | NoResultMemoryId | MissingMemoryItem

  datatype View = View(id: Id, item: Item, provenance: Provenance)

  datatype Outcome = Answer(views: seq<View>) | Failed(error: Error)

  function OperationOf(request: Request): Operation {
    match request
    case Create(_, _, _) => CreateOp
    case Supersede(_, _) => SupersedeOp
    case Forget(_) => ForgetOp
  }

  function TargetOf(request: Request): Option<Id> {
    match request
    case Create(_, _, _) => None
    case Supersede(target, _) => Some(target)
    case Forget(target) => Some(target)
  }

  function DigestOf(request: Request): Digest {
    Digest(OperationOf(request), TargetOf(request),
           match request
           case Create(memoryType, scope, body) => CreatePayload(memoryType, scope, body)
           case Supersede(_, body) => ReplacePayload(body)
           case Forget(_) => NoPayload)
  }

  predicate Reserved(key: string) {
    "sys:" <= key
  }

  /** The ids a response names, in order. */
  function IdsOf(views: seq<View>): seq<Id> {
    seq(|views|, i requires 0 <= i < |views| => views[i].id)
  }

  /* ----- shared reads ----- */

  predicate Stored(store: Store, id: Id) {
    id in store.items && id in store.provenance
  }

  function Hydrate(store: Store, ids: seq<Option<Id>>): Outcome {
    if exists i :: 0 <= i < |ids| && ids[i].None? then Failed(NoResultMemoryId)
    else if exists i :: 0 <= i < |ids| && ids[i].Some? && !Stored(store, ids[i].value) then Failed(MissingMemoryItem)
    else Answer(seq(|ids|, i requires 0 <= i < |ids| && ids[i].Some? && Stored(store, ids[i].value) =>
                  View(ids[i].value, store.items[ids[i].value], store.provenance[ids[i].value])))
  }

  /** What a key that is already bound answers: a conflict, or the winner's own result, read now. */
  function Replay(store: Store, key: string, request: Request): Outcome {
    if key !in store.ledger then Failed(NoWinnerRow)
    else
      var entry := store.ledger[key];
      if entry.operation != OperationOf(request) || entry.digest != DigestOf(request) then Failed(IdempotencyConflict)
      else
        match request
        case Create(_, _, _) => Hydrate(store, [entry.result])
        case Supersede(target, _) => Hydrate(store, [Some(target), entry.result])
        case Forget(target) => Hydrate(store, [Some(target)])
  }

  /** The racy pre-check: an optimisation that answers only when the key is already bound. */
  function PreCheck(store: Store, key: string, request: Request): Option<Outcome> {
    if key in store.ledger then Some(Replay(store, key, request)) else None
  }

  /* ----- the authoritative transactions ----- */

  function NewItem(store: Store, memoryType: string, scope: Option<string>, body: Body, embedding: string): Item {
    Item(|store.items|, memoryType, scope, Some(body.content), Some(embedding), Active, body.confidence,
         body.validFrom, body.validUntil, None, None, None)
  }

  function Scrubbed(item: Item, now: Time): Item {
    item.(content := None, embedding := None, scope := None, confidence := None, validFrom := None, validUntil := None,
          lifecycle := Forgotten, forgottenAt := Some(now))
  }

  function ScrubbedProvenance(p: Provenance): Provenance {
    Provenance(p.originKind, p.sourceSystem, None, None, None, None, None, None)
  }

  function Bind(ledger: map<string, Entry>, key: Option<string>, request: Request, result: Id): map<string, Entry> {
    match key
    case None => ledger
    case Some(k) => ledger[k := Entry(OperationOf(request), DigestOf(request), TargetOf(request), Some(result))]
  }

  /** One whole transaction. `id` is the uuid4 drawn for a new item; a failed one changes nothing. */
  function Transact(
      store: Store, key: Option<string>, request: Request, id: Id, embedding: string, now: Time): (Store, Outcome) {
    var bound := key.Some? && key.value in store.ledger;
    match request
    case Create(memoryType, scope, body) =>
      if bound then (store, Replay(store, key.value, request))
      else
        var item := NewItem(store, memoryType, Some(scope), body, embedding);
        (Store(store.items[id := item], store.provenance[id := body.provenance], Bind(store.ledger, key, request, id)),
         Answer([View(id, item, body.provenance)]))
    case Supersede(target, body) =>
      if target !in store.items then (store, Failed(NotFound(target)))
      else if bound then (store, Replay(store, key.value, request))
      else
        var prior := store.items[target];
        if prior.lifecycle != Active then (store, Failed(StateConflict(target)))
        else if target !in store.provenance then (store, Failed(MissingMemoryItem))
        else
          var item := NewItem(store, prior.memoryType, prior.scope, body, embedding);
          var replaced := prior.(lifecycle := Superseded, supersededAt := Some(now), supersededBy := Some(id));
          (Store(store.items[id := item][target := replaced], store.provenance[id := body.provenance],
                 Bind(store.ledger, key, request, id)),
           Answer([View(target, replaced, store.provenance[target]), View(id, item, body.provenance)]))
    case Forget(target) =>
      if target !in store.items then (store, Failed(NotFound(target)))
      else if target !in store.provenance then (store, Failed(MissingMemoryItem))
      else if bound then (store, Replay(store, key.value, request))
      else
        var item, provenance := store.items[target], store.provenance[target];
        var forgotten := if item.lifecycle == Forgotten then item else Scrubbed(item, now);
        var scrubbed := if item.lifecycle == Forgotten then provenance else ScrubbedProvenance(provenance);
        (Store(store.items[target := forgotten], store.provenance[target := scrubbed],
               Bind(store.ledger, key, request, target)),
         Answer([View(target, forgotten, scrubbed)]))
  }

  /* ----- the same transactions, as the service runs them ----- */

  /** One session's view of the three tables; `Rollback` is what leaving without commit does. */
  class MemorySession {
    var items: map<Id, Item>
    var provenance: map<Id, Provenance>
    var ledger: map<string, Entry>
    ghost var committed: Store

    ghost predicate Clean()
      reads this
    {
      committed == State()
    }

    function State(): Store
      reads this
    {
      Store(items, provenance, ledger)
    }

    constructor (store: Store)
      ensures State() == store && Clean()
    {
      items, provenance, ledger := store.items, store.provenance, store.ledger;
      committed := store;
    }

    method Commit()
      modifies this
      ensures Clean() && State() == old(State())
    {
      committed := State();
    }

    method Rollback(store: Store)
      requires store == committed
      modifies this
      ensures Clean() && State() == old(committed)
    {
      items, provenance, ledger := store.items, store.provenance, store.ledger;
    }

    /** INSERT of a ledger row under a savepoint: refused, changing nothing, exactly when the key is taken. */
    method ClaimKey(key: string, entry: Entry) returns (won: bool)
      modifies this`ledger
      ensures won == (key !in old(ledger))
      ensures ledger == if won then old(ledger)[key := entry] else old(ledger)
    {
      won := key !in ledger;
      if won { ledger := ledger[key := entry]; }
    }

    method CreateItem(request: Request, key: Option<string>, id: Id, embedding: string, now: Time)
      returns (outcome: Outcome)
      requires Clean() && request.Create?
      modifies this
      ensures Clean() && (State(), outcome) == Transact(old(State()), key, request, id, embedding, now)
    {
      var item := NewItem(State(), request.memoryType, Some(request.scope), request.body, embedding);
      var savepoint := State();
      items, provenance := items[id := item], provenance[id := request.body.provenance];
      if key.Some? {
        var won := ClaimKey(key.value, Entry(CreateOp, DigestOf(request), None, Some(id)));
        if !won {
          Rollback(savepoint);
          return Replay(State(), key.value, request);
        }
      }
      Commit();
      outcome := Answer([View(id, item, request.body.provenance)]);
    }

    method SupersedeItem(request: Request, key: Option<string>, id: Id, embedding: string, now: Time)
      returns (outcome: Outcome)
      requires Clean() && request.Supersede? && id !in items
      modifies this
      ensures Clean() && (State(), outcome) == Transact(old(State()), key, request, id, embedding, now)
    {
      var begin := State();
      if request.target !in items { return Failed(NotFound(request.target)); }
      if key.Some? {
        var won := ClaimKey(key.value, Entry(SupersedeOp, DigestOf(request), Some(request.target), None));
        if !won { return Replay(State(), key.value, request); }
      }
      var prior := items[request.target];
      if prior.lifecycle != Active {
        Rollback(begin);
        return Failed(StateConflict(request.target));
      }
      if request.target !in provenance {
        Rollback(begin);
        return Failed(MissingMemoryItem);
      }
      var item := NewItem(begin, prior.memoryType, prior.scope, request.body, embedding);
      items, provenance := items[id := item], provenance[id := request.body.provenance];
      var replaced := prior.(lifecycle := Superseded, supersededAt := Some(now), supersededBy := Some(id));
      items := items[request.target := replaced];
      if key.Some? {
        ledger := ledger[key.value := ledger[key.value].(result := Some(id))];
      }
      var oldProvenance := begin.provenance[request.target];
      assert ledger == Bind(begin.ledger, key, request, id);
      Commit();
      outcome := Answer([View(request.target, replaced, oldProvenance), View(id, item, request.body.provenance)]);
    }

    method ForgetItem(request: Request, key: Option<string>, id: Id, embedding: string, now: Time)
      returns (outcome: Outcome)
      requires Clean() && request.Forget?
      modifies this
      ensures Clean() && (State(), outcome) == Transact(old(State()), key, request, id, embedding, now)
    {
      ghost var begin := State();
      var target := request.target;
      if target !in items { return Failed(NotFound(target)); }
      if target !in provenance { return Failed(MissingMemoryItem); }
      if key.Some? {
        var won := ClaimKey(key.value, Entry(ForgetOp, DigestOf(request), Some(target), None));
        if !won { return Replay(State(), key.value, request); }
      }
      if items[target].lifecycle != Forgotten {
        items := items[target := Scrubbed(items[target], now)];
        provenance := provenance[target := ScrubbedProvenance(provenance[target])];
      }
      if key.Some? {
        ledger := ledger[key.value := ledger[key.value].(result := Some(target))];
      }
      assert ledger == Bind(begin.ledger, key, request, target);
      assert items == begin.items[target := items[target]]
          && provenance == begin.provenance[target := provenance[target]];
      Commit();
      outcome := Answer([View(target, items[target], provenance[target])]);
    }
  }

  /* ----- the tables' own constraints ----- */

  /** The lifecycle shape CHECKs of memory_items. */
  predicate ShapeOk(id: Id, item: Item) {
    && (item.supersededBy.Some? ==> item.supersededBy.value != id)
    && (item.lifecycle != Forgotten ==> item.scope.Some? && item.content.Some? && item.embedding.Some?)
    && (item.lifecycle == Active ==> item.supersededAt.None? && item.supersededBy.None? && item.forgottenAt.None?)
    && (item.lifecycle == Superseded ==> item.supersededAt.Some? && item.supersededBy.Some? && item.forgottenAt.None?)
    && (item.lifecycle == Forgotten ==>
          item.forgottenAt.Some? && item.scope.None? && item.content.None? && item.embedding.None?
          && item.confidence.None? && item.validFrom.None? && item.validUntil.None?)
  }

  /** Item `id` was created in turn, and if it has a link, the link leads to a later item of the same type. */
  predicate LinkOk(items: map<Id, Item>, id: Id)
    requires id in items
  {
    && items[id].serial < |items|
    && (items[id].supersededBy.Some? ==>
          var next := items[id].supersededBy.value;
          next in items && items[id].serial < items[next].serial && items[id].memoryType == items[next].memoryType)
  }

  /** uq_memory_items_superseded_by: no two items link to the same one. */
  predicate SharesLink(items: map<Id, Item>, a: Id, b: Id)
    requires a in items && b in items
  {
    a != b && items[a].supersededBy.Some? && items[a].supersededBy == items[b].supersededBy
  }

  ghost predicate LinksOk(items: map<Id, Item>) {
    && (forall id {:trigger LinkOk(items, id)} :: id in items ==> LinkOk(items, id))
    && (forall a, b {:trigger SharesLink(items, a, b)} :: a in items && b in items ==> !SharesLink(items, a, b))
  }

  /** The check and foreign keys of the ledger, and who wrote the row. */
  predicate EntryOk(items: map<Id, Item>, entry: Entry) {
    && entry.digest.operation == entry.operation && entry.digest.target == entry.target
    && entry.result.Some? && entry.result.value in items
    && (entry.operation == CreateOp <==> entry.target.None?)
    && (entry.target.Some? ==> entry.target.value in items)
    && (entry.operation == ForgetOp ==> entry.result == entry.target)
  }

  predicate ShapesOk(items: map<Id, Item>) {
    forall id :: id in items ==> ShapeOk(id, items[id])
  }

  predicate EntriesOk(items: map<Id, Item>, ledger: map<string, Entry>) {
    forall key :: key in ledger ==> EntryOk(items, ledger[key])
  }

  ghost predicate StoreOk(store: Store) {
    && store.provenance.Keys == store.items.Keys
    && ShapesOk(store.items)
    && LinksOk(store.items)
    && EntriesOk(store.items, store.ledger)
  }

  /** The ids every successful response under a key names. */
  function WinnerIds(entry: Entry): seq<Id>
    requires entry.result.Some?
             && (entry.operation == SupersedeOp || entry.operation == ForgetOp ==> entry.target.Some?)
  {
    match entry.operation
    case CreateOp => [entry.result.value]
    case SupersedeOp => [entry.target.value, entry.result.value]
    case ForgetOp => [entry.target.value]
  }

  /** The digest tells requests apart, so one key answers one request only. */
  lemma DigestsAreInjective(a: Request, b: Request)
    requires DigestOf(a) == DigestOf(b)
    ensures a == b
  {
  }

  lemma HydrateSucceeds(store: Store, ids: seq<Id>)
    requires store.provenance.Keys == store.items.Keys && forall i :: 0 <= i < |ids| ==> ids[i] in store.items
    ensures var wanted := seq(|ids|, i requires 0 <= i < |ids| => Some(ids[i]));
            Hydrate(store, wanted).Answer? && IdsOf(Hydrate(store, wanted).views) == ids
  {
    var wanted := seq(|ids|, i requires 0 <= i < |ids| => Some(ids[i]));
    assert IdsOf(Hydrate(store, wanted).views) == ids;
  }

  /** A bound key answers its own request with its own ids, and any other request with a conflict. */
  lemma ReplayIsExact(store: Store, key: string, request: Request)
    requires StoreOk(store) && key in store.ledger
    ensures var entry, outcome := store.ledger[key], Replay(store, key, request);
            if entry.digest == DigestOf(request) then outcome.Answer? && IdsOf(outcome.views) == WinnerIds(entry)
            else outcome == Failed(IdempotencyConflict)
  {
    var entry := store.ledger[key];
    if entry.digest == DigestOf(request) {
      var ids := WinnerIds(entry);
      HydrateSucceeds(store, ids);
      var wanted := seq(|ids|, i requires 0 <= i < |ids| => Some(ids[i]));
      match request
      case Create(_, _, _) => assert wanted == [entry.result];
      case Supersede(target, _) => assert wanted == [Some(target), entry.result];
      case Forget(target) => assert wanted == [Some(target)];
    }
  }

  /* ----- one transaction ----- */

  /** What can become of one item: a link and a lifecycle set once, or a scrub; FORGOTTEN is final. */
  predicate ItemEvolves(item: Item, later: Item) {
    && later.serial == item.serial && later.memoryType == item.memoryType
    && (item.supersededBy.Some? ==> later.supersededBy == item.supersededBy && later.supersededAt == item.supersededAt)
    && (item.lifecycle == Forgotten ==> later == item)
    && (item.lifecycle == Superseded ==> later.lifecycle != Active)
    && (later.lifecycle != Forgotten ==>
          later.content == item.content && later.scope == item.scope && later.confidence == item.confidence
          && later.validFrom == item.validFrom && later.validUntil == item.validUntil
          && later.embedding == item.embedding)
  }

  ghost predicate ItemsEvolve(items: map<Id, Item>, later: map<Id, Item>) {
    forall id :: id in items ==> id in later && ItemEvolves(items[id], later[id])
  }

  ghost predicate LedgerGrows(ledger: map<string, Entry>, later: map<string, Entry>) {
    forall key :: key in ledger ==> key in later && later[key] == ledger[key]
  }

  ghost predicate StoreEvolves(store: Store, later: Store) {
    ItemsEvolve(store.items, later.items) && LedgerGrows(store.ledger, later.ledger)
  }

  lemma AddedItem(items: map<Id, Item>, id: Id, item: Item)
    requires LinksOk(items) && id !in items && item.serial == |items| && item.supersededBy.None?
    ensures LinksOk(items[id := item])
  {
    var later := items[id := item];
    forall a | a in later ensures LinkOk(later, a) {
      assert a in items ==> LinkOk(items, a);
    }
    forall a, b | a in later && b in later ensures !SharesLink(later, a, b) {
      assert a in items && b in items ==> !SharesLink(items, a, b);
    }
  }

  lemma LinkedItem(items: map<Id, Item>, target: Id, id: Id, item: Item, replaced: Item)
    requires LinksOk(items) && id !in items && target in items
    requires item.serial == |items| && item.supersededBy.None? && item.memoryType == items[target].memoryType
    requires items[target].supersededBy.None? && replaced.supersededBy == Some(id)
    requires replaced.serial == items[target].serial && replaced.memoryType == items[target].memoryType
    ensures LinksOk(items[id := item][target := replaced])
  {
    AddedItem(items, id, item);
    var added := items[id := item];
    var later := added[target := replaced];
    forall a | a in later ensures LinkOk(later, a) {
      assert LinkOk(added, a) && (a in items ==> LinkOk(items, a));
    }
    forall a, b | a in later && b in later ensures !SharesLink(later, a, b) {
      assert !SharesLink(added, a, b);
      assert (a in items ==> LinkOk(items, a)) && (b in items ==> LinkOk(items, b));
    }
  }

  lemma ScrubbedItem(items: map<Id, Item>, target: Id, item: Item)
    requires LinksOk(items) && target in items
    requires item.serial == items[target].serial && item.memoryType == items[target].memoryType
    requires item.supersededBy == items[target].supersededBy
    ensures LinksOk(items[target := item])
  {
    var later := items[target := item];
    forall a | a in later ensures LinkOk(later, a) {
      assert LinkOk(items, a);
    }
    forall a, b | a in later && b in later ensures !SharesLink(later, a, b) {
      assert !SharesLink(items, a, b);
    }
  }

  lemma OneItemEvolves(items: map<Id, Item>, target: Id, item: Item)
    requires target in items ==> ItemEvolves(items[target], item)
    requires ShapesOk(items) && ShapeOk(target, item)
    ensures ItemsEvolve(items, items[target := item]) && ShapesOk(items[target := item])
  {
  }

  lemma ItemsEvolveOn(items: map<Id, Item>, mid: map<Id, Item>, later: map<Id, Item>)
    requires ItemsEvolve(items, mid) && ItemsEvolve(mid, later)
    ensures ItemsEvolve(items, later)
  {
    forall id | id in items ensures id in later && ItemEvolves(items[id], later[id]) {
      assert ItemEvolves(items[id], mid[id]) && ItemEvolves(mid[id], later[id]);
    }
  }

  lemma SupersededItems(items: map<Id, Item>, target: Id, id: Id, item: Item, replaced: Item)
    requires LinksOk(items) && ShapesOk(items) && id !in items && target in items && items[target].lifecycle == Active
    requires item.serial == |items| && item.memoryType == items[target].memoryType && item.lifecycle == Active
    requires ShapeOk(id, item)
    requires exists now ::
               replaced == items[target].(lifecycle := Superseded, supersededAt := Some(now), supersededBy := Some(id))
    ensures var later := items[id := item][target := replaced];
            LinksOk(later) && ShapesOk(later) && ItemsEvolve(items, later)
  {
    LinkedItem(items, target, id, item, replaced);
    OneItemEvolves(items, id, item);
    OneItemEvolves(items[id := item], target, replaced);
    ItemsEvolveOn(items, items[id := item], items[id := item][target := replaced]);
  }

  lemma ForgottenItems(items: map<Id, Item>, target: Id, now: Time)
    requires LinksOk(items) && ShapesOk(items) && target in items
    ensures var forgotten := if items[target].lifecycle == Forgotten then items[target]
            else Scrubbed(items[target], now);
            var later := items[target := forgotten];
            LinksOk(later) && ShapesOk(later) && ItemsEvolve(items, later)
  {
    var forgotten := if items[target].lifecycle == Forgotten then items[target] else Scrubbed(items[target], now);
    ScrubbedItem(items, target, forgotten);
    OneItemEvolves(items, target, forgotten);
  }

  predicate Internal(error: Error) {
    error == NoWinnerRow || error == NoResultMemoryId || error == MissingMemoryItem
  }

  /** What every transaction promises about the store it leaves and the answer it gives. */
  ghost predicate Settled(store: Store, key: Option<string>, request: Request, later: Store, outcome: Outcome) {
    StoreOk(later) && StoreEvolves(store, later) && AnswerOk(store, key, request, later, outcome)
  }

  predicate AnswerOk(store: Store, key: Option<string>, request: Request, later: Store, outcome: Outcome)
    requires EntriesOk(later.items, later.ledger)
  {
    && (outcome.Failed? ==> later == store && !Internal(outcome.error))
    && (key.Some? && key.value in store.ledger ==> later == store)
    && (key.Some? && outcome.Answer? ==>
          key.value in later.ledger && later.ledger[key.value].digest == DigestOf(request)
          && IdsOf(outcome.views) == WinnerIds(later.ledger[key.value]))
  }

  lemma ReplayKeepsStore(store: Store, key: string, request: Request, id: Id, embedding: string, now: Time)
    requires StoreOk(store) && key in store.ledger
    ensures var (later, outcome) := Transact(store, Some(key), request, id, embedding, now);
            later == store && (outcome == Replay(store, key, request) || (outcome.Failed? && outcome.error.NotFound?))
  {
  }

  lemma BoundLedger(ledger: map<string, Entry>, items: map<Id, Item>, later: map<Id, Item>, key: Option<string>,
                    request: Request, result: Id)
    requires EntriesOk(items, ledger)
    requires items.Keys <= later.Keys && result in later && (key.Some? ==> key.value !in ledger)
    requires TargetOf(request).Some? ==> TargetOf(request).value in later
    requires request.Forget? ==> result == request.target
    ensures var bound := Bind(ledger, key, request, result);
            && EntriesOk(later, bound) && LedgerGrows(ledger, bound)
            && (key.Some? ==> key.value in bound && bound[key.value].digest == DigestOf(request)
                              && bound[key.value].result == Some(result) && bound[key.value].target == TargetOf(request)
                              && bound[key.value].operation == OperationOf(request))
  {
  }

  lemma CreateKeepsStore(store: Store, key: Option<string>, request: Request, id: Id, embedding: string, now: Time)
    requires StoreOk(store) && id !in store.items && request.Create? && (key.Some? ==> key.value !in store.ledger)
    ensures var (later, outcome) := Transact(store, key, request, id, embedding, now);
            Settled(store, key, request, later, outcome)
  {
    var (later, outcome) := Transact(store, key, request, id, embedding, now);
    AddedItem(store.items, id, later.items[id]);
    OneItemEvolves(store.items, id, later.items[id]);
    BoundLedger(store.ledger, store.items, later.items, key, request, id);
    assert outcome.Answer? && IdsOf(outcome.views) == [id];
  }

  lemma SupersedeKeepsStore(store: Store, key: Option<string>, request: Request, id: Id, embedding: string, now: Time)
    requires StoreOk(store) && id !in store.items && request.Supersede? && (key.Some? ==> key.value !in store.ledger)
    ensures var (later, outcome) := Transact(store, key, request, id, embedding, now);
            StoreOk(later) && StoreEvolves(store, later)
  {
    var target := request.target;
    var (later, outcome) := Transact(store, key, request, id, embedding, now);
    if target in store.items && store.items[target].lifecycle == Active {
      assert later.items == store.items[id := later.items[id]][target := later.items[target]];
      assert later.items.Keys == store.items.Keys + {id} == later.provenance.Keys;
      SupersededItems(store.items, target, id, later.items[id], later.items[target]);
      BoundLedger(store.ledger, store.items, later.items, key, request, id);
    }
  }

  lemma SupersedeAnswers(store: Store, key: Option<string>, request: Request, id: Id, embedding: string, now: Time)
    requires store.provenance.Keys == store.items.Keys && request.Supersede?
             && (key.Some? ==> key.value !in store.ledger)
    requires var (later, _) := Transact(store, key, request, id, embedding, now); EntriesOk(later.items, later.ledger)
    ensures var (later, outcome) := Transact(store, key, request, id, embedding, now);
            AnswerOk(store, key, request, later, outcome)
  {
    var (_, outcome) := Transact(store, key, request, id, embedding, now);
    if outcome.Answer? {
      assert IdsOf(outcome.views) == [request.target, id];
    }
  }

  lemma ForgetKeepsStore(store: Store, key: Option<string>, request: Request, id: Id, embedding: string, now: Time)
    requires StoreOk(store) && request.Forget? && (key.Some? ==> key.value !in store.ledger)
    ensures var (later, outcome) := Transact(store, key, request, id, embedding, now);
            StoreOk(later) && StoreEvolves(store, later)
  {
    var target := request.target;
    var (later, outcome) := Transact(store, key, request, id, embedding, now);
    if target in store.items {
      var forgotten := if store.items[target].lifecycle == Forgotten then store.items[target]
          else Scrubbed(store.items[target], now);
      assert later.items == store.items[target := forgotten];
      assert later.items.Keys == store.items.Keys == later.provenance.Keys;
      ForgottenItems(store.items, target, now);
      BoundLedger(store.ledger, store.items, later.items, key, request, target);
    }
  }

  lemma ForgetAnswers(store: Store, key: Option<string>, request: Request, id: Id, embedding: string, now: Time)
    requires store.provenance.Keys == store.items.Keys && request.Forget? && (key.Some? ==> key.value !in store.ledger)
    requires var (later, _) := Transact(store, key, request, id, embedding, now); EntriesOk(later.items, later.ledger)
    ensures var (later, outcome) := Transact(store, key, request, id, embedding, now);
            AnswerOk(store, key, request, later, outcome)
  {
    var (_, outcome) := Transact(store, key, request, id, embedding, now);
    if outcome.Answer? {
      assert IdsOf(outcome.views) == [request.target];
    }
  }

  /**
   Every transaction keeps the tables' constraints and moves items only the legal way. A failed one
   changes nothing, so it never binds a key; a bound key never changes anything again; and what a keyed
   success names is what its key is bound to.
  */
  lemma TransactKeepsStore(store: Store, key: Option<string>, request: Request, id: Id, embedding: string, now: Time)
    requires StoreOk(store) && id !in store.items
    ensures var (later, outcome) := Transact(store, key, request, id, embedding, now);
            Settled(store, key, request, later, outcome)
  {
    if key.Some? && key.value in store.ledger {
      ReplayIsExact(store, key.value, request);
      ReplayKeepsStore(store, key.value, request, id, embedding, now);
    } else {
      match request
      case Create(_, _, _) => CreateKeepsStore(store, key, request, id, embedding, now);
      case Supersede(_, _) =>
        SupersedeKeepsStore(store, key, request, id, embedding, now);
        SupersedeAnswers(store, key, request, id, embedding, now);
      case Forget(_) =>
        ForgetKeepsStore(store, key, request, id, embedding, now);
        ForgetAnswers(store, key, request, id, embedding, now);
    }
  }

  /* ----- provenance ----- */

  /** Nothing in it refers to anything outside any more. */
  predicate Tombstone(p: Provenance) {
    && p.conversation.None? && p.turn.None? && p.task.None?
    && p.confirmationRef.None? && p.sourceRef.None? && p.observedAt.None?
  }

  ghost predicate ProvenanceOk(store: Store) {
    forall id :: id in store.items && id in store.provenance && store.items[id].lifecycle == Forgotten ==>
      Tombstone(store.provenance[id])
  }

  /** Its kind and system stay; the rest stays too, unless it is this change that forgets the item. */
  predicate ProvenanceEvolvesAt(store: Store, later: Store, id: Id)
    requires id in store.items && id in store.provenance
  {
    && id in later.items && id in later.provenance
    && var p, q := store.provenance[id], later.provenance[id];
       && q.originKind == p.originKind && q.sourceSystem == p.sourceSystem
       && (store.items[id].lifecycle == Forgotten || later.items[id].lifecycle != Forgotten ==> q == p)
  }

  ghost predicate ProvenanceEvolves(store: Store, later: Store) {
    forall id :: id in store.items && id in store.provenance ==> ProvenanceEvolvesAt(store, later, id)
  }

  /** Every transaction scrubs provenance exactly where it forgets an item. */
  lemma TransactKeepsProvenance(
      store: Store, key: Option<string>, request: Request, id: Id, embedding: string, now: Time)
    requires ProvenanceOk(store) && id !in store.items && id !in store.provenance
    ensures var (later, _) := Transact(store, key, request, id, embedding, now);
            ProvenanceOk(later) && ProvenanceEvolves(store, later)
  {
  }
}
