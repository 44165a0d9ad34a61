/** What a create, a supersede and a forget store and answer, field by field, and what stays of it for good. */
module CognitiveMemoryOutcomes {
  import opened Wrappers
  import opened CognitiveMemory
  import opened CognitiveMemoryRaces

  /* ----- one transaction, written out ----- */

  predicate Unbound(store: Store, key: Option<string>) {
    key.Some? ==> key.value !in store.ledger
  }

  /** An ACTIVE item with the content and the claims of a request body, and nothing of a later life. */
  predicate IsNew(item: Item, memoryType: string, scope: Option<string>, body: Body, embedding: string) {
    && item.memoryType == memoryType && item.scope == scope && item.lifecycle == Active
    && item.content == Some(body.content) && item.embedding == Some(embedding) && item.confidence == body.confidence
    && item.validFrom == body.validFrom && item.validUntil == body.validUntil
    && item.supersededAt.None? && item.supersededBy.None? && item.forgottenAt.None?
  }

  /** Every row but those of `ids` is as it was, and there are no others. */
  ghost predicate OnlyThese(store: Store, later: Store, ids: set<Id>) {
    && later.items.Keys == store.items.Keys + ids && later.provenance.Keys == store.provenance.Keys + ids
    && (forall id :: id in store.items && id !in ids ==> later.items[id] == store.items[id])
    && (forall id :: id in store.provenance && id !in ids ==> later.provenance[id] == store.provenance[id])
  }

  /** The key, if there is one, is bound to this request and this result, and no other key moves. */
  ghost predicate Binds(
      ledger: map<string, Entry>, later: map<string, Entry>, key: Option<string>, request: Request, result: Id)
  {
    && (key.Some? ==>
          && key.value in later && later[key.value].operation == OperationOf(request)
          && later[key.value].target == TargetOf(request) && later[key.value].result == Some(result)
          && later[key.value].digest == DigestOf(request))
    && (forall k :: k in later && Some(k) != key ==> k in ledger && later[k] == ledger[k])
    && (forall k :: k in ledger ==> k in later)
  }

  lemma BindBinds(ledger: map<string, Entry>, key: Option<string>, request: Request, result: Id)
    ensures Binds(ledger, Bind(ledger, key, request, result), key, request, result)
  {
  }

  lemma OneRowMore(store: Store, later: Store, id: Id, item: Item, provenance: Provenance)
    requires later.items == store.items[id := item] && later.provenance == store.provenance[id := provenance]
    ensures OnlyThese(store, later, {id})
  {
  }

  lemma TwoRows(store: Store, later: Store, id: Id, item: Item, provenance: Provenance, target: Id, replaced: Item)
    requires target in store.items && target in store.provenance && target != id
    requires later.items == store.items[id := item][target := replaced]
    requires later.provenance == store.provenance[id := provenance]
    ensures OnlyThese(store, later, {target, id}) && later.provenance[target] == store.provenance[target]
  {
  }

  /** The answer shows row `i` as it is stored. */
  predicate Shows(later: Store, view: View, id: Id) {
    && view.id == id && id in later.items && id in later.provenance
    && view.item == later.items[id] && view.provenance == later.provenance[id]
  }

  /** A create under a free key always succeeds: one new row, as requested, and the answer shows it. */
  lemma CreateIs(store: Store, key: Option<string>, request: Request, id: Id, embedding: string, now: Time)
    requires StoreOk(store) && id !in store.items && request.Create? && Unbound(store, key)
    ensures var (later, outcome) := Transact(store, key, request, id, embedding, now);
            && OnlyThese(store, later, {id}) && Binds(store.ledger, later.ledger, key, request, id)
            && IsNew(later.items[id], request.memoryType, Some(request.scope), request.body, embedding)
            && later.provenance[id] == request.body.provenance
            && outcome.Answer? && |outcome.views| == 1 && Shows(later, outcome.views[0], id)
  {
    var later := Transact(store, key, request, id, embedding, now).0;
    BindBinds(store.ledger, key, request, id);
    OneRowMore(store, later, id, later.items[id], request.body.provenance);
  }

  lemma SupersedeSucceeds(
      store: Store, key: Option<string>, request: Request, id: Id, embedding: string, now: Time, prior: Item)
    requires store.provenance.Keys == store.items.Keys && id !in store.items && request.Supersede?
             && Unbound(store, key)
    requires request.target in store.items && prior == store.items[request.target] && prior.lifecycle == Active
    ensures var (later, outcome) := Transact(store, key, request, id, embedding, now);
            var target := request.target;
            && OnlyThese(store, later, {target, id}) && Binds(store.ledger, later.ledger, key, request, id)
            && IsNew(later.items[id], prior.memoryType, prior.scope, request.body, embedding)
            && later.provenance[id] == request.body.provenance
            && later.items[target] == prior.(lifecycle := Superseded, supersededAt := Some(now),
               supersededBy := Some(id))
            && later.provenance[target] == store.provenance[target]
            && outcome.Answer? && |outcome.views| == 2
            && Shows(later, outcome.views[0], target) && Shows(later, outcome.views[1], id)
  {
    var later := Transact(store, key, request, id, embedding, now).0;
    BindBinds(store.ledger, key, request, id);
    TwoRows(
      store, later, id, later.items[id], request.body.provenance, request.target, later.items[request.target]);
  }

  /**
   A supersede under a free key succeeds exactly on an ACTIVE target: the replacement takes its type and scope, the
   target keeps everything but its lifecycle and now points to it, and the answer shows both.
  */
  lemma SupersedeIs(store: Store, key: Option<string>, request: Request, id: Id, embedding: string, now: Time)
    requires StoreOk(store) && id !in store.items && request.Supersede? && Unbound(store, key)
    ensures var (later, outcome) := Transact(store, key, request, id, embedding, now);
            var target := request.target;
            if target !in store.items then later == store && outcome == Failed(NotFound(target))
            else if store.items[target].lifecycle != Active then
              later == store && outcome == Failed(StateConflict(target))
            else
              var prior := store.items[target];
              && OnlyThese(store, later, {target, id}) && Binds(store.ledger, later.ledger, key, request, id)
              && IsNew(later.items[id], prior.memoryType, prior.scope, request.body, embedding)
              && later.provenance[id] == request.body.provenance
              && later.items[target] ==
                 prior.(lifecycle := Superseded, supersededAt := Some(now), supersededBy := Some(id))
              && later.provenance[target] == store.provenance[target]
              && outcome.Answer? && |outcome.views| == 2
              && Shows(later, outcome.views[0], target) && Shows(later, outcome.views[1], id)
  {
    var target := request.target;
    if target in store.items && store.items[target].lifecycle == Active {
      SupersedeSucceeds(store, key, request, id, embedding, now, store.items[target]);
    }
  }

  /** What is left of a forgotten item: its type, its links, and when it was forgotten. */
  predicate IsTombstone(item: Item, prior: Item, now: Time) {
    && item.lifecycle == Forgotten && item.forgottenAt == Some(now)
    && item.content.None? && item.embedding.None? && item.scope.None? && item.confidence.None?
    && item.validFrom.None? && item.validUntil.None?
    && item.supersededAt == prior.supersededAt && item.supersededBy == prior.supersededBy
    && item.memoryType == prior.memoryType && item.serial == prior.serial
  }

  /**
   A forget under a free key succeeds on any item: one not yet FORGOTTEN becomes a tombstone, its provenance only
   kind and system; one already FORGOTTEN stays. The answer shows what is stored.
  */
  lemma ForgetIs(store: Store, key: Option<string>, request: Request, id: Id, embedding: string, now: Time)
    requires StoreOk(store) && request.Forget? && Unbound(store, key)
    ensures var (later, outcome) := Transact(store, key, request, id, embedding, now);
            var target := request.target;
            if target !in store.items then later == store && outcome == Failed(NotFound(target))
            else
              && OnlyThese(store, later, {target}) && Binds(store.ledger, later.ledger, key, request, target)
              && (if store.items[target].lifecycle == Forgotten then
                    later.items[target] == store.items[target] && later.provenance[target] == store.provenance[target]
                  else
                    && IsTombstone(later.items[target], store.items[target], now)
                    && Tombstone(later.provenance[target])
                    && later.provenance[target].originKind == store.provenance[target].originKind
                    && later.provenance[target].sourceSystem == store.provenance[target].sourceSystem)
              && outcome.Answer? && |outcome.views| == 1 && Shows(later, outcome.views[0], target)
  {
    var target := request.target;
    if target in store.items {
      var later := Transact(store, key, request, id, embedding, now).0;
      BindBinds(store.ledger, key, request, target);
      OneRowMore(store, later, target, later.items[target], later.provenance[target]);
    }
  }

  /** A new call under a key with the reserved prefix is refused at once; any other goes on to its pre-check. */
  lemma ReservedKeysAreRefused(s: System, call: nat, key: string, request: Request)
    requires call !in s.calls
    ensures var t := Next(s, Submit(call, Some(key), request));
            && t.store == s.store && call in t.calls && t.calls[call].request == request
            && t.calls[call].key == Some(key)
            && t.calls[call].pc ==
               if |key| >= 4 && key[..4] == "sys:" then Done(Failed(ReservedKey)) else AtPreCheck
  {
  }

  /* ----- what an answered call leaves for good ----- */

  /** The mark an operation leaves on its rows. */
  predicate LeftItsMark(items: map<Id, Item>, operation: Operation, target: Option<Id>, result: Option<Id>) {
    match operation
    case CreateOp => result.Some? && result.value in items
    case SupersedeOp =>
      && target.Some? && target.value in items && items[target.value].supersededBy == result
      && items[target.value].lifecycle != Active && result.Some? && result.value in items
    case ForgetOp => target.Some? && target.value in items && items[target.value].lifecycle == Forgotten
  }

  ghost predicate LedgerMarked(store: Store) {
    forall key :: key in store.ledger ==>
      LeftItsMark(store.items, store.ledger[key].operation, store.ledger[key].target, store.ledger[key].result)
  }

  /** The id an answer to a request names as its result. */
  function ResultOf(request: Request, views: seq<View>): Option<Id> {
    match request
    case Create(_, _, _) => if |views| > 0 then Some(views[0].id) else None
    case Supersede(_, _) => if |views| > 1 then Some(views[1].id) else None
    case Forget(target) => Some(target)
  }

  predicate CallMarked(store: Store, call: Call) {
    match call.pc
    case Done(Answer(views)) =>
      LeftItsMark(store.items, OperationOf(call.request), TargetOf(call.request), ResultOf(call.request, views))
    case _ => true
  }

  ghost predicate Marked(s: System) {
    LedgerMarked(s.store) && forall call :: call in s.calls ==> CallMarked(s.store, s.calls[call])
  }

  lemma MarkStays(
      items: map<Id, Item>, later: map<Id, Item>, operation: Operation, target: Option<Id>, result: Option<Id>)
    requires ItemsEvolve(items, later) && LeftItsMark(items, operation, target, result)
    ensures LeftItsMark(later, operation, target, result)
  {
    if target.Some? { assert target.value in items ==> ItemEvolves(items[target.value], later[target.value]); }
  }

  lemma ReplayIsMarked(store: Store, key: string, request: Request)
    requires StoreOk(store) && LedgerMarked(store) && key in store.ledger
    ensures var outcome := Replay(store, key, request);
            outcome.Answer? ==>
              LeftItsMark(store.items, OperationOf(request), TargetOf(request), ResultOf(request, outcome.views))
  {
    var entry := store.ledger[key];
    ReplayIsExact(store, key, request);
    if entry.digest == DigestOf(request) {
      var views := Replay(store, key, request).views;
      assert IdsOf(views) == WinnerIds(entry);
      assert |views| > 0 && views[0].id == IdsOf(views)[0];
      assert request.Supersede? ==> |views| == 2 && views[1].id == IdsOf(views)[1];
    }
  }

  lemma TransactIsMarked(store: Store, key: Option<string>, request: Request, id: Id, embedding: string, now: Time)
    requires StoreOk(store) && LedgerMarked(store) && id !in store.items
    ensures var (later, outcome) := Transact(store, key, request, id, embedding, now);
            outcome.Answer? ==>
              LeftItsMark(later.items, OperationOf(request), TargetOf(request), ResultOf(request, outcome.views))
  {
    if Unbound(store, key) {
      match request
      case Create(_, _, _) => CreateIs(store, key, request, id, embedding, now);
      case Supersede(_, _) => SupersedeIs(store, key, request, id, embedding, now);
      case Forget(_) => ForgetIs(store, key, request, id, embedding, now);
    } else {
      ReplayKeepsStore(store, key.value, request, id, embedding, now);
      ReplayIsMarked(store, key.value, request);
    }
  }

  lemma TransactKeepsMarks(store: Store, key: Option<string>, request: Request, id: Id, embedding: string, now: Time)
    requires StoreOk(store) && LedgerMarked(store) && id !in store.items
    ensures LedgerMarked(Transact(store, key, request, id, embedding, now).0)
  {
    var (later, outcome) := Transact(store, key, request, id, embedding, now);
    TransactKeepsStore(store, key, request, id, embedding, now);
    forall k | k in later.ledger
      ensures LeftItsMark(later.items, later.ledger[k].operation, later.ledger[k].target, later.ledger[k].result)
    {
      if k in store.ledger {
        var entry := store.ledger[k];
        MarkStays(store.items, later.items, entry.operation, entry.target, entry.result);
      } else {
        NewEntryIsMarked(store, key, request, id, embedding, now, k);
      }
    }
  }

  lemma NewEntryIsMarked(
      store: Store, key: Option<string>, request: Request, id: Id, embedding: string, now: Time, k: string)
    requires StoreOk(store) && LedgerMarked(store) && id !in store.items
    requires var later := Transact(store, key, request, id, embedding, now).0; k in later.ledger && k !in store.ledger
    ensures var later := Transact(store, key, request, id, embedding, now).0;
            LeftItsMark(later.items, later.ledger[k].operation, later.ledger[k].target, later.ledger[k].result)
  {
    if Unbound(store, key) {
      match request
      case Create(_, _, _) => CreateIs(store, key, request, id, embedding, now);
      case Supersede(_, _) => SupersedeIs(store, key, request, id, embedding, now);
      case Forget(_) => ForgetIs(store, key, request, id, embedding, now);
    } else {
      ReplayKeepsStore(store, key.value, request, id, embedding, now);
    }
  }

  lemma NextKeepsMarks(s: System, e: Event)
    requires Inv(s) && Marked(s)
    ensures Marked(Next(s, e))
  {
    match e
    case PreCheckPhase(call) =>
      if call in s.calls && s.calls[call].key.Some? && s.calls[call].key.value in s.store.ledger {
        ReplayIsMarked(s.store, s.calls[call].key.value, s.calls[call].request);
      }
    case TransactionPhase(_, _, _, _) => TransactionKeepsMarks(s, e);
    case _ =>
  }

  lemma TransactionKeepsMarks(s: System, e: Event)
    requires Inv(s) && Marked(s) && e.TransactionPhase?
    ensures Marked(Next(s, e))
  {
    var t := Next(s, e);
    if t != s {
      var c := s.calls[e.call];
      TransactKeepsMarks(s.store, c.key, c.request, e.id, e.embedding, e.now);
      TransactIsMarked(s.store, c.key, c.request, e.id, e.embedding, e.now);
      TransactKeepsStore(s.store, c.key, c.request, e.id, e.embedding, e.now);
      forall call | call in t.calls ensures CallMarked(t.store, t.calls[call]) {
        if call != e.call { CallStaysMarked(s.store, t.store, s.calls[call]); }
      }
    }
  }

  lemma CallStaysMarked(store: Store, later: Store, call: Call)
    requires ItemsEvolve(store.items, later.items) && CallMarked(store, call)
    ensures CallMarked(later, call)
  {
    match call.pc
    case Done(Answer(views)) =>
      MarkStays(store.items, later.items, OperationOf(call.request), TargetOf(call.request),
                ResultOf(call.request, views));
    case _ =>
  }

  lemma {:induction false} AfterKeepsMarks(s: System, events: seq<Event>)
    requires Inv(s) && Marked(s)
    ensures Marked(After(s, events))
  {
    if events != [] {
      var before := events[..|events| - 1];
      AfterKeepsMarks(s, before);
      AfterKeepsInv(s, before);
      NextKeepsMarks(After(s, before), events[|events| - 1]);
    }
  }

  /** Calls never forget their request or their answer. */
  lemma {:induction false} AnswersStay(s: System, events: seq<Event>, call: nat)
    requires call in s.calls && s.calls[call].pc.Done?
    ensures call in After(s, events).calls && After(s, events).calls[call] == s.calls[call]
  {
    if events != [] {
      AnswersStay(s, events[..|events| - 1], call);
    }
  }

  /**
   What a successful answer says stays true: over any interleaving, from then on, a created item exists, a superseded
   one points to the replacement the answer named and is never ACTIVE again, and a forgotten one is FORGOTTEN.
  */
  lemma AnsweredIsDone(events: seq<Event>, more: seq<Event>, call: nat)
    requires var s := After(Empty, events);
             call in s.calls && s.calls[call].pc.Done? && s.calls[call].pc.outcome.Answer?
    ensures var c, items := After(Empty, events).calls[call], After(After(Empty, events), more).store.items;
            match c.request
            case Create(_, _, _) => |c.pc.outcome.views| > 0 && c.pc.outcome.views[0].id in items
            case Supersede(target, _) =>
              && target in items && items[target].lifecycle != Active && |c.pc.outcome.views| > 1
              && items[target].supersededBy == Some(c.pc.outcome.views[1].id)
              && c.pc.outcome.views[1].id in items
            case Forget(target) => target in items && items[target].lifecycle == Forgotten
  {
    var s := After(Empty, events);
    AfterKeepsInv(Empty, events);
    AfterKeepsMarks(Empty, events);
    AfterKeepsInv(s, more);
    AfterKeepsMarks(s, more);
    AnswersStay(s, more, call);
    assert CallMarked(After(s, more).store, s.calls[call]);
  }
}
