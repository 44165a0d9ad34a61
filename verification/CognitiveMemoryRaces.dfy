/** Any number of create, supersede and forget calls, interleaved at their transactions. */
module CognitiveMemoryRaces {
  import opened Wrappers
  import opened CognitiveMemory

  datatype Pc = AtPreCheck | AtTransaction | Done(outcome: Outcome)

  datatype Call = Call(key: Option<string>, request: Request, pc: Pc)

  datatype System = System(store: Store, calls: map<nat, Call>)

  datatype Event =
    | Submit(call: nat, key: Option<string>, request: Request)
    | PreCheckPhase(call: nat)
    | EmbeddingFails(call: nat)
    | TransactionPhase(call: nat, id: Id, embedding: string, now: Time)

  const Empty := System(Store(map[], map[], map[]), map[])

  function Move(s: System, call: nat, pc: Pc): System
    requires call in s.calls
  {
    s.(calls := s.calls[call := s.calls[call].(pc := pc)])
  }

  /** One event; one that does not apply, or an id that is not fresh, changes nothing. */
  function Next(s: System, e: Event): System {
    match e
    case Submit(call, key, request) =>
      if call in s.calls then s
      else
        var pc := if key.None? then AtTransaction else if Reserved(key.value) then Done(Failed(ReservedKey))
            else AtPreCheck;
        s.(calls := s.calls[call := Call(key, request, pc)])
    case PreCheckPhase(call) =>
      if call !in s.calls || !s.calls[call].pc.AtPreCheck? || s.calls[call].key.None? then s
      else
        var answered := PreCheck(s.store, s.calls[call].key.value, s.calls[call].request);
        Move(s, call, if answered.None? then AtTransaction else Done(answered.value))
    case EmbeddingFails(call) =>
      if call !in s.calls || !s.calls[call].pc.AtTransaction? || s.calls[call].request.Forget? then s
      else Move(s, call, Done(Failed(EmbeddingUnavailable)))
    case TransactionPhase(call, id, embedding, now) =>
      if call !in s.calls || !s.calls[call].pc.AtTransaction? || id in s.store.items then s
      else
        var (store, outcome) := Transact(s.store, s.calls[call].key, s.calls[call].request, id, embedding, now);
        Move(s, call, Done(outcome)).(store := store)
  }

  function After(s: System, events: seq<Event>): System {
    if events == [] then s else Next(After(s, events[..|events| - 1]), events[|events| - 1])
  }

  /* ----- the invariant ----- */

  /** A finished keyed call was answered from the row its key is bound to; no call ever ended in an internal error. */
  ghost predicate CallOk(store: Store, call: Call)
    requires StoreOk(store)
  {
    match call.pc
    case Done(Answer(views)) =>
      call.key.Some? ==>
        call.key.value in store.ledger && store.ledger[call.key.value].digest == DigestOf(call.request)
        && IdsOf(views) == WinnerIds(store.ledger[call.key.value])
    case Done(Failed(error)) => !Internal(error)
    case _ => true
  }

  ghost predicate Inv(s: System) {
    StoreOk(s.store) && forall call :: call in s.calls ==> CallOk(s.store, s.calls[call])
  }

  lemma PreCheckKeepsInv(s: System, e: Event)
    requires Inv(s) && e.PreCheckPhase?
    ensures Inv(Next(s, e)) && Next(s, e).store == s.store
  {
    var call := e.call;
    if call in s.calls && s.calls[call].key.Some? && s.calls[call].key.value in s.store.ledger {
      ReplayIsExact(s.store, s.calls[call].key.value, s.calls[call].request);
    }
  }

  /** Calls that are done stay answered from the rows they were answered from. */
  lemma CallStaysOk(store: Store, later: Store, call: Call)
    requires StoreOk(store) && StoreOk(later) && LedgerGrows(store.ledger, later.ledger) && CallOk(store, call)
    ensures CallOk(later, call)
  {
  }

  lemma TransactionKeepsInv(s: System, e: Event)
    requires Inv(s) && e.TransactionPhase?
    ensures Inv(Next(s, e)) && StoreEvolves(s.store, Next(s, e).store)
  {
    var t := Next(s, e);
    if t != s {
      var c := s.calls[e.call];
      TransactKeepsStore(s.store, c.key, c.request, e.id, e.embedding, e.now);
      forall call | call in t.calls ensures CallOk(t.store, t.calls[call]) {
        if call != e.call { CallStaysOk(s.store, t.store, s.calls[call]); }
      }
    }
  }

  lemma NextKeepsInv(s: System, e: Event)
    requires Inv(s)
    ensures Inv(Next(s, e)) && StoreEvolves(s.store, Next(s, e).store)
  {
    match e
    case PreCheckPhase(_) => PreCheckKeepsInv(s, e);
    case TransactionPhase(_, _, _, _) => TransactionKeepsInv(s, e);
    case _ =>
  }

  lemma {:induction false} AfterKeepsInv(s: System, events: seq<Event>)
    requires Inv(s)
    ensures Inv(After(s, events)) && StoreEvolves(s.store, After(s, events).store)
  {
    if events != [] {
      var before := events[..|events| - 1];
      AfterKeepsInv(s, before);
      NextKeepsInv(After(s, before), events[|events| - 1]);
      ItemsEvolveOn(s.store.items, After(s, before).store.items, After(s, events).store.items);
    }
  }

  /* ----- idempotency under races ----- */

  /** Two successful answers under one key, however their calls raced, answer one request and name the same ids. */
  lemma OneKeyOneAnswer(events: seq<Event>, a: nat, b: nat)
    requires var s := After(Empty, events);
             && a in s.calls && b in s.calls && s.calls[a].key.Some? && s.calls[a].key == s.calls[b].key
             && s.calls[a].pc.Done? && s.calls[a].pc.outcome.Answer? && s.calls[b].pc.Done?
             && s.calls[b].pc.outcome.Answer?
    ensures var s := After(Empty, events);
            && s.calls[a].request == s.calls[b].request
            && IdsOf(s.calls[a].pc.outcome.views) == IdsOf(s.calls[b].pc.outcome.views)
  {
    AfterKeepsInv(Empty, events);
    var s := After(Empty, events);
    assert CallOk(s.store, s.calls[a]) && CallOk(s.store, s.calls[b]);
    DigestsAreInjective(s.calls[a].request, s.calls[b].request);
  }

  /** The "no winner row", "no result_memory_id" and "missing MemoryItem" errors are unreachable. */
  lemma InternalErrorsAreUnreachable(events: seq<Event>, call: nat)
    requires var s := After(Empty, events);
             call in s.calls && s.calls[call].pc.Done? && s.calls[call].pc.outcome.Failed?
    ensures !Internal(After(Empty, events).calls[call].pc.outcome.error)
  {
    AfterKeepsInv(Empty, events);
    assert CallOk(After(Empty, events).store, After(Empty, events).calls[call]);
  }

  lemma FailedStepChangesNothing(s: System, e: Event, call: nat)
    requires Inv(s) && call in Next(s, e).calls && Next(s, e).calls[call].pc.Done?
    requires call !in s.calls || !s.calls[call].pc.Done?
    requires Next(s, e).calls[call].pc.outcome.Failed?
    ensures Next(s, e).store == s.store
    ensures var c := Next(s, e).calls[call];
            c.pc.outcome.error == IdempotencyConflict ==>
              c.key.Some? && c.key.value in s.store.ledger && s.store.ledger[c.key.value].digest != DigestOf(c.request)
  {
    match e
    case PreCheckPhase(c) =>
      if c in s.calls && s.calls[c].key.Some? && s.calls[c].key.value in s.store.ledger {
        ReplayIsExact(s.store, s.calls[c].key.value, s.calls[c].request);
      }
    case TransactionPhase(c, id, embedding, now) =>
      if c in s.calls && id !in s.store.items {
        TransactKeepsStore(s.store, s.calls[c].key, s.calls[c].request, id, embedding, now);
        if s.calls[c].key.Some? && s.calls[c].key.value in s.store.ledger {
          ReplayIsExact(s.store, s.calls[c].key.value, s.calls[c].request);
        }
      }
    case _ =>
  }

  /**
   Over any interleaving, the event in which a call fails changes nothing and binds no key, and a conflict says
   the key answers another request.
  */
  lemma FailureChangesNothing(events: seq<Event>, e: Event, call: nat)
    requires var s, t := After(Empty, events), After(Empty, events + [e]);
             && call in t.calls && t.calls[call].pc.Done? && t.calls[call].pc.outcome.Failed?
             && (call !in s.calls || !s.calls[call].pc.Done?)
    ensures var s, t := After(Empty, events), After(Empty, events + [e]);
            && t.store == s.store
            && var c := t.calls[call];
               c.pc.outcome.error == IdempotencyConflict ==>
                 c.key.Some? && c.key.value in s.store.ledger
                     && s.store.ledger[c.key.value].digest != DigestOf(c.request)
  {
    AfterKeepsInv(Empty, events);
    assert (events + [e])[..|events|] == events;
    FailedStepChangesNothing(After(Empty, events), e, call);
  }

  /** Events under `key` that commit a change to the tables. */
  function CountChanges(s: System, events: seq<Event>, key: string): nat {
    if events == [] then 0
    else
      var before, e := events[..|events| - 1], events[|events| - 1];
      var mid := After(s, before);
      CountChanges(s, before, key)
      + (if e.TransactionPhase? && e.call in mid.calls && mid.calls[e.call].key == Some(key)
          && Next(mid, e).store != mid.store
         then 1 else 0)
  }

  /** One key commits at most one state change, over any interleaving; and once it is bound, none at all. */
  lemma {:induction false} OneKeyOneChange(s: System, events: seq<Event>, key: string)
    requires Inv(s)
    ensures CountChanges(s, events, key) <= (if key in s.store.ledger then 0 else 1)
    ensures CountChanges(s, events, key) > 0 ==> key in After(s, events).store.ledger
  {
    if events != [] {
      var before, e := events[..|events| - 1], events[|events| - 1];
      OneKeyOneChange(s, before, key);
      AfterKeepsInv(s, before);
      var mid := After(s, before);
      NextKeepsInv(mid, e);
      if e.TransactionPhase? && e.call in mid.calls && mid.calls[e.call].key == Some(key)
          && Next(mid, e).store != mid.store {
        TransactKeepsStore(mid.store, Some(key), mid.calls[e.call].request, e.id, e.embedding, e.now);
      }
    }
  }

  /* ----- lineage ----- */

  /** The item `n` links after `id`, if there is one. */
  function Follow(items: map<Id, Item>, id: Id, n: nat): (last: Option<Id>)
    ensures last.Some? ==> id in items && last.value in items
    decreases n
  {
    if id !in items then None
    else if n == 0 then Some(id)
    else if items[id].supersededBy.None? then None
    else Follow(items, items[id].supersededBy.value, n - 1)
  }

  lemma {:induction false} FollowClimbs(items: map<Id, Item>, id: Id, n: nat)
    requires LinksOk(items) && Follow(items, id, n).Some?
    ensures var last := Follow(items, id, n).value;
            && last in items && items[last].serial >= items[id].serial + n && items[last].serial < |items|
            && items[last].memoryType == items[id].memoryType
    decreases n
  {
    assert LinkOk(items, id);
    if n > 0 {
      FollowClimbs(items, items[id].supersededBy.value, n - 1);
    }
  }

  /**
   In every reachable state the links form finite chains without cycles: each chain carries one
   memory type, ends within as many links as there are items, and only its last item can be ACTIVE.
  */
  lemma LineageIsAcyclic(events: seq<Event>, id: Id, n: nat)
    requires id in After(Empty, events).store.items
    ensures var items := After(Empty, events).store.items;
            && (Follow(items, id, n) == Some(id) ==> n == 0)
            && (n >= |items| ==> Follow(items, id, n) == None)
            && (Follow(items, id, n).Some? ==>
                  items[Follow(items, id, n).value].memoryType == items[id].memoryType)
            && (items[id].lifecycle == Active ==> Follow(items, id, 1) == None)
  {
    AfterKeepsInv(Empty, events);
    var items := After(Empty, events).store.items;
    if Follow(items, id, n).Some? {
      FollowClimbs(items, id, n);
    }
    if Follow(items, id, 1).Some? {
      FollowClimbs(items, id, 1);
    }
  }

  lemma {:induction false} MeetingChains(items: map<Id, Item>, a: Id, m: nat, b: Id, n: nat)
    requires LinksOk(items) && Follow(items, a, m).Some? && Follow(items, a, m) == Follow(items, b, n) && m <= n
    ensures Follow(items, b, n - m) == Some(a)
    decreases m
  {
    if m > 0 {
      FollowLast(items, a, m);
      FollowLast(items, b, n);
      var p, q := Follow(items, a, m - 1).value, Follow(items, b, n - 1).value;
      FollowClimbs(items, a, m - 1);
      FollowClimbs(items, b, n - 1);
      assert !SharesLink(items, p, q);
      MeetingChains(items, a, m - 1, b, n - 1);
    }
  }

  /** In every reachable state chains never merge: two that share an item are one chain, entered at two places. */
  lemma ChainsAreDisjoint(events: seq<Event>, a: Id, m: nat, b: Id, n: nat)
    requires var items := After(Empty, events).store.items;
             Follow(items, a, m).Some? && Follow(items, a, m) == Follow(items, b, n)
    ensures var items := After(Empty, events).store.items;
            if m <= n then Follow(items, b, n - m) == Some(a) else Follow(items, a, m - n) == Some(b)
  {
    AfterKeepsInv(Empty, events);
    var items := After(Empty, events).store.items;
    if m <= n {
      MeetingChains(items, a, m, b, n);
    } else {
      MeetingChains(items, b, n, a, m);
    }
  }

  lemma {:induction false} FollowLast(items: map<Id, Item>, id: Id, n: nat)
    requires n > 0 && Follow(items, id, n).Some?
    ensures var p := Follow(items, id, n - 1);
            p.Some? && items[p.value].supersededBy == Follow(items, id, n)
    decreases n
  {
    if n > 1 {
      FollowLast(items, items[id].supersededBy.value, n - 1);
    }
  }

  lemma NextKeepsProvenance(s: System, e: Event)
    requires Inv(s) && ProvenanceOk(s.store)
    ensures ProvenanceOk(Next(s, e).store) && ProvenanceEvolves(s.store, Next(s, e).store)
  {
    if e.TransactionPhase? && e.call in s.calls && e.id !in s.store.items {
      var c := s.calls[e.call];
      TransactKeepsProvenance(s.store, c.key, c.request, e.id, e.embedding, e.now);
    }
  }

  lemma ProvenanceEvolvesOn(a: Store, b: Store, c: Store)
    requires ItemsEvolve(a.items, b.items) && ItemsEvolve(b.items, c.items)
    requires ProvenanceEvolves(a, b) && ProvenanceEvolves(b, c)
    ensures ProvenanceEvolves(a, c)
  {
    forall id | id in a.items && id in a.provenance ensures ProvenanceEvolvesAt(a, c, id) {
      assert ProvenanceEvolvesAt(a, b, id) && ProvenanceEvolvesAt(b, c, id);
      assert ItemEvolves(a.items[id], b.items[id]) && ItemEvolves(b.items[id], c.items[id]);
    }
  }

  lemma {:induction false} AfterKeepsProvenance(s: System, events: seq<Event>)
    requires Inv(s) && ProvenanceOk(s.store)
    ensures ProvenanceOk(After(s, events).store) && ProvenanceEvolves(s.store, After(s, events).store)
  {
    if events != [] {
      var before := events[..|events| - 1];
      var mid := After(s, before);
      AfterKeepsProvenance(s, before);
      AfterKeepsInv(s, before);
      NextKeepsInv(mid, events[|events| - 1]);
      NextKeepsProvenance(mid, events[|events| - 1]);
      ProvenanceEvolvesOn(s.store, mid.store, After(s, events).store);
    }
  }

  /**
   A FORGOTTEN item never changes again, not even on a replay of the key that created it. Nor does its
   provenance, which keeps its kind and system and refers to nothing else.
  */
  lemma ForgottenIsFinal(events: seq<Event>, more: seq<Event>, id: Id)
    requires var s := After(Empty, events); id in s.store.items && s.store.items[id].lifecycle == Forgotten
    ensures var s := After(Empty, events);
            id in After(s, more).store.items && After(s, more).store.items[id] == s.store.items[id]
    ensures var s := After(Empty, events);
            && id in s.store.provenance && Tombstone(s.store.provenance[id])
            && id in After(s, more).store.provenance && After(s, more).store.provenance[id] == s.store.provenance[id]
  {
    var s := After(Empty, events);
    AfterKeepsInv(Empty, events);
    AfterKeepsInv(s, more);
    AfterKeepsProvenance(Empty, events);
    AfterKeepsProvenance(s, more);
    assert ItemEvolves(s.store.items[id], After(s, more).store.items[id]);
    assert ProvenanceEvolvesAt(s.store, After(s, more).store, id);
  }

  /** Until its item is forgotten, provenance stays as it was given. */
  lemma ProvenanceIsKept(events: seq<Event>, more: seq<Event>, id: Id)
    requires id in After(Empty, events).store.items
    requires var t := After(After(Empty, events), more).store; id in t.items ==> t.items[id].lifecycle != Forgotten
    ensures var s, t := After(Empty, events).store, After(After(Empty, events), more).store;
            id in s.provenance && id in t.provenance && t.provenance[id] == s.provenance[id]
  {
    var s := After(Empty, events);
    AfterKeepsInv(Empty, events);
    AfterKeepsInv(s, more);
    AfterKeepsProvenance(Empty, events);
    AfterKeepsProvenance(s, more);
    assert ProvenanceEvolvesAt(s.store, After(s, more).store, id);
  }

  /** Every state any interleaving commits satisfies the table constraints. */
  lemma EveryCommitIsWellShaped(events: seq<Event>)
    ensures StoreOk(After(Empty, events).store)
  {
    AfterKeepsInv(Empty, events);
  }
}
