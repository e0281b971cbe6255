/** What refreshing, registering, removing and loading do to the fields of credentials in memory and store. */
module Upkeep {
  import opened Credentials
  import opened Ordering
  import opened Shards
  import opened Scheduling
  import opened Lifecycle
  import opened Managing
  import opened Runs
  import opened Effects

  // ----- refreshing

  /** Five minutes before it expires, unless that is put off, under way or the credential is switched off. */
  predicate Due(c: Credential, now: nat) {
    && c.status != Disabled && c.status != Refreshing
    && (c.nextRefreshAfter == UNSET || c.nextRefreshAfter <= now)
    && c.expiresAt.Some? && now > c.expiresAt.value - 300 * SECOND
  }

  /** What the refresher's answer leaves of the value the refresh started from. */
  predicate Delivered(c: Credential, c': Credential, o: RefreshOutcome, now: nat) {
    match o
    case RefreshFailed => c' == c.(status := Error, nextRefreshAfter := now + 300 * SECOND)
    case RefreshNothing => c' == c.(status := Active)
    case RefreshUpdated(token, expiresAt, status) =>
      && c' == c.(token := token, expiresAt := expiresAt, status := c'.status)
      && c'.status == if status == Unset || status == Refreshing then Active else status
  }

  lemma RefreshIgnored(m: Manager, id: string, o: RefreshOutcome, firstOk: bool, lastOk: bool, now: nat)
    requires id !in m.creds || !Due(m.creds[id], now)
    ensures Refresh(m, id, o, firstOk, lastOk, now) == m
  {
  }

  /**
   * A due refresh ends with what its last successful write says: the delivered token, expiry and status, or the
   * error and the delay, or only the sign that a refresh is under way.
   */
  lemma RefreshEffect(m: Manager, id: string, o: RefreshOutcome, firstOk: bool, lastOk: bool, now: nat)
    requires KeysMatch(m.creds) && id in m.creds && Due(m.creds[id], now) && StoreTakes(m, id, true)
    ensures var c, m' := m.creds[id], Refresh(m, id, o, firstOk, lastOk, now);
            if m.store.None? || lastOk then
              id in m'.creds && Saved(m, m', m'.creds[id]) && Delivered(c, m'.creds[id], o, now)
            else if firstOk then Saved(m, m', c.(status := Refreshing))
            else m' == m
  {
    var c := m.creds[id];
    var c' := Refreshed(c, o, now);
    var m1 := Update(m, c.(status := Refreshing), true, firstOk, now);
    if m.store.None? || firstOk {
      UpdateSaves(m, c.(status := Refreshing), firstOk, now);
      assert m1.creds[id := c'] == m.creds[id := c'];
      assert m.store.Some? ==> m1.store.value[id := c'] == m.store.value[id := c'];
    }
    if m.store.None? || lastOk {
      UpdateSaves(m1, c', lastOk, now);
    }
  }

  /** A refresh that gets through hands over the new token and expiry, in memory and store, and nothing else. */
  lemma TokenArrives(m: Manager, id: string, token: string, expiresAt: Option<Time>, status: Status, now: nat)
    requires KeysMatch(m.creds) && id in m.creds && Due(m.creds[id], now) && StoreTakes(m, id, true)
    ensures var m' := Refresh(m, id, RefreshUpdated(token, expiresAt, status), true, true, now);
            && id in m'.creds && (m.store.Some? ==> m'.store.Some? && id in m'.store.value)
            && m'.creds[id].token == token && m'.creds[id].expiresAt == expiresAt
            && (m.store.Some? ==> m'.store.value[id] == m'.creds[id])
            && m'.creds[id].(token := m.creds[id].token, expiresAt := m.creds[id].expiresAt,
                             status := m.creds[id].status) == m.creds[id]
            && (status in {Active, Error, Disabled} ==> m'.creds[id].status == status)
            && (status in {Unset, Refreshing} ==> m'.creds[id].status == Active)
  {
    RefreshEffect(m, id, RefreshUpdated(token, expiresAt, status), true, true, now);
  }

  /**
   * Once a refresh has gone through, the next one is due exactly five minutes before the new expiry, or five minutes
   * after a failure; none is due while one is under way.
   */
  lemma DueAgain(m: Manager, id: string, o: RefreshOutcome, now: nat, later: nat)
    requires KeysMatch(m.creds) && Refreshable(m, id, now) && StoreTakes(m, id, true) && now <= later
    ensures var m' := Refresh(m, id, o, true, true, now);
            match o
            case RefreshFailed => Refreshable(m', id, later) <==> later >= now + 300 * SECOND
            case RefreshNothing => Refreshable(m', id, later)
            case RefreshUpdated(token, expiresAt, status) =>
              Refreshable(m', id, later) <==>
              status != Disabled && expiresAt.Some? && later > expiresAt.value - 300 * SECOND
    ensures m.store.Some? ==> !Refreshable(Refresh(m, id, o, true, false, now), id, later)
  {
    RefreshEffect(m, id, o, true, true, now);
    RefreshEffect(m, id, o, true, false, now);
  }

  // ----- updating, registering, removing

  /** An update reaches memory and store together, or only memory if the caller skips the store, or nothing. */
  lemma UpdateEffect(m: Manager, c: Credential, persist: bool, storeOk: bool, now: nat)
    requires Coherent(m, now)
    ensures var m' := Update(m, c, persist, storeOk, now);
            if persist && m.store.Some? && !(storeOk && c.id != "" && c.id in m.store.value) then m' == m
            else
              && (c.id in m'.scheduler.owner <==> c.id != "" && c.provider != "" && c.status != Disabled)
              && if persist then Saved(m, m', c)
                 else m'.creds == m.creds[c.id := c] && m'.store == m.store && m'.coolingOff == m.coolingOff
  {
    UpdateCoherent(m, c, persist, storeOk, now);
  }

  /** A registration takes the credential as it is, but for a missing ID or status. */
  lemma RegisterEffect(m: Manager, c: Credential, newId: string, persist: bool, storeOk: bool, now: nat)
    ensures var id := if c.id == "" then newId else c.id;
            var c' := c.(id := id, status := if c.status == Unset then Active else c.status);
            var m' := Register(m, c, newId, persist, storeOk, now);
            if c.provider == "" || (persist && m.store.Some? && !(storeOk && id != "" && id !in m.store.value)) then
              m' == m
            else if persist then Saved(m, m', c')
            else m'.creds == m.creds[id := c'] && m'.store == m.store && m'.coolingOff == m.coolingOff
  {
  }

  /** If it goes through it is scheduled, unless it is disabled. */
  lemma RegisteredScheduled(m: Manager, c: Credential, newId: string, persist: bool, storeOk: bool, now: nat)
    requires Coherent(m, now) && c.provider != ""
    requires var id := if c.id == "" then newId else c.id;
             persist && m.store.Some? ==> storeOk && id != "" && id !in m.store.value
    ensures var id := if c.id == "" then newId else c.id;
            id in Register(m, c, newId, persist, storeOk, now).scheduler.owner <==> id != "" && c.status != Disabled
  {
    RegisterCoherent(m, c, newId, persist, storeOk, now);
    RegisterEffect(m, c, newId, persist, storeOk, now);
  }

  /** A known ID leaves memory and scheduler whatever the store does, and the store if that is asked and works. */
  lemma DeregisterEffect(m: Manager, id: string, persist: bool, storeOk: bool, now: nat)
    requires Coherent(m, now) && id != "" && id in m.creds
    ensures var m' := Deregister(m, id, persist, storeOk);
            && m'.creds == m.creds - {id} && id !in m'.scheduler.owner && m'.coolingOff == m.coolingOff
            && (forall i :: i != id ==> (i in m'.scheduler.owner <==> i in m.scheduler.owner))
            && m'.store == if persist && storeOk && m.store.Some? then Some(m.store.value - {id}) else m.store
  {
    DeregisterCoherent(m, id, persist, storeOk, now);
    ProjectionRemove(m.creds, id);
  }

  /** No pick returns it afterwards, and all others are picked as by a scan of what is left. */
  lemma DeregisteredNotPicked(m: Manager, id: string, persist: bool, storeOk: bool, now: nat, later: nat,
                              provider: string, model: string, tried: set<string>)
    requires Coherent(m, now) && id != "" && now <= later
    ensures var m' := Deregister(m, id, persist, storeOk);
            var o := Pick(m'.scheduler, provider, model, tried, later).outcome;
            && Represents(m'.scheduler, Projection(m.creds - {id}), later)
            && (o.Picked? ==> o.cred.id != id && o.cred.id in m.creds)
  {
    var m' := Deregister(m, id, persist, storeOk);
    DeregisterCoherent(m, id, persist, storeOk, now);
    CoherentLater(m', now, later);
    assert id !in m.creds ==> m.creds - {id} == m.creds;
    PickCoherent(m', provider, model, tried, later);
  }

  lemma DeregisterIgnored(m: Manager, id: string, persist: bool, storeOk: bool)
    requires id == "" || id !in m.creds
    ensures Deregister(m, id, persist, storeOk) == m
  {
  }

  // ----- loading

  /** The ID and all stored before it name a provider. */
  predicate NamedUpTo(store: Table, id: string) {
    forall j :: j in store && (j == id || Less(j, id)) ==> store[j].provider != ""
  }

  lemma {:induction false} LoadItemsOthers(m: Manager, ids: seq<string>, now: nat, id: string)
    requires m.store.Some? && KeysMatch(m.store.value) && (forall i :: i in ids ==> i in m.store.value)
    requires id !in ids
    ensures var creds := LoadItems(m, ids, now).creds;
            (id in creds <==> id in m.creds) && (id in creds ==> creds[id] == m.creds[id])
    decreases ids
  {
    if ids != [] && m.store.value[ids[0]].provider != "" {
      LoadItemsOthers(Commit(m, Restored(m.store.value[ids[0]]), now), ids[1..], now, id);
    }
  }

  /** The ID and all before it in the listing name a provider. */
  predicate NamedIn(ids: seq<string>, store: Table, id: string)
    requires forall i :: i in ids ==> i in store
  {
    forall j :: j in ids && (j == id || Less(j, id)) ==> store[j].provider != ""
  }

  lemma NamedInStep(ids: seq<string>, store: Table, id: string)
    requires Ascending(ids) && id in ids && forall i :: i in ids ==> i in store
    ensures Ascending(ids[1..])
    ensures id == ids[0] ==> id !in ids[1..] && (NamedIn(ids, store, id) <==> store[id].provider != "")
    ensures id != ids[0] ==>
              id in ids[1..] &&
              (NamedIn(ids, store, id) <==> store[ids[0]].provider != "" && NamedIn(ids[1..], store, id))
  {
    TailElems(ids);
    assert forall j :: j in ids <==> j in Elems(ids);
    assert forall j :: j in ids[1..] <==> j in Elems(ids[1..]);
    forall j | j in ids ensures !Less(j, ids[0]) {
      if j == ids[0] {
        LessIrreflexive(j);
      } else {
        LessAsymmetric(ids[0], j);
      }
    }
    assert id != ids[0] ==> Less(ids[0], id);
  }

  /** Of an ascending listing, exactly the items up to the first without provider are taken. */
  lemma {:induction false} LoadItemsEffect(m: Manager, ids: seq<string>, now: nat, id: string)
    requires m.store.Some? && KeysMatch(m.store.value) && (forall i :: i in ids ==> i in m.store.value)
    requires Ascending(ids) && id in ids
    ensures var creds := LoadItems(m, ids, now).creds;
            if NamedIn(ids, m.store.value, id) then id in creds && creds[id] == Restored(m.store.value[id])
            else (id in creds <==> id in m.creds) && (id in creds ==> creds[id] == m.creds[id])
    decreases ids
  {
    NamedInStep(ids, m.store.value, id);
    var first := m.store.value[ids[0]];
    if first.provider != "" {
      var m1 := Commit(m, Restored(first), now);
      if id == ids[0] {
        LoadItemsOthers(m1, ids[1..], now, id);
      } else {
        LoadItemsEffect(m1, ids[1..], now, id);
      }
    }
  }

  lemma LoadedListing(m: Manager, ids: seq<string>, now: nat, id: string)
    requires m.creds == map[] && m.store.Some? && KeysMatch(m.store.value) && Ascending(ids)
    requires forall i :: i in ids <==> i in m.store.value
    ensures var m' := LoadItems(m, ids, now);
            && m'.store == m.store
            && (id in m'.creds <==> id in m.store.value && NamedUpTo(m.store.value, id))
            && (id in m'.creds ==> m'.creds[id] == Restored(m.store.value[id]))
  {
    LoadItemsStore(m, ids, now);
    if id in ids {
      LoadItemsEffect(m, ids, now, id);
    } else {
      LoadItemsOthers(m, ids, now, id);
    }
  }

  lemma LoadedAtStart(store: Table, strategy: Strategy, now: nat, id: string)
    requires KeysMatch(store)
    ensures var m' := Load(NewManager(Some(store), strategy), true, now);
            && m'.store == Some(store)
            && (id in m'.creds <==> id in store && NamedUpTo(store, id))
            && (id in m'.creds ==> m'.creds[id] == Restored(store[id]))
  {
    var ids := Sorted(store.Keys);
    assert forall i :: i in ids <==> i in Elems(ids);
    LoadedListing(NewManager(Some(store), strategy), ids, now, id);
  }

  /** At start-up: memory is exactly the stored credentials up to the first that names no provider. */
  lemma LoadEffect(store: Table, strategy: Strategy, now: nat, id: string)
    requires KeysMatch(store)
    ensures var m' := Step(NewManager(Some(store), strategy), ELoad(true), now);
            && m'.store == Some(store)
            && (id in m'.creds <==> id in store && NamedUpTo(store, id))
            && (id in m'.creds ==>
                  m'.creds[id] == store[id].(status := if store[id].status == Refreshing || store[id].status == Unset
                                                       then Active else store[id].status))
  {
    LoadedAtStart(store, strategy, now, id);
  }

  /** Without a store, or when it cannot list, nothing is loaded. */
  lemma LoadIgnored(m: Manager, listOk: bool, now: nat)
    requires m.store.None? || !listOk
    ensures Step(m, ELoad(listOk), now) == m
  {
  }

  lemma {:induction false} LoadItemsStore(m: Manager, ids: seq<string>, now: nat)
    requires m.store.Some? && KeysMatch(m.store.value) && (forall i :: i in ids ==> i in m.store.value)
    ensures LoadItems(m, ids, now).store == m.store
    decreases ids
  {
    if ids != [] && m.store.value[ids[0]].provider != "" {
      LoadItemsStore(Commit(m, Restored(m.store.value[ids[0]]), now), ids[1..], now);
    }
  }

  // ----- settings and requests

  /** The setting of the moment decides about a 429, but for credentials with a setting of their own. */
  lemma SwitchEffect(m: Manager, off: bool, r: Result, storeOk: bool, now: nat)
    requires KeysMatch(m.creds) && r.id != "" && r.id in m.creds && StoreTakes(m, r.id, storeOk)
    requires Failed(r) && r.error.value.httpStatus == 429
    ensures var c, m' := m.creds[r.id], Mark(Step(m, ESetCooling(off), now), r, storeOk, now);
            var ignored := if c.coolingOverride.Some? then c.coolingOverride.value else off;
            && r.id in m'.creds
            && (ignored ==> m'.creds[r.id].quota == c.quota)
            && (!ignored ==> m'.creds[r.id].quota.exceeded
                             && m'.creds[r.id].quota.backoffLevel == c.quota.backoffLevel + 1)
  {
    var m1 := Step(m, ESetCooling(off), now);
    if Cools(m.creds[r.id], off) {
      QuotaEffect(m1, r, storeOk, now);
    } else {
      ErrorEffect(m1, r, storeOk, now);
    }
  }

  /** Picks follow the strategy set last; nothing else changes. */
  lemma StrategyEffect(m: Manager, strategy: Strategy, snapshot: seq<Credential>, now: nat)
    requires Coherent(m, now) && ListsMemory(snapshot, m.creds)
    ensures var m' := Step(m, ESetStrategy(strategy, snapshot), now);
            && m'.scheduler.strategy == strategy && m'.creds == m.creds && m'.store == m.store
            && m'.coolingOff == m.coolingOff && Coherent(m', now)
  {
    StepCoherent(m, ESetStrategy(strategy, snapshot), now);
    RebuildRepresents(m.scheduler.(strategy := strategy), snapshot, now);
  }

  /** A request marks the credential it was given, with the upstream's answer under the model's own name. */
  lemma RequestEffect(m: Manager, provider: string, model: string, failure: Option<Failure>, storeOk: bool, now: nat)
    ensures var p := Pick(m.scheduler, provider, model, {}, now);
            var m1 := m.(scheduler := p.scheduler);
            Step(m, ERequest(provider, model, failure, storeOk), now) ==
            if p.outcome.Picked? then
              Mark(m1, Result(p.outcome.cred.id, model, failure == None, failure, None), storeOk, now)
            else m1
  {
    RequestStep(m, ERequest(provider, model, failure, storeOk), now, Pick(m.scheduler, provider, model, {}, now));
  }
}
