/** Memory and store over serialised runs, and the counting of quota failures. */
module Persistence {
  import opened Credentials
  import opened Ordering
  import opened Shards
  import opened Scheduling
  import opened Backoff
  import opened Lifecycle
  import opened Managing
  import opened Runs

  // ----- write-through

  /** If the ID is in memory it is in the store, with the same value up to the status that Load resets. */
  ghost predicate WrittenAt(m: Manager, id: string) {
    m.store.Some? && id in m.creds ==>
      id in m.store.value && (m.creds[id] == m.store.value[id] || m.creds[id] == Restored(m.store.value[id]))
  }

  ghost predicate WriteThrough(m: Manager) {
    forall id :: id in m.creds ==> WrittenAt(m, id)
  }

  /** The caller does not switch persistence off in a write of its own. */
  predicate Persisting(e: Event) {
    match e
    case ERegister(_, _, persist, _) => persist
    case EUpdate(_, persist, _) => persist
    case _ => true
  }

  lemma UpdateWrites(m: Manager, c: Credential, storeOk: bool, now: nat, id: string)
    requires WrittenAt(m, id)
    ensures WrittenAt(Update(m, c, true, storeOk, now), id)
    ensures Update(m, c, true, storeOk, now).store.Some? == m.store.Some?
  {
  }

  lemma {:induction false} LoadItemsWrites(m: Manager, ids: seq<string>, now: nat, id: string)
    requires m.store.Some? && KeysMatch(m.store.value) && WrittenAt(m, id)
    requires forall i :: i in ids ==> i in m.store.value
    ensures WrittenAt(LoadItems(m, ids, now), id) && LoadItems(m, ids, now).store == m.store
    decreases ids
  {
    if ids != [] && m.store.value[ids[0]].provider != "" {
      LoadItemsWrites(Commit(m, Restored(m.store.value[ids[0]]), now), ids[1..], now, id);
    }
  }

  lemma MarkWrites(m: Manager, r: Result, storeOk: bool, now: nat, id: string)
    requires WrittenAt(m, id)
    ensures WrittenAt(Mark(m, r, storeOk, now), id)
  {
    if r.id != "" && r.id in m.creds {
      UpdateWrites(m, MarkCredential(m.creds[r.id], r, m.coolingOff, now).cred, storeOk, now, id);
    }
  }

  lemma RequestWrites(m: Manager, e: Event, now: nat, id: string)
    requires WrittenAt(m, id) && e.ERequest?
    ensures WrittenAt(Step(m, e, now), id)
  {
    var p := Pick(m.scheduler, e.provider, e.model, {}, now);
    RequestStep(m, e, now, p);
    if p.outcome.Picked? {
      MarkWrites(m.(scheduler := p.scheduler), MarkOf(m, e, now).value, e.storeOk, now, id);
    }
  }

  lemma RefreshWrites(m: Manager, rid: string, o: RefreshOutcome, firstOk: bool, lastOk: bool, now: nat, id: string)
    requires WrittenAt(m, id)
    ensures WrittenAt(Refresh(m, rid, o, firstOk, lastOk, now), id)
  {
    if Refreshable(m, rid, now) {
      var c := m.creds[rid];
      UpdateWrites(m, c.(status := Refreshing), firstOk, now, id);
      UpdateWrites(Update(m, c.(status := Refreshing), true, firstOk, now), Refreshed(c, o, now), lastOk, now, id);
    }
  }

  lemma LoadWrites(m: Manager, listOk: bool, now: nat, id: string)
    requires Coherent(m, now) && WrittenAt(m, id)
    ensures WrittenAt(Load(m, listOk, now), id) && Load(m, listOk, now).store == m.store
  {
    if m.store.Some? && listOk {
      var ids := Sorted(m.store.value.Keys);
      assert forall i :: i in ids ==> i in Elems(ids);
      LoadItemsWrites(m, ids, now, id);
    }
  }

  /** Only an outside write of the ID itself that skips the store can break it. */
  lemma StepWrites(m: Manager, e: Event, now: nat, id: string)
    requires Coherent(m, now) && WrittenAt(m, id) && (External(e, id) ==> Persisting(e))
    ensures WrittenAt(Step(m, e, now), id)
  {
    match e
    case ERegister(c, newId, persist, storeOk) =>
    case EUpdate(c, persist, storeOk) =>
      if persist {
        UpdateWrites(m, c, storeOk, now, id);
      }
    case EDeregister(i, persist, storeOk) =>
    case ELoad(listOk) => LoadWrites(m, listOk, now, id);
    case EMark(r, storeOk) => MarkWrites(m, r, storeOk, now, id);
    case EPick(provider, model, tried) =>
    case ERequest(provider, model, failure, storeOk) => RequestWrites(m, e, now, id);
    case ERefresh(rid, o, firstOk, lastOk) => RefreshWrites(m, rid, o, firstOk, lastOk, now, id);
    case ESetCooling(off) =>
    case ESetStrategy(strategy, snapshot) =>
  }

  lemma {:induction false} WrittenOverRuns(m: Manager, es: seq<At>, from: nat, now: nat, id: string)
    requires Coherent(m, from) && WrittenAt(m, id) && InOrder(es, from, now)
    requires forall i :: 0 <= i < |es| ==> External(es[i].event, id) ==> Persisting(es[i].event)
    ensures WrittenAt(RunAll(m, es), id)
  {
    if es != [] {
      var before, last := es[..|es| - 1], es[|es| - 1];
      WrittenOverRuns(m, before, from, last.time, id);
      RunCoherent(m, before, from, last.time);
      StepWrites(RunAll(m, before), last.event, last.time, id);
    }
  }

  /**
   * With persistence on, and the store failing wherever it likes: every ID in the scheduler is in memory and
   * every ID in memory is in the store, with the same value.
   */
  lemma WriteThroughOverRuns(m: Manager, es: seq<At>, from: nat, now: nat)
    requires Coherent(m, from) && WriteThrough(m) && InOrder(es, from, now)
    requires forall i :: 0 <= i < |es| ==> Persisting(es[i].event)
    ensures var m' := RunAll(m, es);
            && WriteThrough(m')
            && m'.scheduler.owner.Keys <= m'.creds.Keys
            && (m'.store.Some? ==> m'.creds.Keys <= m'.store.value.Keys)
  {
    RunCoherent(m, es, from, now);
    var m' := RunAll(m, es);
    forall id ensures WrittenAt(m', id) {
      WrittenOverRuns(m, es, from, now, id);
    }
  }

  // ----- restart

  predicate AllNamed(t: Table) {
    forall id :: id in t ==> t[id].provider != ""
  }

  lemma {:induction false} LoadItemsAll(m: Manager, ids: seq<string>, now: nat)
    requires m.store.Some? && KeysMatch(m.store.value) && forall i :: i in ids ==> i in m.store.value
    ensures var creds := LoadItems(m, ids, now).creds;
            && m.creds.Keys <= creds.Keys
            && (forall i :: i in creds ==> i in m.creds || (i in ids && m.store.value[i].provider != ""))
            && (forall i :: i in creds && i !in ids ==> i in m.creds && creds[i] == m.creds[i])
            && (forall i :: i in creds && i in ids ==>
                  creds[i] == Restored(m.store.value[i]) || (i in m.creds && creds[i] == m.creds[i]))
            && (AllNamed(m.store.value) ==>
                  forall i :: i in ids ==> i in creds && creds[i] == Restored(m.store.value[i]))
    decreases ids
  {
    if ids != [] && m.store.value[ids[0]].provider != "" {
      var m' := Commit(m, Restored(m.store.value[ids[0]]), now);
      LoadItemsAll(m', ids[1..], now);
      assert forall i :: i in ids <==> i == ids[0] || i in ids[1..];
    }
  }

  /** At start-up Load brings in the whole store if and only if every stored credential names its provider. */
  lemma LoadComplete(store: Table, strategy: Strategy, now: nat)
    requires KeysMatch(store)
    ensures var creds := Load(NewManager(Some(store), strategy), true, now).creds;
            && (creds.Keys == store.Keys <==> AllNamed(store))
            && forall id :: id in creds ==> id in store && creds[id] == Restored(store[id])
  {
    var m := NewManager(Some(store), strategy);
    var ids := Sorted(m.store.value.Keys);
    assert forall i :: i in ids <==> i in Elems(ids);
    LoadItemsAll(m, ids, now);
    LoadedIff(store, LoadItems(m, ids, now).creds);
  }

  lemma LoadedIff(store: Table, creds: Table)
    requires forall i :: i in creds ==> i in store && store[i].provider != ""
    requires AllNamed(store) ==> forall i :: i in store ==> i in creds
    ensures creds.Keys == store.Keys <==> AllNamed(store)
  {
    if creds.Keys == store.Keys {
      assert forall i :: i in store ==> i in creds;
    }
  }

  /**
   * Restart: a manager whose memory covers its store comes back from the store with the memory it had, but for
   * refreshes under way, which are over.
   */
  lemma RestartRoundTrip(m: Manager, strategy: Strategy, now: nat)
    requires m.store.Some? && KeysMatch(m.store.value) && WriteThrough(m)
    requires m.creds.Keys == m.store.value.Keys && AllNamed(m.store.value)
    ensures Load(NewManager(m.store, strategy), true, now).creds == map id | id in m.creds :: Restored(m.creds[id])
  {
    LoadComplete(m.store.value, strategy, now);
    SameAfterRestart(m.creds, m.store.value, Load(NewManager(m.store, strategy), true, now).creds);
  }

  lemma SameAfterRestart(memory: Table, store: Table, loaded: Table)
    requires memory.Keys == store.Keys == loaded.Keys
    requires forall id :: id in memory ==> memory[id] == store[id] || memory[id] == Restored(store[id])
    requires forall id :: id in loaded ==> loaded[id] == Restored(store[id])
    ensures loaded == map id | id in memory :: Restored(memory[id])
  {
  }

  // ----- refreshing is left behind

  ghost predicate NoneRefreshing(t: Table) {
    forall id :: id in t ==> t[id].status != Refreshing
  }

  /** A refresh leaves its credential in the refreshing state exactly when only its last write fails. */
  lemma RefreshLeaves(m: Manager, id: string, o: RefreshOutcome, firstOk: bool, lastOk: bool, now: nat)
    requires KeysMatch(m.creds) && Refreshable(m, id, now)
    ensures var m' := Refresh(m, id, o, firstOk, lastOk, now);
            id in m'.creds &&
            (m'.creds[id].status == Refreshing <==> Updatable(m, id, firstOk) && !Updatable(m, id, lastOk))
    ensures forall i :: i in m.creds && i != id ==>
              i in Refresh(m, id, o, firstOk, lastOk, now).creds &&
              Refresh(m, id, o, firstOk, lastOk, now).creds[i] == m.creds[i]
    ensures Refresh(m, id, o, firstOk, lastOk, now).creds.Keys == m.creds.Keys
  {
    var c := m.creds[id];
    assert c.id == id && Refreshed(c, o, now).id == id;
  }

  lemma {:induction false} LoadItemsSettles(m: Manager, ids: seq<string>, now: nat)
    requires m.store.Some? && forall i :: i in ids ==> i in m.store.value
    requires NoneRefreshing(m.creds)
    ensures NoneRefreshing(LoadItems(m, ids, now).creds)
    decreases ids
  {
    if ids != [] && m.store.value[ids[0]].provider != "" {
      LoadItemsSettles(Commit(m, Restored(m.store.value[ids[0]]), now), ids[1..], now);
    }
  }

  /** Straight after Load at start-up nothing is refreshing, whatever the store holds. */
  lemma LoadSettles(store: Table, strategy: Strategy, listOk: bool, now: nat)
    ensures NoneRefreshing(Load(NewManager(Some(store), strategy), listOk, now).creds)
  {
    var m := NewManager(Some(store), strategy);
    if listOk {
      var ids := Sorted(m.store.value.Keys);
      assert forall i :: i in ids ==> i in Elems(ids);
      LoadItemsSettles(m, ids, now);
    }
  }

  // ----- counting quota failures

  predicate StoreWorks(m: Manager, e: Event) {
    m.store.None? || (e.EMark? && e.storeOk) || (e.ERequest? && e.storeOk)
  }

  /** The result for the credential that this step writes down. */
  ghost function Recorded(m: Manager, e: Event, now: nat, id: string): Option<Result> {
    var k := MarkOf(m, e, now);
    if k.Some? && k.value.id == id && StoreWorks(m, e) then k else None
  }

  /** The result is a quota failure of the credential as it is. */
  predicate CountsAsQuota(m: Manager, k: Option<Result>, id: string) {
    k.Some? && id in m.creds && IsQuota(m.creds[id], k.value, m.coolingOff)
  }

  function NextLevel(n: int, k: Option<Result>, quota: bool): int {
    match k
    case None => n
    case Some(r) => if r.success then 0 else if quota then n + 1 else n
  }

  /** The number of quota failures since the last success, starting from `start`. */
  ghost function Tally(m: Manager, es: seq<At>, id: string, start: int): int {
    if es == [] then start
    else
      var before, last := es[..|es| - 1], es[|es| - 1];
      var k := Recorded(RunAll(m, before), last.event, last.time, id);
      NextLevel(Tally(m, before, id, start), k, CountsAsQuota(RunAll(m, before), k, id))
  }

  /** Events that leave the credential to the manager. */
  predicate LeftToManager(e: Event, id: string) {
    !External(e, id) && !(e.EDeregister? && e.id == id)
  }

  ghost predicate Level(m: Manager, id: string, n: int) {
    id in m.creds && m.creds[id].quota.backoffLevel == n
  }

  lemma MarkedLevel(c: Credential, r: Result, coolingOff: bool, now: nat)
    requires SaneCredential(c)
    ensures MarkCredential(c, r, coolingOff, now).cred.quota.backoffLevel ==
            if r.success then 0
            else if IsQuota(c, r, coolingOff) then c.quota.backoffLevel + 1
            else c.quota.backoffLevel
  {
  }

  lemma MarkLevel(m: Manager, r: Result, storeOk: bool, now: nat, id: string)
    requires KeysMatch(m.creds) && WrittenAt(m, id) && id != "" && id in m.creds && SaneCredential(m.creds[id])
    ensures var n := m.creds[id].quota.backoffLevel;
            Level(Mark(m, r, storeOk, now), id,
                  if r.id != id || !(m.store.None? || storeOk) then n
                  else if r.success then 0
                  else if IsQuota(m.creds[id], r, m.coolingOff) then n + 1
                  else n)
  {
    if r.id == id {
      MarkedLevel(m.creds[id], r, m.coolingOff, now);
    }
  }

  lemma RefreshLevel(m: Manager, rid: string, o: RefreshOutcome, firstOk: bool, lastOk: bool, now: nat, id: string,
                     n: int)
    requires KeysMatch(m.creds) && Level(m, id, n)
    ensures Level(Refresh(m, rid, o, firstOk, lastOk, now), id, n)
  {
  }

  lemma {:induction false} LoadItemsLevel(m: Manager, ids: seq<string>, now: nat, id: string, n: int)
    requires m.store.Some? && KeysMatch(m.store.value) && WrittenAt(m, id)
    requires forall i :: i in ids ==> i in m.store.value
    requires Level(m, id, n)
    ensures Level(LoadItems(m, ids, now), id, n)
    decreases ids
  {
    if ids != [] && m.store.value[ids[0]].provider != "" {
      LoadItemsLevel(Commit(m, Restored(m.store.value[ids[0]]), now), ids[1..], now, id, n);
    }
  }

  lemma LoadLevel(m: Manager, listOk: bool, now: nat, id: string, n: int)
    requires Coherent(m, now) && WrittenAt(m, id) && Level(m, id, n)
    ensures Level(Load(m, listOk, now), id, n)
  {
    if m.store.Some? && listOk {
      var ids := Sorted(m.store.value.Keys);
      assert forall i :: i in ids ==> i in Elems(ids);
      LoadItemsLevel(m, ids, now, id, n);
    }
  }

  /** Steps that mark nothing leave the level alone. */
  lemma OtherStepLevel(m: Manager, e: Event, now: nat, id: string, n: int)
    requires Coherent(m, now) && WrittenAt(m, id) && id != "" && Level(m, id, n)
    requires LeftToManager(e, id) && !e.EMark? && !e.ERequest?
    ensures Level(Step(m, e, now), id, n)
  {
    match e
    case ERegister(c, newId, persist, storeOk) =>
    case EUpdate(c, persist, storeOk) =>
    case EDeregister(i, persist, storeOk) =>
    case ELoad(listOk) => LoadLevel(m, listOk, now, id, n);
    case EPick(provider, model, tried) =>
    case ERefresh(rid, o, firstOk, lastOk) => RefreshLevel(m, rid, o, firstOk, lastOk, now, id, n);
    case ESetCooling(off) =>
    case ESetStrategy(strategy, snapshot) =>
  }

  /** Marking does not look at the scheduler. */
  lemma MarkLevelOn(m: Manager, s: Scheduler, k: Option<Result>, storeOk: bool, now: nat, id: string, n: int)
    requires KeysMatch(m.creds) && WrittenAt(m, id) && id != "" && Level(m, id, n) && SaneCredential(m.creds[id])
    ensures var written := if k.Some? && k.value.id == id && (m.store.None? || storeOk) then k else None;
            Level(MarkIfAny(m.(scheduler := s), k, storeOk, now), id,
                  NextLevel(n, written, CountsAsQuota(m, written, id)))
  {
    if k.Some? {
      MarkLevel(m.(scheduler := s), k.value, storeOk, now, id);
    }
  }

  lemma RequestLevel(m: Manager, e: Event, now: nat, id: string, n: int)
    requires KeysMatch(m.creds) && WrittenAt(m, id) && id != "" && Level(m, id, n) && SaneCredential(m.creds[id])
    requires e.ERequest?
    ensures var k := Recorded(m, e, now, id); Level(Step(m, e, now), id, NextLevel(n, k, CountsAsQuota(m, k, id)))
  {
    var p := Pick(m.scheduler, e.provider, e.model, {}, now);
    RequestStep(m, e, now, p);
    MarkLevelOn(m, p.scheduler, MarkOf(m, e, now), e.storeOk, now, id, n);
  }

  lemma StepLevel(m: Manager, e: Event, now: nat, id: string, n: int)
    requires Coherent(m, now) && WrittenAt(m, id) && id != "" && Level(m, id, n) && SaneCredential(m.creds[id])
    requires LeftToManager(e, id)
    ensures var k := Recorded(m, e, now, id); Level(Step(m, e, now), id, NextLevel(n, k, CountsAsQuota(m, k, id)))
  {
    if e.EMark? {
      MarkLevel(m, e.r, e.storeOk, now, id);
    } else if e.ERequest? {
      RequestLevel(m, e, now, id, n);
    } else {
      OtherStepLevel(m, e, now, id, n);
    }
  }

  lemma StepSane(m: Manager, e: Event, now: nat, id: string)
    requires Coherent(m, now) && Keeps(m, id, SaneCredential) && !External(e, id)
    ensures Keeps(Step(m, e, now), id, SaneCredential)
  {
    var k := MarkOf(m, e, now);
    if k.Some? && k.value.id == id && id in m.creds {
      MarkKeepsSane(m.creds[id], k.value, m.coolingOff, m.coolingOff, now);
    }
    if e.ERefresh? && Refreshable(m, id, now) {
      RefreshKeepsValues(m.creds[id], e.o, now);
    }
    StepKeeps(m, e, now, id, SaneCredential);
  }

  /** The backoff level is the number of quota failures since the last success, whatever else happens in between. */
  lemma {:induction false} LevelCounts(m: Manager, es: seq<At>, from: nat, now: nat, id: string, start: int)
    requires Coherent(m, from) && WrittenAt(m, id) && InOrder(es, from, now)
    requires id != "" && Level(m, id, start) && Keeps(m, id, SaneCredential)
    requires forall i :: 0 <= i < |es| ==> LeftToManager(es[i].event, id)
    ensures Level(RunAll(m, es), id, Tally(m, es, id, start)) && Keeps(RunAll(m, es), id, SaneCredential)
  {
    if es != [] {
      var before, last := es[..|es| - 1], es[|es| - 1];
      LevelCounts(m, before, from, last.time, id, start);
      RunCoherent(m, before, from, last.time);
      WrittenOverRuns(m, before, from, last.time, id);
      StepLevel(RunAll(m, before), last.event, last.time, id, Tally(m, before, id, start));
      StepSane(RunAll(m, before), last.event, last.time, id);
    }
  }

  /** The n-th quota failure in a row, without a hint, imposes min(2^(n-1) s, 30 min). */
  lemma NthQuotaWait(m: Manager, r: Result, storeOk: bool, now: nat, n: nat)
    requires KeysMatch(m.creds) && r.id != "" && Level(m, r.id, n - 1) && n >= 1
    requires IsQuota(m.creds[r.id], r, m.coolingOff) && r.retryAfter.None? && Updatable(m, r.id, storeOk)
    ensures var m' := Mark(m, r, storeOk, now);
            && Level(m', r.id, n)
            && m'.creds[r.id].nextRetryAfter == now + Min(SECOND * Pow2(n - 1), 30 * 60 * SECOND)
  {
    RecordedMark(m, r, storeOk, now);
  }
}
