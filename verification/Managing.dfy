/** The credential manager as a value, and its operations taken one at a time. */
module Managing {
  import opened Credentials
  import opened Ordering
  import opened Blocking
  import opened Shards
  import opened Scheduling
  import opened Lifecycle
  import opened History

  /** `store` is None when the manager runs without persistence. */
  datatype Manager = Manager(creds: Table, store: Option<Table>, scheduler: Scheduler, coolingOff: bool)

  function NewManager(store: Option<Table>, strategy: Strategy): Manager {
    Manager(map[], store, New(strategy), false)
  }

  // ----- operations

  ghost function Commit(m: Manager, c: Credential, now: nat): Manager {
    m.(creds := m.creds[c.id := c], scheduler := Upsert(m.scheduler, c, now))
  }

  /** The store accepts an update only for an ID it has; `storeOk` is false when it fails for its own reasons. */
  predicate Updatable(m: Manager, id: string, storeOk: bool) {
    m.store.None? || (storeOk && id != "" && id in m.store.value)
  }

  predicate Creatable(m: Manager, id: string, storeOk: bool) {
    m.store.None? || (storeOk && id != "" && id !in m.store.value)
  }

  function WriteStore(m: Manager, c: Credential): Manager {
    if m.store.Some? then m.(store := Some(m.store.value[c.id := c])) else m
  }

  ghost function Update(m: Manager, c: Credential, persist: bool, storeOk: bool, now: nat): Manager {
    if !persist then Commit(m, c, now)
    else if Updatable(m, c.id, storeOk) then Commit(WriteStore(m, c), c, now)
    else m
  }

  function Prepared(c: Credential, newId: string): Credential {
    c.(id := if c.id == "" then newId else c.id, status := if c.status == Unset then Active else c.status)
  }

  ghost function Register(m: Manager, c: Credential, newId: string, persist: bool, storeOk: bool, now: nat): Manager {
    var c' := Prepared(c, newId);
    if c.provider == "" then m
    else if !persist then Commit(m, c', now)
    else if Creatable(m, c'.id, storeOk) then Commit(WriteStore(m, c'), c', now)
    else m
  }

  /** Memory and scheduler first; a failing delete leaves the store as it was. */
  ghost function Deregister(m: Manager, id: string, persist: bool, storeOk: bool): Manager {
    if id == "" || id !in m.creds then m
    else
      m.(creds := m.creds - {id},
         scheduler := Remove(m.scheduler, id),
         store := if persist && storeOk && m.store.Some? then Some(m.store.value - {id}) else m.store)
  }

  /** A refresh that did not survive a restart is over. */
  function Restored(c: Credential): Credential {
    c.(status := if c.status == Refreshing || c.status == Unset then Active else c.status)
  }

  /** Items are registered without writing back; the first without a provider ends the load. */
  ghost function LoadItems(m: Manager, ids: seq<string>, now: nat): Manager
    requires m.store.Some? && forall id :: id in ids ==> id in m.store.value
    decreases ids
  {
    if ids == [] || m.store.value[ids[0]].provider == "" then m
    else LoadItems(Commit(m, Restored(m.store.value[ids[0]]), now), ids[1..], now)
  }

  ghost function Load(m: Manager, listOk: bool, now: nat): Manager {
    if m.store.None? || !listOk then m
    else
      var ids := Sorted(m.store.value.Keys);
      assert forall id :: id in ids ==> id in Elems(ids);
      LoadItems(m, ids, now)
  }

  ghost function Mark(m: Manager, r: Result, storeOk: bool, now: nat): Manager {
    if r.id == "" || r.id !in m.creds then m
    else
      var k := MarkCredential(m.creds[r.id], r, m.coolingOff, now);
      if k.changed then Update(m, k.cred, true, storeOk, now) else m
  }

  predicate Refreshable(m: Manager, id: string, now: nat) {
    id in m.creds && m.creds[id].status != Disabled && NeedsRefresh(m.creds[id], now)
  }

  /** A refresh from start to end; its two writes may fail separately. */
  ghost function Refresh(m: Manager, id: string, o: RefreshOutcome, firstOk: bool, lastOk: bool, now: nat): Manager {
    if !Refreshable(m, id, now) then m
    else
      var c := m.creds[id];
      Update(Update(m, c.(status := Refreshing), true, firstOk, now), Refreshed(c, o, now), true, lastOk, now)
  }

  ghost function PickCredential(m: Manager, provider: string, model: string, tried: set<string>, now: nat): Manager {
    m.(scheduler := Pick(m.scheduler, provider, model, tried, now).scheduler)
  }

  /** markResult of the auth-managed provider: no retry hint, and a status for every failure. */
  function ResultOf(id: string, model: string, failure: Option<Failure>): Result {
    Result(id, model, failure.None?, failure, None)
  }

  /** Pick, call upstream, mark. */
  ghost function Request(m: Manager, provider: string, model: string, failure: Option<Failure>, storeOk: bool,
                         now: nat): Manager
  {
    var p := Pick(m.scheduler, provider, model, {}, now);
    var m' := m.(scheduler := p.scheduler);
    if p.outcome.Picked? then Mark(m', ResultOf(p.outcome.cred.id, model, failure), storeOk, now) else m'
  }

  /** snapshotAuths: memory listed in an arbitrary order. */
  predicate ListsMemory(cs: seq<Credential>, creds: Table) {
    && (forall i, j :: 0 <= i < j < |cs| ==> cs[i].id != cs[j].id)
    && (forall i :: 0 <= i < |cs| ==> cs[i].id in creds && creds[cs[i].id] == cs[i])
    && (forall id :: id in creds ==> creds[id] in cs)
  }

  datatype Event =
    | ERegister(c: Credential, newId: string, persist: bool, storeOk: bool)
    | EUpdate(c: Credential, persist: bool, storeOk: bool)
    | EDeregister(id: string, persist: bool, storeOk: bool)
    | ELoad(listOk: bool)
    | EMark(r: Result, storeOk: bool)
    | EPick(provider: string, model: string, tried: set<string>)
    | ERequest(provider: string, model: string, failure: Option<Failure>, storeOk: bool)
    | ERefresh(id: string, o: RefreshOutcome, firstOk: bool, lastOk: bool)
    | ESetCooling(off: bool)
    | ESetStrategy(strategy: Strategy, snapshot: seq<Credential>)

  ghost function Step(m: Manager, e: Event, now: nat): Manager {
    match e
    case ERegister(c, newId, persist, storeOk) => Register(m, c, newId, persist, storeOk, now)
    case EUpdate(c, persist, storeOk) => Update(m, c, persist, storeOk, now)
    case EDeregister(id, persist, storeOk) => Deregister(m, id, persist, storeOk)
    case ELoad(listOk) => Load(m, listOk, now)
    case EMark(r, storeOk) => Mark(m, r, storeOk, now)
    case EPick(provider, model, tried) => PickCredential(m, provider, model, tried, now)
    case ERequest(provider, model, failure, storeOk) => Request(m, provider, model, failure, storeOk, now)
    case ERefresh(id, o, firstOk, lastOk) => Refresh(m, id, o, firstOk, lastOk, now)
    case ESetCooling(off) => m.(coolingOff := off)
    case ESetStrategy(strategy, snapshot) =>
      if ListsMemory(snapshot, m.creds) then
        m.(scheduler := Rebuild(m.scheduler.(strategy := strategy), snapshot, now))
      else m
  }

  datatype At = At(event: Event, time: nat)

  ghost function RunAll(m: Manager, es: seq<At>): Manager {
    if es == [] then m else Step(RunAll(m, es[..|es| - 1]), es[|es| - 1].event, es[|es| - 1].time)
  }

  /** Times do not decrease, and lie between `from` and `now`. */
  predicate InOrder(es: seq<At>, from: nat, now: nat) {
    && from <= now
    && (forall i :: 0 <= i < |es| ==> from <= es[i].time <= now)
    && (forall i, j :: 0 <= i < j < |es| ==> es[i].time <= es[j].time)
  }

  // ----- the scheduler is exactly memory's schedulable part

  function Projection(creds: Table): Table {
    map id | id in creds && Schedulable(creds[id]) :: creds[id]
  }

  predicate KeysMatch(t: Table) {
    forall id :: id in t ==> t[id].id == id
  }

  ghost predicate Coherent(m: Manager, now: nat) {
    && KeysMatch(m.creds)
    && (m.store.Some? ==> KeysMatch(m.store.value) && "" !in m.store.value)
    && Represents(m.scheduler, Projection(m.creds), now)
  }

  lemma CoherentLater(m: Manager, from: nat, now: nat)
    requires Coherent(m, from) && from <= now
    ensures Coherent(m, now)
  {
    RepresentsLater(m.scheduler, Projection(m.creds), from, now);
  }

  lemma NewCoherent(store: Option<Table>, strategy: Strategy, now: nat)
    requires store.Some? ==> KeysMatch(store.value) && "" !in store.value
    ensures var m := NewManager(store, strategy);
            && Coherent(m, now) && m.creds == map[] && m.store == store && !m.coolingOff
            && m.scheduler.strategy == strategy
  {
    assert Projection(map[]) == map[];
  }

  lemma ProjectionUpsert(creds: Table, c: Credential)
    requires KeysMatch(creds)
    ensures KeysMatch(creds[c.id := c])
    ensures Projection(creds[c.id := c]) == TableUpsert(Projection(creds), c)
  {
  }

  lemma ProjectionRemove(creds: Table, id: string)
    ensures Projection(creds - {id}) == Projection(creds) - {id}
  {
  }

  lemma CommitCoherent(m: Manager, c: Credential, now: nat)
    requires Coherent(m, now)
    ensures Coherent(Commit(m, c, now), now)
  {
    ProjectionUpsert(m.creds, c);
    UpsertRepresents(m.scheduler, Projection(m.creds), c, now);
  }

  lemma UpdateCoherent(m: Manager, c: Credential, persist: bool, storeOk: bool, now: nat)
    requires Coherent(m, now)
    ensures Coherent(Update(m, c, persist, storeOk, now), now)
  {
    if !persist {
      CommitCoherent(m, c, now);
    } else if Updatable(m, c.id, storeOk) {
      CommitCoherent(WriteStore(m, c), c, now);
    }
  }

  lemma RegisterCoherent(m: Manager, c: Credential, newId: string, persist: bool, storeOk: bool, now: nat)
    requires Coherent(m, now)
    ensures Coherent(Register(m, c, newId, persist, storeOk, now), now)
  {
    var c' := Prepared(c, newId);
    if c.provider != "" {
      if !persist {
        CommitCoherent(m, c', now);
      } else if Creatable(m, c'.id, storeOk) {
        CommitCoherent(WriteStore(m, c'), c', now);
      }
    }
  }

  /** A registration that goes through is known under its own or a new ID, and is scheduled unless disabled. */
  lemma RegisterMakesKnown(m: Manager, c: Credential, newId: string, persist: bool, storeOk: bool, now: nat)
    requires Coherent(m, now) && newId != "" && c.provider != ""
    requires !persist || Creatable(m, if c.id == "" then newId else c.id, storeOk)
    ensures var m' := Register(m, c, newId, persist, storeOk, now);
            var id := if c.id == "" then newId else c.id;
            && id in m'.creds && m'.creds[id].token == c.token && m'.creds[id].status != Unset
            && (c.status != Unset ==> m'.creds[id].status == c.status)
            && (id in m'.scheduler.owner <==> c.status != Disabled)
            && (persist && m.store.Some? ==> id in m'.store.value && m'.store.value[id] == m'.creds[id])
            && m'.creds - {id} == m.creds - {id}
  {
    RegisterCoherent(m, c, newId, persist, storeOk, now);
  }

  lemma DeregisterCoherent(m: Manager, id: string, persist: bool, storeOk: bool, now: nat)
    requires Coherent(m, now)
    ensures Coherent(Deregister(m, id, persist, storeOk), now)
  {
    if id != "" && id in m.creds {
      RemoveRepresents(m.scheduler, Projection(m.creds), id, now);
      ProjectionRemove(m.creds, id);
    }
  }

  lemma {:induction false} LoadItemsCoherent(m: Manager, ids: seq<string>, now: nat)
    requires Coherent(m, now) && m.store.Some? && forall id :: id in ids ==> id in m.store.value
    ensures Coherent(LoadItems(m, ids, now), now)
    decreases ids
  {
    if ids != [] && m.store.value[ids[0]].provider != "" {
      var c := Restored(m.store.value[ids[0]]);
      CommitCoherent(m, c, now);
      LoadItemsCoherent(Commit(m, c, now), ids[1..], now);
    }
  }

  lemma LoadCoherent(m: Manager, listOk: bool, now: nat)
    requires Coherent(m, now)
    ensures Coherent(Load(m, listOk, now), now)
  {
    if m.store.Some? && listOk {
      var ids := Sorted(m.store.value.Keys);
      assert forall id :: id in ids ==> id in Elems(ids);
      LoadItemsCoherent(m, ids, now);
    }
  }

  lemma MarkCoherent(m: Manager, r: Result, storeOk: bool, now: nat)
    requires Coherent(m, now)
    ensures Coherent(Mark(m, r, storeOk, now), now)
  {
    if r.id != "" && r.id in m.creds {
      UpdateCoherent(m, MarkCredential(m.creds[r.id], r, m.coolingOff, now).cred, true, storeOk, now);
    }
  }

  lemma PickCoherent(m: Manager, provider: string, model: string, tried: set<string>, now: nat)
    requires Coherent(m, now)
    ensures Coherent(PickCredential(m, provider, model, tried, now), now)
    ensures var o := Pick(m.scheduler, provider, model, tried, now).outcome;
            o.Picked? ==>
              && o.cred.id in m.creds && Schedulable(m.creds[o.cred.id])
              && Test(m.creds[o.cred.id], ShardKey(model), now) == Open
  {
    PickRepresents(m.scheduler, Projection(m.creds), provider, model, tried, now);
  }

  lemma RefreshCoherent(m: Manager, id: string, o: RefreshOutcome, firstOk: bool, lastOk: bool, now: nat)
    requires Coherent(m, now)
    ensures Coherent(Refresh(m, id, o, firstOk, lastOk, now), now)
  {
    if Refreshable(m, id, now) {
      var c := m.creds[id];
      UpdateCoherent(m, c.(status := Refreshing), true, firstOk, now);
      UpdateCoherent(Update(m, c.(status := Refreshing), true, firstOk, now), Refreshed(c, o, now), true, lastOk, now);
    }
  }

  lemma ListingTable(cs: seq<Credential>, creds: Table)
    requires KeysMatch(creds) && ListsMemory(cs, creds)
    ensures TableUpsertAll(map[], cs) == Projection(creds)
  {
    SnapshotTable(cs, Projection(creds));
  }

  /** Every step, whatever it is and however the store fails, keeps the scheduler in step with memory. */
  lemma StepCoherent(m: Manager, e: Event, now: nat)
    requires Coherent(m, now)
    ensures Coherent(Step(m, e, now), now)
  {
    match e
    case ERegister(c, newId, persist, storeOk) => RegisterCoherent(m, c, newId, persist, storeOk, now);
    case EUpdate(c, persist, storeOk) => UpdateCoherent(m, c, persist, storeOk, now);
    case EDeregister(id, persist, storeOk) => DeregisterCoherent(m, id, persist, storeOk, now);
    case ELoad(listOk) => LoadCoherent(m, listOk, now);
    case EMark(r, storeOk) => MarkCoherent(m, r, storeOk, now);
    case EPick(provider, model, tried) => PickCoherent(m, provider, model, tried, now);
    case ERequest(provider, model, failure, storeOk) =>
      PickCoherent(m, provider, model, {}, now);
      var o := Pick(m.scheduler, provider, model, {}, now).outcome;
      if o.Picked? {
        MarkCoherent(PickCredential(m, provider, model, {}, now), ResultOf(o.cred.id, model, failure), storeOk, now);
      }
    case ERefresh(id, o, firstOk, lastOk) => RefreshCoherent(m, id, o, firstOk, lastOk, now);
    case ESetCooling(off) =>
    case ESetStrategy(strategy, snapshot) =>
      if ListsMemory(snapshot, m.creds) {
        RebuildRepresents(m.scheduler.(strategy := strategy), snapshot, now);
        ListingTable(snapshot, m.creds);
      }
  }

  lemma {:induction false} RunCoherent(m: Manager, es: seq<At>, from: nat, now: nat)
    requires Coherent(m, from) && InOrder(es, from, now)
    ensures Coherent(RunAll(m, es), now)
  {
    if es == [] {
      CoherentLater(m, from, now);
    } else {
      var last := es[|es| - 1];
      RunCoherent(m, es[..|es| - 1], from, last.time);
      StepCoherent(RunAll(m, es[..|es| - 1]), last.event, last.time);
      CoherentLater(RunAll(m, es), last.time, now);
    }
  }
}
