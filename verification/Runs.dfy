/** Safety over whole serialised runs of the manager. */
module Runs {
  import opened Credentials
  import opened Ordering
  import opened Blocking
  import opened Shards
  import opened Picking
  import opened Scheduling
  import opened Lifecycle
  import opened Managing

  // ----- what a step does to the values kept for one credential

  /** A write from outside: the only events whose value does not come from the manager itself. */
  predicate External(e: Event, id: string) {
    match e
    case ERegister(c, newId, _, _) => Prepared(c, newId).id == id
    case EUpdate(c, _, _) => c.id == id
    case _ => false
  }

  /** The result, if any, that the step marks. */
  ghost function MarkOf(m: Manager, e: Event, now: nat): Option<Result> {
    match e
    case EMark(r, _) => Some(r)
    case ERequest(provider, model, failure, _) =>
      var o := Pick(m.scheduler, provider, model, {}, now).outcome;
      if o.Picked? then Some(ResultOf(o.cred.id, model, failure)) else None
    case _ => None
  }

  /** A request is a pick, and a mark if something was picked. */
  lemma RequestStep(m: Manager, e: Event, now: nat, p: Picks)
    requires e.ERequest? && Pick(m.scheduler, e.provider, e.model, {}, now) == p
    ensures MarkOf(m, e, now) ==
            if p.outcome.Picked? then Some(ResultOf(p.outcome.cred.id, e.model, e.failure)) else None
    ensures Step(m, e, now) == MarkIfAny(m.(scheduler := p.scheduler), MarkOf(m, e, now), e.storeOk, now)
  {
  }

  ghost function MarkIfAny(m: Manager, k: Option<Result>, storeOk: bool, now: nat): Manager {
    match k
    case None => m
    case Some(r) => Mark(m, r, storeOk, now)
  }

  /** Memory and store hold no value for `id` but such that satisfy P. */
  ghost predicate Keeps(m: Manager, id: string, P: Credential -> bool) {
    && (id in m.creds ==> P(m.creds[id]))
    && (m.store.Some? && id in m.store.value ==> P(m.store.value[id]))
  }

  lemma UpdateKeeps(m: Manager, c: Credential, persist: bool, storeOk: bool, now: nat, id: string,
                    P: Credential -> bool)
    requires Keeps(m, id, P) && (c.id == id ==> P(c))
    ensures Keeps(Update(m, c, persist, storeOk, now), id, P)
  {
  }

  lemma {:induction false} LoadItemsKeeps(m: Manager, ids: seq<string>, now: nat, id: string, P: Credential -> bool)
    requires m.store.Some? && forall i :: i in ids ==> i in m.store.value
    requires KeysMatch(m.store.value) && Keeps(m, id, P)
    requires id in m.store.value ==> P(Restored(m.store.value[id]))
    ensures Keeps(LoadItems(m, ids, now), id, P)
    decreases ids
  {
    if ids != [] && m.store.value[ids[0]].provider != "" {
      LoadItemsKeeps(Commit(m, Restored(m.store.value[ids[0]]), now), ids[1..], now, id, P);
    }
  }

  lemma MarkKeeps(m: Manager, r: Result, storeOk: bool, now: nat, id: string, P: Credential -> bool)
    requires KeysMatch(m.creds) && Keeps(m, id, P)
    requires r.id == id && id in m.creds ==> P(MarkCredential(m.creds[id], r, m.coolingOff, now).cred)
    ensures Keeps(Mark(m, r, storeOk, now), id, P)
  {
    if r.id != "" && r.id in m.creds {
      UpdateKeeps(m, MarkCredential(m.creds[r.id], r, m.coolingOff, now).cred, true, storeOk, now, id, P);
    }
  }

  lemma RefreshKeeps(m: Manager, rid: string, o: RefreshOutcome, firstOk: bool, lastOk: bool, now: nat,
                     id: string, P: Credential -> bool)
    requires KeysMatch(m.creds) && Keeps(m, id, P)
    requires Refreshable(m, id, now) ==> P(m.creds[id].(status := Refreshing)) && P(Refreshed(m.creds[id], o, now))
    ensures Keeps(Refresh(m, rid, o, firstOk, lastOk, now), id, P)
  {
    if Refreshable(m, rid, now) {
      var c := m.creds[rid];
      UpdateKeeps(m, c.(status := Refreshing), true, firstOk, now, id, P);
      UpdateKeeps(Update(m, c.(status := Refreshing), true, firstOk, now), Refreshed(c, o, now), true, lastOk, now,
                  id, P);
    }
  }

  lemma LoadKeeps(m: Manager, listOk: bool, now: nat, id: string, P: Credential -> bool)
    requires Coherent(m, now) && Keeps(m, id, P)
    requires m.store.Some? && id in m.store.value ==> P(Restored(m.store.value[id]))
    ensures Keeps(Load(m, listOk, now), id, P)
  {
    if m.store.Some? && listOk {
      var ids := Sorted(m.store.value.Keys);
      assert forall i :: i in ids ==> i in Elems(ids);
      LoadItemsKeeps(m, ids, now, id, P);
    }
  }

  lemma RequestKeeps(m: Manager, e: Event, now: nat, id: string, P: Credential -> bool)
    requires KeysMatch(m.creds) && Keeps(m, id, P) && e.ERequest?
    requires var k := MarkOf(m, e, now);
             k.Some? && k.value.id == id && id in m.creds ==>
               P(MarkCredential(m.creds[id], k.value, m.coolingOff, now).cred)
    ensures Keeps(Step(m, e, now), id, P)
  {
    var k := MarkOf(m, e, now);
    if k.Some? {
      MarkKeeps(PickCredential(m, e.provider, e.model, {}, now), k.value, e.storeOk, now, id, P);
    }
  }

  /** A step keeps a property of one credential's values if the manager's own transitions do. */
  lemma StepKeeps(m: Manager, e: Event, now: nat, id: string, P: Credential -> bool)
    requires Coherent(m, now) && Keeps(m, id, P) && !External(e, id)
    requires m.store.Some? && id in m.store.value ==> P(Restored(m.store.value[id]))
    requires e.ERefresh? && Refreshable(m, id, now) ==>
               P(m.creds[id].(status := Refreshing)) && P(Refreshed(m.creds[id], e.o, now))
    requires var k := MarkOf(m, e, now);
             k.Some? && k.value.id == id && id in m.creds ==>
               P(MarkCredential(m.creds[id], k.value, m.coolingOff, now).cred)
    ensures Keeps(Step(m, e, now), id, P)
  {
    match e
    case ERegister(c, newId, persist, storeOk) =>
    case EUpdate(c, persist, storeOk) => UpdateKeeps(m, c, persist, storeOk, now, id, P);
    case EDeregister(i, persist, storeOk) =>
    case ELoad(listOk) => LoadKeeps(m, listOk, now, id, P);
    case EMark(r, storeOk) => MarkKeeps(m, r, storeOk, now, id, P);
    case EPick(provider, model, tried) =>
    case ERequest(provider, model, failure, storeOk) =>
      RequestKeeps(m, e, now, id, P);
    case ERefresh(rid, o, firstOk, lastOk) => RefreshKeeps(m, rid, o, firstOk, lastOk, now, id, P);
    case ESetCooling(off) =>
    case ESetStrategy(strategy, snapshot) =>
  }

  // ----- cooldown

  /** No value kept for the credential would let the model through before `until`. */
  ghost predicate Cooling(m: Manager, id: string, model: string, until: Time) {
    Keeps(m, id, c => Held(c, model, until))
  }

  /** A result reported outside a request that ends the cooldown early. */
  predicate LetsGo(m: Manager, e: Event, now: nat, id: string, model: string, until: Time) {
    e.EMark? && e.r.id == id && id in m.creds && Releases(m.creds[id], e.r, m.coolingOff, now, model, until)
  }

  /** A request never marks the model of a credential that cools down for it. */
  lemma RequestSpares(m: Manager, e: Event, now: nat, id: string, model: string, until: Time)
    requires Coherent(m, now) && Cooling(m, id, model, until) && now < until
    requires e.ERequest? && ShardKey(model) == model && model != "" && id in m.creds
    ensures var k := MarkOf(m, e, now); k.Some? && k.value.id == id ==> k.value.model != model
  {
    PickCoherent(m, e.provider, e.model, {}, now);
    HeldIsBlocked(m.creds[id], model, until, now);
  }

  lemma StepCooling(m: Manager, e: Event, now: nat, id: string, model: string, until: Time)
    requires Coherent(m, now) && Cooling(m, id, model, until) && now < until && ShardKey(model) == model && model != ""
    requires !External(e, id) && !LetsGo(m, e, now, id, model, until)
    ensures Cooling(Step(m, e, now), id, model, until)
  {
    var P := c => Held(c, model, until);
    var k := MarkOf(m, e, now);
    if k.Some? && k.value.id == id && id in m.creds {
      if e.ERequest? {
        RequestSpares(m, e, now, id, model, until);
      }
      HeldUnlessReleased(m.creds[id], k.value, m.coolingOff, now, model, until);
    }
    StepKeeps(m, e, now, id, P);
  }

  /** No event of the run is an outside write of the credential or a result that lets it go. */
  ghost predicate LeftAlone(m: Manager, es: seq<At>, id: string, model: string, until: Time) {
    forall i :: 0 <= i < |es| ==>
      && !External(es[i].event, id)
      && !LetsGo(RunAll(m, es[..i]), es[i].event, es[i].time, id, model, until)
  }

  lemma {:induction false} RunCooling(m: Manager, es: seq<At>, from: nat, now: nat, id: string, model: string,
                                      until: Time)
    requires Coherent(m, from) && InOrder(es, from, now) && now < until && ShardKey(model) == model && model != ""
    requires Cooling(m, id, model, until) && LeftAlone(m, es, id, model, until)
    ensures Cooling(RunAll(m, es), id, model, until)
  {
    if es != [] {
      var before, last := es[..|es| - 1], es[|es| - 1];
      forall i | 0 <= i < |before| ensures before[..i] == es[..i] && before[i] == es[i] {}
      RunCoherent(m, before, from, last.time);
      RunCooling(m, before, from, last.time, id, model, until);
      StepCooling(RunAll(m, before), last.event, last.time, id, model, until);
    }
  }

  /** Through a whole run, the credential is not picked for the model before its cooldown ends. */
  lemma CooldownHolds(m: Manager, es: seq<At>, from: nat, now: nat, id: string, a: string, until: Time,
                      provider: string, model: string, tried: set<string>)
    requires Coherent(m, from) && InOrder(es, from, now) && now < until
    requires ShardKey(a) == a && a != "" && ShardKey(model) == a
    requires Cooling(m, id, a, until) && LeftAlone(m, es, id, a, until)
    ensures var o := Pick(RunAll(m, es).scheduler, provider, model, tried, now).outcome;
            o.Picked? ==> o.cred.id != id
  {
    RunCoherent(m, es, from, now);
    RunCooling(m, es, from, now, id, a, until);
    var m' := RunAll(m, es);
    PickCoherent(m', provider, model, tried, now);
    if id in m'.creds {
      HeldIsBlocked(m'.creds[id], a, until, now);
    }
  }

  /** Nothing is reported for the credential and the model from outside a request, and nobody overwrites it. */
  predicate Undisturbed(es: seq<At>, id: string, model: string) {
    forall i :: 0 <= i < |es| ==>
      && !External(es[i].event, id)
      && !(es[i].event.EMark? && es[i].event.r.id == id && es[i].event.r.model == model)
  }

  /** A recorded quota failure on a model starts such a cooldown. */
  lemma QuotaStartsCooldown(m: Manager, r: Result, storeOk: bool, now: nat)
    requires Coherent(m, now) && r.id != "" && r.id in m.creds && r.model != ""
    requires IsQuota(m.creds[r.id], r, m.coolingOff) && Updatable(m, r.id, storeOk)
    ensures Cooling(Mark(m, r, storeOk, now), r.id, r.model, now + QuotaWait(m.creds[r.id], r))
  {
    QuotaHolds(m.creds[r.id], r, m.coolingOff, now);
  }

  /**
   * After a quota failure on a model that is its own shard key, no undisturbed run picks the credential for it
   * before the backoff is over, whatever upstream answers to requests and whatever is refreshed, removed or loaded.
   */
  lemma CooldownOverRuns(m: Manager, r: Result, storeOk: bool, start: nat, es: seq<At>, now: nat,
                         provider: string, model: string, tried: set<string>)
    requires Coherent(m, start) && r.id != "" && r.id in m.creds && r.model != "" && ShardKey(r.model) == r.model
    requires IsQuota(m.creds[r.id], r, m.coolingOff) && Updatable(m, r.id, storeOk)
    requires InOrder(es, start, now) && now < start + QuotaWait(m.creds[r.id], r)
    requires Undisturbed(es, r.id, r.model) && ShardKey(model) == r.model
    ensures var o := Pick(RunAll(Mark(m, r, storeOk, start), es).scheduler, provider, model, tried, now).outcome;
            o.Picked? ==> o.cred.id != r.id
  {
    QuotaStartsCooldown(m, r, storeOk, start);
    MarkCoherent(m, r, storeOk, start);
    CooldownHolds(Mark(m, r, storeOk, start), es, start, now, r.id, r.model, start + QuotaWait(m.creds[r.id], r),
                  provider, model, tried);
  }

  /** The credential is the only one of its provider that is not disabled. */
  predicate OnlyOne(m: Manager, id: string) {
    id in m.creds && m.creds[id].provider != "" &&
    forall i :: i in m.creds && i != id ==> m.creds[i].provider != m.creds[id].provider || m.creds[i].status == Disabled
  }

  lemma FreeAnswer(c: Credential, key: string, strategy: Strategy, now: nat, o: Outcome)
    requires Test(c, key, 0) == Open
    ensures AllPunctual(map[c.id := c], key)
    ensures Agrees(map[c.id := c], key, strategy, {}, now, o) ==> o.Picked? && o.cred.id == c.id
  {
    TestIsGate(c, key, 0);
    TestIsGate(c, key, now);
    assert OpenIds(map[c.id := c], key, {}, now) == {c.id};
  }

  lemma AloneIsPicked(s: Scheduler, t: Table, c: Credential, model: string, now: nat)
    requires Represents(s, t, now) && Of(t, c.provider) == map[c.id := c] && Test(c, ShardKey(model), 0) == Open
    ensures var o := Pick(s, c.provider, model, {}, now).outcome; o.Picked? && o.cred.id == c.id
  {
    FreeAnswer(c, ShardKey(model), s.strategy, now, Pick(s, c.provider, model, {}, now).outcome);
    PickIsScan(s, t, c.provider, model, {}, now);
  }

  lemma OnlyOneListed(m: Manager, c: Credential)
    requires OnlyOne(m, c.id) && KeysMatch(m.creds) && c.provider == m.creds[c.id].provider && Schedulable(c)
    ensures Of(Projection(m.creds[c.id := c]), c.provider) == map[c.id := c]
  {
  }

  /**
   * On a model that is not its own shard key the failure has no such effect: if the credential has no older model
   * states and no competitors, every later pick for the very same model returns it.
   */
  lemma QuotaWithoutCooldown(m: Manager, r: Result, storeOk: bool, now: nat, later: nat)
    requires Coherent(m, now) && now <= later && r.id != "" && OnlyOne(m, r.id) && m.creds[r.id].modelStates == map[]
    requires IsQuota(m.creds[r.id], r, m.coolingOff) && Updatable(m, r.id, storeOk)
    requires ShardKey(r.model) != r.model && ShardKey(r.model) != ""
    ensures var o := Pick(Mark(m, r, storeOk, now).scheduler, m.creds[r.id].provider, r.model, {}, later).outcome;
            o.Picked? && o.cred.id == r.id
  {
    var c := MarkCredential(m.creds[r.id], r, m.coolingOff, now).cred;
    MarkCoherent(m, r, storeOk, now);
    CoherentLater(Mark(m, r, storeOk, now), now, later);
    RecordedMark(m, r, storeOk, now);
    QuotaUnread(m.creds[r.id], r, m.coolingOff, now, 0);
    OnlyOneListed(m, c);
    AloneIsPicked(Mark(m, r, storeOk, now).scheduler, Projection(m.creds[r.id := c]), c, r.model, later);
  }

  // ----- a credential disabled by an authentication failure

  ghost predicate SwitchedOff(m: Manager, id: string) {
    Keeps(m, id, (c: Credential) => c.status == Disabled)
  }

  lemma AuthFailureDisables(m: Manager, r: Result, storeOk: bool, now: nat)
    requires Coherent(m, now) && r.id != "" && r.id in m.creds && IsAuth(r) && Updatable(m, r.id, storeOk)
    ensures SwitchedOff(Mark(m, r, storeOk, now), r.id)
  {
  }

  /** A result reported for the credential that revives it, and is recorded. */
  predicate WokenBy(m: Manager, e: Event, id: string) {
    e.EMark? && e.r.id == id != "" && id in m.creds && Updatable(m, id, e.storeOk) && Revives(m.creds[id], e.r)
  }

  /** No request or refresh ever works on such a credential. */
  lemma SwitchedOffSpared(m: Manager, e: Event, now: nat, id: string)
    requires Coherent(m, now) && SwitchedOff(m, id)
    ensures MarkOf(m, e, now).Some? && MarkOf(m, e, now).value.id == id ==> e.EMark?
    ensures !Refreshable(m, id, now)
  {
    if e.ERequest? {
      PickCoherent(m, e.provider, e.model, {}, now);
    }
  }

  /** Exactly a recorded reviving result ends it. */
  lemma StepSwitchedOff(m: Manager, e: Event, now: nat, id: string)
    requires Coherent(m, now) && SwitchedOff(m, id) && !External(e, id)
    ensures SwitchedOff(Step(m, e, now), id) <==> !WokenBy(m, e, id)
    ensures MarkOf(m, e, now).Some? && MarkOf(m, e, now).value.id == id ==> e.EMark?
    ensures !Refreshable(m, id, now)
  {
    SwitchedOffSpared(m, e, now, id);
    if e.EMark? && e.r.id == id {
      MarkSwitchedOff(m, e.r, e.storeOk, now);
    } else {
      StepKeeps(m, e, now, id, (c: Credential) => c.status == Disabled);
    }
  }

  lemma MarkSwitchedOff(m: Manager, r: Result, storeOk: bool, now: nat)
    requires Coherent(m, now) && SwitchedOff(m, r.id)
    ensures SwitchedOff(Mark(m, r, storeOk, now), r.id) <==> !WokenBy(m, EMark(r, storeOk), r.id)
  {
    if r.id in m.creds {
      DisabledUnlessRevived(m.creds[r.id], r, m.coolingOff, m.coolingOff, now);
    }
  }

  /** No event of the run is an outside write of the credential or a recorded result that revives it. */
  ghost predicate LeftOff(m: Manager, es: seq<At>, id: string) {
    forall i :: 0 <= i < |es| ==> !External(es[i].event, id) && !WokenBy(RunAll(m, es[..i]), es[i].event, id)
  }

  /** It leaves every shard and is not picked or refreshed again, until revived or written from outside. */
  lemma AuthFailureSticks(m: Manager, es: seq<At>, from: nat, now: nat, id: string)
    requires Coherent(m, from) && InOrder(es, from, now) && SwitchedOff(m, id) && LeftOff(m, es, id)
    ensures var m' := RunAll(m, es);
            && SwitchedOff(m', id) && id !in m'.scheduler.owner && !Refreshable(m', id, now)
            && forall provider, model, tried ::
                 var o := Pick(m'.scheduler, provider, model, tried, now).outcome;
                 o.Picked? ==> o.cred.id != id
  {
    RunSwitchedOff(m, es, from, now, id);
    RunCoherent(m, es, from, now);
    var m' := RunAll(m, es);
    forall provider, model, tried
      ensures var o := Pick(m'.scheduler, provider, model, tried, now).outcome; o.Picked? ==> o.cred.id != id
    {
      PickCoherent(m', provider, model, tried, now);
    }
  }

  lemma {:induction false} RunSwitchedOff(m: Manager, es: seq<At>, from: nat, now: nat, id: string)
    requires Coherent(m, from) && InOrder(es, from, now) && SwitchedOff(m, id) && LeftOff(m, es, id)
    ensures SwitchedOff(RunAll(m, es), id)
  {
    if es != [] {
      var before, last := es[..|es| - 1], es[|es| - 1];
      forall i | 0 <= i < |before| ensures before[..i] == es[..i] && before[i] == es[i] {}
      RunCoherent(m, before, from, last.time);
      RunSwitchedOff(m, before, from, last.time, id);
      StepSwitchedOff(RunAll(m, before), last.event, last.time, id);
    }
  }

  lemma RecordedMark(m: Manager, r: Result, storeOk: bool, now: nat)
    requires KeysMatch(m.creds) && r.id != "" && r.id in m.creds && Updatable(m, r.id, storeOk)
    ensures var k := MarkCredential(m.creds[r.id], r, m.coolingOff, now);
            var m' := Mark(m, r, storeOk, now);
            && m'.coolingOff == m.coolingOff && m'.creds == m.creds[r.id := k.cred]
            && m'.store.None? == m.store.None? && KeysMatch(m'.creds)
  {
    assert m.creds[r.id := m.creds[r.id]] == m.creds;
  }

  /** A result of an overlapping request revives it: the 429 replaces the disabled status. */
  lemma OverlapRevives(m: Manager, id: string, model: string, now: nat)
    requires KeysMatch(m.creds) && id != "" && id in m.creds && m.creds[id].provider != "" && m.store.None?
    requires !CoolingDisabled(m.creds[id], m.coolingOff)
    ensures var unauthorized := ResultOf(id, model, Some(Failure(401, "")));
            var quota := ResultOf(id, model, Some(Failure(429, "")));
            var m1 := Mark(m, unauthorized, true, now);
            var m2 := Mark(m1, quota, true, now);
            m1.creds[id].status == Disabled && m2.creds[id].status == Error && Schedulable(m2.creds[id])
  {
    var unauthorized := ResultOf(id, model, Some(Failure(401, "")));
    RecordedMark(m, unauthorized, true, now);
    RecordedMark(Mark(m, unauthorized, true, now), ResultOf(id, model, Some(Failure(429, ""))), true, now);
  }
}
