/** The credential manager, changed in place, against the manager value. */
module Managers {
  import opened Credentials
  import opened Ordering
  import opened Shards
  import opened Scheduling
  import opened Backoff
  import opened Lifecycle
  import opened Managing
  import opened AuthSchedulers

  /** The body of MarkResult up to its update: one credential clone, changed field by field. */
  method ApplyResult(c: Credential, r: Result, coolingOff: bool, now: nat) returns (k: Marked)
    ensures k == MarkCredential(c, r, coolingOff, now)
  {
    if r.success {
      k := ApplySuccess(c, r.model);
      return;
    }
    if r.error.None? {
      return Marked(c, false);
    }
    var err := r.error.value;
    var quota := err.httpStatus == 429 && !CoolingDisabled(c, coolingOff);
    var cred := c;
    if quota {
      var backoff, _, _ := ComputeBackoff(c.quota.backoffLevel, QUOTA_BACKOFF_BASE, QUOTA_BACKOFF_MAX);
      if r.retryAfter.Some? && r.retryAfter.value > backoff {
        backoff := r.retryAfter.value;
      }
      cred := cred.(quota := Quota(true, err.message, now + backoff, c.quota.backoffLevel + 1));
      cred := cred.(unavailable := true, nextRetryAfter := now + backoff, status := Error);
    } else if err.httpStatus == 401 || err.httpStatus == 403 {
      cred := cred.(status := Disabled);
    } else {
      cred := cred.(lastError := Some(err));
      if r.retryAfter.Some? {
        cred := cred.(nextRetryAfter := now + r.retryAfter.value, unavailable := true);
      }
      cred := cred.(status := Error);
    }
    assert cred == FailedCredential(c, r, coolingOff, now);
    if r.model != "" {
      var st := if r.model in cred.modelStates then cred.modelStates[r.model] else NEW_MODEL_STATE;
      st := ApplyToModel(cred, st, r, quota, now);
      cred := cred.(modelStates := cred.modelStates[r.model := st]);
    }
    k := Marked(cred, true);
  }

  method ApplySuccess(c: Credential, model: string) returns (k: Marked)
    ensures k == MarkSuccess(c, model)
  {
    var cred, changed := c, false;
    if cred.unavailable || cred.lastError.Some? || cred.quota.exceeded {
      cred := cred.(unavailable := false, lastError := None);
      cred := cred.(nextRetryAfter := UNSET, quota := NO_QUOTA);
      cred := cred.(status := Active);
      changed := true;
    }
    if model != "" && model in cred.modelStates {
      var st := cred.modelStates[model];
      if st.unavailable || st.lastError.Some? {
        st := st.(unavailable := false, lastError := None);
        st := st.(nextRetryAfter := UNSET, quota := NO_QUOTA);
        st := st.(status := Active);
        cred := cred.(modelStates := cred.modelStates[model := st]);
        changed := true;
      }
    }
    k := Marked(cred, changed);
  }

  /** The model's state after a failure; `cred` is changed already, and lends its quota and retry time. */
  method ApplyToModel(cred: Credential, state: ModelState, r: Result, quota: bool, now: nat) returns (st: ModelState)
    requires !r.success && r.error.Some?
    ensures st == FailedModel(cred, state, r, quota, now)
  {
    st := state;
    if quota {
      st := st.(quota := cred.quota, unavailable := true);
      st := st.(nextRetryAfter := cred.nextRetryAfter, status := Error);
    } else {
      st := st.(lastError := r.error, status := Error);
      if r.retryAfter.Some? {
        st := st.(unavailable := true, nextRetryAfter := now + r.retryAfter.value);
      }
    }
  }

  lemma LoadItemsStep(m: Manager, ids: seq<string>, i: nat, now: nat)
    requires i < |ids| && m.store.Some? && forall id :: id in ids ==> id in m.store.value
    ensures var c := Restored(m.store.value[ids[i]]);
            LoadItems(m, ids[i..], now) ==
            if c.provider == "" then m else LoadItems(Commit(m, c, now), ids[i + 1..], now)
  {
    assert ids[i..][1..] == ids[i + 1..];
  }

  class CredentialManager {
    var creds: Table
    var store: Option<Table>
    var coolingOff: bool
    const scheduler: AuthScheduler

    ghost predicate Valid()
      reads this, scheduler, scheduler.repr
    {
      this !in scheduler.repr && scheduler.Valid()
    }

    ghost predicate Is(m: Manager)
      requires Valid()
      reads this, scheduler, scheduler.repr
    {
      creds == m.creds && store == m.store && coolingOff == m.coolingOff && scheduler.Is(m.scheduler)
    }

    constructor (store: Option<Table>, strategy: Strategy)
      ensures Valid() && Is(NewManager(store, strategy)) && fresh(scheduler) && fresh(scheduler.repr)
    {
      creds, this.store, coolingOff := map[], store, false;
      scheduler := new AuthScheduler(strategy);
    }

    /** Write memory, then the scheduler. */
    method CommitTo(c: Credential, now: nat, ghost m: Manager)
      requires Valid() && Is(m)
      modifies this`creds, scheduler, scheduler.repr
      ensures Valid() && Is(Commit(m, c, now)) && fresh(scheduler.repr - old(scheduler.repr))
    {
      creds := creds[c.id := c];
      scheduler.Upsert(c, now, m.scheduler);
    }

    /** The error is that of the store; without one, memory and scheduler follow the store. */
    method Update(c: Credential, persist: bool, storeOk: bool, now: nat, ghost m: Manager) returns (ok: bool)
      requires Valid() && Is(m)
      modifies this`creds, this`store, scheduler, scheduler.repr
      ensures Valid() && Is(Managing.Update(m, c, persist, storeOk, now)) && fresh(scheduler.repr - old(scheduler.repr))
      ensures ok <==> !persist || old(store).None? || (storeOk && c.id != "" && c.id in old(store).value)
      ensures creds == if ok then old(creds)[c.id := c] else old(creds)
      ensures store == if ok && persist && old(store).Some? then Some(old(store).value[c.id := c]) else old(store)
    {
      ghost var m' := m;
      if persist && store.Some? {
        if !(storeOk && c.id != "" && c.id in store.value) {
          return false;
        }
        store := Some(store.value[c.id := c]);
        m' := WriteStore(m, c);
      }
      CommitTo(c, now, m');
      return true;
    }

    method Register(c: Credential, newId: string, persist: bool, storeOk: bool, now: nat, ghost m: Manager)
      returns (ok: bool)
      requires Valid() && Is(m)
      modifies this`creds, this`store, scheduler, scheduler.repr
      ensures Valid() && Is(Managing.Register(m, c, newId, persist, storeOk, now))
      ensures fresh(scheduler.repr - old(scheduler.repr))
      ensures var id := if c.id == "" then newId else c.id;
              && (ok <==> c.provider != "" && (!persist || old(store).None?
                                               || (storeOk && id != "" && id !in old(store).value)))
              && (ok ==> id in creds && creds == old(creds)[id := creds[id]])
              && (ok ==> creds[id] == c.(id := id, status := if c.status == Unset then Active else c.status))
              && (!ok ==> creds == old(creds))
              && store == if ok && persist && old(store).Some? then Some(old(store).value[id := creds[id]])
                          else old(store)
    {
      if c.provider == "" {
        return false;
      }
      var cred := Prepared(c, newId);
      ghost var m' := m;
      if persist && store.Some? {
        if !(storeOk && cred.id != "" && cred.id !in store.value) {
          return false;
        }
        store := Some(store.value[cred.id := cred]);
        m' := WriteStore(m, cred);
      }
      CommitTo(cred, now, m');
      return true;
    }

    method Deregister(id: string, persist: bool, storeOk: bool, ghost m: Manager) returns (ok: bool)
      requires Valid() && Is(m)
      modifies this`creds, this`store, scheduler, scheduler.repr
      ensures Valid() && Is(Managing.Deregister(m, id, persist, storeOk)) && scheduler.repr == old(scheduler.repr)
      ensures ok <==> id != "" && (id in m.creds && persist && m.store.Some? ==> storeOk)
      ensures id != "" ==> creds == old(creds) - {id}
      ensures id == "" ==> creds == old(creds)
      ensures store == if id != "" && id in old(creds) && persist && storeOk && old(store).Some?
                       then Some(old(store).value - {id}) else old(store)
      ensures id != "" && id in old(creds) && (id in m.scheduler.owner ==> m.scheduler.owner[id] != "") ==>
                id !in scheduler.credProviders
    {
      if id == "" {
        return false;
      }
      if id !in creds {
        assert creds - {id} == creds;
        return true;
      }
      creds := creds - {id};
      scheduler.Remove(id, m.scheduler);
      if persist && store.Some? {
        if !storeOk {
          return false;
        }
        store := Some(store.value - {id});
      }
      return true;
    }

    method MarkResult(r: Result, storeOk: bool, now: nat, ghost m: Manager)
      requires Valid() && Is(m)
      modifies this`creds, this`store, scheduler, scheduler.repr
      ensures Valid() && Is(Mark(m, r, storeOk, now)) && fresh(scheduler.repr - old(scheduler.repr))
    {
      if r.id != "" && r.id in creds {
        var k := ApplyResult(creds[r.id], r, coolingOff, now);
        if k.changed {
          var _ := Update(k.cred, true, storeOk, now, m);
        }
      }
    }

    /** refreshOne for the snapshot the cycle took, with nothing in between. */
    method RefreshOne(id: string, o: RefreshOutcome, firstOk: bool, lastOk: bool, now: nat, ghost m: Manager)
      requires Valid() && Is(m) && Refreshable(m, id, now)
      modifies this`creds, this`store, scheduler, scheduler.repr
      ensures Valid() && Is(Refresh(m, id, o, firstOk, lastOk, now)) && fresh(scheduler.repr - old(scheduler.repr))
    {
      var cred := creds[id];
      var refreshing := cred.(status := Refreshing);
      var _ := Update(refreshing, true, firstOk, now, m);
      var _ := Update(Refreshed(cred, o, now), true, lastOk, now, Managing.Update(m, refreshing, true, firstOk, now));
    }

    /** `ids` is the store's listing, which is ordered by ID. */
    method Load(listOk: bool, ids: seq<string>, now: nat, ghost m: Manager) returns (ok: bool)
      requires Valid() && Is(m) && (m.store.Some? ==> ids == Sorted(m.store.value.Keys))
      modifies this`creds, scheduler, scheduler.repr
      ensures Valid() && Is(Managing.Load(m, listOk, now)) && fresh(scheduler.repr - old(scheduler.repr))
      ensures ok <==> m.store.None? || (listOk && forall id :: id in m.store.value ==> m.store.value[id].provider != "")
    {
      if store.None? {
        return true;
      }
      if !listOk {
        return false;
      }
      assert forall id :: id in ids <==> id in Elems(ids);
      ok := LoadListed(ids, now, m);
    }

    /** Registers the items in turn and stops at the first it cannot. */
    method LoadListed(ids: seq<string>, now: nat, ghost m: Manager) returns (ok: bool)
      requires Valid() && Is(m) && m.store.Some? && forall id :: id in ids ==> id in m.store.value
      modifies this`creds, scheduler, scheduler.repr
      ensures Valid() && Is(LoadItems(m, ids, now)) && fresh(scheduler.repr - old(scheduler.repr))
      ensures ok <==> forall id :: id in ids ==> m.store.value[id].provider != ""
    {
      var i := 0;
      ghost var at := m;
      while i < |ids|
        invariant 0 <= i <= |ids| && store == m.store && at.store == m.store
        invariant Valid() && Is(at) && LoadItems(m, ids, now) == LoadItems(at, ids[i..], now)
        invariant fresh(scheduler.repr - old(scheduler.repr))
        invariant forall k :: 0 <= k < i ==> m.store.value[ids[k]].provider != ""
      {
        assert ids[i] in ids;
        LoadItemsStep(at, ids, i, now);
        var c := Restored(store.value[ids[i]]);
        if c.provider == "" {
          return false;
        }
        CommitTo(c, now, at);
        at := Commit(at, c, now);
        i := i + 1;
      }
      return true;
    }

    method Pick(provider: string, model: string, tried: set<string>, now: nat, ghost m: Manager) returns (o: Outcome)
      requires Valid() && Is(m)
      modifies scheduler, scheduler.repr
      ensures Valid() && Is(PickCredential(m, provider, model, tried, now))
      ensures fresh(scheduler.repr - old(scheduler.repr))
      ensures o == Scheduling.Pick(m.scheduler, provider, model, tried, now).outcome
    {
      o := scheduler.Pick(provider, model, tried, now, m.scheduler);
    }

    /** markResult of the auth-managed provider: nothing to report where nothing was picked. */
    method Report(o: Outcome, model: string, failure: Option<Failure>, storeOk: bool, now: nat, ghost m: Manager)
      returns (used: Option<string>)
      requires Valid() && Is(m)
      modifies this`creds, this`store, scheduler, scheduler.repr
      ensures Valid() && fresh(scheduler.repr - old(scheduler.repr))
      ensures Is(if o.Picked? then Mark(m, ResultOf(o.cred.id, model, failure), storeOk, now) else m)
      ensures used == if o.Picked? then Some(o.cred.id) else None
    {
      if !o.Picked? {
        return None;
      }
      MarkResult(ResultOf(o.cred.id, model, failure), storeOk, now, m);
      return Some(o.cred.id);
    }

    /** One auth-managed call: pick, call upstream, mark. `failure` is what upstream answered. */
    method Generate(provider: string, model: string, failure: Option<Failure>, storeOk: bool, now: nat,
                    ghost m: Manager)
      returns (used: Option<string>)
      requires Valid() && Is(m)
      modifies this`creds, this`store, scheduler, scheduler.repr
      ensures Valid() && fresh(scheduler.repr - old(scheduler.repr))
      ensures Is(Request(m, provider, model, failure, storeOk, now))
      ensures var o := Scheduling.Pick(m.scheduler, provider, model, {}, now).outcome;
              used == if o.Picked? then Some(o.cred.id) else None
    {
      var o := Pick(provider, model, {}, now, m);
      used := Report(o, model, failure, storeOk, now, PickCredential(m, provider, model, {}, now));
    }
  }
}
