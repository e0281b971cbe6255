/**
 * What follows a recorded failure when everything after it may overlap: a 429 keeps the credential from picks for the
 * model, a 401 or 403 from all picks.
 */
module Aftermath {
  import opened Credentials
  import opened Blocking
  import opened Shards
  import opened Picking
  import opened Scheduling
  import opened Values
  import opened Staleness
  import opened Lifecycle
  import opened Managing
  import opened Interleaving
  import opened Overlaps

  // ----- recording with nothing else under way for the ID

  ghost function NotOf(id: string): Credential -> bool {
    (c: Credential) => c.id != id
  }

  /** Tables are keyed by ID, and no operation under way holds a value of this one. */
  ghost predicate Undisputed(w: World, id: string) {
    && KeysMatch(w.memory) && (w.store.Some? ==> KeysMatch(w.store.value))
    && forall k :: k in w.ops ==> OpHolds(w.ops[k], NotOf(id), NotOf(id))
  }

  /** P and Q speak of one credential only. */
  ghost predicate About(id: string, P: Credential -> bool, Q: Credential -> bool) {
    forall c: Credential :: c.id != id ==> P(c) && Q(c)
  }

  lemma OpAbout(op: Op, id: string, P: Credential -> bool, Q: Credential -> bool)
    requires OpHolds(op, NotOf(id), NotOf(id)) && About(id, P, Q)
    ensures OpHolds(op, P, Q)
  {
  }

  /** Once written, the new value is the only one of its ID. */
  lemma WrittenHolds(w: World, w': World, k: nat, c: Credential, now: nat, P: Credential -> bool, Q: Credential -> bool)
    requires Undisputed(w, c.id) && k !in w.ops && Written(w, w', k, c, now) && w'.ops == w.ops
    requires P(c) && About(c.id, P, Q)
    ensures Holds(w', P, Q)
  {
    forall j | j in w'.ops ensures OpHolds(w'.ops[j], P, Q) {
      OpAbout(w.ops[j], c.id, P, Q);
    }
  }

  lemma ToldHolds(t: Table, c: Credential, P: Credential -> bool, Q: Credential -> bool)
    requires WellFormed(t) && P(c) && About(c.id, P, Q)
    ensures TableHolds(TableUpsert(t, c), P)
  {
  }

  lemma HeldOnceWritten(w: World, w': World, t: Table, k: nat, c: Credential, now: nat, model: string, until: Time)
    requires Undisputed(w, c.id) && k !in w.ops && Written(w, w', k, c, now) && w'.ops == w.ops
    requires Represents(w.scheduler, t, now) && Held(c, model, until)
    ensures HeldAll(w', TableUpsert(t, c), now, c.id, model, until)
  {
    UpsertRepresents(w.scheduler, t, c, now);
    ToldHolds(t, c, HeldRule(c.id, model, until), HeldRule(c.id, model, until));
    WrittenHolds(w, w', k, c, now, HeldRule(c.id, model, until), HeldRule(c.id, model, until));
  }

  lemma QuotaWritten(w: World, k: nat, r: Result, now: nat, until: Time) returns (c: Credential)
    requires k !in w.ops && r.id != "" && r.id in w.memory && w.memory[r.id].id == r.id && Storable(w, r.id)
    requires IsQuota(w.memory[r.id], r, w.coolingOff) && r.model != ""
    requires until == now + QuotaWait(w.memory[r.id], r)
    ensures c == MarkCredential(w.memory[r.id], r, w.coolingOff, now).cred && c.id == r.id && Held(c, r.model, until)
    ensures Written(w, WholeMark(w, k, r, now), k, c, now) && WholeMark(w, k, r, now).ops == w.ops
  {
    c := MarkCredential(w.memory[r.id], r, w.coolingOff, now).cred;
    QuotaHolds(w.memory[r.id], r, w.coolingOff, now);
    WholeMarkWrites(w, k, r, now);
  }

  /** A recorded quota failure on a model establishes the cooldown everywhere. */
  lemma QuotaStartsHeld(w: World, t: Table, k: nat, r: Result, now: nat, until: Time) returns (c: Credential)
    requires Undisputed(w, r.id) && k !in w.ops && Represents(w.scheduler, t, now)
    requires r.id != "" && r.id in w.memory && Storable(w, r.id)
    requires IsQuota(w.memory[r.id], r, w.coolingOff) && r.model != ""
    requires until == now + QuotaWait(w.memory[r.id], r)
    ensures c == MarkCredential(w.memory[r.id], r, w.coolingOff, now).cred
    ensures HeldAll(WholeMark(w, k, r, now), TableUpsert(t, c), now, r.id, r.model, until)
  {
    c := QuotaWritten(w, k, r, now, until);
    HeldOnceWritten(w, WholeMark(w, k, r, now), t, k, c, now, r.model, until);
  }

  /** A recorded authentication failure switches the credential off everywhere. */
  lemma AuthStartsOff(w: World, t: Table, k: nat, r: Result, now: nat)
    requires Undisputed(w, r.id) && k !in w.ops && Represents(w.scheduler, t, now)
    requires r.id != "" && r.id in w.memory && Storable(w, r.id) && IsAuth(r)
    ensures var c := MarkCredential(w.memory[r.id], r, w.coolingOff, now).cred;
            var w' := WholeMark(w, k, r, now);
            Overlaps.Off(w', r.id) && r.id !in TableUpsert(t, c) && Represents(w'.scheduler, TableUpsert(t, c), now)
  {
    var c := MarkCredential(w.memory[r.id], r, w.coolingOff, now).cred;
    WholeMarkWrites(w, k, r, now);
    UpsertRepresents(w.scheduler, t, c, now);
    WrittenHolds(w, WholeMark(w, k, r, now), k, c, now, x => OffValue(x, r.id), (x: Credential) => x.id != r.id);
  }

  // ----- which results can still be computed for the ID

  predicate ReportsOnly(op: Op, id: string, R: Result -> bool) {
    (op.Marking? || op.Computing?) && op.snapshot.id == id ==> R(op.r)
  }

  /** Every result under way for the ID satisfies R. */
  predicate Reports(w: World, id: string, R: Result -> bool) {
    KeysMatch(w.memory) && forall k :: k in w.ops ==> ReportsOnly(w.ops[k], id, R)
  }

  lemma PutReports(w: World, k: nat, op: Op, id: string, R: Result -> bool)
    requires Reports(w, id, R) && ReportsOnly(op, id, R)
    ensures Reports(Put(w, k, op), id, R)
  {
  }

  lemma ContinueReports(w: World, k: nat, after: After, id: string, R: Result -> bool)
    requires Reports(w, id, R)
    ensures Reports(Continue(w, k, after), id, R)
  {
  }

  lemma WriteReports(w: World, a: Action, now: nat, id: string, R: Result -> bool)
    requires Reports(w, id, R) && Writes(a)
    ensures Reports(Next(w, a, now), id, R)
  {
    if a.k in w.ops {
      var op := w.ops[a.k];
      if a.WriteStore? && op.ToStore? {
        PutReports(w, a.k, ToMemory(op.c, op.after), id, R);
        ContinueReports(w, a.k, op.after, id, R);
      } else if a.WriteMemory? && op.ToMemory? {
        PutReports(w, a.k, ToScheduler(op.c, op.after), id, R);
      } else if a.WriteScheduler? && op.ToScheduler? {
        ContinueReports(w, a.k, op.after, id, R);
      } else if a.Unschedule? && op.ToUnschedule? {
        PutReports(w, a.k, ToDelete(op.id), id, R);
      } else if a.DeleteStored? {
        ContinueReports(w, a.k, Finish, id, R);
      }
    }
  }

  lemma SpawnReports(w: World, a: Action, now: nat, id: string, R: Result -> bool)
    requires Reports(w, id, R) && a.Spawn?
    ensures Reports(Next(w, a, now), id, R)
  {
  }

  lemma AdvanceReports(w: World, a: Action, now: nat, id: string, R: Result -> bool)
    requires Reports(w, id, R)
    requires a.ReadSwitch? || a.ComputeMark? || a.SkipCandidate? || a.EndCycle? || a.FinishCall?
    ensures Reports(Next(w, a, now), id, R)
  {
    if a.k in w.ops {
      var op := w.ops[a.k];
      if a.ReadSwitch? && op.Marking? {
        PutReports(w, a.k, Computing(op.snapshot, op.r, w.coolingOff, now), id, R);
      } else if a.ComputeMark? && op.Computing? {
        PutReports(w, a.k, ToStore(Computed(w, op).cred, false, Finish), id, R);
        ContinueReports(w, a.k, Finish, id, R);
      } else if a.SkipCandidate? && op.Cycling? {
        PutReports(w, a.k, Cycling(op.candidates - {a.c}), id, R);
      } else if a.EndCycle? && op.Cycling? {
        ContinueReports(w, a.k, Finish, id, R);
      } else if a.FinishCall? && op.Calling? {
        PutReports(w, a.k, ToStore(Refreshed(op.snapshot, a.o, now), false, EndRefresh), id, R);
      }
    }
  }

  lemma NextReports(w: World, a: Action, now: nat, id: string, R: Result -> bool)
    requires Reports(w, id, R) && (a.BeginMark? && a.r.id == id ==> R(a.r))
    ensures Reports(Next(w, a, now), id, R)
  {
    if Writes(a) {
      WriteReports(w, a, now, id, R);
    } else if a.ReadSwitch? || a.ComputeMark? || a.SkipCandidate? || a.EndCycle? || a.FinishCall? {
      AdvanceReports(w, a, now, id, R);
    } else if a.Spawn? {
      SpawnReports(w, a, now, id, R);
    }
  }

  /** From outside come only values that satisfy P, and results for the ID that satisfy R. */
  ghost predicate Takes(a: Action, id: string, P: Credential -> bool, R: Result -> bool) {
    InputHolds(a, P) && (a.BeginMark? && a.r.id == id ==> R(a.r))
  }

  ghost predicate TakesAll(acts: seq<Timely>, id: string, P: Credential -> bool, R: Result -> bool) {
    forall i :: 0 <= i < |acts| ==> Takes(acts[i].action, id, P, R)
  }

  lemma {:induction false} RunReports(w: World, acts: seq<Timely>, id: string, P: Credential -> bool, R: Result -> bool)
    requires Reports(w, id, R) && TakesAll(acts, id, P, R)
    ensures Reports(RunWorld(w, acts), id, R)
  {
    if acts != [] {
      var before, last := acts[..|acts| - 1], acts[|acts| - 1];
      RunReports(w, before, id, P, R);
      NextReports(RunWorld(w, before), last.action, last.time, id, R);
    }
  }

  /** Nothing under way for an ID means no result under way for it. */
  lemma UndisputedReports(w: World, w': World, k: nat, c: Credential, now: nat, R: Result -> bool)
    requires Undisputed(w, c.id) && Written(w, w', k, c, now) && w'.ops == w.ops
    ensures Reports(w', c.id, R)
  {
    forall j | j in w'.ops ensures ReportsOnly(w'.ops[j], c.id, R) {
      assert OpHolds(w.ops[j], NotOf(c.id), NotOf(c.id));
    }
  }

  // ----- over whole runs, from conditions on the actions alone

  function OnOtherModels(model: string): Result -> bool {
    (r: Result) => r.model != model
  }

  lemma OtherModelsStayHeld(w: World, acts: seq<Timely>, id: string, model: string, until: Time)
    requires Reports(w, id, OnOtherModels(model))
    requires TakesAll(acts, id, HeldRule(id, model, until), OnOtherModels(model))
    ensures StaysHeldAll(w, acts, id, model, until)
  {
    forall i | 0 <= i < |acts| ensures StaysHeld(RunWorld(w, acts[..i]), acts[i].action, id, model, until) {
      RunReports(w, acts[..i], id, HeldRule(id, model, until), OnOtherModels(model));
      assert Takes(acts[i].action, id, HeldRule(id, model, until), OnOtherModels(model));
      var a, w1 := acts[i].action, RunWorld(w, acts[..i]);
      assert a.ComputeMark? && a.k in w1.ops ==> ReportsOnly(w1.ops[a.k], id, OnOtherModels(model));
    }
  }

  /** The same from any value that was written with the cooldown. */
  lemma CooldownOnceWritten(w: World, w': World, t: Table, k: nat, c: Credential, start: nat, acts: seq<Timely>,
                            now: nat, a: string, until: Time, provider: string, model: string, tried: set<string>)
    requires Undisputed(w, c.id) && k !in w.ops && Written(w, w', k, c, start) && w'.ops == w.ops
    requires Represents(w.scheduler, t, start) && Held(c, a, until) && a != "" && ShardKey(model) == a
    requires TimeOrdered(acts, now) && (forall i :: 0 <= i < |acts| ==> start <= acts[i].time)
    requires start <= now < until && TakesAll(acts, c.id, HeldRule(c.id, a, until), OnOtherModels(a))
    ensures var o := Pick(RunWorld(w', acts).scheduler, provider, model, tried, now).outcome;
            o.Picked? ==> o.cred.id != c.id
  {
    HeldOnceWritten(w, w', t, k, c, start, a, until);
    UndisputedReports(w, w', k, c, start, OnOtherModels(a));
    OtherModelsStayHeld(w', acts, c.id, a, until);
    HeldNotPicked(w', TableUpsert(t, c), acts, start, now, c.id, a, until, provider, model, tried);
  }

  /**
   * After a recorded 429 on a model, with nothing else under way for the credential: under every interleaving of picks,
   * refreshes, removals, other credentials' updates and results on other models, no pick that has the model as shard
   * key returns the credential before the announced end.
   */
  lemma CooldownAfterQuota(w: World, t: Table, k: nat, r: Result, start: nat, acts: seq<Timely>, now: nat, until: Time,
                           provider: string, model: string, tried: set<string>)
    requires Undisputed(w, r.id) && k !in w.ops && Represents(w.scheduler, t, start)
    requires r.id != "" && r.id in w.memory && Storable(w, r.id)
    requires IsQuota(w.memory[r.id], r, w.coolingOff) && r.model != "" && ShardKey(model) == r.model
    requires until == start + QuotaWait(w.memory[r.id], r) && start <= now < until
    requires TimeOrdered(acts, now) && (forall i :: 0 <= i < |acts| ==> start <= acts[i].time)
    requires TakesAll(acts, r.id, HeldRule(r.id, r.model, until), OnOtherModels(r.model))
    ensures var o := Pick(RunWorld(WholeMark(w, k, r, start), acts).scheduler, provider, model, tried, now).outcome;
            o.Picked? ==> o.cred.id != r.id
  {
    var c := QuotaWritten(w, k, r, start, until);
    CooldownOnceWritten(w, WholeMark(w, k, r, start), t, k, c, start, acts, now, r.model, until,
                        provider, model, tried);
  }

  /** Results that revive nothing, whatever they meet. */
  function NeverReviving(): Result -> bool {
    (r: Result) => IsAuth(r) || (!r.success && r.error.None?)
  }

  lemma NeverRevivingStaysOff(w: World, acts: seq<Timely>, id: string)
    requires Reports(w, id, NeverReviving()) && TakesAll(acts, id, c => OffValue(c, id), NeverReviving())
    ensures StaysOffAll(w, acts, id)
  {
    forall i | 0 <= i < |acts| ensures StaysOff(RunWorld(w, acts[..i]), acts[i].action, id) {
      RunReports(w, acts[..i], id, c => OffValue(c, id), NeverReviving());
      assert Takes(acts[i].action, id, c => OffValue(c, id), NeverReviving());
      var a, w1 := acts[i].action, RunWorld(w, acts[..i]);
      assert a.ComputeMark? && a.k in w1.ops ==> ReportsOnly(w1.ops[a.k], id, NeverReviving());
    }
  }

  /**
   * After a recorded 401 or 403, with nothing else under way for the credential: whatever overlaps, unless it is a
   * write of the credential from outside or a result for it that is not a 401 or 403 again, the scheduler does not
   * know it and no pick returns it.
   */
  lemma OffAfterAuth(w: World, t: Table, k: nat, r: Result, start: nat, acts: seq<Timely>, now: nat,
                     provider: string, model: string, tried: set<string>)
    requires Undisputed(w, r.id) && k !in w.ops && Represents(w.scheduler, t, start)
    requires r.id != "" && r.id in w.memory && Storable(w, r.id) && IsAuth(r) && start <= now
    requires TimeOrdered(acts, now) && (forall i :: 0 <= i < |acts| ==> start <= acts[i].time)
    requires TakesAll(acts, r.id, c => OffValue(c, r.id), NeverReviving())
    ensures var s := RunWorld(WholeMark(w, k, r, start), acts).scheduler;
            var o := Pick(s, provider, model, tried, now).outcome;
            r.id !in s.owner && (o.Picked? ==> o.cred.id != r.id)
  {
    var c := MarkCredential(w.memory[r.id], r, w.coolingOff, start).cred;
    var w' := WholeMark(w, k, r, start);
    AuthStartsOff(w, t, k, r, start);
    WholeMarkWrites(w, k, r, start);
    UndisputedReports(w, w', k, c, start, NeverReviving());
    NeverRevivingStaysOff(w', acts, r.id);
    OffNotPicked(w', TableUpsert(t, c), acts, start, now, r.id, provider, model, tried);
  }

  // ----- what the cooldown does not reach

  lemma OtherModelOpen(c: Credential, r: Result, coolingOff: bool, key: string, now: nat)
    requires IsQuota(c, r, coolingOff) && r.model != "" && key != "" && FindState(c, key).None?
    requires r.model != key && r.model != CanonicalModelKey(key)
    ensures Test(MarkCredential(c, r, coolingOff, now).cred, key, now) == Open
  {
    var c' := MarkCredential(c, r, coolingOff, now).cred;
    assert r.model in c'.modelStates && FindState(c', key).None?;
  }

  lemma ListedIsReady(sh: Shard, c: Credential)
    requires Indexed(sh) && InBucket(sh, c)
    ensures c.id in sh.entries && sh.entries[c.id].state == Ready
  {
    var p, i :| p in sh.buckets && 0 <= i < |sh.buckets[p].creds| && sh.buckets[p].creds[i] == c;
    assert Ids(sh.buckets[p].creds)[i] == c.id;
    BucketMember(sh, p, c.id);
  }

  lemma ReadyEntry(e: Entry, c: Credential, key: string, now: nat)
    requires EntryOk(e, c, key, now) && e.state == Ready
    ensures e.nextRetryAt == UNSET && e.priority == c.priority
  {
  }

  /** In one shard. */
  lemma OtherBucketLags(sh: Shard, key: string, creds: Table, c: Credential, c': Credential, now: nat)
    requires Tracks(sh, key, creds, now) && c.id in creds && creds[c.id] == c && InBucket(sh, c)
    requires c'.id == c.id && c'.priority == c.priority && Test(c', key, now) == Open
    ensures InBucket(UpsertEntry(sh, c', now), c)
  {
    ListedIsReady(sh, c);
    ReadyEntry(sh.entries[c.id], c, key, now);
    KeptInBucket(sh, c, c', now);
  }

  /**
   * A shard of another model goes on listing the value from before the 429: the credential keeps its place there, so
   * the cooldown is in memory, store and table, but not in every copy inside the scheduler.
   */
  lemma OtherBucketsLag(s: Scheduler, t: Table, c: Credential, r: Result, coolingOff: bool, key: string, now: nat)
    requires Represents(s, t, now) && c.id in t && t[c.id] == c
    requires Find(s, c.provider, key).Some? && InBucket(Find(s, c.provider, key).value, c)
    requires IsQuota(c, r, coolingOff) && r.model != "" && r.model !in c.modelStates
    requires key != "" && FindState(c, key).None? && r.model != key && r.model != CanonicalModelKey(key)
    ensures var s' := Upsert(s, MarkCredential(c, r, coolingOff, now).cred, now);
            var o := Find(s', c.provider, key);
            && o.Some? && InBucket(o.value, c) && !Held(c, r.model, now + QuotaWait(c, r))
            && !SchedulerHolds(s', HeldRule(c.id, r.model, now + QuotaWait(c, r)))
  {
    var c' := MarkCredential(c, r, coolingOff, now).cred;
    OtherModelOpen(c, r, coolingOff, key, now);
    OtherBucketLags(Find(s, c.provider, key).value, key, Of(t, c.provider), c, c', now);
    FindEnrolled(s, c', now, c.provider, key);
    NotAllHold(Upsert(s, c', now), c.provider, key, c, HeldRule(c.id, r.model, now + QuotaWait(c, r)));
  }

  lemma KeptInBucket(sh: Shard, c: Credential, c': Credential, now: nat)
    requires InBucket(sh, c) && c'.id == c.id && c.id in sh.entries && Test(c', sh.key, now) == Open
    requires var e := sh.entries[c.id]; e.state == Ready && e.nextRetryAt == UNSET && e.priority == c'.priority
    ensures InBucket(UpsertEntry(sh, c', now), c)
  {
  }

  lemma NotAllHold(s: Scheduler, provider: string, key: string, c: Credential, P: Credential -> bool)
    requires Find(s, provider, key).Some? && InBucket(Find(s, provider, key).value, c) && !P(c)
    ensures !SchedulerHolds(s, P)
  {
    var sh := Find(s, provider, key).value;
    var p, i :| p in sh.buckets && 0 <= i < |sh.buckets[p].creds| && sh.buckets[p].creds[i] == c;
    assert !ListHolds(sh.buckets[p].creds, P);
    assert !ShardHolds(sh, P);
  }
}
