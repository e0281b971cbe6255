/** What overlapping operations can undo, and exactly when they do: the disabling and the cooldown of a credential. */
module Overlaps {
  import opened Credentials
  import opened Blocking
  import opened Scheduling
  import opened Values
  import opened Lifecycle
  import opened Managing
  import opened Interleaving

  // ----- a credential that is off everywhere

  predicate OffValue(c: Credential, id: string) {
    c.id == id ==> c.status == Disabled
  }

  /**
   * Memory, store and operations under way hold the credential only as disabled, and no refresh cycle or refresh
   * under way started from it.
   */
  ghost predicate Off(w: World, id: string) {
    Holds(w, c => OffValue(c, id), (c: Credential) => c.id != id)
  }

  /** The step neither takes in another value of the credential nor computes a reviving result. */
  predicate StaysOff(w: World, a: Action, id: string) {
    match a
    case BeginUpdate(k, c, _) => k in w.ops || OffValue(c, id)
    case BeginRegister(k, c, newId, _) => k in w.ops || c.provider == "" || OffValue(Prepared(c, newId), id)
    case ComputeMark(k) =>
      k in w.ops && w.ops[k].Computing? && w.ops[k].snapshot.id == id ==> !Revives(w.ops[k].snapshot, w.ops[k].r)
    case _ => true
  }

  lemma OffAdmits(w: World, a: Action, now: nat, id: string)
    requires Off(w, id) && StaysOff(w, a, id) && InputHolds(a, c => OffValue(c, id))
    ensures Admits(w, a, now, c => OffValue(c, id), (c: Credential) => c.id != id)
  {
    if (a.ComputeMark? || a.FinishCall? || a.Spawn?) && a.k in w.ops {
      var op := w.ops[a.k];
      assert OpHolds(op, c => OffValue(c, id), (c: Credential) => c.id != id);
      if a.ComputeMark? && op.Computing? && op.snapshot.id == id {
        DisabledUnlessRevived(op.snapshot, op.r, op.off, w.coolingOff, op.at);
      }
    }
  }

  lemma StaysOffKeeps(w: World, a: Action, now: nat, id: string)
    requires Off(w, id) && StaysOff(w, a, id)
    ensures Off(Next(w, a, now), id)
  {
    if InputHolds(a, c => OffValue(c, id)) {
      OffAdmits(w, a, now, id);
      NextHolds(w, a, now, c => OffValue(c, id), (c: Credential) => c.id != id);
    }
  }

  lemma OffBroken(w: World, a: Action, now: nat, id: string)
    requires Off(w, id) && !StaysOff(w, a, id)
    ensures !Off(Next(w, a, now), id)
  {
    var w' := Next(w, a, now);
    assert a.k in w'.ops;
    if a.ComputeMark? {
      assert OpHolds(w.ops[a.k], c => OffValue(c, id), (c: Credential) => c.id != id);
      DisabledUnlessRevived(w.ops[a.k].snapshot, w.ops[a.k].r, w.ops[a.k].off, w.coolingOff, w.ops[a.k].at);
    }
    assert !OpHolds(w'.ops[a.k], c => OffValue(c, id), (c: Credential) => c.id != id);
  }

  /** Exactly such steps keep it off, and no step then tells the scheduler about it. */
  lemma NextOff(w: World, t: Table, a: Action, now: nat, id: string)
    requires Off(w, id)
    ensures Off(Next(w, a, now), id) <==> StaysOff(w, a, id)
    ensures id !in t ==> id !in NextTable(w, t, a)
  {
    if StaysOff(w, a, id) {
      StaysOffKeeps(w, a, now, id);
    } else {
      OffBroken(w, a, now, id);
    }
    if a.WriteScheduler? && a.k in w.ops {
      assert OpHolds(w.ops[a.k], c => OffValue(c, id), (c: Credential) => c.id != id);
    }
  }

  /** Every step of the run is such a step. */
  ghost predicate StaysOffAll(w: World, acts: seq<Timely>, id: string) {
    forall i :: 0 <= i < |acts| ==> StaysOff(RunWorld(w, acts[..i]), acts[i].action, id)
  }

  /**
   * A credential that is off everywhere stays off under every interleaving without reviving results and outside
   * writes: the scheduler does not get to know it, and no pick returns it.
   */
  lemma {:induction false} OffOverRuns(w: World, t: Table, acts: seq<Timely>, from: nat, now: nat, id: string)
    requires Off(w, id) && id !in t && Represents(w.scheduler, t, from) && from <= now
    requires TimeOrdered(acts, now) && (forall i :: 0 <= i < |acts| ==> from <= acts[i].time)
    requires StaysOffAll(w, acts, id)
    ensures var w', t' := RunWorld(w, acts), RunTable(w, t, acts);
            Off(w', id) && id !in t' && Represents(w'.scheduler, t', now)
  {
    if acts == [] {
      RepresentsLater(w.scheduler, t, from, now);
    } else {
      var before, last := acts[..|acts| - 1], acts[|acts| - 1];
      forall i | 0 <= i < |before| ensures before[..i] == acts[..i] && before[i] == acts[i] {}
      OffOverRuns(w, t, before, from, last.time, id);
      var w1, t1 := RunWorld(w, before), RunTable(w, t, before);
      NextOff(w1, t1, last.action, last.time, id);
      NextRepresents(w1, t1, last.action, last.time);
      RepresentsLater(RunWorld(w, acts).scheduler, RunTable(w, t, acts), last.time, now);
    }
  }

  lemma OffNotPicked(w: World, t: Table, acts: seq<Timely>, from: nat, now: nat, id: string,
                     provider: string, model: string, tried: set<string>)
    requires Off(w, id) && id !in t && Represents(w.scheduler, t, from) && from <= now
    requires TimeOrdered(acts, now) && (forall i :: 0 <= i < |acts| ==> from <= acts[i].time)
    requires StaysOffAll(w, acts, id)
    ensures var s := RunWorld(w, acts).scheduler;
            var o := Pick(s, provider, model, tried, now).outcome;
            id !in s.owner && (o.Picked? ==> o.cred.id != id)
  {
    OffOverRuns(w, t, acts, from, now, id);
    PickRepresents(RunWorld(w, acts).scheduler, RunTable(w, t, acts), provider, model, tried, now);
  }

  // ----- a lost update

  /** The remaining steps of a result that was read earlier, with nothing in between. */
  ghost function FinishMark(w: World, k: nat, now: nat): World {
    FinishWrite(Next(Next(w, ReadSwitch(k), now), ComputeMark(k), now), k, now)
  }

  /** The three writes of an update, with nothing in between. */
  ghost function FinishWrite(w: World, k: nat, now: nat): World {
    Next(Next(Next(w, WriteStore(k, true), now), WriteMemory(k), now), WriteScheduler(k), now)
  }

  /** The store has no objection to an update of the ID. */
  predicate Storable(w: World, id: string) {
    w.store.None? || (id != "" && id in w.store.value)
  }

  function Stored(store: Option<Table>, c: Credential): Option<Table> {
    if store.Some? then Some(store.value[c.id := c]) else None
  }

  /** The value is in memory, store and scheduler; nothing else has changed but that the operation is over. */
  ghost predicate Written(w: World, w': World, k: nat, c: Credential, now: nat) {
    && w'.memory == w.memory[c.id := c] && w'.ops == w.ops - {k} && w'.store == Stored(w.store, c)
    && w'.coolingOff == w.coolingOff && w'.scheduler == Upsert(w.scheduler, c, now)
  }

  lemma FinishWriteWrites(w: World, k: nat, now: nat)
    requires k in w.ops && w.ops[k].ToStore? && !w.ops[k].create && !w.ops[k].after.CallRefresher?
    requires Storable(w, w.ops[k].c.id)
    ensures Written(w, FinishWrite(w, k, now), k, w.ops[k].c, now)
  {
    var c, after := w.ops[k].c, w.ops[k].after;
    var w2 := Next(w, WriteStore(k, true), now);
    assert w2.ops[k] == ToMemory(c, after) && w2.ops - {k} == w.ops - {k} && w2.store == Stored(w.store, c);
    LastWrites(w2, k, c, after, now);
  }

  lemma LastWrites(w: World, k: nat, c: Credential, after: After, now: nat)
    requires k in w.ops && w.ops[k] == ToMemory(c, after) && !after.CallRefresher?
    ensures var w' := Next(Next(w, WriteMemory(k), now), WriteScheduler(k), now);
            && w'.memory == w.memory[c.id := c] && w'.ops == w.ops - {k} && w'.store == w.store
            && w'.coolingOff == w.coolingOff && w'.scheduler == Upsert(w.scheduler, c, now)
  {
    var w3 := Next(w, WriteMemory(k), now);
    assert w3.ops[k] == ToScheduler(c, after) && w3.ops - {k} == w.ops - {k};
  }

  lemma FinishMarkWrites(w: World, k: nat, now: nat)
    requires k in w.ops && w.ops[k].Marking? && Storable(w, w.ops[k].snapshot.id)
    requires MarkCredential(w.ops[k].snapshot, w.ops[k].r, w.coolingOff, now).changed
    ensures Written(w, FinishMark(w, k, now), k,
                     MarkCredential(w.ops[k].snapshot, w.ops[k].r, w.coolingOff, now).cred, now)
  {
    var c := MarkCredential(w.ops[k].snapshot, w.ops[k].r, w.coolingOff, now).cred;
    var w1 := Next(w, ReadSwitch(k), now);
    assert w1.ops[k] == Computing(w.ops[k].snapshot, w.ops[k].r, w.coolingOff, now) && w1.ops - {k} == w.ops - {k};
    var w2 := Next(w1, ComputeMark(k), now);
    assert w2.ops[k] == ToStore(c, false, Finish) && w2.ops - {k} == w.ops - {k};
    FinishWriteWrites(w2, k, now);
  }

  /**
   * Two requests overlap: both results are read, the 401 is written and disables the credential, then the 429,
   * computed from the older clone, is written over it. The credential is schedulable again.
   */
  lemma LostDisable(w: World, id: string, now: nat)
    requires w.ops == map[] && id != "" && id in w.memory && Storable(w, id)
    requires w.memory[id].id == id && Schedulable(w.memory[id]) && !CoolingDisabled(w.memory[id], w.coolingOff)
    ensures var w2 := Next(Next(w, BeginMark(0, ResultOf(id, "", Some(Failure(429, "")))), now),
                           BeginMark(1, ResultOf(id, "", Some(Failure(401, "")))), now);
            var w3 := FinishMark(w2, 1, now);
            var w4 := FinishMark(w3, 0, now);
            && id in w3.memory && w3.memory[id].status == Disabled
            && id in w4.memory && w4.memory[id].status == Error && Schedulable(w4.memory[id])
  {
    var c := w.memory[id];
    var quota, unauthorized := ResultOf(id, "", Some(Failure(429, ""))), ResultOf(id, "", Some(Failure(401, "")));
    var w2 := Next(Next(w, BeginMark(0, quota), now), BeginMark(1, unauthorized), now);
    assert w2.ops[0] == Marking(c, quota) && w2.ops[1] == Marking(c, unauthorized);
    FinishMarkWrites(w2, 1, now);
    FinishMarkWrites(FinishMark(w2, 1, now), 0, now);
  }

  // ----- a cooldown held everywhere

  predicate HeldValue(c: Credential, id: string, model: string, until: Time) {
    c.id == id ==> Held(c, model, until)
  }

  ghost function HeldRule(id: string, model: string, until: Time): Credential -> bool {
    c => HeldValue(c, id, model, until)
  }

  /**
   * Memory, store, operations under way and what the scheduler was told hold the credential only with the cooldown.
   * Nothing is said of the copies in ready buckets, which may be older.
   */
  ghost predicate HeldAll(w: World, t: Table, now: nat, id: string, model: string, until: Time) {
    && Holds(w, HeldRule(id, model, until), HeldRule(id, model, until))
    && TableHolds(t, HeldRule(id, model, until))
    && Represents(w.scheduler, t, now)
  }

  /** The step neither takes in a value without the cooldown nor computes a result that ends it. */
  predicate StaysHeld(w: World, a: Action, id: string, model: string, until: Time) {
    match a
    case BeginUpdate(k, c, _) => k in w.ops || HeldValue(c, id, model, until)
    case BeginRegister(k, c, newId, _) =>
      k in w.ops || c.provider == "" || HeldValue(Prepared(c, newId), id, model, until)
    case ComputeMark(k) =>
      k in w.ops && w.ops[k].Computing? && w.ops[k].snapshot.id == id ==>
        var op := w.ops[k];
        !ReleasesReading(op.snapshot, op.r, op.off, w.coolingOff, op.at, model, until)
    case _ => true
  }

  lemma HeldAdmits(w: World, a: Action, now: nat, id: string, model: string, until: Time)
    requires Holds(w, HeldRule(id, model, until), HeldRule(id, model, until)) && model != ""
    requires StaysHeld(w, a, id, model, until) && InputHolds(a, HeldRule(id, model, until))
    ensures Admits(w, a, now, HeldRule(id, model, until), HeldRule(id, model, until))
  {
    if (a.ComputeMark? || a.FinishCall? || a.Spawn?) && a.k in w.ops {
      var op := w.ops[a.k];
      assert OpHolds(op, HeldRule(id, model, until), HeldRule(id, model, until));
      if a.ComputeMark? && op.Computing? && op.snapshot.id == id {
        HeldUnlessReleasedReading(op.snapshot, op.r, op.off, w.coolingOff, op.at, model, until);
      }
    }
  }

  /** A value that is not taken in does not matter. */
  lemma IgnoredInput(w: World, t: Table, a: Action, now: nat, id: string, model: string, until: Time)
    requires StaysHeld(w, a, id, model, until) && !InputHolds(a, HeldRule(id, model, until))
    ensures Next(w, a, now) == w && NextTable(w, t, a) == t
  {
  }

  lemma HeldBroken(w: World, a: Action, now: nat, id: string, model: string, until: Time)
    requires Holds(w, HeldRule(id, model, until), HeldRule(id, model, until)) && model != ""
    requires !StaysHeld(w, a, id, model, until)
    ensures !Holds(Next(w, a, now), HeldRule(id, model, until), HeldRule(id, model, until))
  {
    var w' := Next(w, a, now);
    if a.ComputeMark? {
      var op := w.ops[a.k];
      assert OpHolds(op, HeldRule(id, model, until), HeldRule(id, model, until));
      HeldUnlessReleasedReading(op.snapshot, op.r, op.off, w.coolingOff, op.at, model, until);
    }
    assert a.k in w'.ops && !OpHolds(w'.ops[a.k], HeldRule(id, model, until), HeldRule(id, model, until));
  }

  /** Exactly such steps keep the cooldown in every value of the credential. */
  lemma NextHeld(w: World, t: Table, a: Action, now: nat, id: string, model: string, until: Time)
    requires HeldAll(w, t, now, id, model, until) && model != ""
    ensures HeldAll(Next(w, a, now), NextTable(w, t, a), now, id, model, until) <==> StaysHeld(w, a, id, model, until)
  {
    if !StaysHeld(w, a, id, model, until) {
      HeldBroken(w, a, now, id, model, until);
    } else if InputHolds(a, HeldRule(id, model, until)) {
      HeldAdmits(w, a, now, id, model, until);
      NextHolds(w, a, now, HeldRule(id, model, until), HeldRule(id, model, until));
      NextRepresents(w, t, a, now);
      NextTableHolds(w, t, a, HeldRule(id, model, until));
    } else {
      IgnoredInput(w, t, a, now, id, model, until);
    }
  }

  ghost predicate StaysHeldAll(w: World, acts: seq<Timely>, id: string, model: string, until: Time) {
    forall i :: 0 <= i < |acts| ==> StaysHeld(RunWorld(w, acts[..i]), acts[i].action, id, model, until)
  }

  lemma {:induction false} HeldOverRuns(w: World, t: Table, acts: seq<Timely>, from: nat, now: nat, id: string,
                                        model: string, until: Time)
    requires HeldAll(w, t, from, id, model, until) && model != "" && from <= now
    requires TimeOrdered(acts, now) && (forall i :: 0 <= i < |acts| ==> from <= acts[i].time)
    requires StaysHeldAll(w, acts, id, model, until)
    ensures HeldAll(RunWorld(w, acts), RunTable(w, t, acts), now, id, model, until)
  {
    if acts == [] {
      RepresentsLater(w.scheduler, t, from, now);
    } else {
      var before, last := acts[..|acts| - 1], acts[|acts| - 1];
      forall i | 0 <= i < |before| ensures before[..i] == acts[..i] && before[i] == acts[i] {}
      HeldOverRuns(w, t, before, from, last.time, id, model, until);
      NextHeld(RunWorld(w, before), RunTable(w, t, before), last.action, last.time, id, model, until);
      RepresentsLater(RunWorld(w, acts).scheduler, RunTable(w, t, acts), last.time, now);
    }
  }

  /** Under every interleaving of such steps no pick for the model returns the credential before the cooldown ends. */
  lemma HeldNotPicked(w: World, t: Table, acts: seq<Timely>, from: nat, now: nat, id: string, a: string, until: Time,
                      provider: string, model: string, tried: set<string>)
    requires HeldAll(w, t, from, id, a, until) && a != "" && ShardKey(model) == a && from <= now < until
    requires TimeOrdered(acts, now) && (forall i :: 0 <= i < |acts| ==> from <= acts[i].time)
    requires StaysHeldAll(w, acts, id, a, until)
    ensures var o := Pick(RunWorld(w, acts).scheduler, provider, model, tried, now).outcome;
            o.Picked? ==> o.cred.id != id
  {
    HeldOverRuns(w, t, acts, from, now, id, a, until);
    HeldPick(RunWorld(w, acts).scheduler, RunTable(w, t, acts), now, id, a, until, provider, model, tried);
  }

  lemma HeldPick(s: Scheduler, t: Table, now: nat, id: string, a: string, until: Time, provider: string, model: string,
                 tried: set<string>)
    requires Represents(s, t, now) && TableHolds(t, HeldRule(id, a, until)) && a != "" && now < until
    requires ShardKey(model) == a
    ensures var o := Pick(s, provider, model, tried, now).outcome; o.Picked? ==> o.cred.id != id
  {
    PickRepresents(s, t, provider, model, tried, now);
    if id in t {
      HeldIsBlocked(t[id], a, until, now);
    }
  }

  /**
   * Where also the scheduler's own copies have the cooldown, as when a manager starts with such a store, every pick
   * that returns the credential for another model returns it with the cooldown.
   */
  lemma HeldWhenPicked(w: World, t: Table, acts: seq<Timely>, from: nat, now: nat, id: string, a: string, until: Time,
                       provider: string, model: string, tried: set<string>)
    requires Inv(w, t, from, HeldRule(id, a, until)) && a != "" && from <= now
    requires TimeOrdered(acts, now) && (forall i :: 0 <= i < |acts| ==> from <= acts[i].time)
    requires StaysHeldAll(w, acts, id, a, until)
    ensures Inv(RunWorld(w, acts), RunTable(w, t, acts), now, HeldRule(id, a, until))
    ensures var o := Pick(RunWorld(w, acts).scheduler, provider, model, tried, now).outcome;
            o.Picked? && o.cred.id == id ==> Held(o.cred, a, until)
  {
    HeldInsideOverRuns(w, t, acts, from, now, id, a, until);
    PickHolds(RunWorld(w, acts).scheduler, provider, model, tried, now, HeldRule(id, a, until));
  }

  lemma {:induction false} HeldInsideOverRuns(w: World, t: Table, acts: seq<Timely>, from: nat, now: nat, id: string,
                                              model: string, until: Time)
    requires Inv(w, t, from, HeldRule(id, model, until)) && model != "" && from <= now
    requires TimeOrdered(acts, now) && (forall i :: 0 <= i < |acts| ==> from <= acts[i].time)
    requires StaysHeldAll(w, acts, id, model, until)
    ensures Inv(RunWorld(w, acts), RunTable(w, t, acts), now, HeldRule(id, model, until))
  {
    if acts == [] {
      RepresentsLater(w.scheduler, t, from, now);
    } else {
      var before, last := acts[..|acts| - 1], acts[|acts| - 1];
      forall i | 0 <= i < |before| ensures before[..i] == acts[..i] && before[i] == acts[i] {}
      HeldInsideOverRuns(w, t, before, from, last.time, id, model, until);
      NextHeld(RunWorld(w, before), RunTable(w, t, before), last.action, last.time, id, model, until);
      NextSchedulerHolds(RunWorld(w, before), last.action, last.time, HeldRule(id, model, until),
                         HeldRule(id, model, until));
      RepresentsLater(RunWorld(w, acts).scheduler, RunTable(w, t, acts), last.time, now);
    }
  }

  lemma FinishCallWrites(w: World, k: nat, o: RefreshOutcome, now: nat)
    requires k in w.ops && w.ops[k].Calling? && Storable(w, w.ops[k].snapshot.id)
    ensures var w' := FinishWrite(Next(w, FinishCall(k, o), now), k, now);
            Written(w, w', k, Refreshed(w.ops[k].snapshot, o, now), now)
  {
    var w1 := Next(w, FinishCall(k, o), now);
    assert w1.ops[k] == ToStore(Refreshed(w.ops[k].snapshot, o, now), false, EndRefresh) && w1.ops - {k} == w.ops - {k};
    FinishWriteWrites(w1, k, now);
  }

  /** One result from start to end, with nothing in between. */
  ghost function WholeMark(w: World, k: nat, r: Result, now: nat): World {
    FinishMark(Next(w, BeginMark(k, r), now), k, now)
  }

  lemma WholeMarkWrites(w: World, k: nat, r: Result, now: nat)
    requires k !in w.ops && r.id != "" && r.id in w.memory && w.memory[r.id].id == r.id && Storable(w, r.id)
    requires MarkCredential(w.memory[r.id], r, w.coolingOff, now).changed
    ensures var w' := WholeMark(w, k, r, now);
            Written(w, w', k, MarkCredential(w.memory[r.id], r, w.coolingOff, now).cred, now) && w'.ops == w.ops
  {
    var w1 := Next(w, BeginMark(k, r), now);
    assert w1.ops[k] == Marking(w.memory[r.id], r) && w1.ops - {k} == w.ops;
    FinishMarkWrites(w1, k, now);
  }

  /**
   * A refresh under way undoes a cooldown recorded meanwhile: it writes the value it started from, and the model is
   * open at once.
   */
  lemma RefreshWipesCooldown(w: World, c: Credential, model: string, now: nat, later: nat, t: nat)
    requires w.ops == map[0 := Calling(c)] && c.id != "" && model != "" && Storable(w, c.id)
    requires c.id in w.memory && w.memory[c.id] == c.(status := Refreshing)
    requires c.modelStates == map[] && !c.unavailable && !CoolingDisabled(c, w.coolingOff)
    ensures var quota := ResultOf(c.id, model, Some(Failure(429, "")));
            var w1 := WholeMark(w, 1, quota, now);
            var w2 := FinishWrite(Next(w1, FinishCall(0, RefreshNothing), later), 0, later);
            && c.id in w1.memory && Held(w1.memory[c.id], model, now + QuotaWait(c, quota))
            && w2.ops == map[] && c.id in w2.memory && w2.memory[c.id] == c.(status := Active)
            && Test(w2.memory[c.id], model, t) == Open
  {
    var quota := ResultOf(c.id, model, Some(Failure(429, "")));
    WholeMarkWrites(w, 1, quota, now);
    QuotaHolds(w.memory[c.id], quota, w.coolingOff, now);
    FinishCallWrites(WholeMark(w, 1, quota, now), 0, RefreshNothing, later);
  }
}
