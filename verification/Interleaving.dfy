/**
 * The manager's operations cut at the points where the code gives up its locks. A result is computed from a clone
 * taken earlier and written later; every update reaches store, memory and scheduler in three separate steps.
 */
module Interleaving {
  import opened Credentials
  import opened Blocking
  import opened Picking
  import opened Scheduling
  import opened Values
  import opened Lifecycle
  import opened Managing

  const MAX_REFRESHES := 8

  /** What an operation does once its update is through, or has failed. */
  datatype After = Finish | CallRefresher(snapshot: Credential) | EndRefresh

  datatype Op =
    | Marking(snapshot: Credential, r: Result)
    | Computing(snapshot: Credential, r: Result, off: bool, at: nat)
    | ToStore(c: Credential, create: bool, after: After)
    | ToMemory(c: Credential, after: After)
    | ToScheduler(c: Credential, after: After)
    | Calling(snapshot: Credential)
    | Cycling(candidates: set<Credential>)
    | ToUnschedule(id: string)
    | ToDelete(id: string)

  datatype World = World(
    memory: Table,
    store: Option<Table>,
    scheduler: Scheduler,
    coolingOff: bool,
    ops: map<nat, Op>,
    tokens: nat)

  /** One atomic step. `k` names the operation it belongs to. */
  datatype Action =
    | BeginMark(k: nat, r: Result)
    | ReadSwitch(k: nat)
    | ComputeMark(k: nat)
    | BeginUpdate(k: nat, c: Credential, persist: bool)
    | BeginRegister(k: nat, c: Credential, newId: string, persist: bool)
    | WriteStore(k: nat, ok: bool)
    | WriteMemory(k: nat)
    | WriteScheduler(k: nat)
    | BeginDeregister(k: nat, id: string)
    | Unschedule(k: nat)
    | DeleteStored(k: nat, ok: bool)
    | DoPick(provider: string, model: string, tried: set<string>)
    | BeginCycle(k: nat)
    | Spawn(k: nat, child: nat, c: Credential)
    | SkipCandidate(k: nat, c: Credential)
    | EndCycle(k: nat)
    | FinishCall(k: nat, o: RefreshOutcome)
    | SetCooling(off: bool)

  /** The later steps of an update or a removal. */
  predicate Writes(a: Action) {
    a.WriteStore? || a.WriteMemory? || a.WriteScheduler? || a.Unschedule? || a.DeleteStored?
  }

  function Put(w: World, k: nat, op: Op): World {
    w.(ops := w.ops[k := op])
  }

  function End(w: World, k: nat): World {
    w.(ops := w.ops - {k})
  }

  /** Continue after an update; its error, if any, is ignored. A finished refresh gives its token back. */
  function Continue(w: World, k: nat, after: After): World {
    match after
    case Finish => End(w, k)
    case CallRefresher(snapshot) => Put(w, k, Calling(snapshot))
    case EndRefresh => End(w, k).(tokens := if w.tokens > 0 then w.tokens - 1 else 0)
  }

  predicate Accepted(w: World, c: Credential, create: bool, ok: bool)
    requires w.store.Some?
  {
    ok && c.id != "" && (create <==> c.id !in w.store.value)
  }

  /** The semaphore admits a refresh or the cycle ends. */
  function SpawnStep(w: World, k: nat, child: nat, c: Credential): World
    requires k in w.ops && w.ops[k].Cycling?
  {
    if c !in w.ops[k].candidates || child in w.ops then w
    else if w.tokens < MAX_REFRESHES then
      var w1 := Put(w, k, Cycling(w.ops[k].candidates - {c}));
      Put(w1, child, ToStore(c.(status := Refreshing), false, CallRefresher(c))).(tokens := w.tokens + 1)
    else End(w, k)
  }

  function StoreStep(w: World, k: nat, op: Op, ok: bool): World
    requires op.ToStore?
  {
    if w.store.None? then Put(w, k, ToMemory(op.c, op.after))
    else if Accepted(w, op.c, op.create, ok) then
      Put(w, k, ToMemory(op.c, op.after)).(store := Some(w.store.value[op.c.id := op.c]))
    else Continue(w, k, op.after)
  }

  /** The cooling switch is read a second time here; the time was read together with the first. */
  function Computed(w: World, op: Op): Marked
    requires op.Computing?
  {
    MarkReading(op.snapshot, op.r, op.off, w.coolingOff, op.at)
  }

  function MarkStep(w: World, k: nat, op: Op): World
    requires op.Computing?
  {
    var m := Computed(w, op);
    if m.changed then Put(w, k, ToStore(m.cred, false, Finish)) else End(w, k)
  }

  function RefreshCandidates(w: World, now: nat): set<Credential> {
    set id | id in w.memory && w.memory[id].status != Disabled && NeedsRefresh(w.memory[id], now) :: w.memory[id]
  }

  /** Actions that do not apply change nothing. */
  ghost function Next(w: World, a: Action, now: nat): World {
    match a
    case BeginMark(k, r) =>
      if k !in w.ops && r.id != "" && r.id in w.memory then Put(w, k, Marking(w.memory[r.id], r)) else w
    case ReadSwitch(k) =>
      if k in w.ops && w.ops[k].Marking? then
        Put(w, k, Computing(w.ops[k].snapshot, w.ops[k].r, w.coolingOff, now))
      else w
    case ComputeMark(k) =>
      if k in w.ops && w.ops[k].Computing? then MarkStep(w, k, w.ops[k]) else w
    case BeginUpdate(k, c, persist) =>
      if k in w.ops then w else Put(w, k, if persist then ToStore(c, false, Finish) else ToMemory(c, Finish))
    case BeginRegister(k, c, newId, persist) =>
      var c' := Prepared(c, newId);
      if k in w.ops || c.provider == "" then w
      else Put(w, k, if persist then ToStore(c', true, Finish) else ToMemory(c', Finish))
    case WriteStore(k, ok) =>
      if k in w.ops && w.ops[k].ToStore? then StoreStep(w, k, w.ops[k], ok) else w
    case WriteMemory(k) =>
      if k in w.ops && w.ops[k].ToMemory? then
        var op := w.ops[k];
        Put(w, k, ToScheduler(op.c, op.after)).(memory := w.memory[op.c.id := op.c])
      else w
    case WriteScheduler(k) =>
      if k in w.ops && w.ops[k].ToScheduler? then
        Continue(w, k, w.ops[k].after).(scheduler := Upsert(w.scheduler, w.ops[k].c, now))
      else w
    case BeginDeregister(k, id) =>
      if k !in w.ops && id != "" && id in w.memory then Put(w, k, ToUnschedule(id)).(memory := w.memory - {id}) else w
    case Unschedule(k) =>
      if k in w.ops && w.ops[k].ToUnschedule? then
        Put(w, k, ToDelete(w.ops[k].id)).(scheduler := Remove(w.scheduler, w.ops[k].id))
      else w
    case DeleteStored(k, ok) =>
      if k in w.ops && w.ops[k].ToDelete? then
        End(w, k).(store := if ok && w.store.Some? then Some(w.store.value - {w.ops[k].id}) else w.store)
      else w
    case DoPick(provider, model, tried) =>
      w.(scheduler := Pick(w.scheduler, provider, model, tried, now).scheduler)
    case BeginCycle(k) =>
      if k in w.ops then w else Put(w, k, Cycling(RefreshCandidates(w, now)))
    case Spawn(k, child, c) =>
      if k in w.ops && w.ops[k].Cycling? then SpawnStep(w, k, child, c) else w
    case SkipCandidate(k, c) =>
      if k in w.ops && w.ops[k].Cycling? then Put(w, k, Cycling(w.ops[k].candidates - {c})) else w
    case EndCycle(k) =>
      if k in w.ops && w.ops[k].Cycling? && w.ops[k].candidates == {} then End(w, k) else w
    case FinishCall(k, o) =>
      if k in w.ops && w.ops[k].Calling? then
        Put(w, k, ToStore(Refreshed(w.ops[k].snapshot, o, now), false, EndRefresh))
      else w
    case SetCooling(off) => w.(coolingOff := off)
  }

  // ----- every value ever held

  /** Values satisfy P, and those from which a refresh starts satisfy Q. */
  ghost predicate OpHolds(op: Op, P: Credential -> bool, Q: Credential -> bool) {
    match op
    case Marking(snapshot, _) => P(snapshot)
    case Computing(snapshot, _, _, _) => P(snapshot)
    case ToStore(c, _, after) => P(c) && (after.CallRefresher? ==> Q(after.snapshot))
    case ToMemory(c, after) => P(c) && (after.CallRefresher? ==> Q(after.snapshot))
    case ToScheduler(c, after) => P(c) && (after.CallRefresher? ==> Q(after.snapshot))
    case Calling(snapshot) => Q(snapshot)
    case Cycling(candidates) => forall c :: c in candidates ==> Q(c)
    case ToUnschedule(_) => true
    case ToDelete(_) => true
  }

  /** The same for memory, store and operations under way. */
  ghost predicate Holds(w: World, P: Credential -> bool, Q: Credential -> bool) {
    && TableHolds(w.memory, P)
    && (w.store.Some? ==> TableHolds(w.store.value, P))
    && forall k :: k in w.ops ==> OpHolds(w.ops[k], P, Q)
  }

  /** The values that enter with this action, or are computed by it, satisfy P and Q. */
  ghost predicate Admits(w: World, a: Action, now: nat, P: Credential -> bool, Q: Credential -> bool) {
    match a
    case BeginUpdate(_, c, _) => P(c)
    case BeginRegister(_, c, newId, _) => P(Prepared(c, newId))
    case ComputeMark(k) => k in w.ops && w.ops[k].Computing? ==> P(Computed(w, w.ops[k]).cred)
    case Spawn(k, _, c) => k in w.ops && w.ops[k].Cycling? && c in w.ops[k].candidates ==> P(c.(status := Refreshing))
    case BeginCycle(_) => forall c :: c in RefreshCandidates(w, now) ==> Q(c)
    case FinishCall(k, o) => k in w.ops && w.ops[k].Calling? ==> P(Refreshed(w.ops[k].snapshot, o, now))
    case _ => true
  }

  lemma PutHolds(w: World, k: nat, op: Op, P: Credential -> bool, Q: Credential -> bool)
    requires Holds(w, P, Q) && OpHolds(op, P, Q)
    ensures Holds(Put(w, k, op), P, Q)
  {
  }

  lemma EndHolds(w: World, k: nat, P: Credential -> bool, Q: Credential -> bool)
    requires Holds(w, P, Q)
    ensures Holds(End(w, k), P, Q)
  {
  }

  lemma ContinueHolds(w: World, k: nat, after: After, P: Credential -> bool, Q: Credential -> bool)
    requires Holds(w, P, Q) && (after.CallRefresher? ==> Q(after.snapshot))
    ensures Holds(Continue(w, k, after), P, Q)
  {
    match after
    case Finish => EndHolds(w, k, P, Q);
    case CallRefresher(snapshot) => PutHolds(w, k, Calling(snapshot), P, Q);
    case EndRefresh => EndHolds(w, k, P, Q);
  }

  lemma StoreStepHolds(w: World, k: nat, ok: bool, P: Credential -> bool, Q: Credential -> bool)
    requires Holds(w, P, Q) && k in w.ops && w.ops[k].ToStore?
    ensures Holds(StoreStep(w, k, w.ops[k], ok), P, Q)
  {
    var op := w.ops[k];
    assert OpHolds(op, P, Q);
    PutHolds(w, k, ToMemory(op.c, op.after), P, Q);
    ContinueHolds(w, k, op.after, P, Q);
  }

  lemma SpawnStepHolds(w: World, k: nat, child: nat, c: Credential, P: Credential -> bool, Q: Credential -> bool)
    requires Holds(w, P, Q) && k in w.ops && w.ops[k].Cycling?
    requires c in w.ops[k].candidates ==> P(c.(status := Refreshing))
    ensures Holds(SpawnStep(w, k, child, c), P, Q)
  {
    assert OpHolds(w.ops[k], P, Q);
    if c in w.ops[k].candidates && child !in w.ops {
      var w1 := Put(w, k, Cycling(w.ops[k].candidates - {c}));
      PutHolds(w, k, Cycling(w.ops[k].candidates - {c}), P, Q);
      PutHolds(w1, child, ToStore(c.(status := Refreshing), false, CallRefresher(c)), P, Q);
      EndHolds(w, k, P, Q);
    }
  }

  lemma MarkStepHolds(w: World, k: nat, P: Credential -> bool, Q: Credential -> bool)
    requires Holds(w, P, Q) && k in w.ops && w.ops[k].Computing? && P(Computed(w, w.ops[k]).cred)
    ensures Holds(MarkStep(w, k, w.ops[k]), P, Q)
  {
    PutHolds(w, k, ToStore(Computed(w, w.ops[k]).cred, false, Finish), P, Q);
    EndHolds(w, k, P, Q);
  }

  /** The three writes of an update, and the steps of a removal. */
  lemma WriteHolds(w: World, a: Action, now: nat, P: Credential -> bool, Q: Credential -> bool)
    requires Holds(w, P, Q)
    requires Writes(a)
    ensures Holds(Next(w, a, now), P, Q)
  {
    if a.k in w.ops {
      var op := w.ops[a.k];
      assert OpHolds(op, P, Q);
      if a.WriteStore? && op.ToStore? {
        StoreStepHolds(w, a.k, a.ok, P, Q);
      } else if a.WriteMemory? && op.ToMemory? {
        PutHolds(w, a.k, ToScheduler(op.c, op.after), P, Q);
      } else if a.WriteScheduler? && op.ToScheduler? {
        ContinueHolds(w, a.k, op.after, P, Q);
      } else if a.DeleteStored? {
        EndHolds(w, a.k, P, Q);
      } else if a.Unschedule? && op.ToUnschedule? {
        PutHolds(w, a.k, ToDelete(op.id), P, Q);
      }
    }
  }

  lemma NextHolds(w: World, a: Action, now: nat, P: Credential -> bool, Q: Credential -> bool)
    requires Holds(w, P, Q) && Admits(w, a, now, P, Q)
    ensures Holds(Next(w, a, now), P, Q)
  {
    match a
    case BeginMark(k, r) =>
      if r.id in w.memory { PutHolds(w, k, Marking(w.memory[r.id], r), P, Q); }
    case ReadSwitch(k) =>
      if k in w.ops && w.ops[k].Marking? {
        assert OpHolds(w.ops[k], P, Q);
        PutHolds(w, k, Computing(w.ops[k].snapshot, w.ops[k].r, w.coolingOff, now), P, Q);
      }
    case ComputeMark(k) =>
      if k in w.ops && w.ops[k].Computing? { MarkStepHolds(w, k, P, Q); }
    case BeginUpdate(k, c, persist) =>
      PutHolds(w, k, if persist then ToStore(c, false, Finish) else ToMemory(c, Finish), P, Q);
    case BeginRegister(k, c, newId, persist) =>
      var c' := Prepared(c, newId);
      PutHolds(w, k, if persist then ToStore(c', true, Finish) else ToMemory(c', Finish), P, Q);
    case WriteStore(k, ok) => WriteHolds(w, a, now, P, Q);
    case WriteMemory(k) => WriteHolds(w, a, now, P, Q);
    case WriteScheduler(k) => WriteHolds(w, a, now, P, Q);
    case BeginDeregister(k, id) => PutHolds(w, k, ToUnschedule(id), P, Q);
    case Unschedule(k) => WriteHolds(w, a, now, P, Q);
    case DeleteStored(k, ok) => WriteHolds(w, a, now, P, Q);
    case DoPick(provider, model, tried) =>
    case BeginCycle(k) => PutHolds(w, k, Cycling(RefreshCandidates(w, now)), P, Q);
    case Spawn(k, child, c) =>
      if k in w.ops && w.ops[k].Cycling? { SpawnStepHolds(w, k, child, c, P, Q); }
    case SkipCandidate(k, c) =>
      if k in w.ops && w.ops[k].Cycling? {
        assert OpHolds(w.ops[k], P, Q);
        PutHolds(w, k, Cycling(w.ops[k].candidates - {c}), P, Q);
      }
    case EndCycle(k) => EndHolds(w, k, P, Q);
    case FinishCall(k, o) =>
      if k in w.ops && w.ops[k].Calling? {
        PutHolds(w, k, ToStore(Refreshed(w.ops[k].snapshot, o, now), false, EndRefresh), P, Q);
      }
    case SetCooling(off) =>
  }

  // ----- the scheduler's own view

  /** What the scheduler has been told so far, which may lag behind memory. */
  function NextTable(w: World, t: Table, a: Action): Table {
    match a
    case WriteScheduler(k) => if k in w.ops && w.ops[k].ToScheduler? then TableUpsert(t, w.ops[k].c) else t
    case Unschedule(k) => if k in w.ops && w.ops[k].ToUnschedule? then t - {w.ops[k].id} else t
    case _ => t
  }

  ghost predicate Inv(w: World, t: Table, now: nat, P: Credential -> bool) {
    Holds(w, P, P) && TableHolds(t, P) && SchedulerHolds(w.scheduler, P) && Represents(w.scheduler, t, now)
  }

  lemma NextRepresents(w: World, t: Table, a: Action, now: nat)
    requires Represents(w.scheduler, t, now)
    ensures Represents(Next(w, a, now).scheduler, NextTable(w, t, a), now)
  {
    if a.WriteScheduler? && a.k in w.ops && w.ops[a.k].ToScheduler? {
      UpsertRepresents(w.scheduler, t, w.ops[a.k].c, now);
    } else if a.Unschedule? && a.k in w.ops && w.ops[a.k].ToUnschedule? {
      RemoveRepresents(w.scheduler, t, w.ops[a.k].id, now);
    } else if a.DoPick? {
      PickRepresents(w.scheduler, t, a.provider, a.model, a.tried, now);
    } else {
      SchedulerUntouched(w, a, now);
    }
  }

  lemma SchedulerUntouched(w: World, a: Action, now: nat)
    requires !(a.WriteScheduler? && a.k in w.ops && w.ops[a.k].ToScheduler?)
    requires !(a.Unschedule? && a.k in w.ops && w.ops[a.k].ToUnschedule?) && !a.DoPick?
    ensures Next(w, a, now).scheduler == w.scheduler
  {
  }

  lemma NextSchedulerHolds(w: World, a: Action, now: nat, P: Credential -> bool, Q: Credential -> bool)
    requires Holds(w, P, Q) && SchedulerHolds(w.scheduler, P)
    ensures SchedulerHolds(Next(w, a, now).scheduler, P)
  {
    if a.WriteScheduler? && a.k in w.ops && w.ops[a.k].ToScheduler? {
      assert OpHolds(w.ops[a.k], P, Q);
      UpsertHolds(w.scheduler, w.ops[a.k].c, now, P);
    } else if a.Unschedule? && a.k in w.ops && w.ops[a.k].ToUnschedule? {
      RemoveHolds(w.scheduler, w.ops[a.k].id, P);
    } else if a.DoPick? {
      PickHolds(w.scheduler, a.provider, a.model, a.tried, now, P);
    } else {
      SchedulerUntouched(w, a, now);
    }
  }

  lemma NextInv(w: World, t: Table, a: Action, now: nat, P: Credential -> bool)
    requires Inv(w, t, now, P) && Admits(w, a, now, P, P)
    ensures Inv(Next(w, a, now), NextTable(w, t, a), now, P)
  {
    NextHolds(w, a, now, P, P);
    NextRepresents(w, t, a, now);
    NextSchedulerHolds(w, a, now, P, P);
    NextTableHolds(w, t, a, P);
  }

  lemma NextTableHolds(w: World, t: Table, a: Action, P: Credential -> bool)
    requires Holds(w, P, P) && TableHolds(t, P)
    ensures TableHolds(NextTable(w, t, a), P)
  {
    if a.WriteScheduler? && a.k in w.ops {
      assert OpHolds(w.ops[a.k], P, P);
    }
  }

  // ----- at most eight refreshes

  /** The operation is part of a refresh, and so holds a token. */
  predicate InRefresh(op: Op) {
    match op
    case Calling(_) => true
    case ToStore(_, _, after) => !after.Finish?
    case ToMemory(_, after) => !after.Finish?
    case ToScheduler(_, after) => !after.Finish?
    case _ => false
  }

  function Refreshes(ops: map<nat, Op>): set<nat> {
    set k | k in ops && InRefresh(ops[k])
  }

  ghost predicate Metered(w: World) {
    w.tokens == |Refreshes(w.ops)| && w.tokens <= MAX_REFRESHES
  }

  lemma PutMetered(w: World, k: nat, op: Op)
    requires Metered(w) && (InRefresh(op) <==> k in w.ops && InRefresh(w.ops[k]))
    ensures Metered(Put(w, k, op))
  {
    assert Refreshes(Put(w, k, op).ops) == Refreshes(w.ops);
  }

  lemma EndMetered(w: World, k: nat)
    requires Metered(w) && k in w.ops
    ensures !InRefresh(w.ops[k]) ==> Metered(End(w, k))
    ensures InRefresh(w.ops[k]) ==> Metered(End(w, k).(tokens := if w.tokens > 0 then w.tokens - 1 else 0))
  {
    assert Refreshes(End(w, k).ops) == Refreshes(w.ops) - {k};
    assert InRefresh(w.ops[k]) ==> k in Refreshes(w.ops);
  }

  lemma ContinueMetered(w: World, k: nat, after: After)
    requires Metered(w) && k in w.ops && (InRefresh(w.ops[k]) <==> !after.Finish?)
    ensures Metered(Continue(w, k, after))
  {
    EndMetered(w, k);
    if after.CallRefresher? {
      PutMetered(w, k, Calling(after.snapshot));
    }
  }

  lemma SpawnMetered(w: World, k: nat, child: nat, c: Credential)
    requires Metered(w) && k in w.ops && w.ops[k].Cycling?
    ensures Metered(SpawnStep(w, k, child, c))
  {
    if c in w.ops[k].candidates && child !in w.ops {
      if w.tokens < MAX_REFRESHES {
        var w1 := Put(w, k, Cycling(w.ops[k].candidates - {c}));
        PutMetered(w, k, Cycling(w.ops[k].candidates - {c}));
        assert Refreshes(SpawnStep(w, k, child, c).ops) == Refreshes(w1.ops) + {child};
      } else {
        EndMetered(w, k);
      }
    }
  }

  lemma WriteMetered(w: World, a: Action, now: nat)
    requires Metered(w) && Writes(a)
    ensures Metered(Next(w, a, now))
  {
    if a.k in w.ops {
      var op := w.ops[a.k];
      if a.WriteStore? && op.ToStore? {
        PutMetered(w, a.k, ToMemory(op.c, op.after));
        ContinueMetered(w, a.k, op.after);
      } else if a.WriteMemory? && op.ToMemory? {
        PutMetered(w, a.k, ToScheduler(op.c, op.after));
      } else if a.WriteScheduler? && op.ToScheduler? {
        ContinueMetered(w, a.k, op.after);
      } else if a.DeleteStored? && op.ToDelete? {
        EndMetered(w, a.k);
      } else if a.Unschedule? && op.ToUnschedule? {
        PutMetered(w, a.k, ToDelete(op.id));
      }
    }
  }

  lemma BeginMetered(w: World, k: nat, op: Op)
    requires Metered(w) && !InRefresh(op)
    ensures k !in w.ops ==> Metered(Put(w, k, op))
  {
    if k !in w.ops {
      PutMetered(w, k, op);
    }
  }

  /** The steps of a result and of a refresh cycle. */
  lemma AdvanceMetered(w: World, a: Action, now: nat)
    requires Metered(w)
    requires a.ReadSwitch? || a.ComputeMark? || a.Spawn? || a.SkipCandidate? || a.EndCycle? || a.FinishCall?
    ensures Metered(Next(w, a, now))
  {
    if a.k in w.ops {
      var op := w.ops[a.k];
      if a.ReadSwitch? && op.Marking? {
        PutMetered(w, a.k, Computing(op.snapshot, op.r, w.coolingOff, now));
      } else if a.ComputeMark? && op.Computing? {
        PutMetered(w, a.k, ToStore(Computed(w, op).cred, false, Finish));
        EndMetered(w, a.k);
      } else if a.Spawn? && op.Cycling? {
        SpawnMetered(w, a.k, a.child, a.c);
      } else if a.SkipCandidate? && op.Cycling? {
        PutMetered(w, a.k, Cycling(op.candidates - {a.c}));
      } else if a.EndCycle? && op.Cycling? {
        EndMetered(w, a.k);
      } else if a.FinishCall? && op.Calling? {
        PutMetered(w, a.k, ToStore(Refreshed(op.snapshot, a.o, now), false, EndRefresh));
      }
    }
  }

  /** Whatever step comes next, refreshes in flight and tokens taken stay equal, and at most eight. */
  lemma NextMetered(w: World, a: Action, now: nat)
    requires Metered(w)
    ensures Metered(Next(w, a, now))
  {
    match a
    case BeginMark(k, r) =>
      if r.id in w.memory { BeginMetered(w, k, Marking(w.memory[r.id], r)); }
    case BeginUpdate(k, c, persist) =>
      BeginMetered(w, k, if persist then ToStore(c, false, Finish) else ToMemory(c, Finish));
    case BeginRegister(k, c, newId, persist) =>
      var c' := Prepared(c, newId);
      BeginMetered(w, k, if persist then ToStore(c', true, Finish) else ToMemory(c', Finish));
    case BeginDeregister(k, id) => BeginMetered(w, k, ToUnschedule(id));
    case BeginCycle(k) => BeginMetered(w, k, Cycling(RefreshCandidates(w, now)));
    case DoPick(provider, model, tried) =>
    case SetCooling(off) =>
    case _ =>
      if Writes(a) {
        WriteMetered(w, a, now);
      } else {
        AdvanceMetered(w, a, now);
      }
  }

  // ----- runs

  datatype Timely = Timely(action: Action, time: nat)

  ghost function RunWorld(w: World, acts: seq<Timely>): World {
    if acts == [] then w
    else Next(RunWorld(w, acts[..|acts| - 1]), acts[|acts| - 1].action, acts[|acts| - 1].time)
  }

  /** What the scheduler has been told after a run, if it was told `t` before. */
  ghost function RunTable(w: World, t: Table, acts: seq<Timely>): Table {
    if acts == [] then t
    else
      var before := acts[..|acts| - 1];
      NextTable(RunWorld(w, before), RunTable(w, t, before), acts[|acts| - 1].action)
  }

  predicate TimeOrdered(acts: seq<Timely>, now: nat) {
    && (forall i, j :: 0 <= i < j < |acts| ==> acts[i].time <= acts[j].time)
    && forall i :: 0 <= i < |acts| ==> acts[i].time <= now
  }

  /** The manager as started: nothing in memory, a store that may hold credentials. */
  ghost predicate Fresh(w: World, P: Credential -> bool) {
    && w.memory == map[] && w.ops == map[] && w.tokens == 0
    && w.scheduler.providers == map[] && w.scheduler.owner == map[]
    && (w.store.Some? ==> TableHolds(w.store.value, P))
  }

  /** At most eight refreshes are in flight, however cycles and completions interleave. */
  lemma {:induction false} RefreshesBounded(w: World, acts: seq<Timely>)
    requires w.ops == map[] && w.tokens == 0
    ensures Metered(RunWorld(w, acts)) && |Refreshes(RunWorld(w, acts).ops)| <= 8
  {
    if acts == [] {
      assert Refreshes(w.ops) == {};
    } else {
      var before, last := acts[..|acts| - 1], acts[|acts| - 1];
      RefreshesBounded(w, before);
      NextMetered(RunWorld(w, before), last.action, last.time);
    }
  }

  // ----- the invariant of credential values

  /** Values from outside satisfy P. */
  ghost predicate InputHolds(a: Action, P: Credential -> bool) {
    match a
    case BeginUpdate(_, c, _) => P(c)
    case BeginRegister(_, c, newId, _) => P(Prepared(c, newId))
    case _ => true
  }

  lemma SaneAdmits(w: World, a: Action, now: nat)
    requires Holds(w, SaneCredential, SaneCredential) && InputHolds(a, SaneCredential)
    ensures Admits(w, a, now, SaneCredential, SaneCredential)
  {
    if (a.ComputeMark? || a.FinishCall? || a.Spawn?) && a.k in w.ops {
      var op := w.ops[a.k];
      assert OpHolds(op, SaneCredential, SaneCredential);
      if a.ComputeMark? && op.Computing? {
        MarkKeepsSane(op.snapshot, op.r, op.off, w.coolingOff, op.at);
      } else if a.FinishCall? && op.Calling? {
        RefreshKeepsValues(op.snapshot, a.o, now);
      }
    }
  }

  /** Although updates can be lost, every value ever held keeps level => exceeded => unavailable. */
  lemma {:induction false} ValuesSane(w: World, acts: seq<Timely>, now: nat)
    requires Fresh(w, SaneCredential) && TimeOrdered(acts, now)
    requires forall i :: 0 <= i < |acts| ==> InputHolds(acts[i].action, SaneCredential)
    ensures Inv(RunWorld(w, acts), RunTable(w, map[], acts), now, SaneCredential)
  {
    if acts != [] {
      var before, last := acts[..|acts| - 1], acts[|acts| - 1];
      ValuesSane(w, before, last.time);
      SaneAdmits(RunWorld(w, before), last.action, last.time);
      NextInv(RunWorld(w, before), RunTable(w, map[], before), last.action, last.time, SaneCredential);
      RepresentsLater(RunWorld(w, acts).scheduler, RunTable(w, map[], acts), last.time, now);
    }
  }

  /** No result computed in this step cuts a cooldown short. */
  predicate KeepsTimes(w: World, a: Action) {
    a.ComputeMark? && a.k in w.ops && w.ops[a.k].Computing? ==>
      var op := w.ops[a.k];
      !CutsShort(op.snapshot, op.r, op.off, w.coolingOff, op.at)
  }

  lemma PunctualAdmits(w: World, a: Action, now: nat)
    requires Holds(w, PunctualCredential, PunctualCredential) && InputHolds(a, PunctualCredential)
    requires KeepsTimes(w, a)
    ensures Admits(w, a, now, PunctualCredential, PunctualCredential)
  {
    if (a.ComputeMark? || a.FinishCall? || a.Spawn?) && a.k in w.ops {
      var op := w.ops[a.k];
      assert OpHolds(op, PunctualCredential, PunctualCredential);
      if a.ComputeMark? && op.Computing? {
        MarkKeepsPunctual(op.snapshot, op.r, op.off, w.coolingOff, op.at);
      } else if a.FinishCall? && op.Calling? {
        RefreshKeepsValues(op.snapshot, a.o, now);
      }
    }
  }

  /** Values from outside are punctual, and no retry hint cuts short a cooldown it is not part of. */
  ghost predicate PunctualRun(w: World, acts: seq<Timely>) {
    forall i :: 0 <= i < |acts| ==>
      && InputHolds(acts[i].action, PunctualCredential)
      && KeepsTimes(RunWorld(w, acts[..i]), acts[i].action)
  }

  lemma {:induction false} ValuesPunctual(w: World, acts: seq<Timely>, now: nat)
    requires Fresh(w, PunctualCredential) && TimeOrdered(acts, now) && PunctualRun(w, acts)
    ensures Inv(RunWorld(w, acts), RunTable(w, map[], acts), now, PunctualCredential)
  {
    if acts != [] {
      var before, last := acts[..|acts| - 1], acts[|acts| - 1];
      forall i | 0 <= i < |before| ensures before[..i] == acts[..i] && before[i] == acts[i] {}
      ValuesPunctual(w, before, last.time);
      PunctualAdmits(RunWorld(w, before), last.action, last.time);
      NextInv(RunWorld(w, before), RunTable(w, map[], before), last.action, last.time, PunctualCredential);
      RepresentsLater(RunWorld(w, acts).scheduler, RunTable(w, map[], acts), last.time, now);
    }
  }

  /** So under every such interleaving a pick answers as a scan of what the scheduler was told. */
  lemma InterleavedPickIsScan(w: World, acts: seq<Timely>, now: nat, provider: string, model: string,
                              tried: set<string>)
    requires Fresh(w, PunctualCredential) && TimeOrdered(acts, now) && PunctualRun(w, acts)
    ensures var s := RunWorld(w, acts).scheduler;
            Agrees(Of(RunTable(w, map[], acts), provider), ShardKey(model), s.strategy, tried, now,
                   Pick(s, provider, model, tried, now).outcome)
  {
    ValuesPunctual(w, acts, now);
    var t := RunTable(w, map[], acts);
    forall id | id in Of(t, provider) ensures PunctualFor(t[id], ShardKey(model)) {
      PunctualGate(t[id], ShardKey(model));
    }
    PickIsScan(RunWorld(w, acts).scheduler, t, provider, model, tried, now);
  }

  // ----- runs whose results carry no hint, as those of the gateway's own requests

  predicate HintFree(op: Op) {
    op.Marking? || op.Computing? ==> op.r.retryAfter.None?
  }

  predicate AllHintFree(w: World) {
    forall k :: k in w.ops ==> HintFree(w.ops[k])
  }

  lemma NextHintFree(w: World, a: Action, now: nat)
    requires AllHintFree(w)
    requires a.BeginMark? ==> a.r.retryAfter.None?
    ensures AllHintFree(Next(w, a, now))
  {
    if Writes(a) {
      WriteHintFree(w, a, now);
    } else if a.Spawn? || a.SkipCandidate? || a.EndCycle? || a.FinishCall? {
      CycleHintFree(w, a, now);
    }
  }

  lemma PutHintFree(w: World, k: nat, op: Op)
    requires AllHintFree(w) && HintFree(op)
    ensures AllHintFree(Put(w, k, op))
  {
  }

  lemma ContinueHintFree(w: World, k: nat, after: After)
    requires AllHintFree(w)
    ensures AllHintFree(Continue(w, k, after))
  {
  }

  lemma WriteHintFree(w: World, a: Action, now: nat)
    requires AllHintFree(w) && Writes(a)
    ensures AllHintFree(Next(w, a, now))
  {
    if a.k in w.ops {
      var op := w.ops[a.k];
      if a.WriteStore? && op.ToStore? {
        PutHintFree(w, a.k, ToMemory(op.c, op.after));
        ContinueHintFree(w, a.k, op.after);
      } else if a.WriteMemory? && op.ToMemory? {
        PutHintFree(w, a.k, ToScheduler(op.c, op.after));
      } else if a.WriteScheduler? && op.ToScheduler? {
        ContinueHintFree(w, a.k, op.after);
      } else if a.Unschedule? && op.ToUnschedule? {
        PutHintFree(w, a.k, ToDelete(op.id));
      } else if a.DeleteStored? {
        ContinueHintFree(w, a.k, Finish);
      }
    }
  }

  lemma CycleHintFree(w: World, a: Action, now: nat)
    requires AllHintFree(w) && (a.Spawn? || a.SkipCandidate? || a.EndCycle? || a.FinishCall?)
    ensures AllHintFree(Next(w, a, now))
  {
  }

  /** What can be checked of a run's actions alone. */
  ghost predicate HintFreeRun(acts: seq<Timely>) {
    forall i :: 0 <= i < |acts| ==>
      && InputHolds(acts[i].action, PunctualCredential)
      && (acts[i].action.BeginMark? ==> acts[i].action.r.retryAfter.None?)
  }

  lemma {:induction false} HintFreeOps(w: World, acts: seq<Timely>)
    requires w.ops == map[] && HintFreeRun(acts)
    ensures AllHintFree(RunWorld(w, acts))
  {
    if acts != [] {
      var before, last := acts[..|acts| - 1], acts[|acts| - 1];
      HintFreeOps(w, before);
      NextHintFree(RunWorld(w, before), last.action, last.time);
    }
  }

  lemma HintFreeIsPunctual(w: World, acts: seq<Timely>)
    requires w.ops == map[] && HintFreeRun(acts)
    ensures PunctualRun(w, acts)
  {
    forall i | 0 <= i < |acts| ensures KeepsTimes(RunWorld(w, acts[..i]), acts[i].action) {
      HintFreeOps(w, acts[..i]);
    }
  }

  /**
   * However the gateway's requests, refreshes and registrations overlap, a pick answers as a scan of what the
   * scheduler was told.
   */
  lemma HintFreePickIsScan(w: World, acts: seq<Timely>, now: nat, provider: string, model: string, tried: set<string>)
    requires Fresh(w, PunctualCredential) && TimeOrdered(acts, now) && HintFreeRun(acts)
    ensures var s := RunWorld(w, acts).scheduler;
            Agrees(Of(RunTable(w, map[], acts), provider), ShardKey(model), s.strategy, tried, now,
                   Pick(s, provider, model, tried, now).outcome)
  {
    HintFreeIsPunctual(w, acts);
    InterleavedPickIsScan(w, acts, now, provider, model, tried);
  }

  // ----- the stronger invariant of such runs

  lemma InStepAdmits(w: World, a: Action, now: nat)
    requires Holds(w, InStepCredential, InStepCredential) && InputHolds(a, InStepCredential) && AllHintFree(w)
    ensures Admits(w, a, now, InStepCredential, InStepCredential)
  {
    if (a.ComputeMark? || a.FinishCall? || a.Spawn?) && a.k in w.ops {
      var op := w.ops[a.k];
      assert OpHolds(op, InStepCredential, InStepCredential) && HintFree(op);
      if a.ComputeMark? && op.Computing? {
        MarkKeepsInStep(op.snapshot, op.r, op.off, w.coolingOff, op.at);
      } else if a.FinishCall? && op.Calling? {
        RefreshKeepsValues(op.snapshot, a.o, now);
      }
    }
  }

  /** Without hints, an exceeded quota recovers exactly at the retry time in every value ever held. */
  lemma {:induction false} ValuesInStep(w: World, acts: seq<Timely>, now: nat)
    requires Fresh(w, InStepCredential) && TimeOrdered(acts, now)
    requires forall i :: 0 <= i < |acts| ==>
               && InputHolds(acts[i].action, InStepCredential)
               && (acts[i].action.BeginMark? ==> acts[i].action.r.retryAfter.None?)
    ensures Inv(RunWorld(w, acts), RunTable(w, map[], acts), now, InStepCredential)
    ensures AllHintFree(RunWorld(w, acts))
  {
    if acts != [] {
      var before, last := acts[..|acts| - 1], acts[|acts| - 1];
      ValuesInStep(w, before, last.time);
      InStepAdmits(RunWorld(w, before), last.action, last.time);
      NextHintFree(RunWorld(w, before), last.action, last.time);
      NextInv(RunWorld(w, before), RunTable(w, map[], before), last.action, last.time, InStepCredential);
      RepresentsLater(RunWorld(w, acts).scheduler, RunTable(w, map[], acts), last.time, now);
    }
  }
}
