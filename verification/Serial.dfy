/**
 * The cut operations refine the whole ones: run from start to end with nothing in between, each has the effect that
 * the manager value's operation has, however the store behaves.
 */
module Serial {
  import opened Credentials
  import opened Scheduling
  import opened Lifecycle
  import opened Managing
  import opened Interleaving

  /** What is left of a world if one does not look at the operations under way. */
  function Visible(w: World): Manager {
    Manager(w.memory, w.store, w.scheduler, w.coolingOff)
  }

  /** The three writes of an update; those that do not apply change nothing. */
  ghost function Steps(w: World, k: nat, ok: bool, now: nat): World {
    Next(Next(Next(w, Action.WriteStore(k, ok), now), WriteMemory(k), now), WriteScheduler(k), now)
  }

  predicate Accepts(store: Option<Table>, c: Credential, create: bool, ok: bool) {
    store.None? || (ok && c.id != "" && (create <==> c.id !in store.value))
  }

  /** The operations and tokens after an update do not depend on whether it got through. */
  predicate Continued(w: World, w': World, k: nat, after: After) {
    w'.ops == Continue(w, k, after).ops && w'.tokens == Continue(w, k, after).tokens
  }

  lemma ContinueOver(w: World, w1: World, k: nat, op: Op, after: After)
    requires w1.ops == w.ops[k := op] && w1.tokens == w.tokens
    ensures Continued(w, Continue(w1, k, after), k, after)
  {
    assert w1.ops - {k} == w.ops - {k};
    assert after.CallRefresher? ==>
        w1.ops[k := Calling(after.snapshot)] == w.ops[k := Calling(after.snapshot)];
  }

  lemma LaterWrites(w: World, k: nat, c: Credential, after: After, now: nat)
    requires k in w.ops && w.ops[k] == ToMemory(c, after)
    ensures var w' := Next(Next(w, WriteMemory(k), now), WriteScheduler(k), now);
            Visible(w') == Commit(Visible(w), c, now) && Continued(w, w', k, after)
  {
    var w1 := Next(w, WriteMemory(k), now);
    ContinueOver(w, w1, k, ToScheduler(c, after), after);
  }

  lemma NothingLeft(w: World, k: nat, now: nat)
    requires k in w.ops ==> w.ops[k].Calling?
    ensures Next(Next(w, WriteMemory(k), now), WriteScheduler(k), now) == w
  {
  }

  /** An update from its store write on. */
  lemma StepsUpdate(w: World, k: nat, c: Credential, create: bool, after: After, ok: bool, now: nat)
    requires k in w.ops && w.ops[k] == ToStore(c, create, after)
    ensures var w' := Steps(w, k, ok, now);
            && Visible(w') == (if Accepts(w.store, c, create, ok) then
                                 Commit(Managing.WriteStore(Visible(w), c), c, now)
                               else Visible(w))
            && Continued(w, w', k, after)
  {
    var w1 := Next(w, Action.WriteStore(k, ok), now);
    if Accepts(w.store, c, create, ok) {
      ContinueOver(w, w1, k, ToMemory(c, after), after);
      LaterWrites(w1, k, c, after, now);
    } else {
      NothingLeft(w1, k, now);
    }
  }

  lemma StepsIsUpdate(w: World, k: nat, c: Credential, after: After, ok: bool, now: nat)
    requires k in w.ops && w.ops[k] == ToStore(c, false, after)
    ensures var w' := Steps(w, k, ok, now);
            Visible(w') == Update(Visible(w), c, true, ok, now) && Continued(w, w', k, after)
  {
    StepsUpdate(w, k, c, false, after, ok, now);
  }

  // ----- one operation at a time

  lemma SerialUpdate(w: World, k: nat, c: Credential, persist: bool, ok: bool, now: nat)
    requires k !in w.ops
    ensures var w' := Steps(Next(w, BeginUpdate(k, c, persist), now), k, ok, now);
            Visible(w') == Step(Visible(w), EUpdate(c, persist, ok), now) && w'.ops == w.ops && w'.tokens == w.tokens
  {
    var w1 := Next(w, BeginUpdate(k, c, persist), now);
    assert w1.ops - {k} == w.ops;
    if persist {
      StepsIsUpdate(w1, k, c, Finish, ok, now);
    } else {
      assert Next(w1, Action.WriteStore(k, ok), now) == w1;
      LaterWrites(w1, k, c, Finish, now);
    }
  }

  lemma SerialRegister(w: World, k: nat, c: Credential, newId: string, persist: bool, ok: bool, now: nat)
    requires k !in w.ops
    ensures var w' := Steps(Next(w, BeginRegister(k, c, newId, persist), now), k, ok, now);
            && Visible(w') == Step(Visible(w), ERegister(c, newId, persist, ok), now)
            && w'.ops == w.ops && w'.tokens == w.tokens
  {
    var w1 := Next(w, BeginRegister(k, c, newId, persist), now);
    if c.provider != "" {
      assert w1.ops - {k} == w.ops;
      if persist {
        StepsUpdate(w1, k, Prepared(c, newId), true, Finish, ok, now);
      } else {
        assert Next(w1, Action.WriteStore(k, ok), now) == w1;
        LaterWrites(w1, k, Prepared(c, newId), Finish, now);
      }
    }
  }

  lemma SerialDeregister(w: World, k: nat, id: string, ok: bool, now: nat)
    requires k !in w.ops
    ensures var w' := Next(Next(Next(w, BeginDeregister(k, id), now), Unschedule(k), now), DeleteStored(k, ok), now);
            Visible(w') == Step(Visible(w), EDeregister(id, true, ok), now) && w'.ops == w.ops && w'.tokens == w.tokens
  {
    var w1 := Next(w, BeginDeregister(k, id), now);
    if id != "" && id in w.memory {
      assert w1.ops[k] == ToUnschedule(id) && w1.ops - {k} == w.ops;
      RemovalSteps(w1, k, id, ok, now);
    }
  }

  lemma RemovalSteps(w: World, k: nat, id: string, ok: bool, now: nat)
    requires k in w.ops && w.ops[k] == ToUnschedule(id)
    ensures var w' := Next(Next(w, Unschedule(k), now), DeleteStored(k, ok), now);
            && w'.memory == w.memory && w'.scheduler == Remove(w.scheduler, id) && w'.coolingOff == w.coolingOff
            && w'.store == (if ok && w.store.Some? then Some(w.store.value - {id}) else w.store)
            && w'.ops == w.ops - {k} && w'.tokens == w.tokens
  {
    var w1 := Next(w, Unschedule(k), now);
    assert w1.ops[k] == ToDelete(id) && w1.ops - {k} == w.ops - {k};
  }

  /** A result, with the time and the switch read at once. */
  lemma SerialMark(w: World, k: nat, r: Result, ok: bool, now: nat)
    requires k !in w.ops
    ensures var w1 := Next(Next(Next(w, BeginMark(k, r), now), ReadSwitch(k), now), ComputeMark(k), now);
            var w' := Steps(w1, k, ok, now);
            Visible(w') == Step(Visible(w), EMark(r, ok), now) && w'.ops == w.ops && w'.tokens == w.tokens
  {
    var w1 := Next(w, BeginMark(k, r), now);
    if r.id != "" && r.id in w.memory {
      MarkComputed(w, k, r, now);
      var m := MarkCredential(w.memory[r.id], r, w.coolingOff, now);
      var w3 := Next(Next(w1, ReadSwitch(k), now), ComputeMark(k), now);
      if m.changed {
        assert w3.ops - {k} == w.ops;
        StepsIsUpdate(w3, k, m.cred, Finish, ok, now);
      }
    }
  }

  lemma MarkComputed(w: World, k: nat, r: Result, now: nat)
    requires k !in w.ops && r.id != "" && r.id in w.memory
    ensures var m := MarkCredential(w.memory[r.id], r, w.coolingOff, now);
            var w' := Next(Next(Next(w, BeginMark(k, r), now), ReadSwitch(k), now), ComputeMark(k), now);
            && Visible(w') == Visible(w) && w'.tokens == w.tokens
            && w'.ops == if m.changed then w.ops[k := ToStore(m.cred, false, Finish)] else w.ops
  {
    var w1 := Next(w, BeginMark(k, r), now);
    assert w1.ops == w.ops[k := Marking(w.memory[r.id], r)];
    var w2 := Next(w1, ReadSwitch(k), now);
    assert w2.ops == w.ops[k := Computing(w.memory[r.id], r, w.coolingOff, now)];
    assert w2.ops - {k} == w.ops;
  }

  lemma SerialPick(w: World, provider: string, model: string, tried: set<string>, now: nat)
    ensures var w' := Next(w, DoPick(provider, model, tried), now);
            Visible(w') == Step(Visible(w), EPick(provider, model, tried), now) && w'.ops == w.ops
  {
  }

  lemma SerialSwitch(w: World, off: bool, now: nat)
    ensures var w' := Next(w, SetCooling(off), now);
            Visible(w') == Step(Visible(w), ESetCooling(off), now) && w'.coolingOff == off && w'.ops == w.ops
  {
  }

  /** A cycle, for the credential it takes first: the refresh starts if a token is free, and gives it back. */
  lemma SerialRefresh(w: World, k: nat, child: nat, id: string, o: RefreshOutcome, firstOk: bool, lastOk: bool,
                      now: nat)
    requires k !in w.ops && child !in w.ops && k != child && w.tokens < MAX_REFRESHES
    requires Refreshable(Visible(w), id, now)
    ensures var w1 := Next(Next(w, BeginCycle(k), now), Spawn(k, child, w.memory[id]), now);
            var w2 := Steps(w1, child, firstOk, now);
            var w' := Steps(Next(w2, FinishCall(child, o), now), child, lastOk, now);
            && Visible(w') == Step(Visible(w), ERefresh(id, o, firstOk, lastOk), now)
            && child !in w'.ops && w'.tokens == w.tokens
  {
    var c := w.memory[id];
    var w1 := Spawned(w, k, child, id, now);
    StepsIsUpdate(w1, child, c.(status := Refreshing), CallRefresher(c), firstOk, now);
    Answered(Steps(w1, child, firstOk, now), child, c, o, lastOk, now);
  }

  /** The refresher's answer and the last update. */
  lemma Answered(w: World, child: nat, c: Credential, o: RefreshOutcome, ok: bool, now: nat)
    requires child in w.ops && w.ops[child] == Calling(c) && w.tokens > 0
    ensures var w' := Steps(Next(w, FinishCall(child, o), now), child, ok, now);
            && Visible(w') == Update(Visible(w), Refreshed(c, o, now), true, ok, now)
            && child !in w'.ops && w'.tokens == w.tokens - 1
  {
    var w1 := Next(w, FinishCall(child, o), now);
    assert w1.ops[child] == ToStore(Refreshed(c, o, now), false, EndRefresh);
    StepsIsUpdate(w1, child, Refreshed(c, o, now), EndRefresh, ok, now);
  }

  lemma Spawned(w: World, k: nat, child: nat, id: string, now: nat) returns (w1: World)
    requires k !in w.ops && child !in w.ops && k != child && w.tokens < MAX_REFRESHES
    requires Refreshable(Visible(w), id, now)
    ensures w1 == Next(Next(w, BeginCycle(k), now), Spawn(k, child, w.memory[id]), now)
    ensures Visible(w1) == Visible(w) && w1.tokens == w.tokens + 1 && child in w1.ops
    ensures w1.ops[child] == ToStore(w.memory[id].(status := Refreshing), false, CallRefresher(w.memory[id]))
  {
    var w0 := Next(w, BeginCycle(k), now);
    assert w.memory[id] in RefreshCandidates(w, now);
    w1 := Next(w0, Spawn(k, child, w.memory[id]), now);
  }

  /** A cycle takes exactly what is due. */
  lemma CycleTakes(w: World, now: nat, c: Credential)
    ensures c in RefreshCandidates(w, now) <==>
            exists id :: id in w.memory && w.memory[id] == c && Refreshable(Visible(w), id, now)
  {
  }

  // ----- a cycle ends

  lemma {:induction false} RunPrepend(w: World, a: Timely, acts: seq<Timely>)
    ensures RunWorld(w, [a] + acts) == RunWorld(Next(w, a.action, a.time), acts)
  {
    var all := [a] + acts;
    if acts == [] {
      assert all == [a] && all[..0] == [];
    } else {
      assert all[..|all| - 1] == [a] + acts[..|acts| - 1];
      RunPrepend(w, a, acts[..|acts| - 1]);
    }
  }

  /** A cycle that finds no refresher passes over its candidates and is over, without a trace. */
  lemma {:induction false} CycleEnds(w: World, k: nat, now: nat) returns (acts: seq<Timely>)
    requires k in w.ops && w.ops[k].Cycling?
    ensures var w' := RunWorld(w, acts);
            Visible(w') == Visible(w) && w'.tokens == w.tokens && w'.ops == w.ops - {k}
    ensures |acts| == |w.ops[k].candidates| + 1
    decreases |w.ops[k].candidates|
  {
    var candidates := w.ops[k].candidates;
    if candidates == {} {
      acts := [Timely(EndCycle(k), now)];
      assert acts[..0] == [];
    } else {
      var c :| c in candidates;
      var a := Timely(SkipCandidate(k, c), now);
      var w1 := Next(w, a.action, now);
      assert w1.ops[k] == Cycling(candidates - {c}) && w1.ops - {k} == w.ops - {k};
      var rest := CycleEnds(w1, k, now);
      RunPrepend(w, a, rest);
      acts := [a] + rest;
    }
  }
}
