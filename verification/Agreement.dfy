/**
 * Whether scheduler, memory and store agree under overlapping operations: what a step does to the agreement, what
 * decides it over whole runs, and how it is lost.
 */
module Agreement {
  import opened Credentials
  import opened Scheduling
  import opened Lifecycle
  import opened Managing
  import opened Interleaving

  // ----- scheduler and memory

  /** What the scheduler should be told about the ID. */
  function Says(memory: Table, id: string): Option<Credential> {
    if id in memory && Schedulable(memory[id]) then Some(memory[id]) else None
  }

  /** What an operation that is due to tell the scheduler will tell. */
  function Tale(op: Op): Option<Credential> {
    if op.ToScheduler? && Schedulable(op.c) then Some(op.c) else None
  }

  /** The scheduler was told what memory says about the ID. */
  predicate InStepOn(memory: Table, t: Table, id: string) {
    Says(memory, id) == if id in t then Some(t[id]) else None
  }

  /** The operation will tell the scheduler what memory now says about the ID. */
  predicate Owes(op: Op, memory: Table, id: string) {
    || (op.ToScheduler? && op.c.id == id && id in memory && memory[id] == op.c)
    || (op.ToUnschedule? && op.id == id && id !in memory)
  }

  /** In step, but for what is still to be told. */
  predicate Follows(w: World, t: Table, id: string) {
    InStepOn(w.memory, t, id) || exists k :: k in w.ops && Owes(w.ops[k], w.memory, id)
  }

  /** The step writes memory for the ID. */
  predicate WritesMemory(w: World, a: Action, id: string) {
    || (a.WriteMemory? && a.k in w.ops && w.ops[a.k].ToMemory? && w.ops[a.k].c.id == id)
    || (a.BeginDeregister? && a.k !in w.ops && a.id == id && id != "" && id in w.memory)
  }

  /** The step tells the scheduler about the ID. */
  predicate Tells(w: World, a: Action, id: string) {
    || (a.WriteScheduler? && a.k in w.ops && w.ops[a.k].ToScheduler? && w.ops[a.k].c.id == id)
    || (a.Unschedule? && a.k in w.ops && w.ops[a.k].ToUnschedule? && w.ops[a.k].id == id)
  }

  /** A belated write: what it tells is not what memory says, and nobody else is about to tell that. */
  predicate Belated(w: World, a: Action, id: string) {
    && Tells(w, a, id) && Tale(w.ops[a.k]) != Says(w.memory, id)
    && forall k :: k in w.ops && k != a.k ==> !Owes(w.ops[k], w.memory, id)
  }

  lemma TellFollows(w: World, t: Table, a: Action, now: nat, id: string)
    requires Tells(w, a, id)
    ensures Follows(Next(w, a, now), NextTable(w, t, a), id) <==> !Belated(w, a, id)
  {
    var w' := Next(w, a, now);
    assert w'.memory == w.memory;
    forall k ensures k in w'.ops && Owes(w'.ops[k], w.memory, id) <==>
                     k != a.k && k in w.ops && Owes(w.ops[k], w.memory, id) {}
  }

  lemma WriteFollows(w: World, t: Table, a: Action, now: nat, id: string)
    requires WritesMemory(w, a, id)
    ensures Follows(Next(w, a, now), NextTable(w, t, a), id)
  {
    assert Owes(Next(w, a, now).ops[a.k], Next(w, a, now).memory, id);
  }

  /** The operation's next step tells the scheduler about the ID. */
  predicate Due(ops: map<nat, Op>, k: nat, id: string) {
    k in ops && ((ops[k].ToScheduler? && ops[k].c.id == id) || (ops[k].ToUnschedule? && ops[k].id == id))
  }

  /** The operation is there before and after, unchanged, or not due both times. */
  predicate SameDue(ops: map<nat, Op>, ops': map<nat, Op>, k: nat, id: string) {
    (Due(ops, k, id) <==> Due(ops', k, id)) && (Due(ops, k, id) ==> ops'[k] == ops[k])
  }

  lemma ContinueDue(w: World, k0: nat, after: After, id: string, k: nat)
    requires !Due(w.ops, k0, id)
    ensures SameDue(w.ops, Continue(w, k0, after).ops, k, id)
  {
  }

  lemma PutDue(w: World, k0: nat, op: Op, id: string, k: nat)
    requires !Due(w.ops, k0, id) && !Due(map[k0 := op], k0, id)
    ensures SameDue(w.ops, Put(w, k0, op).ops, k, id)
  {
  }

  lemma WriteDue(w: World, a: Action, now: nat, id: string, k: nat)
    requires Writes(a)
    requires !WritesMemory(w, a, id) && !Tells(w, a, id)
    ensures SameDue(w.ops, Next(w, a, now).ops, k, id)
  {
    if a.k in w.ops {
      var op := w.ops[a.k];
      if a.WriteStore? && op.ToStore? {
        PutDue(w, a.k, ToMemory(op.c, op.after), id, k);
        ContinueDue(w, a.k, op.after, id, k);
      } else if a.WriteMemory? && op.ToMemory? {
        PutDue(w, a.k, ToScheduler(op.c, op.after), id, k);
      } else if a.WriteScheduler? && op.ToScheduler? {
        ContinueDue(w, a.k, op.after, id, k);
      } else if a.Unschedule? && op.ToUnschedule? {
        PutDue(w, a.k, ToDelete(op.id), id, k);
      } else if a.DeleteStored? && op.ToDelete? {
        ContinueDue(w, a.k, Finish, id, k);
      }
    }
  }

  lemma SpawnDue(w: World, a: Action, now: nat, id: string, k: nat)
    requires a.Spawn?
    ensures SameDue(w.ops, Next(w, a, now).ops, k, id)
  {
  }

  lemma AdvanceDue(w: World, a: Action, now: nat, id: string, k: nat)
    requires a.SkipCandidate? || a.EndCycle? || a.FinishCall? || a.ReadSwitch? || a.ComputeMark?
    ensures SameDue(w.ops, Next(w, a, now).ops, k, id)
  {
    if a.k in w.ops {
      var op := w.ops[a.k];
      if a.SkipCandidate? && op.Cycling? {
        PutDue(w, a.k, Cycling(op.candidates - {a.c}), id, k);
      } else if a.EndCycle? && op.Cycling? {
        ContinueDue(w, a.k, Finish, id, k);
      } else if a.FinishCall? && op.Calling? {
        PutDue(w, a.k, ToStore(Refreshed(op.snapshot, a.o, now), false, EndRefresh), id, k);
      } else if a.ReadSwitch? && op.Marking? {
        PutDue(w, a.k, Computing(op.snapshot, op.r, w.coolingOff, now), id, k);
      } else if a.ComputeMark? && op.Computing? {
        PutDue(w, a.k, ToStore(Computed(w, op).cred, false, Finish), id, k);
        ContinueDue(w, a.k, Finish, id, k);
      }
    }
  }

  lemma DueElsewhere(w: World, a: Action, now: nat, id: string, k: nat)
    requires !WritesMemory(w, a, id) && !Tells(w, a, id)
    ensures SameDue(w.ops, Next(w, a, now).ops, k, id)
  {
    if Writes(a) {
      WriteDue(w, a, now, id, k);
    } else if a.Spawn? {
      SpawnDue(w, a, now, id, k);
    } else if a.SkipCandidate? || a.EndCycle? || a.FinishCall? || a.ReadSwitch? || a.ComputeMark? {
      AdvanceDue(w, a, now, id, k);
    }
  }

  lemma OthersFollow(w: World, t: Table, a: Action, now: nat, id: string)
    requires !WritesMemory(w, a, id) && !Tells(w, a, id)
    ensures Follows(Next(w, a, now), NextTable(w, t, a), id) <==> Follows(w, t, id)
  {
    UntouchedElsewhere(w, t, a, now, id);
    forall k ensures SameDue(w.ops, Next(w, a, now).ops, k, id) {
      DueElsewhere(w, a, now, id, k);
    }
    SameDebts(w, t, Next(w, a, now), NextTable(w, t, a), id);
  }

  lemma SameDebts(w: World, t: Table, w': World, t': Table, id: string)
    requires InStepOn(w.memory, t, id) == InStepOn(w'.memory, t', id)
    requires (id in w'.memory <==> id in w.memory) && (id in w.memory ==> w'.memory[id] == w.memory[id])
    requires forall k :: SameDue(w.ops, w'.ops, k, id)
    ensures Follows(w', t', id) <==> Follows(w, t, id)
  {
    forall k ensures k in w.ops && Owes(w.ops[k], w.memory, id) <==> k in w'.ops && Owes(w'.ops[k], w'.memory, id) {
      assert SameDue(w.ops, w'.ops, k, id);
    }
  }

  lemma UntouchedElsewhere(w: World, t: Table, a: Action, now: nat, id: string)
    requires !WritesMemory(w, a, id) && !Tells(w, a, id)
    ensures var w', t' := Next(w, a, now), NextTable(w, t, a);
            && (id in w'.memory <==> id in w.memory) && (id in w.memory ==> w'.memory[id] == w.memory[id])
            && (id in t' <==> id in t) && (id in t ==> t'[id] == t[id])
  {
    MemoryElsewhere(w, a, now, id);
  }

  lemma MemoryElsewhere(w: World, a: Action, now: nat, id: string)
    requires !WritesMemory(w, a, id)
    ensures var w' := Next(w, a, now);
            (id in w'.memory <==> id in w.memory) && (id in w.memory ==> w'.memory[id] == w.memory[id])
  {
    if !a.WriteMemory? && !a.BeginDeregister? {
      MemoryUntouched(w, a, now);
    }
  }

  lemma MemoryUntouched(w: World, a: Action, now: nat)
    requires !a.WriteMemory? && !a.BeginDeregister?
    ensures Next(w, a, now).memory == w.memory
  {
  }

  /**
   * Step by step: a write to memory leaves the scheduler in step but for what is owed; a write to the scheduler does
   * so exactly if it is not belated; no other step matters.
   */
  lemma NextFollows(w: World, t: Table, a: Action, now: nat, id: string)
    ensures var after := Follows(Next(w, a, now), NextTable(w, t, a), id);
            if WritesMemory(w, a, id) then after
            else if Tells(w, a, id) then after <==> !Belated(w, a, id)
            else after <==> Follows(w, t, id)
  {
    if WritesMemory(w, a, id) {
      WriteFollows(w, t, a, now, id);
    } else if Tells(w, a, id) {
      TellFollows(w, t, a, now, id);
    } else {
      OthersFollow(w, t, a, now, id);
    }
  }

  ghost predicate TouchedAt(w: World, acts: seq<Timely>, i: nat, id: string)
    requires i < |acts|
  {
    var w1 := RunWorld(w, acts[..i]);
    WritesMemory(w1, acts[i].action, id) || Tells(w1, acts[i].action, id)
  }

  ghost predicate BelatedAt(w: World, acts: seq<Timely>, i: nat, id: string)
    requires i < |acts|
  {
    Belated(RunWorld(w, acts[..i]), acts[i].action, id)
  }

  ghost predicate LastWord(w: World, acts: seq<Timely>, i: nat, id: string) {
    i < |acts| && BelatedAt(w, acts, i, id) && forall j: nat :: i < j < |acts| ==> !TouchedAt(w, acts, j, id)
  }

  /** The run's last step about the ID is a belated write. */
  ghost predicate EndsBelated(w: World, acts: seq<Timely>, id: string) {
    exists i: nat :: LastWord(w, acts, i, id)
  }

  lemma PrefixRun(w: World, acts: seq<Timely>, i: nat, id: string)
    requires i < |acts| - 1
    ensures TouchedAt(w, acts[..|acts| - 1], i, id) == TouchedAt(w, acts, i, id)
    ensures BelatedAt(w, acts[..|acts| - 1], i, id) == BelatedAt(w, acts, i, id)
  {
    assert acts[..|acts| - 1][..i] == acts[..i];
  }

  lemma LastWordStep(w: World, acts: seq<Timely>, i: nat, id: string)
    requires i < |acts| - 1
    ensures LastWord(w, acts, i, id) <==>
            LastWord(w, acts[..|acts| - 1], i, id) && !TouchedAt(w, acts, |acts| - 1, id)
  {
    var n := |acts| - 1;
    var before := acts[..n];
    PrefixRun(w, acts, i, id);
    forall j: nat | i < j < n ensures TouchedAt(w, before, j, id) == TouchedAt(w, acts, j, id) {
      PrefixRun(w, acts, j, id);
    }
    if LastWord(w, before, i, id) && !TouchedAt(w, acts, n, id) {
      forall j: nat | i < j < |acts| ensures !TouchedAt(w, acts, j, id) {
        if j < n { assert !TouchedAt(w, before, j, id); }
      }
    }
  }

  lemma EndsBelatedStep(w: World, acts: seq<Timely>, id: string)
    requires acts != []
    ensures var n := |acts| - 1;
            EndsBelated(w, acts, id) <==>
            BelatedAt(w, acts, n, id) || (!TouchedAt(w, acts, n, id) && EndsBelated(w, acts[..n], id))
  {
    var n := |acts| - 1;
    assert LastWord(w, acts, n, id) <==> BelatedAt(w, acts, n, id);
    forall i: nat | i < n
      ensures LastWord(w, acts, i, id) <==> LastWord(w, acts[..n], i, id) && !TouchedAt(w, acts, n, id)
    {
      LastWordStep(w, acts, i, id);
    }
  }

  /** Over every run, the scheduler follows memory on the ID if and only if the last word was not a belated one. */
  lemma {:induction false} RunFollows(w: World, t: Table, acts: seq<Timely>, id: string)
    requires Follows(w, t, id)
    ensures Follows(RunWorld(w, acts), RunTable(w, t, acts), id) <==> !EndsBelated(w, acts, id)
  {
    if acts != [] {
      var before, last := acts[..|acts| - 1], acts[|acts| - 1];
      RunFollows(w, t, before, id);
      NextFollows(RunWorld(w, before), RunTable(w, t, before), last.action, last.time, id);
      EndsBelatedStep(w, acts, id);
    }
  }

  lemma InStepEverywhere(memory: Table, t: Table)
    ensures t == Projection(memory) <==> forall id :: InStepOn(memory, t, id)
  {
    if forall id :: InStepOn(memory, t, id) {
      forall id ensures id in t <==> id in Projection(memory) {
        assert InStepOn(memory, t, id);
      }
      forall id | id in t ensures t[id] == memory[id] {
        assert InStepOn(memory, t, id);
      }
    }
  }

  /** Nobody is about to tell the scheduler anything; cycles, calls and earlier stages of updates may be under way. */
  predicate Quiet(w: World) {
    forall k :: k in w.ops ==> !w.ops[k].ToScheduler? && !w.ops[k].ToUnschedule?
  }

  lemma QuietOn(w: World, acts: seq<Timely>, id: string)
    requires w.memory == map[] && Quiet(RunWorld(w, acts))
    ensures InStepOn(RunWorld(w, acts).memory, RunTable(w, map[], acts), id) <==> !EndsBelated(w, acts, id)
  {
    assert InStepOn(w.memory, map[], id);
    RunFollows(w, map[], acts, id);
  }

  /** From a fresh start, once quiet: the scheduler was told exactly the schedulable part of memory. */
  lemma QuietCoherence(w: World, acts: seq<Timely>)
    requires w.memory == map[] && Quiet(RunWorld(w, acts))
    ensures RunTable(w, map[], acts) == Projection(RunWorld(w, acts).memory) <==>
            forall id :: !EndsBelated(w, acts, id)
  {
    InStepEverywhere(RunWorld(w, acts).memory, RunTable(w, map[], acts));
    forall id ensures InStepOn(RunWorld(w, acts).memory, RunTable(w, map[], acts), id) <==>
                      !EndsBelated(w, acts, id) {
      QuietOn(w, acts, id);
    }
  }

  // ----- a discipline that suffices

  /** Memory is written for the ID only while nobody is due to tell about it. */
  predicate Orderly(w: World, a: Action, id: string) {
    WritesMemory(w, a, id) ==> forall k :: k in w.ops ==> !Due(w.ops, k, id)
  }

  /** Whoever is due to tell about the ID will tell what memory says. */
  predicate Honest(w: World, id: string) {
    forall k :: k in w.ops && Due(w.ops, k, id) ==> Owes(w.ops[k], w.memory, id)
  }

  lemma NextHonest(w: World, t: Table, a: Action, now: nat, id: string)
    requires Honest(w, id) && Orderly(w, a, id)
    ensures Honest(Next(w, a, now), id) && !Belated(w, a, id)
  {
    if WritesMemory(w, a, id) {
      WriteHonest(w, a, now, id);
    } else if Tells(w, a, id) {
      TellHonest(w, a, now, id);
    } else {
      var w' := Next(w, a, now);
      UntouchedElsewhere(w, t, a, now, id);
      forall k | k in w'.ops && Due(w'.ops, k, id) ensures Owes(w'.ops[k], w'.memory, id) {
        DueElsewhere(w, a, now, id, k);
      }
    }
  }

  lemma WriteHonest(w: World, a: Action, now: nat, id: string)
    requires Orderly(w, a, id) && WritesMemory(w, a, id)
    ensures Honest(Next(w, a, now), id)
  {
    var w' := Next(w, a, now);
    forall k | k in w'.ops && Due(w'.ops, k, id) ensures k == a.k {
      assert k != a.k ==> Due(w.ops, k, id);
    }
  }

  lemma TellHonest(w: World, a: Action, now: nat, id: string)
    requires Honest(w, id) && Tells(w, a, id)
    ensures Honest(Next(w, a, now), id) && !Belated(w, a, id)
  {
    var w' := Next(w, a, now);
    forall k | k in w'.ops && Due(w'.ops, k, id) ensures Owes(w'.ops[k], w'.memory, id) {
      assert k != a.k && Due(w.ops, k, id);
    }
    assert Due(w.ops, a.k, id);
  }

  /** If that is kept throughout a run, the scheduler follows memory on the ID. */
  lemma {:induction false} OrderlyFollows(w: World, t: Table, acts: seq<Timely>, id: string)
    requires Follows(w, t, id) && Honest(w, id)
    requires forall i :: 0 <= i < |acts| ==> Orderly(RunWorld(w, acts[..i]), acts[i].action, id)
    ensures Follows(RunWorld(w, acts), RunTable(w, t, acts), id) && Honest(RunWorld(w, acts), id)
  {
    if acts != [] {
      var before, last := acts[..|acts| - 1], acts[|acts| - 1];
      forall i | 0 <= i < |before| ensures before[..i] == acts[..i] && before[i] == acts[i] {}
      OrderlyFollows(w, t, before, id);
      assert Orderly(RunWorld(w, before), last.action, id);
      NextHonest(RunWorld(w, before), RunTable(w, t, before), last.action, last.time, id);
      NextFollows(RunWorld(w, before), RunTable(w, t, before), last.action, last.time, id);
    }
  }

  lemma TwoBegun(w: World, c: Credential, off: Credential, now: nat) returns (w': World)
    requires w.ops == map[]
    ensures w' == Next(Next(w, BeginUpdate(0, c, false), now), BeginUpdate(1, off, false), now)
    ensures w'.ops == map[0 := ToMemory(c, Finish), 1 := ToMemory(off, Finish)] && w'.memory == w.memory
  {
    w' := Next(Next(w, BeginUpdate(0, c, false), now), BeginUpdate(1, off, false), now);
  }

  lemma MemoryStep(w: World, k: nat, c: Credential, now: nat)
    requires k in w.ops && w.ops[k] == ToMemory(c, Finish)
    ensures var w' := Next(w, WriteMemory(k), now);
            && w'.ops == w.ops[k := ToScheduler(c, Finish)] && w'.memory == w.memory[c.id := c] && w'.store == w.store
  {
  }

  lemma TwoInMemory(w: World, c: Credential, off: Credential, now: nat) returns (w': World)
    requires w.ops == map[] && off.id == c.id
    ensures w' == Next(Next(Next(Next(w, BeginUpdate(0, c, false), now), BeginUpdate(1, off, false), now),
                            WriteMemory(0), now), WriteMemory(1), now)
    ensures w'.ops == map[0 := ToScheduler(c, Finish), 1 := ToScheduler(off, Finish)]
    ensures w'.memory == w.memory[c.id := off]
  {
    var w1 := TwoBegun(w, c, off, now);
    MemoryStep(w1, 0, c, now);
    var w2 := Next(w1, WriteMemory(0), now);
    MemoryStep(w2, 1, off, now);
    w' := Next(w2, WriteMemory(1), now);
  }

  lemma TellLast(w: World, k: nat, c: Credential, now: nat)
    requires k in w.ops && w.ops[k] == ToScheduler(c, Finish)
    ensures var w' := Next(w, WriteScheduler(k), now);
            && w'.ops == w.ops - {k} && w'.memory == w.memory && w'.store == w.store
            && (Schedulable(c) ==> c.id in w'.scheduler.owner)
  {
  }

  /**
   * Two crossing updates of one credential: both are in memory before either is told, and they are told in the
   * other order. With nothing under way, memory has it disabled and the scheduler still owns it.
   */
  lemma CrossedUpdates(w: World, c: Credential, now: nat)
    requires w.ops == map[] && Schedulable(c)
    ensures var off := c.(status := Disabled);
            var w2 := Next(Next(Next(Next(w, BeginUpdate(0, c, false), now), BeginUpdate(1, off, false), now),
                                WriteMemory(0), now), WriteMemory(1), now);
            var w3 := Next(Next(w2, WriteScheduler(1), now), WriteScheduler(0), now);
            w3.ops == map[] && w3.memory == w.memory[c.id := off] && c.id in w3.scheduler.owner
  {
    var off := c.(status := Disabled);
    var w2 := TwoInMemory(w, c, off, now);
    TellLast(w2, 1, off, now);
    TellLast(Next(w2, WriteScheduler(1), now), 0, c, now);
  }

  // ----- memory and store

  /** A value of the ID is past its write to the store and on its way to memory. */
  predicate CarriedBy(ops: map<nat, Op>, k: nat, id: string) {
    k in ops && ops[k].ToMemory? && ops[k].c.id == id
  }

  predicate Carried(ops: map<nat, Op>, id: string) {
    exists k :: k in ops && CarriedBy(ops, k, id)
  }

  /** An ID in memory, or on its way there, is in the store. */
  predicate Backed(w: World, id: string)
    requires w.store.Some?
  {
    id in w.memory || Carried(w.ops, id) ==> id in w.store.value
  }

  predicate Deletes(w: World, a: Action, id: string) {
    a.DeleteStored? && a.ok && a.k in w.ops && w.ops[a.k].ToDelete? && w.ops[a.k].id == id
  }

  /** The step starts a write past the store for an ID not stored, or deletes one that is in memory or on its way. */
  predicate Unbacks(w: World, a: Action, id: string)
    requires w.store.Some?
  {
    match a
    case BeginUpdate(k, c, persist) => k !in w.ops && !persist && c.id == id && id !in w.store.value
    case BeginRegister(k, c, newId, persist) =>
      k !in w.ops && c.provider != "" && !persist && Prepared(c, newId).id == id && id !in w.store.value
    case DeleteStored(k, ok) => Deletes(w, a, id) && (id in w.memory || Carried(w.ops, id))
    case _ => false
  }

  /** Where a value on its way to memory comes from. */
  lemma CarrierOrigin(w: World, a: Action, now: nat, id: string, k: nat)
    requires w.store.Some? && CarriedBy(Next(w, a, now).ops, k, id) && !Unbacks(w, a, id)
    ensures CarriedBy(w.ops, k, id) || id in Next(w, a, now).store.value
  {
    if Writes(a) {
      WriteCarries(w, a, now, id, k);
    } else if !a.BeginUpdate? && !a.BeginRegister? {
      OthersCarry(w, a, now, id, k);
    }
  }

  lemma WriteCarries(w: World, a: Action, now: nat, id: string, k: nat)
    requires w.store.Some? && CarriedBy(Next(w, a, now).ops, k, id) && Writes(a)
    ensures CarriedBy(w.ops, k, id) || id in Next(w, a, now).store.value
  {
  }

  lemma OthersCarry(w: World, a: Action, now: nat, id: string, k: nat)
    requires CarriedBy(Next(w, a, now).ops, k, id) && !Writes(a) && !a.BeginUpdate? && !a.BeginRegister?
    ensures CarriedBy(w.ops, k, id)
  {
  }

  /** What a step can do to the ID in memory and store. */
  lemma TablesNext(w: World, a: Action, now: nat, id: string)
    requires w.store.Some?
    ensures var w' := Next(w, a, now);
            && w'.store.Some?
            && (id in w'.memory ==> id in w.memory || (a.WriteMemory? && CarriedBy(w.ops, a.k, id)))
            && (id in w.store.value && id !in w'.store.value ==> Deletes(w, a, id))
  {
    MemoryGrows(w, a, now, id);
  }

  lemma MemoryGrows(w: World, a: Action, now: nat, id: string)
    ensures id in Next(w, a, now).memory ==> id in w.memory || (a.WriteMemory? && CarriedBy(w.ops, a.k, id))
  {
  }

  lemma BackedKept(w: World, a: Action, now: nat, id: string)
    requires w.store.Some? && Backed(w, id) && !Unbacks(w, a, id)
    ensures Next(w, a, now).store.Some? && Backed(Next(w, a, now), id)
  {
    var w' := Next(w, a, now);
    TablesNext(w, a, now, id);
    if k :| k in w'.ops && CarriedBy(w'.ops, k, id) {
      CarrierOrigin(w, a, now, id, k);
    }
  }

  lemma BackedLost(w: World, a: Action, now: nat, id: string)
    requires w.store.Some? && Unbacks(w, a, id)
    ensures Next(w, a, now).store.Some? && !Backed(Next(w, a, now), id)
  {
    var w' := Next(w, a, now);
    if a.DeleteStored? {
      if k :| k in w.ops && CarriedBy(w.ops, k, id) {
        assert CarriedBy(w'.ops, k, id);
      }
    } else {
      assert CarriedBy(w'.ops, a.k, id);
    }
  }

  /** Exactly such steps break it. */
  lemma NextBacked(w: World, a: Action, now: nat, id: string)
    requires w.store.Some? && Backed(w, id)
    ensures Next(w, a, now).store.Some?
    ensures Backed(Next(w, a, now), id) <==> !Unbacks(w, a, id)
  {
    if Unbacks(w, a, id) {
      BackedLost(w, a, now, id);
    } else {
      BackedKept(w, a, now, id);
    }
  }

  lemma {:induction false} RunBacked(w: World, acts: seq<Timely>, id: string)
    requires w.store.Some? && Backed(w, id)
    requires forall i :: 0 <= i < |acts| ==>
               var w1 := RunWorld(w, acts[..i]); w1.store.Some? ==> !Unbacks(w1, acts[i].action, id)
    ensures RunWorld(w, acts).store.Some? && Backed(RunWorld(w, acts), id)
  {
    if acts != [] {
      var before, last := acts[..|acts| - 1], acts[|acts| - 1];
      forall i | 0 <= i < |before| ensures before[..i] == acts[..i] && before[i] == acts[i] {}
      RunBacked(w, before, id);
      NextBacked(RunWorld(w, before), last.action, last.time, id);
    }
  }

  /** The whole of a removal, with nothing in between. */
  ghost function FinishRemoval(w: World, k: nat, id: string, now: nat): World {
    Next(Next(Next(w, BeginDeregister(k, id), now), Unschedule(k), now), DeleteStored(k, true), now)
  }

  lemma RemovalWrites(w: World, k: nat, id: string, now: nat)
    requires k !in w.ops && id != "" && id in w.memory && w.store.Some?
    ensures var w' := FinishRemoval(w, k, id, now);
            w'.ops == w.ops && w'.memory == w.memory - {id} && w'.store == Some(w.store.value - {id})
  {
    var w1 := Next(w, BeginDeregister(k, id), now);
    assert w1.ops[k] == ToUnschedule(id) && w1.ops - {k} == w.ops;
    var w2 := Next(w1, Unschedule(k), now);
    assert w2.ops[k] == ToDelete(id) && w2.ops - {k} == w.ops;
  }

  /**
   * An update that is past its store write when the credential is removed brings it back into memory and scheduler,
   * but not into the store. Nothing is under way then, so only a restart forgets it.
   */
  lemma RemovalUndone(w: World, c: Credential, now: nat)
    requires w.ops == map[] && c.id in w.memory && Schedulable(c) && w.store.Some? && c.id in w.store.value
    ensures var w1 := Next(Next(w, BeginUpdate(0, c, true), now), WriteStore(0, true), now);
            var w2 := FinishRemoval(w1, 1, c.id, now);
            var w3 := Next(Next(w2, WriteMemory(0), now), WriteScheduler(0), now);
            && c.id !in w2.memory && w3.ops == map[] && c.id in w3.memory && c.id in w3.scheduler.owner
            && w3.store.Some? && c.id !in w3.store.value
  {
    var w1 := UpdateStored(w, c, now);
    RemovalWrites(w1, 1, c.id, now);
    var w2 := FinishRemoval(w1, 1, c.id, now);
    MemoryStep(w2, 0, c, now);
    TellLast(Next(w2, WriteMemory(0), now), 0, c, now);
  }

  lemma UpdateStored(w: World, c: Credential, now: nat) returns (w': World)
    requires w.ops == map[] && c.id != "" && w.store.Some? && c.id in w.store.value
    ensures w' == Next(Next(w, BeginUpdate(0, c, true), now), WriteStore(0, true), now)
    ensures w'.ops == map[0 := ToMemory(c, Finish)] && w'.memory == w.memory
    ensures w'.store == Some(w.store.value[c.id := c])
  {
    var w1 := Next(w, BeginUpdate(0, c, true), now);
    assert w1.ops == map[0 := ToStore(c, false, Finish)];
    w' := Next(w1, WriteStore(0, true), now);
  }
}
