/** Whole histories of scheduler operations: the incremental index always agrees with a rebuild and with a scan. */
module History {
  import opened Credentials
  import opened Blocking
  import opened Shards
  import opened Picking
  import opened Scheduling

  datatype Op =
    | DoUpsert(c: Credential)
    | DoRemove(id: string)
    | DoRebuild(cs: seq<Credential>)
    | DoSetStrategy(strategy: Strategy)
    | DoPick(provider: string, model: string, tried: set<string>)

  datatype Timed = Timed(op: Op, at: nat)

  ghost function Apply(s: Scheduler, e: Timed): Scheduler {
    match e.op
    case DoUpsert(c) => Upsert(s, c, e.at)
    case DoRemove(id) => Remove(s, id)
    case DoRebuild(cs) => Rebuild(s, cs, e.at)
    case DoSetStrategy(strategy) => s.(strategy := strategy)
    case DoPick(provider, model, tried) => Pick(s, provider, model, tried, e.at).scheduler
  }

  /** What the operations mean for the table of scheduled credentials. */
  function ApplyTable(t: Table, op: Op): Table {
    match op
    case DoUpsert(c) => TableUpsert(t, c)
    case DoRemove(id) => t - {id}
    case DoRebuild(cs) => TableUpsertAll(map[], cs)
    case DoSetStrategy(_) => t
    case DoPick(_, _, _) => t
  }

  ghost function Run(s: Scheduler, es: seq<Timed>): Scheduler {
    if es == [] then s else Apply(Run(s, es[..|es| - 1]), es[|es| - 1])
  }

  function RunTable(t: Table, es: seq<Timed>): Table {
    if es == [] then t else ApplyTable(RunTable(t, es[..|es| - 1]), es[|es| - 1].op)
  }

  /** Time does not run backwards, and `now` is not before the last operation. */
  predicate Ordered(es: seq<Timed>, now: nat) {
    && (forall i, j :: 0 <= i < j < |es| ==> es[i].at <= es[j].at)
    && (es != [] ==> es[|es| - 1].at <= now)
  }

  lemma ApplyRepresents(s: Scheduler, t: Table, e: Timed)
    requires Represents(s, t, e.at)
    ensures Represents(Apply(s, e), ApplyTable(t, e.op), e.at)
  {
    match e.op
    case DoUpsert(c) => UpsertRepresents(s, t, c, e.at);
    case DoRemove(id) => RemoveRepresents(s, t, id, e.at);
    case DoRebuild(cs) => RebuildRepresents(s, cs, e.at);
    case DoSetStrategy(strategy) =>
    case DoPick(provider, model, tried) => PickRepresents(s, t, provider, model, tried, e.at);
  }

  /** After any history the scheduler is an index of the credentials it was told about. */
  lemma {:induction false} HistoryRepresents(strategy: Strategy, es: seq<Timed>, now: nat)
    requires Ordered(es, now)
    ensures Represents(Run(New(strategy), es), RunTable(map[], es), now)
  {
    if es != [] {
      var before, last := es[..|es| - 1], es[|es| - 1];
      HistoryRepresents(strategy, before, last.at);
      ApplyRepresents(Run(New(strategy), before), RunTable(map[], before), last);
      RepresentsLater(Run(New(strategy), es), RunTable(map[], es), last.at, now);
    }
  }

  /** A snapshot lists every scheduled credential, in any order, and perhaps some that cannot be scheduled. */
  predicate SnapshotOf(cs: seq<Credential>, t: Table) {
    && (forall i, j :: 0 <= i < j < |cs| ==> cs[i].id != cs[j].id)
    && (forall i :: 0 <= i < |cs| && Schedulable(cs[i]) ==> cs[i].id in t && t[cs[i].id] == cs[i])
    && (forall id :: id in t ==> t[id] in cs)
  }

  lemma {:induction false} TableOfSnapshot(cs: seq<Credential>)
    requires forall i, j :: 0 <= i < j < |cs| ==> cs[i].id != cs[j].id
    ensures forall id :: id in TableUpsertAll(map[], cs) <==>
              exists i :: 0 <= i < |cs| && cs[i].id == id && Schedulable(cs[i])
    ensures forall i :: 0 <= i < |cs| && Schedulable(cs[i]) ==>
              cs[i].id in TableUpsertAll(map[], cs) && TableUpsertAll(map[], cs)[cs[i].id] == cs[i]
  {
    if cs != [] {
      var before, last := cs[..|cs| - 1], cs[|cs| - 1];
      TableOfSnapshot(before);
      var t, t' := TableUpsertAll(map[], before), TableUpsertAll(map[], cs);
      assert t' == TableUpsert(t, last);
      forall i | 0 <= i < |cs| && Schedulable(cs[i]) ensures cs[i].id in t' && t'[cs[i].id] == cs[i] {
        if i < |before| { assert before[i] == cs[i]; }
      }
      forall id | id in t' ensures exists i :: 0 <= i < |cs| && cs[i].id == id && Schedulable(cs[i]) {
        if id == last.id {
          assert cs[|cs| - 1].id == id && Schedulable(cs[|cs| - 1]);
        } else {
          var i :| 0 <= i < |before| && before[i].id == id && Schedulable(before[i]);
          assert cs[i].id == id && Schedulable(cs[i]);
        }
      }
    }
  }

  lemma SnapshotTable(cs: seq<Credential>, t: Table)
    requires WellFormed(t) && SnapshotOf(cs, t)
    ensures TableUpsertAll(map[], cs) == t
  {
    TableOfSnapshot(cs);
    var t' := TableUpsertAll(map[], cs);
    forall id ensures id in t <==> id in t' {
      if id in t {
        var i :| 0 <= i < |cs| && cs[i] == t[id];
        assert Schedulable(cs[i]);
      }
    }
    forall id | id in t ensures t'[id] == t[id] {
      var i :| 0 <= i < |cs| && cs[i] == t[id];
    }
  }

  /** After any history, a pick answers as a scan of the provider's current credentials. */
  lemma HistoryPickIsScan(strategy: Strategy, es: seq<Timed>, provider: string, model: string, tried: set<string>,
                          now: nat)
    requires Ordered(es, now)
    requires AllPunctual(Of(RunTable(map[], es), provider), ShardKey(model))
    ensures var s := Run(New(strategy), es);
            Agrees(Of(RunTable(map[], es), provider), ShardKey(model), s.strategy, tried, now,
                   Pick(s, provider, model, tried, now).outcome)
  {
    HistoryRepresents(strategy, es, now);
    PickIsScan(Run(New(strategy), es), RunTable(map[], es), provider, model, tried, now);
  }

  /** With fill-first, the pick after any history is the pick after a rebuild from the current credentials. */
  lemma IncrementalEqualsRebuilt(strategy: Strategy, es: seq<Timed>, cs: seq<Credential>, provider: string,
                                 model: string, tried: set<string>, now: nat)
    requires Ordered(es, now)
    requires SnapshotOf(cs, RunTable(map[], es))
    requires AllPunctual(Of(RunTable(map[], es), provider), ShardKey(model))
    requires Run(New(strategy), es).strategy == FillFirst
    ensures var s := Run(New(strategy), es);
            SameAnswer(Pick(s, provider, model, tried, now).outcome,
                       Pick(Rebuild(s, cs, now), provider, model, tried, now).outcome)
  {
    var s := Run(New(strategy), es);
    var t := RunTable(map[], es);
    HistoryRepresents(strategy, es, now);
    SnapshotTable(cs, t);
    RebuildRepresents(s, cs, now);
    PickIsScan(s, t, provider, model, tried, now);
    PickIsScan(Rebuild(s, cs, now), t, provider, model, tried, now);
    AnswerUnique(Of(t, provider), ShardKey(model), tried, now,
                 Pick(s, provider, model, tried, now).outcome,
                 Pick(Rebuild(s, cs, now), provider, model, tried, now).outcome);
  }
}
