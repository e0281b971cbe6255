/** modelScheduler: one shard, changed in place. */
module ModelSchedulers {
  import opened Credentials
  import opened Ordering
  import opened Shards
  import opened Selectors

  class ModelScheduler {
    const modelKey: string
    /** The provider this shard belongs to. */
    ghost const home: string
    var entries: map<string, Entry>
    var readyByPriority: map<int, Bucket>
    var blocked: set<string>

    ghost function View(): Shard
      reads this
    {
      Shard(modelKey, entries, readyByPriority, blocked)
    }

    constructor (key: string, ghost provider: string)
      ensures modelKey == key && home == provider && View() == NewShard(map[], key, 0)
    {
      modelKey, home := key, provider;
      entries := map[];
      readyByPriority := map[];
      blocked := {};
    }

    /** rebuildIndexesLocked: entries are visited in an arbitrary order. */
    method RebuildIndexes()
      modifies this
      ensures View() == Reindex(old(View()))
    {
      var byPriority, waiting := Collect();
      var ready := MakeBuckets(byPriority);
      readyByPriority, blocked := ready, waiting;
    }

    method MakeBuckets(byPriority: map<int, seq<string>>) returns (ready: map<int, Bucket>)
      requires byPriority.Keys == Priorities(entries)
      requires forall p :: p in byPriority ==> Ascending(byPriority[p]) && Elems(byPriority[p]) == ReadyAt(entries, p)
      ensures ready == map p | p in Priorities(entries) :: FreshBucket(entries, p)
    {
      ready := map[];
      var todo := byPriority.Keys;
      while todo != {}
        invariant todo <= byPriority.Keys && ready.Keys == byPriority.Keys - todo
        invariant forall p :: p in ready ==> ready[p] == FreshBucket(entries, p)
      {
        var p := Take(todo);
        SortedUnique(byPriority[p], Sorted(ReadyAt(entries, p)));
        assert forall id :: id in byPriority[p] ==> id in Elems(byPriority[p]);
        ready := ready[p := Bucket(CredsOf(byPriority[p], entries), 0)];
        todo := todo - {p};
      }
    }

    method Collect() returns (byPriority: map<int, seq<string>>, waiting: set<string>)
      ensures byPriority.Keys == Priorities(entries)
      ensures forall p :: p in byPriority ==> Ascending(byPriority[p]) && Elems(byPriority[p]) == ReadyAt(entries, p)
      ensures waiting == BlockedIds(entries)
    {
      byPriority, waiting := map[], {};
      var todo := entries.Keys;
      while todo != {}
        invariant todo <= entries.Keys
        invariant waiting == BlockedIds(entries) - todo
        invariant byPriority.Keys == Priorities(entries - todo)
        invariant forall p :: p in byPriority ==>
                    Ascending(byPriority[p]) && Elems(byPriority[p]) == ReadyAt(entries, p) - todo
      {
        var id := Take(todo);
        var e := entries[id];
        if e.state == Ready {
          var p := e.priority;
          var ids := if p in byPriority then byPriority[p] else [];
          CollectStep(entries, todo, id, ids, p in byPriority);
          ids := Insert(ids, id);
          byPriority := byPriority[p := ids];
        } else if e.state == CoolingDown || e.state == Waiting {
          waiting := waiting + {id};
        }
        CollectKeys(entries, todo, id);
        todo := todo - {id};
      }
      assert entries - todo == entries;
    }

    /** upsertEntryLocked */
    method UpsertEntry(c: Credential, now: nat)
      modifies this
      ensures View() == Shards.UpsertEntry(old(View()), c, now)
    {
      var known := c.id in entries;
      var e := Classify(c, modelKey, now);
      var same := known && SamePlace(entries[c.id], e);
      entries := entries[c.id := e];
      if !same {
        RebuildIndexes();
      }
    }

    /** removeEntryLocked */
    method RemoveEntry(id: string)
      modifies this
      ensures View() == Shards.RemoveEntry(old(View()), id)
    {
      if id in entries {
        entries := entries - {id};
        RebuildIndexes();
      }
    }

    /** promoteExpiredLocked: overdue entries are re-tested one by one. */
    method PromoteExpired(now: nat)
      modifies this
      ensures View() == Promote(old(View()), now)
    {
      ghost var before := View();
      var changed, todo := false, blocked;
      while todo != {}
        invariant todo <= blocked
        invariant View() == before.(entries := Promoted(before, ExpiredIds(before, now) - todo, now))
        invariant changed <==> ExpiredIds(before, now) - todo != {}
      {
        var id := Take(todo);
        if id in entries && Expired(entries[id], now) {
          assert entries[id] == before.entries[id];
          entries := entries[id := Retested(entries[id], modelKey, now)];
          changed := true;
          assert id in ExpiredIds(before, now);
        }
        todo := todo - {id};
        assert entries == Promoted(before, ExpiredIds(before, now) - todo, now);
      }
      assert ExpiredIds(before, now) - todo == ExpiredIds(before, now);
      if changed {
        RebuildIndexes();
      } else {
        assert entries == before.entries;
      }
    }

    /** pickReadyLocked */
    method PickReady(strategy: Strategy, tried: set<string>, now: nat) returns (picked: Option<Credential>)
      modifies this
      ensures View() == Shards.PickReady(Promote(old(View()), now), strategy, tried).shard
      ensures picked == Shards.PickReady(Promote(old(View()), now), strategy, tried).picked
    {
      PromoteExpired(now);
      var best, found := BestPriority(tried);
      if !found {
        return None;
      }
      assert best == Greatest(Matching(View(), tried));
      var b := readyByPriority[best];
      var choice;
      match strategy {
        case RoundRobin => choice := RoundRobinPick(b, tried);
        case FillFirst => choice := FillFirstPick(b, tried);
      }
      if choice.None? {
        return None;
      }
      readyByPriority := readyByPriority[best := Advance(strategy, b, choice.value)];
      return Some(b.creds[choice.value]);
    }

    method BestPriority(tried: set<string>) returns (best: int, found: bool)
      ensures found <==> Matching(View(), tried) != {}
      ensures found ==> IsGreatest(best, Matching(View(), tried))
    {
      best, found := 0, false;
      ghost var ps := Matching(View(), tried);
      var todo := readyByPriority.Keys;
      while todo != {}
        invariant todo <= readyByPriority.Keys && ps == Matching(View(), tried)
        invariant found ==> best in ps
        invariant forall p :: p in ps && p !in todo ==> found && p <= best
      {
        var p := Take(todo);
        if HasMatch(readyByPriority[p], tried) && (!found || p > best) {
          best, found := p, true;
        }
        todo := todo - {p};
      }
      assert forall p: int :: p !in todo;
      assert forall p: int :: p in ps ==> found;
      if !found {
        NoMembers(ps);
      }
    }

    /** unavailableErrorLocked */
    method UnavailableError(tried: set<string>, now: nat) returns (o: Outcome)
      ensures o == ErrorFor(entries, tried, now)
    {
      var total, cooling, earliest := 0, 0, UNSET;
      var todo := entries.Keys;
      while todo != {}
        invariant todo <= entries.Keys
        invariant 0 <= cooling <= total
        invariant total == 0 <==> Untried(entries - todo, tried) == {}
        invariant cooling == total <==>
                  forall id :: id in Untried(entries - todo, tried) ==> entries[id].state == CoolingDown
        invariant earliest == Earliest(entries - todo, tried)
      {
        var id := Take(todo);
        var e := entries[id];
        ErrorStep(entries, todo, id, tried);
        if id !in tried {
          total := total + 1;
          if e.state == CoolingDown {
            cooling := cooling + 1;
            if e.nextRetryAt != UNSET && (earliest == UNSET || e.nextRetryAt < earliest) {
              earliest := e.nextRetryAt;
            }
          }
        }
        todo := todo - {id};
      }
      assert entries - todo == entries;
      if total == 0 {
        return NotFound;
      }
      if cooling == total && earliest != UNSET {
        return Cooling(Seconds(earliest - now));
      }
      return Unavailable;
    }
  }

  // ----- one step of each loop over the entries

  lemma CollectStep(entries: map<string, Entry>, todo: set<string>, id: string, ids: seq<string>, known: bool)
    requires todo <= entries.Keys && id in todo && entries[id].state == Ready
    requires known <==> entries[id].priority in Priorities(entries - todo)
    requires if known then Elems(ids) == ReadyAt(entries, entries[id].priority) - todo else ids == []
    ensures id !in ids && Elems(ids) == ReadyAt(entries, entries[id].priority) - todo
  {
    assert id in ids ==> id in Elems(ids);
    var before := entries - todo;
    assert forall x :: x in before && before[x].state == Ready ==> before[x].priority in Priorities(before);
    assert forall x :: x in ReadyAt(entries, entries[id].priority) - todo ==> x in before;
  }

  lemma CollectKeys(entries: map<string, Entry>, todo: set<string>, id: string)
    requires todo <= entries.Keys && id in todo
    ensures Priorities(entries - (todo - {id})) ==
            Priorities(entries - todo) + if entries[id].state == Ready then {entries[id].priority} else {}
    ensures forall p ::
              ReadyAt(entries, p) - (todo - {id}) ==
              (ReadyAt(entries, p) - todo) +
              if entries[id].state == Ready && entries[id].priority == p then {id} else {}
  {
    var before, after := entries - todo, entries - (todo - {id});
    assert after.Keys == before.Keys + {id};
    forall p ensures p in Priorities(after) <==>
                     p in Priorities(before) || (entries[id].state == Ready && p == entries[id].priority) {
      if p in Priorities(after) {
        var x :| x in after && after[x].state == Ready && after[x].priority == p;
        assert x == id || before[x].priority == p;
      }
      if p in Priorities(before) {
        var x :| x in before && before[x].state == Ready && before[x].priority == p;
        assert after[x].priority == p;
      }
      if entries[id].state == Ready && p == entries[id].priority {
        assert after[id].priority == p;
      }
    }
  }

  lemma ErrorStep(entries: map<string, Entry>, todo: set<string>, id: string, tried: set<string>)
    requires todo <= entries.Keys && id in todo
    ensures var before, after := entries - todo, entries - (todo - {id});
            var e := entries[id];
            && Untried(after, tried) == Untried(before, tried) + (if id in tried then {} else {id})
            && var counts := id !in tried && e.state == CoolingDown && e.nextRetryAt != UNSET;
               Earliest(after, tried) ==
               if counts && (Earliest(before, tried) == UNSET || e.nextRetryAt < Earliest(before, tried))
               then e.nextRetryAt else Earliest(before, tried)
  {
    var before, after := entries - todo, entries - (todo - {id});
    assert after.Keys == before.Keys + {id};
    var counts := id !in tried && entries[id].state == CoolingDown && entries[id].nextRetryAt != UNSET;
    var times, times' := RetryTimes(before, tried), RetryTimes(after, tried);
    forall t ensures t in times' <==> t in times || (counts && t == entries[id].nextRetryAt) {
      if t in times' {
        var x :| x in after && x !in tried && after[x].state == CoolingDown && after[x].nextRetryAt == t != UNSET;
        assert x == id || before[x].nextRetryAt == t;
      }
      if t in times {
        var x :| x in before && x !in tried && before[x].state == CoolingDown && before[x].nextRetryAt == t != UNSET;
        assert after[x].nextRetryAt == t;
      }
      if counts && t == entries[id].nextRetryAt {
        assert after[id].nextRetryAt == t;
      }
    }
    assert times' == times + if counts then {entries[id].nextRetryAt} else {};
    SmallestStep(times, times', entries[id].nextRetryAt, counts);
  }

  lemma SmallestStep(times: set<Time>, times': set<Time>, t: Time, counts: bool)
    requires times' == times + if counts then {t} else {}
    ensures times' != {} ==>
              Smallest(times') == if counts && (times == {} || t < Smallest(times)) then t else Smallest(times)
    ensures times' == {} <==> times == {} && !counts
  {
    if times' != {} {
      if counts && (times == {} || t < Smallest(times)) {
        assert t in times';
      } else {
        assert Smallest(times) in times';
      }
    }
  }
}
