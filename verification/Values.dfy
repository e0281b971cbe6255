/**
 * The values kept inside the scheduler: entries, tables of the providers, and the copies in ready buckets, which are
 * the ones a pick hands out. A property of every value put in is a property of every value handed out.
 */
module Values {
  import opened Credentials
  import opened Ordering
  import opened Blocking
  import opened Shards
  import opened Scheduling

  ghost predicate TableHolds(t: Table, P: Credential -> bool) {
    forall id :: id in t ==> P(t[id])
  }

  ghost predicate EntriesHold(entries: map<string, Entry>, P: Credential -> bool) {
    forall id :: id in entries ==> P(entries[id].cred)
  }

  ghost predicate ListHolds(creds: seq<Credential>, P: Credential -> bool) {
    forall i :: 0 <= i < |creds| ==> P(creds[i])
  }

  ghost predicate ShardHolds(sh: Shard, P: Credential -> bool) {
    EntriesHold(sh.entries, P) && forall p :: p in sh.buckets ==> ListHolds(sh.buckets[p].creds, P)
  }

  ghost predicate ProviderHolds(p: Provider, P: Credential -> bool) {
    TableHolds(p.creds, P) && forall k :: k in p.shards ==> ShardHolds(p.shards[k], P)
  }

  ghost predicate SchedulerHolds(s: Scheduler, P: Credential -> bool) {
    forall p :: p in s.providers ==> ProviderHolds(s.providers[p], P)
  }

  // ----- one shard

  lemma ReindexHolds(sh: Shard, P: Credential -> bool)
    requires EntriesHold(sh.entries, P)
    ensures ShardHolds(Reindex(sh), P)
  {
    forall p | p in Priorities(sh.entries) ensures ListHolds(FreshBucket(sh.entries, p).creds, P) {
      var ids := Sorted(ReadyAt(sh.entries, p));
      forall i | 0 <= i < |ids| ensures ids[i] in sh.entries && P(sh.entries[ids[i]].cred) {
        assert ids[i] in Elems(ids);
      }
    }
  }

  lemma UpsertEntryHolds(sh: Shard, c: Credential, now: nat, P: Credential -> bool)
    requires ShardHolds(sh, P) && P(c)
    ensures ShardHolds(UpsertEntry(sh, c, now), P)
  {
    var sh' := sh.(entries := sh.entries[c.id := Classify(c, sh.key, now)]);
    assert EntriesHold(sh'.entries, P);
    ReindexHolds(sh', P);
  }

  lemma RemoveEntryHolds(sh: Shard, id: string, P: Credential -> bool)
    requires ShardHolds(sh, P)
    ensures ShardHolds(RemoveEntry(sh, id), P)
  {
    ReindexHolds(sh.(entries := sh.entries - {id}), P);
  }

  lemma PromoteHolds(sh: Shard, now: nat, P: Credential -> bool)
    requires ShardHolds(sh, P)
    ensures ShardHolds(Promote(sh, now), P)
  {
    var sh' := sh.(entries := Promoted(sh, ExpiredIds(sh, now), now));
    assert EntriesHold(sh'.entries, P);
    ReindexHolds(sh', P);
  }

  lemma NewShardHolds(creds: Table, key: string, now: nat, P: Credential -> bool)
    requires TableHolds(creds, P)
    ensures ShardHolds(NewShard(creds, key, now), P)
  {
    var sh := Shard(key, map id | id in creds :: Classify(creds[id], key, now), map[], {});
    assert EntriesHold(sh.entries, P);
    ReindexHolds(sh, P);
  }

  lemma PickReadyHolds(sh: Shard, strategy: Strategy, tried: set<string>, P: Credential -> bool)
    requires ShardHolds(sh, P)
    ensures var r := PickReady(sh, strategy, tried);
            ShardHolds(r.shard, P) && (r.picked.Some? ==> P(r.picked.value))
  {
    if Matching(sh, tried) != {} {
      assert ListHolds(sh.buckets[Greatest(Matching(sh, tried))].creds, P);
    }
  }

  lemma PickFromHolds(sh: Shard, strategy: Strategy, tried: set<string>, now: nat, P: Credential -> bool)
    requires ShardHolds(sh, P)
    ensures var r := PickFrom(sh, strategy, tried, now);
            ShardHolds(r.shard, P) && (r.outcome.Picked? ==> P(r.outcome.cred))
  {
    PromoteHolds(sh, now, P);
    PickReadyHolds(Promote(sh, now), strategy, tried, P);
  }

  // ----- the scheduler

  lemma UpsertProviderHolds(p: Provider, c: Credential, now: nat, P: Credential -> bool)
    requires ProviderHolds(p, P) && P(c)
    ensures ProviderHolds(UpsertProvider(p, c, now), P)
  {
    forall k | k in p.shards ensures ShardHolds(UpsertEntry(p.shards[k], c, now), P) {
      UpsertEntryHolds(p.shards[k], c, now, P);
    }
  }

  lemma EvictHolds(s: Scheduler, id: string, P: Credential -> bool)
    requires SchedulerHolds(s, P)
    ensures SchedulerHolds(Evict(s, id), P)
  {
    forall p | p in s.providers ensures ProviderHolds(RemoveProvider(s.providers[p], id), P) {
      forall k | k in s.providers[p].shards ensures ShardHolds(RemoveEntry(s.providers[p].shards[k], id), P) {
        RemoveEntryHolds(s.providers[p].shards[k], id, P);
      }
    }
  }

  lemma RemoveHolds(s: Scheduler, id: string, P: Credential -> bool)
    requires SchedulerHolds(s, P)
    ensures SchedulerHolds(Remove(s, id), P)
  {
    EvictHolds(s, id, P);
  }

  lemma EnrollHolds(s: Scheduler, c: Credential, now: nat, P: Credential -> bool)
    requires SchedulerHolds(s, P) && P(c)
    ensures SchedulerHolds(Enroll(s, c, now), P)
  {
    UpsertProviderHolds(if c.provider in s.providers then s.providers[c.provider] else NO_PROVIDER, c, now, P);
  }

  lemma UpsertHolds(s: Scheduler, c: Credential, now: nat, P: Credential -> bool)
    requires SchedulerHolds(s, P) && P(c)
    ensures SchedulerHolds(Upsert(s, c, now), P)
  {
    RemoveHolds(s, c.id, P);
    EvictHolds(s, c.id, P);
    EnrollHolds(s, c, now, P);
    EnrollHolds(Evict(s, c.id), c, now, P);
  }

  lemma EnsureModelHolds(p: Provider, model: string, now: nat, P: Credential -> bool)
    requires ProviderHolds(p, P)
    ensures ProviderHolds(EnsureModel(p, model, now), P)
  {
    var key := CanonicalModelKey(model);
    if key in p.shards {
      PromoteHolds(p.shards[key], now, P);
    } else {
      NewShardHolds(p.creds, key, now, P);
    }
  }

  /** A picked value has the property, and so have all values left. */
  lemma PickHolds(s: Scheduler, provider: string, model: string, tried: set<string>, now: nat, P: Credential -> bool)
    requires SchedulerHolds(s, P)
    ensures var r := Pick(s, provider, model, tried, now);
            SchedulerHolds(r.scheduler, P) && (r.outcome.Picked? ==> P(r.outcome.cred))
  {
    if provider in s.providers {
      var p := EnsureModel(s.providers[provider], CanonicalModelKey(model), now);
      EnsureModelHolds(s.providers[provider], CanonicalModelKey(model), now, P);
      PickFromHolds(p.shards[ShardKey(model)], s.strategy, tried, now, P);
    }
  }
}
