/** The scheduler as a value: providers, their shards, and which provider owns which credential. */
module Scheduling {
  import opened Credentials
  import opened Blocking
  import opened Shards
  import opened Picking

  datatype Provider = Provider(creds: map<string, Credential>, shards: map<string, Shard>)

  datatype Scheduler = Scheduler(
    strategy: Strategy,
    providers: map<string, Provider>,
    owner: map<string, string>)

  const NO_PROVIDER := Provider(map[], map[])

  function New(strategy: Strategy): Scheduler {
    Scheduler(strategy, map[], map[])
  }

  // ----- operations

  ghost function UpsertProvider(p: Provider, c: Credential, now: nat): Provider {
    Provider(p.creds[c.id := c], map k | k in p.shards :: UpsertEntry(p.shards[k], c, now))
  }

  ghost function RemoveProvider(p: Provider, id: string): Provider {
    Provider(p.creds - {id}, map k | k in p.shards :: RemoveEntry(p.shards[k], id))
  }

  /** ensureModelLocked: promote an existing shard, or create it from all credentials of the provider. */
  ghost function EnsureModel(p: Provider, model: string, now: nat): (r: Provider)
    ensures CanonicalModelKey(model) in r.shards
  {
    var key := CanonicalModelKey(model);
    if key in p.shards then p.(shards := p.shards[key := Promote(p.shards[key], now)])
    else p.(shards := p.shards[key := NewShard(p.creds, key, now)])
  }

  /** Take the credential out of the provider that owns it, if any. */
  ghost function Evict(s: Scheduler, id: string): Scheduler {
    if id in s.owner && s.owner[id] in s.providers then
      s.(providers := s.providers[s.owner[id] := RemoveProvider(s.providers[s.owner[id]], id)])
    else s
  }

  /** removeLocked */
  ghost function Remove(s: Scheduler, id: string): Scheduler {
    if id != "" && id in s.owner && s.owner[id] != "" then Evict(s, id).(owner := s.owner - {id}) else s
  }

  ghost function Enroll(s: Scheduler, c: Credential, now: nat): Scheduler {
    var p := if c.provider in s.providers then s.providers[c.provider] else NO_PROVIDER;
    s.(providers := s.providers[c.provider := UpsertProvider(p, c, now)], owner := s.owner[c.id := c.provider])
  }

  /** upsertLocked */
  ghost function Upsert(s: Scheduler, c: Credential, now: nat): Scheduler {
    if !Schedulable(c) then Remove(s, c.id)
    else if c.id in s.owner && s.owner[c.id] != "" && s.owner[c.id] != c.provider then
      Enroll(Evict(s, c.id), c, now)
    else Enroll(s, c, now)
  }

  ghost function UpsertAll(s: Scheduler, cs: seq<Credential>, now: nat): Scheduler {
    if cs == [] then s else Upsert(UpsertAll(s, cs[..|cs| - 1], now), cs[|cs| - 1], now)
  }

  ghost function Rebuild(s: Scheduler, cs: seq<Credential>, now: nat): Scheduler {
    UpsertAll(New(s.strategy), cs, now)
  }

  datatype ProviderPick = ProviderPick(provider: Provider, outcome: Outcome)

  ghost function PickProvider(p: Provider, model: string, strategy: Strategy, tried: set<string>,
                              now: nat): ProviderPick
  {
    var p' := EnsureModel(p, CanonicalModelKey(model), now);
    var r := PickFrom(p'.shards[ShardKey(model)], strategy, tried, now);
    ProviderPick(p'.(shards := p'.shards[ShardKey(model) := r.shard]), r.outcome)
  }

  datatype Picks = Picks(scheduler: Scheduler, outcome: Outcome)

  ghost function Pick(s: Scheduler, provider: string, model: string, tried: set<string>, now: nat): Picks {
    if provider !in s.providers then Picks(s, NotFound)
    else
      var r := PickProvider(s.providers[provider], model, s.strategy, tried, now);
      Picks(s.(providers := s.providers[provider := r.provider]), r.outcome)
  }

  // ----- the simple view: one table of credentials

  type Table = map<string, Credential>

  function Of(t: Table, provider: string): Table {
    map id | id in t && t[id].provider == provider :: t[id]
  }

  function TableUpsert(t: Table, c: Credential): Table {
    if Schedulable(c) then t[c.id := c] else t - {c.id}
  }

  function TableUpsertAll(t: Table, cs: seq<Credential>): Table {
    if cs == [] then t else TableUpsert(TableUpsertAll(t, cs[..|cs| - 1]), cs[|cs| - 1])
  }

  predicate WellFormed(t: Table) {
    forall id :: id in t ==> t[id].id == id && Schedulable(t[id])
  }

  ghost predicate ProviderOk(p: Provider, creds: Table, now: nat) {
    p.creds == creds && forall k :: k in p.shards ==> Tracks(p.shards[k], k, creds, now)
  }

  ghost predicate AllOk(providers: map<string, Provider>, t: Table, now: nat) {
    forall p :: p in providers ==> ProviderOk(providers[p], Of(t, p), now)
  }

  predicate Owned(owner: map<string, string>, providers: map<string, Provider>, t: Table) {
    && owner.Keys == t.Keys
    && forall id :: id in t ==> owner[id] == t[id].provider && t[id].provider in providers
  }

  /**
   * The scheduler is an index of the table: each credential has one owner, its own provider; every shard of a
   * provider has exactly the provider's credentials as entries; nothing disabled is scheduled.
   */
  ghost predicate Represents(s: Scheduler, t: Table, now: nat) {
    WellFormed(t) && Owned(s.owner, s.providers, t) && AllOk(s.providers, t, now)
  }

  // ----- every operation keeps the view

  lemma UpsertProviderOk(p: Provider, creds: Table, c: Credential, now: nat)
    requires ProviderOk(p, creds, now)
    ensures ProviderOk(UpsertProvider(p, c, now), creds[c.id := c], now)
  {
    forall k | k in p.shards ensures Tracks(UpsertEntry(p.shards[k], c, now), k, creds[c.id := c], now) {
      UpsertEntryTracks(p.shards[k], k, creds, c, now);
    }
  }

  lemma RemoveProviderOk(p: Provider, creds: Table, id: string, now: nat)
    requires ProviderOk(p, creds, now)
    ensures ProviderOk(RemoveProvider(p, id), creds - {id}, now)
  {
    forall k | k in p.shards ensures Tracks(RemoveEntry(p.shards[k], id), k, creds - {id}, now) {
      RemoveEntryTracks(p.shards[k], k, creds, id, now);
    }
  }

  lemma EnsureModelOk(p: Provider, creds: Table, model: string, now: nat)
    requires ProviderOk(p, creds, now) && forall id :: id in creds ==> creds[id].id == id
    ensures ProviderOk(EnsureModel(p, model, now), creds, now)
  {
    var key := CanonicalModelKey(model);
    if key in p.shards {
      PromoteTracks(p.shards[key], key, creds, now);
    } else {
      NewShardTracks(creds, key, now);
    }
  }

  lemma RepresentsLater(s: Scheduler, t: Table, from: nat, now: nat)
    requires Represents(s, t, from) && from <= now
    ensures Represents(s, t, now)
  {
    forall p | p in s.providers ensures ProviderOk(s.providers[p], Of(t, p), now) {
      ProviderLater(s.providers[p], Of(t, p), from, now);
    }
  }

  lemma ProviderLater(p: Provider, creds: Table, from: nat, now: nat)
    requires ProviderOk(p, creds, from) && from <= now
    ensures ProviderOk(p, creds, now)
  {
    forall k | k in p.shards ensures Tracks(p.shards[k], k, creds, now) {
      TracksLater(p.shards[k], k, creds, from, now);
    }
  }

  lemma OfWithout(t: Table, id: string, p: string)
    ensures Of(t - {id}, p) == Of(t, p) - {id}
    ensures id in t && t[id].provider != p ==> Of(t - {id}, p) == Of(t, p)
    ensures id !in t ==> t - {id} == t
  {
  }

  lemma OfWith(t: Table, c: Credential, p: string)
    ensures p != c.provider ==> Of(t[c.id := c], p) == Of(t - {c.id}, p)
    ensures p == c.provider ==> Of(t[c.id := c], p) == Of(t, p)[c.id := c]
    ensures p == c.provider ==> Of(t[c.id := c], p) == Of(t - {c.id}, p)[c.id := c]
  {
  }

  /** After eviction every provider is in step with the table without the credential. */
  lemma EvictOk(s: Scheduler, t: Table, id: string, now: nat)
    requires Owned(s.owner, s.providers, t) && AllOk(s.providers, t, now)
    ensures var s' := Evict(s, id);
            && s'.providers.Keys == s.providers.Keys && s'.owner == s.owner && s'.strategy == s.strategy
            && AllOk(s'.providers, t - {id}, now)
  {
    var s' := Evict(s, id);
    forall p | p in s'.providers ensures ProviderOk(s'.providers[p], Of(t - {id}, p), now) {
      OfWithout(t, id, p);
      if id in t && p == t[id].provider {
        RemoveProviderOk(s.providers[p], Of(t, p), id, now);
      }
    }
  }

  lemma RemoveRepresents(s: Scheduler, t: Table, id: string, now: nat)
    requires Represents(s, t, now)
    ensures Represents(Remove(s, id), t - {id}, now)
  {
    if id in t {
      EvictOk(s, t, id, now);
    } else {
      OfWithout(t, id, "");
    }
  }

  /** Enrolling restores the view from one in which the credential's old place may already be cleared. */
  lemma EnrollOk(s: Scheduler, t: Table, c: Credential, now: nat)
    requires forall id :: id in t ==> t[id].provider in s.providers
    requires forall p :: p in s.providers && p != c.provider ==> ProviderOk(s.providers[p], Of(t - {c.id}, p), now)
    requires c.provider in s.providers ==>
               || ProviderOk(s.providers[c.provider], Of(t - {c.id}, c.provider), now)
               || ProviderOk(s.providers[c.provider], Of(t, c.provider), now)
    ensures AllOk(Enroll(s, c, now).providers, t[c.id := c], now)
  {
    var s' := Enroll(s, c, now);
    forall p | p in s'.providers ensures ProviderOk(s'.providers[p], Of(t[c.id := c], p), now) {
      OfWith(t, c, p);
      if p == c.provider {
        EnrolledProvider(s, t, c, now);
      }
    }
  }

  lemma EnrolledProvider(s: Scheduler, t: Table, c: Credential, now: nat)
    requires forall id :: id in t ==> t[id].provider in s.providers
    requires c.provider in s.providers ==>
               || ProviderOk(s.providers[c.provider], Of(t - {c.id}, c.provider), now)
               || ProviderOk(s.providers[c.provider], Of(t, c.provider), now)
    ensures ProviderOk(Enroll(s, c, now).providers[c.provider], Of(t[c.id := c], c.provider), now)
  {
    OfWith(t, c, c.provider);
    if c.provider !in s.providers {
      assert Of(t, c.provider) == map[];
      UpsertProviderOk(NO_PROVIDER, map[], c, now);
    } else if ProviderOk(s.providers[c.provider], Of(t, c.provider), now) {
      UpsertProviderOk(s.providers[c.provider], Of(t, c.provider), c, now);
    } else {
      UpsertProviderOk(s.providers[c.provider], Of(t - {c.id}, c.provider), c, now);
    }
  }

  lemma EnrollOwned(s: Scheduler, t: Table, c: Credential, now: nat)
    requires Owned(s.owner, s.providers, t)
    ensures Owned(Enroll(s, c, now).owner, Enroll(s, c, now).providers, t[c.id := c])
  {
  }

  lemma UpsertAllOk(s: Scheduler, t: Table, c: Credential, now: nat)
    requires Represents(s, t, now) && Schedulable(c)
    ensures AllOk(Upsert(s, c, now).providers, t[c.id := c], now)
  {
    if c.id in t && t[c.id].provider != c.provider {
      EvictOk(s, t, c.id, now);
      EnrollOk(Evict(s, c.id), t, c, now);
    } else {
      forall p | p in s.providers && p != c.provider ensures ProviderOk(s.providers[p], Of(t - {c.id}, p), now) {
        OfWithout(t, c.id, p);
      }
      EnrollOk(s, t, c, now);
    }
  }

  lemma UpsertOwned(s: Scheduler, t: Table, c: Credential, now: nat)
    requires Represents(s, t, now) && Schedulable(c)
    ensures Owned(Upsert(s, c, now).owner, Upsert(s, c, now).providers, t[c.id := c])
  {
    if c.id in t && t[c.id].provider != c.provider {
      EvictOk(s, t, c.id, now);
      EnrollOwned(Evict(s, c.id), t, c, now);
    } else {
      EnrollOwned(s, t, c, now);
    }
  }

  lemma UpsertRepresents(s: Scheduler, t: Table, c: Credential, now: nat)
    requires Represents(s, t, now)
    ensures Represents(Upsert(s, c, now), TableUpsert(t, c), now)
  {
    if !Schedulable(c) {
      RemoveRepresents(s, t, c.id, now);
    } else {
      UpsertAllOk(s, t, c, now);
      UpsertOwned(s, t, c, now);
    }
  }

  lemma {:induction false} UpsertAllRepresents(s: Scheduler, t: Table, cs: seq<Credential>, now: nat)
    requires Represents(s, t, now)
    ensures Represents(UpsertAll(s, cs, now), TableUpsertAll(t, cs), now)
    ensures UpsertAll(s, cs, now).strategy == s.strategy
  {
    if cs != [] {
      UpsertAllRepresents(s, t, cs[..|cs| - 1], now);
      UpsertRepresents(UpsertAll(s, cs[..|cs| - 1], now), TableUpsertAll(t, cs[..|cs| - 1]), cs[|cs| - 1], now);
    }
  }

  lemma RebuildRepresents(s: Scheduler, cs: seq<Credential>, now: nat)
    ensures Represents(Rebuild(s, cs, now), TableUpsertAll(map[], cs), now)
    ensures Rebuild(s, cs, now).strategy == s.strategy
  {
    UpsertAllRepresents(New(s.strategy), map[], cs, now);
  }

  /** The shard a pick works on. */
  lemma PickShard(s: Scheduler, t: Table, provider: string, model: string, now: nat)
    requires Represents(s, t, now) && provider in s.providers
    ensures var p := EnsureModel(s.providers[provider], CanonicalModelKey(model), now);
            && ProviderOk(p, Of(t, provider), now)
            && Tracks(p.shards[ShardKey(model)], ShardKey(model), Of(t, provider), now)
  {
    EnsureModelOk(s.providers[provider], Of(t, provider), CanonicalModelKey(model), now);
  }

  /** A pick changes nothing but its index; it returns only credentials the plain test lets through. */
  lemma PickRepresents(s: Scheduler, t: Table, provider: string, model: string, tried: set<string>, now: nat)
    requires Represents(s, t, now)
    ensures var r := Pick(s, provider, model, tried, now);
            && Represents(r.scheduler, t, now) && r.scheduler.strategy == s.strategy
            && (r.outcome.Picked? ==>
                  r.outcome.cred.id in OpenIds(Of(t, provider), ShardKey(model), tried, now))
  {
    if provider in s.providers {
      var p := EnsureModel(s.providers[provider], CanonicalModelKey(model), now);
      var key := ShardKey(model);
      PickShard(s, t, provider, model, now);
      PickSound(p.shards[key], key, Of(t, provider), s.strategy, tried, now);
      ReplaceShard(p, Of(t, provider), key, PickFrom(p.shards[key], s.strategy, tried, now).shard, now);
    }
  }

  lemma ReplaceShard(p: Provider, creds: Table, key: string, sh: Shard, now: nat)
    requires ProviderOk(p, creds, now) && Tracks(sh, key, creds, now)
    ensures ProviderOk(p.(shards := p.shards[key := sh]), creds, now)
  {
  }

  /** A pick answers as a scan of the provider's credentials would. */
  lemma PickIsScan(s: Scheduler, t: Table, provider: string, model: string, tried: set<string>, now: nat)
    requires Represents(s, t, now)
    requires AllPunctual(Of(t, provider), ShardKey(model))
    ensures Agrees(Of(t, provider), ShardKey(model), s.strategy, tried, now,
                   Pick(s, provider, model, tried, now).outcome)
  {
    if provider in s.providers {
      var p := EnsureModel(s.providers[provider], CanonicalModelKey(model), now);
      PickShard(s, t, provider, model, now);
      PickAgrees(p.shards[ShardKey(model)], ShardKey(model), Of(t, provider), s.strategy, tried, now);
    } else {
      assert Of(t, provider) == map[];
      assert OpenIds(map[], ShardKey(model), tried, now) == {};
    }
  }
}
