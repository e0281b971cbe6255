/** providerScheduler and authScheduler, changed in place, against the scheduler value. */
module AuthSchedulers {
  import opened Credentials
  import opened Ordering
  import opened Blocking
  import opened Shards
  import opened Scheduling
  import opened ModelSchedulers

  class ProviderScheduler {
    const providerKey: string
    var creds: map<string, Credential>
    var modelShards: map<string, ModelScheduler>

    /** Two shards are never the same object, as each knows its own place. */
    ghost predicate Valid()
      reads this
    {
      && (forall k :: k in modelShards ==> modelShards[k].modelKey == k && modelShards[k].home == providerKey)
      && forall id :: id in creds ==> creds[id].id == id
    }

    ghost function View(): Provider
      reads this, modelShards.Values
    {
      Provider(creds, map k | k in modelShards :: modelShards[k].View())
    }

    constructor (key: string)
      ensures Valid() && providerKey == key && modelShards == map[] && View() == NO_PROVIDER
    {
      providerKey := key;
      creds := map[];
      modelShards := map[];
    }

    /** providerScheduler.upsertLocked */
    method Upsert(c: Credential, now: nat)
      requires Valid()
      modifies this`creds, modelShards.Values
      ensures Valid() && View() == UpsertProvider(old(View()), c, now)
    {
      ghost var was := View();
      UpsertShards(c, now);
      creds := creds[c.id := c];
      UpsertedView(was, View(), c, now);
    }

    /** Shards are visited in an arbitrary order. */
    method UpsertShards(c: Credential, now: nat)
      requires Valid()
      modifies modelShards.Values
      ensures forall k :: k in modelShards ==> modelShards[k].View() == UpsertEntry(old(modelShards[k].View()), c, now)
    {
      var todo := modelShards.Keys;
      while todo != {}
        invariant todo <= modelShards.Keys
        invariant forall k :: k in modelShards ==>
                    modelShards[k].View() ==
                    if k in todo then old(modelShards[k].View()) else UpsertEntry(old(modelShards[k].View()), c, now)
      {
        var k := Take(todo);
        modelShards[k].UpsertEntry(c, now);
        todo := todo - {k};
      }
    }

    /** providerScheduler.removeLocked */
    method Remove(id: string)
      requires Valid()
      modifies this`creds, modelShards.Values
      ensures Valid() && View() == RemoveProvider(old(View()), id)
    {
      ghost var was := View();
      RemoveShards(id);
      creds := creds - {id};
      RemovedView(was, View(), id);
    }

    method RemoveShards(id: string)
      requires Valid()
      modifies modelShards.Values
      ensures forall k :: k in modelShards ==> modelShards[k].View() == RemoveEntry(old(modelShards[k].View()), id)
    {
      var todo := modelShards.Keys;
      while todo != {}
        invariant todo <= modelShards.Keys
        invariant forall k :: k in modelShards ==>
                    modelShards[k].View() ==
                    if k in todo then old(modelShards[k].View()) else RemoveEntry(old(modelShards[k].View()), id)
      {
        var k := Take(todo);
        modelShards[k].RemoveEntry(id);
        todo := todo - {k};
      }
    }

    /** ensureModelLocked */
    method Ensure(model: string, now: nat) returns (shard: ModelScheduler)
      requires Valid()
      modifies this`modelShards, modelShards.Values
      ensures Valid() && View() == EnsureModel(old(View()), model, now)
      ensures CanonicalModelKey(model) in modelShards && shard == modelShards[CanonicalModelKey(model)]
      ensures forall sh :: sh in modelShards.Values ==> sh in old(modelShards.Values) || fresh(sh)
    {
      var key := CanonicalModelKey(model);
      if key in modelShards {
        PromoteShard(key, now);
      } else {
        AddShard(key, now);
      }
      shard := modelShards[key];
    }

    method PromoteShard(key: string, now: nat)
      requires Valid() && key in modelShards
      modifies modelShards[key]
      ensures View() == old(View()).(shards := old(View()).shards[key := Promote(old(View()).shards[key], now)])
    {
      modelShards[key].PromoteExpired(now);
    }

    method AddShard(key: string, now: nat)
      requires Valid() && key !in modelShards
      modifies this`modelShards
      ensures Valid() && View() == old(View()).(shards := old(View()).shards[key := NewShard(creds, key, now)])
      ensures key in modelShards && fresh(modelShards[key]) && modelShards == old(modelShards)[key := modelShards[key]]
    {
      ghost var was := View();
      var shard := BuildShard(key, now);
      assert View() == was;
      modelShards := modelShards[key := shard];
    }

    /** The part of a pick that works on this provider. */
    method Pick(model: string, strategy: Strategy, tried: set<string>, now: nat) returns (o: Outcome)
      requires Valid()
      modifies this`modelShards, modelShards.Values
      ensures Valid()
      ensures View() == PickProvider(old(View()), model, strategy, tried, now).provider
      ensures o == PickProvider(old(View()), model, strategy, tried, now).outcome
      ensures forall sh :: sh in modelShards.Values ==> sh in old(modelShards.Values) || fresh(sh)
    {
      var shard := Ensure(CanonicalModelKey(model), now);
      ghost var was := View();
      o := PickIn(shard, strategy, tried, now);
      PickedView(was, View(), ShardKey(model), shard.View());
    }

    static method PickIn(shard: ModelScheduler, strategy: Strategy, tried: set<string>, now: nat) returns (o: Outcome)
      modifies shard
      ensures shard.View() == PickFrom(old(shard.View()), strategy, tried, now).shard
      ensures o == PickFrom(old(shard.View()), strategy, tried, now).outcome
    {
      var picked := shard.PickReady(strategy, tried, now);
      if picked.Some? {
        return Picked(picked.value);
      }
      o := shard.UnavailableError(tried, now);
    }

    /** A new shard takes in the credentials in an arbitrary order. */
    method BuildShard(key: string, now: nat) returns (shard: ModelScheduler)
      requires Valid()
      ensures fresh(shard) && shard.modelKey == key && shard.home == providerKey
      ensures shard.View() == NewShard(creds, key, now)
    {
      shard := new ModelScheduler(key, providerKey);
      var todo := creds.Keys;
      assert creds - todo == map[];
      while todo != {}
        invariant todo <= creds.Keys && unchanged(this)
        invariant fresh(shard) && shard.modelKey == key && shard.home == providerKey
        invariant shard.View() == NewShard(creds - todo, key, now)
      {
        var id := Take(todo);
        ghost var part := creds - todo;
        assert part[id := creds[id]] == creds - (todo - {id});
        TakeIn(shard, part, creds[id], key, now);
        todo := todo - {id};
      }
      assert creds - todo == creds;
    }

    static method TakeIn(shard: ModelScheduler, ghost part: map<string, Credential>, c: Credential, ghost key: string,
                         now: nat)
      requires shard.View() == NewShard(part, key, now) && c.id !in part
      modifies shard
      ensures shard.View() == NewShard(part[c.id := c], key, now)
    {
      NewShardGrows(part, c, key, now);
      shard.UpsertEntry(c, now);
    }
  }

  lemma UpsertedView(p: Provider, p': Provider, c: Credential, now: nat)
    requires p'.creds == p.creds[c.id := c] && p'.shards.Keys == p.shards.Keys
    requires forall k :: k in p.shards ==> p'.shards[k] == UpsertEntry(p.shards[k], c, now)
    ensures p' == UpsertProvider(p, c, now)
  {
  }

  lemma PickedView(p: Provider, p': Provider, key: string, sh: Shard)
    requires p'.creds == p.creds && p'.shards.Keys == p.shards.Keys && key in p.shards && p'.shards[key] == sh
    requires forall k :: k in p.shards && k != key ==> p'.shards[k] == p.shards[k]
    ensures p' == p.(shards := p.shards[key := sh])
  {
  }

  lemma RemovedView(p: Provider, p': Provider, id: string)
    requires p'.creds == p.creds - {id} && p'.shards.Keys == p.shards.Keys
    requires forall k :: k in p.shards ==> p'.shards[k] == RemoveEntry(p.shards[k], id)
    ensures p' == RemoveProvider(p, id)
  {
  }

  lemma NewShardGrows(creds: map<string, Credential>, c: Credential, key: string, now: nat)
    requires c.id !in creds
    ensures UpsertEntry(NewShard(creds, key, now), c, now) == NewShard(creds[c.id := c], key, now)
  {
    var entries := map id | id in creds :: Classify(creds[id], key, now);
    var creds' := creds[c.id := c];
    assert entries[c.id := Classify(c, key, now)] == map id | id in creds' :: Classify(creds'[id], key, now);
  }

  class AuthScheduler {
    var strategy: Strategy
    var providers: map<string, ProviderScheduler>
    var credProviders: map<string, string>
    ghost var repr: set<object>

    ghost predicate Valid()
      reads this, repr
    {
      && this !in repr
      && forall p :: p in providers ==>
           && providers[p] in repr && providers[p].modelShards.Values <= repr
           && providers[p].providerKey == p && providers[p].Valid()
    }

    /** This object holds the scheduler value `s`. */
    ghost predicate Is(s: Scheduler)
      requires Valid()
      reads this, repr
    {
      && strategy == s.strategy && credProviders == s.owner && providers.Keys == s.providers.Keys
      && forall p :: p in providers ==> providers[p].View() == s.providers[p]
    }

    constructor (strategy: Strategy)
      ensures Valid() && Is(New(strategy)) && repr == {}
    {
      this.strategy := strategy;
      providers, credProviders := map[], map[];
      repr := {};
    }

    method SetStrategy(strategy: Strategy, ghost s: Scheduler)
      requires Valid() && Is(s)
      modifies this`strategy
      ensures Valid() && Is(s.(strategy := strategy))
    {
      this.strategy := strategy;
    }

    /** Take a credential out of the shards of the provider that owns it. */
    method Evict(id: string, ghost s: Scheduler)
      requires Valid() && Is(s)
      modifies repr
      ensures Valid() && Is(Scheduling.Evict(s, id))
    {
      if id in credProviders && credProviders[id] in providers {
        EvictFrom(credProviders[id], id);
      }
    }

    method EvictFrom(p: string, id: string)
      requires Valid() && p in providers
      modifies {providers[p]}`creds, providers[p].modelShards.Values
      ensures Valid()
      ensures providers[p].View() == RemoveProvider(old(providers[p].View()), id)
      ensures forall q :: q in providers && q != p ==> providers[q].View() == old(providers[q].View())
    {
      providers[p].Remove(id);
    }

    /** removeLocked */
    method Remove(id: string, ghost s: Scheduler)
      requires Valid() && Is(s)
      modifies this`credProviders, repr
      ensures Valid() && Is(Scheduling.Remove(s, id))
    {
      if id != "" && id in credProviders && credProviders[id] != "" {
        Evict(id, s);
        Disown(id, Scheduling.Evict(s, id));
      }
    }

    method Disown(id: string, ghost s: Scheduler)
      requires Valid() && Is(s)
      modifies this`credProviders
      ensures Valid() && Is(s.(owner := s.owner - {id}))
    {
      credProviders := credProviders - {id};
    }

    /** upsertLocked */
    method Upsert(c: Credential, now: nat, ghost s: Scheduler)
      requires Valid() && Is(s)
      modifies this, repr
      ensures Valid() && Is(Scheduling.Upsert(s, c, now)) && fresh(repr - old(repr))
    {
      if !Schedulable(c) {
        Remove(c.id, s);
      } else {
        if c.id in credProviders && credProviders[c.id] != "" && credProviders[c.id] != c.provider {
          Evict(c.id, s);
          Admit(c, now, Scheduling.Evict(s, c.id));
        } else {
          Admit(c, now, s);
        }
      }
    }

    method Admit(c: Credential, now: nat, ghost s: Scheduler)
      requires Valid() && Is(s)
      modifies this, repr
      ensures Valid() && Is(Scheduling.Enroll(s, c, now)) && fresh(repr - old(repr))
    {
      AddProvider(c.provider, s);
      EnrollAdded(s, c, now);
      Enroll(c, now, WithProvider(s, c.provider));
    }

    /** ensureProviderLocked */
    method AddProvider(key: string, ghost s: Scheduler)
      requires Valid() && Is(s)
      modifies this`providers, this`repr
      ensures Valid() && Is(WithProvider(s, key)) && fresh(repr - old(repr))
    {
      if key !in providers {
        var ps := new ProviderScheduler(key);
        InstallProvider(key, ps, s);
      }
    }

    method InstallProvider(key: string, ps: ProviderScheduler, ghost s: Scheduler)
      requires Valid() && Is(s) && key !in providers
      requires ps.providerKey == key && ps.Valid() && ps.modelShards == map[] && ps.View() == NO_PROVIDER
      modifies this`providers, this`repr
      ensures repr == old(repr) + {ps}
      ensures Valid() && Is(WithProvider(s, key))
    {
      Install(key, ps);
      IsWith(key, s);
    }

    method Install(key: string, ps: ProviderScheduler)
      requires Valid() && key !in providers
      requires ps.providerKey == key && ps.Valid() && ps.modelShards == map[]
      modifies this`providers, this`repr
      ensures repr == old(repr) + {ps} && providers == old(providers)[key := ps] && Valid()
    {
      providers := providers[key := ps];
      repr := repr + {ps};
    }

    lemma IsWith(key: string, s: Scheduler)
      requires Valid() && strategy == s.strategy && credProviders == s.owner
      requires key !in s.providers && providers.Keys == s.providers.Keys + {key} && providers[key].View() == NO_PROVIDER
      requires forall q :: q in s.providers ==> providers[q].View() == s.providers[q]
      ensures Is(WithProvider(s, key))
    {
    }

    method Enroll(c: Credential, now: nat, ghost s: Scheduler)
      requires Valid() && Is(s) && c.provider in s.providers
      modifies this`credProviders, repr
      ensures Valid() && Is(Scheduling.Enroll(s, c, now))
    {
      Own(c.id, c.provider, s);
      EnrollIn(c.provider, c, now);
    }

    method Own(id: string, p: string, ghost s: Scheduler)
      requires Valid() && Is(s)
      modifies this`credProviders
      ensures Valid() && Is(s.(owner := s.owner[id := p]))
    {
      credProviders := credProviders[id := p];
    }

    method EnrollIn(p: string, c: Credential, now: nat)
      requires Valid() && p in providers
      modifies {providers[p]}`creds, providers[p].modelShards.Values
      ensures Valid()
      ensures providers[p].View() == UpsertProvider(old(providers[p].View()), c, now)
      ensures forall q :: q in providers && q != p ==> providers[q].View() == old(providers[q].View())
    {
      providers[p].Upsert(c, now);
    }

    method Rebuild(cs: seq<Credential>, now: nat, ghost s: Scheduler)
      requires Valid() && Is(s)
      modifies this
      ensures Valid() && Is(Scheduling.Rebuild(s, cs, now)) && fresh(repr)
    {
      providers, credProviders := map[], map[];
      repr := {};
      var i := 0;
      while i < |cs|
        invariant 0 <= i <= |cs|
        invariant Valid() && Is(UpsertAll(New(s.strategy), cs[..i], now)) && fresh(repr)
      {
        assert cs[..i + 1][..i] == cs[..i];
        Upsert(cs[i], now, UpsertAll(New(s.strategy), cs[..i], now));
        i := i + 1;
      }
      assert cs[..i] == cs;
    }

    method Pick(provider: string, model: string, tried: set<string>, now: nat, ghost s: Scheduler) returns (o: Outcome)
      requires Valid() && Is(s)
      modifies this`repr, repr
      ensures Valid() && Is(Scheduling.Pick(s, provider, model, tried, now).scheduler) && fresh(repr - old(repr))
      ensures o == Scheduling.Pick(s, provider, model, tried, now).outcome
    {
      if provider !in providers {
        return NotFound;
      }
      o := PickKnown(provider, model, tried, now, s);
    }

    method PickKnown(p: string, model: string, tried: set<string>, now: nat, ghost s: Scheduler) returns (o: Outcome)
      requires Valid() && Is(s) && p in providers
      modifies this`repr, repr
      ensures Valid() && fresh(repr - old(repr))
      ensures var r := PickProvider(s.providers[p], model, s.strategy, tried, now);
              Is(s.(providers := s.providers[p := r.provider]))
      ensures o == PickProvider(s.providers[p], model, s.strategy, tried, now).outcome
    {
      o := PickIn(p, model, tried, now);
      Settle(p, s);
    }

    /** Valid, but for shards of the provider that are not in `repr` yet. */
    ghost predicate AlmostValid(p: string)
      reads this, repr
    {
      && this !in repr
      && forall q :: q in providers ==>
           && providers[q] in repr && providers[q].providerKey == q && providers[q].Valid()
           && (q != p ==> providers[q].modelShards.Values <= repr)
    }

    method PickIn(p: string, model: string, tried: set<string>, now: nat) returns (o: Outcome)
      requires Valid() && p in providers
      modifies {providers[p]}`modelShards, providers[p].modelShards.Values
      ensures AlmostValid(p)
      ensures providers[p].View() == PickProvider(old(providers[p].View()), model, strategy, tried, now).provider
      ensures o == PickProvider(old(providers[p].View()), model, strategy, tried, now).outcome
      ensures forall q :: q in providers && q != p ==> providers[q].View() == old(providers[q].View())
      ensures forall sh :: sh in providers[p].modelShards.Values ==>
                sh in old(providers[p].modelShards.Values) || fresh(sh)
    {
      ShardsApart(p);
      o := PickView(p, model, tried, now);
      OthersKept(p);
    }

    /** No other provider shares an object with this one. */
    lemma ShardsApart(p: string)
      requires Valid() && p in providers
      ensures forall q :: q in providers && q != p ==> providers[q] != providers[p]
      ensures forall q, k :: q in providers && q != p && k in providers[q].modelShards ==>
                providers[q].modelShards[k] !in providers[p].modelShards.Values
    {
    }

    method PickView(p: string, model: string, tried: set<string>, now: nat) returns (o: Outcome)
      requires Valid() && p in providers
      modifies {providers[p]}`modelShards, providers[p].modelShards.Values
      ensures providers[p].Valid()
      ensures providers[p].View() == PickProvider(old(providers[p].View()), model, strategy, tried, now).provider
      ensures o == PickProvider(old(providers[p].View()), model, strategy, tried, now).outcome
      ensures forall sh :: sh in providers[p].modelShards.Values ==>
                sh in old(providers[p].modelShards.Values) || fresh(sh)
    {
      o := providers[p].Pick(model, strategy, tried, now);
    }

    twostate lemma OthersKept(p: string)
      requires old(Valid()) && unchanged(this) && p in providers && providers[p].Valid()
      requires forall q :: q in providers && q != p ==> unchanged(providers[q])
      requires forall q, k :: q in providers && q != p && k in providers[q].modelShards ==>
                 unchanged(providers[q].modelShards[k])
      ensures AlmostValid(p)
      ensures forall q :: q in providers && q != p ==> providers[q].View() == old(providers[q].View())
    {
    }

    ghost method Settle(p: string, s: Scheduler)
      requires AlmostValid(p) && p in providers
      requires strategy == s.strategy && credProviders == s.owner && providers.Keys == s.providers.Keys
      requires forall q :: q in providers && q != p ==> providers[q].View() == s.providers[q]
      modifies this`repr
      ensures Valid() && repr == old(repr) + providers[p].modelShards.Values
      ensures Is(s.(providers := s.providers[p := old(providers[p].View())]))
    {
      Adopt(p);
    }

    ghost method Adopt(p: string)
      requires AlmostValid(p) && p in providers
      modifies this`repr
      ensures Valid() && repr == old(repr) + providers[p].modelShards.Values
      ensures forall q :: q in providers ==> providers[q].View() == old(providers[q].View())
    {
      repr := repr + providers[p].modelShards.Values;
    }
  }

  ghost function WithProvider(s: Scheduler, key: string): Scheduler {
    if key in s.providers then s else s.(providers := s.providers[key := NO_PROVIDER])
  }

  lemma EnrollAdded(s: Scheduler, c: Credential, now: nat)
    ensures Enroll(WithProvider(s, c.provider), c, now) == Enroll(s, c, now)
  {
  }
}
