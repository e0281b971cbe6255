/** The retry hint and failover as a caller of the scheduler sees them. */
module Sweeps {
  import opened Credentials
  import opened Ordering
  import opened Blocking
  import opened Shards
  import opened Picking
  import opened Failover
  import opened Scheduling

  // ----- the retry hint

  /** The shard that answers picks for a model, once it exists. */
  ghost predicate Serves(s: Scheduler, provider: string, model: string, sh: Shard) {
    provider in s.providers && ShardKey(model) in s.providers[provider].shards &&
    s.providers[provider].shards[ShardKey(model)] == sh
  }

  /** A pick is a pick from that shard. */
  lemma PickOnShard(s: Scheduler, t: Table, provider: string, model: string, sh: Shard, tried: set<string>, from: nat,
                    now: nat)
    requires Represents(s, t, from) && from <= now && Serves(s, provider, model, sh)
    ensures Pick(s, provider, model, tried, now).outcome == PickFrom(sh, s.strategy, tried, now).outcome
  {
    RepresentsLater(s, t, from, now);
    var key := ShardKey(model);
    assert Tracks(sh, key, Of(t, provider), now);
    PromoteTracks(sh, key, Of(t, provider), now);
    SettledStays(Promote(sh, now), now);
  }

  /** A cooldown error comes from the provider's own shard for the model. */
  lemma CoolingShard(s: Scheduler, t: Table, provider: string, model: string, tried: set<string>, now: nat)
    returns (sh: Shard)
    requires Represents(s, t, now) && Pick(s, provider, model, tried, now).outcome.Cooling?
    ensures Tracks(sh, ShardKey(model), Of(t, provider), now)
    ensures Pick(s, provider, model, tried, now).outcome == PickFrom(sh, s.strategy, tried, now).outcome
    ensures Serves(Pick(s, provider, model, tried, now).scheduler, provider, model,
                   PickFrom(sh, s.strategy, tried, now).shard)
  {
    PickShard(s, t, provider, model, now);
    sh := EnsureModel(s.providers[provider], CanonicalModelKey(model), now).shards[ShardKey(model)];
  }

  /**
   * When a pick fails with a cooldown of d seconds, and nothing is updated, there is one moment, at most d seconds
   * and more than d - 1 away, from which the same pick succeeds and before which it fails.
   */
  lemma RetryHint(s: Scheduler, t: Table, provider: string, model: string, tried: set<string>, now: nat)
    returns (earliest: Time)
    requires Represents(s, t, now) && Pick(s, provider, model, tried, now).outcome.Cooling?
    ensures var r := Pick(s, provider, model, tried, now);
            && now < earliest <= now + r.outcome.seconds * SECOND < earliest + SECOND
            && forall later: nat :: now <= later ==>
                 (Pick(r.scheduler, provider, model, tried, later).outcome.Picked? <==> earliest <= later)
  {
    var r := Pick(s, provider, model, tried, now);
    var sh := CoolingShard(s, t, provider, model, tried, now);
    var sh' := PickFrom(sh, s.strategy, tried, now).shard;
    earliest := Earliest(sh'.entries, tried);
    RetryHintExact(sh, ShardKey(model), Of(t, provider), s.strategy, tried, now, now);
    PickRepresents(s, t, provider, model, tried, now);
    forall later: nat | now <= later
      ensures Pick(r.scheduler, provider, model, tried, later).outcome.Picked? <==> earliest <= later
    {
      RetryHintExact(sh, ShardKey(model), Of(t, provider), s.strategy, tried, now, later);
      PickOnShard(r.scheduler, t, provider, model, sh', tried, now, later);
    }
  }

  // ----- failover

  /** A caller that asks until it gets an error, adding each answer to the tried set. */
  ghost function Sweep(s: Scheduler, t: Table, provider: string, model: string, tried: set<string>,
                       now: nat): seq<string>
    requires Represents(s, t, now)
    decreases Of(t, provider).Keys - tried
  {
    PickRepresents(s, t, provider, model, tried, now);
    var r := Pick(s, provider, model, tried, now);
    if r.outcome.Picked? then
      [r.outcome.cred.id] + Sweep(r.scheduler, t, provider, model, tried + {r.outcome.cred.id}, now)
    else []
  }

  /** It meets every credential the plain test lets through, once each, by falling priority. */
  lemma {:induction false} SweepVisitsOpen(s: Scheduler, t: Table, provider: string, model: string,
                                           tried: set<string>, now: nat)
    requires Represents(s, t, now)
    requires AllPunctual(Of(t, provider), ShardKey(model))
    ensures var q := Sweep(s, t, provider, model, tried, now);
            && Elems(q) == OpenIds(Of(t, provider), ShardKey(model), tried, now)
            && Distinct(q) && Descending(q, Of(t, provider))
    decreases Of(t, provider).Keys - tried
  {
    PickRepresents(s, t, provider, model, tried, now);
    PickIsScan(s, t, provider, model, tried, now);
    var r := Pick(s, provider, model, tried, now);
    if r.outcome.Picked? {
      var id := r.outcome.cred.id;
      SweepVisitsOpen(r.scheduler, t, provider, model, tried + {id}, now);
      var rest := Sweep(r.scheduler, t, provider, model, tried + {id}, now);
      OpenWithout(Of(t, provider), ShardKey(model), tried, now, id);
      PrependBest(id, rest, OpenIds(Of(t, provider), ShardKey(model), tried, now), Of(t, provider));
    }
  }

  lemma OpenWithout(creds: Table, key: string, tried: set<string>, now: nat, id: string)
    ensures OpenIds(creds, key, tried + {id}, now) == OpenIds(creds, key, tried, now) - {id}
  {
  }

  lemma PrependBest(id: string, rest: seq<string>, open: set<string>, creds: Table)
    requires open <= creds.Keys && ScanPicks(creds, open, id)
    requires Elems(rest) == open - {id} && Distinct(rest) && Descending(rest, creds)
    ensures Elems([id] + rest) == open && Distinct([id] + rest) && Descending([id] + rest, creds)
  {
    forall i | 0 <= i < |rest| ensures rest[i] in open && rest[i] != id {
      assert rest[i] in Elems(rest);
    }
    assert Elems([id] + rest) == Elems(rest) + {id};
  }
}
