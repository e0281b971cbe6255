/** Properties of several picks in a row: the retry hint, exhaustive failover, rotation. */
module Failover {
  import opened Credentials
  import opened Ordering
  import opened Blocking
  import opened Shards
  import opened Picking

  // ----- the retry hint

  lemma PromotedReady(sh: Shard, key: string, creds: map<string, Credential>, now: nat, t: nat, id: string)
    requires Tracks(sh, key, creds, now) && now <= t && id in sh.blocked
    ensures id in sh.entries
    ensures sh.entries[id].nextRetryAt <= t ==> Promote(sh, t).entries[id].state == Ready
    ensures sh.entries[id].nextRetryAt > t ==> Promote(sh, t).entries[id] == sh.entries[id]
  {
    BlockedHasTime(sh.entries[id], creds[id], key, now);
    TestIsGate(creds[id], key, t);
    assert id in ExpiredIds(sh, t) <==> sh.entries[id].nextRetryAt <= t;
  }

  /** What a cooldown error says about the entries. */
  lemma CoolingMeans(entries: map<string, Entry>, tried: set<string>, now: nat) returns (first: string)
    requires ErrorFor(entries, tried, now).Cooling?
    ensures forall id :: id in Untried(entries, tried) ==>
              entries[id].state == CoolingDown &&
              (entries[id].nextRetryAt == UNSET || Earliest(entries, tried) <= entries[id].nextRetryAt)
    ensures first in Untried(entries, tried) && entries[first].nextRetryAt == Earliest(entries, tried)
    ensures ErrorFor(entries, tried, now).seconds == Seconds(Earliest(entries, tried) - now)
  {
    var times := RetryTimes(entries, tried);
    var e := Earliest(entries, tried);
    assert times != {} && e in times;
    first :| first in entries && first !in tried && entries[first].state == CoolingDown
             && entries[first].nextRetryAt == e;
    forall id | id in Untried(entries, tried) && entries[id].nextRetryAt != UNSET ensures e <= entries[id].nextRetryAt {
      assert entries[id].nextRetryAt in times;
    }
  }

  /**
   * A pick that fails with a cooldown of d seconds succeeds, when nothing is updated, from the earliest retry
   * time on and not before; d is the wait until then, rounded up.
   */
  lemma RetryHintExact(sh: Shard, key: string, creds: map<string, Credential>, strategy: Strategy, tried: set<string>,
                       now: nat, t: nat)
    requires Tracks(sh, key, creds, now) && now <= t
    requires PickFrom(sh, strategy, tried, now).outcome.Cooling?
    ensures var r := PickFrom(sh, strategy, tried, now);
            var earliest := Earliest(r.shard.entries, tried);
            && now < earliest <= now + r.outcome.seconds * SECOND < earliest + SECOND
            && (PickFrom(r.shard, strategy, tried, t).outcome.Picked? <==> earliest <= t)
  {
    var r := PickFrom(sh, strategy, tried, now);
    PickSound(sh, key, creds, strategy, tried, now);
    var first := CoolingMeans(r.shard.entries, tried, now);
    assert first in BlockedIds(r.shard.entries);
    HintTime(r.shard, key, creds, tried, now, t, first);
    TracksLater(r.shard, key, creds, now, t);
    PickSound(r.shard, key, creds, strategy, tried, t);
  }

  lemma HintTime(sh: Shard, key: string, creds: map<string, Credential>, tried: set<string>, now: nat, t: nat,
                 first: string)
    requires Tracks(sh, key, creds, now) && now <= t
    requires first in Untried(sh.entries, tried) && sh.entries[first].nextRetryAt == Earliest(sh.entries, tried)
    requires forall id :: id in Untried(sh.entries, tried) ==> sh.entries[id].state == CoolingDown
    requires forall id :: id in Untried(sh.entries, tried) ==>
               sh.entries[id].nextRetryAt == UNSET || Earliest(sh.entries, tried) <= sh.entries[id].nextRetryAt
    ensures ReadyIds(Promote(sh, t).entries) - tried != {} <==> Earliest(sh.entries, tried) <= t
  {
    CoolingAllPromoted(sh, key, creds, tried, now, t);
    FirstOfAll(sh.entries, Promote(sh, t).entries, tried, Earliest(sh.entries, tried), t, first);
  }

  /** If each is ready once its time has come, one is ready once the earliest time has come. */
  lemma FirstOfAll(entries: map<string, Entry>, entries': map<string, Entry>, tried: set<string>, e: Time, t: nat,
                   first: string)
    requires entries'.Keys == entries.Keys && first in Untried(entries, tried) && entries[first].nextRetryAt == e
    requires forall id :: id in Untried(entries, tried) ==>
               && (entries'[id].state == Ready <==> entries[id].nextRetryAt <= t)
               && e <= entries[id].nextRetryAt
    ensures ReadyIds(entries') - tried != {} <==> e <= t
  {
    assert e <= t ==> first in ReadyIds(entries') - tried;
  }

  lemma CoolingAllPromoted(sh: Shard, key: string, creds: map<string, Credential>, tried: set<string>, now: nat, t: nat)
    requires Tracks(sh, key, creds, now) && now <= t
    requires forall id :: id in Untried(sh.entries, tried) ==> sh.entries[id].state == CoolingDown
    ensures Promote(sh, t).entries.Keys == sh.entries.Keys
    ensures forall id :: id in Untried(sh.entries, tried) ==>
              && (Promote(sh, t).entries[id].state == Ready <==> sh.entries[id].nextRetryAt <= t)
              && sh.entries[id].nextRetryAt > UNSET
  {
    forall id | id in Untried(sh.entries, tried)
      ensures Promote(sh, t).entries[id].state == Ready <==> sh.entries[id].nextRetryAt <= t
      ensures sh.entries[id].nextRetryAt > UNSET
    {
      CoolingPromoted(sh, key, creds, now, t, id);
    }
  }

  lemma CoolingPromoted(sh: Shard, key: string, creds: map<string, Credential>, now: nat, t: nat, id: string)
    requires Tracks(sh, key, creds, now) && now <= t && id in sh.entries && sh.entries[id].state == CoolingDown
    ensures id in Promote(sh, t).entries && sh.entries[id].nextRetryAt > UNSET
    ensures Promote(sh, t).entries[id].state == Ready <==> sh.entries[id].nextRetryAt <= t
  {
    assert id in BlockedIds(sh.entries);
    BlockedHasTime(sh.entries[id], creds[id], key, now);
    PromotedReady(sh, key, creds, now, t, id);
  }

  // ----- failover

  /** A caller that keeps asking, each time adding the answer to the tried set. */
  ghost function Visit(sh: Shard, key: string, creds: map<string, Credential>, strategy: Strategy, tried: set<string>,
                       now: nat): seq<string>
    requires Tracks(sh, key, creds, now)
    decreases creds.Keys - tried
  {
    PickSound(sh, key, creds, strategy, tried, now);
    var r := PickFrom(sh, strategy, tried, now);
    if r.outcome.Picked? then
      [r.outcome.cred.id] + Visit(r.shard, key, creds, strategy, tried + {r.outcome.cred.id}, now)
    else []
  }

  predicate Descending(q: seq<string>, creds: map<string, Credential>) {
    && (forall i :: 0 <= i < |q| ==> q[i] in creds)
    && forall i, j :: 0 <= i < j < |q| ==> creds[q[i]].priority >= creds[q[j]].priority
  }

  predicate Distinct(q: seq<string>) {
    forall i, j :: 0 <= i < j < |q| ==> q[i] != q[j]
  }

  lemma PickedIsBest(sh: Shard, key: string, creds: map<string, Credential>, strategy: Strategy, tried: set<string>,
                     now: nat)
    requires Tracks(sh, key, creds, now)
    requires PickFrom(sh, strategy, tried, now).outcome.Picked?
    ensures BestReady(Promote(sh, now).entries, tried, strategy, PickFrom(sh, strategy, tried, now).outcome.cred.id)
  {
    PromoteTracks(sh, key, creds, now);
    PickReadyCorrect(Promote(sh, now), strategy, tried);
  }

  /** Every ready untried credential is visited, once, best priority first; then the caller gets an error. */
  lemma {:induction false} VisitExhaustive(sh: Shard, key: string, creds: map<string, Credential>, strategy: Strategy,
                                           tried: set<string>, now: nat)
    requires Tracks(sh, key, creds, now)
    ensures var q := Visit(sh, key, creds, strategy, tried, now);
            && Elems(q) == ReadyIds(Promote(sh, now).entries) - tried
            && Distinct(q)
            && Descending(q, creds)
    decreases creds.Keys - tried
  {
    var r := PickFrom(sh, strategy, tried, now);
    VisitStep(sh, key, creds, strategy, tried, now);
    if r.outcome.Picked? {
      var id := r.outcome.cred.id;
      VisitExhaustive(r.shard, key, creds, strategy, tried + {id}, now);
      var rest := Visit(r.shard, key, creds, strategy, tried + {id}, now);
      var ready := ReadyIds(r.shard.entries) - tried;
      assert Elems(rest) == ready - {id};
      Prepend(id, rest, ready, creds, r.shard.entries);
    }
  }

  lemma VisitStep(sh: Shard, key: string, creds: map<string, Credential>, strategy: Strategy, tried: set<string>,
                  now: nat)
    requires Tracks(sh, key, creds, now)
    ensures var r := PickFrom(sh, strategy, tried, now);
            && Tracks(r.shard, key, creds, now) && Promote(r.shard, now) == r.shard
            && Promote(sh, now).entries == r.shard.entries
            && (r.outcome.Picked? <==> ReadyIds(r.shard.entries) - tried != {})
            && (r.outcome.Picked? ==>
                  && r.outcome.cred.id in creds.Keys - tried
                  && BestReady(r.shard.entries, tried, strategy, r.outcome.cred.id))
  {
    PickSound(sh, key, creds, strategy, tried, now);
    var r := PickFrom(sh, strategy, tried, now);
    SettledStays(r.shard, now);
    if r.outcome.Picked? {
      PickedIsBest(sh, key, creds, strategy, tried, now);
    }
  }

  lemma Prepend(id: string, rest: seq<string>, ready: set<string>, creds: map<string, Credential>,
                entries: map<string, Entry>)
    requires Elems(rest) == ready - {id} && id in ready && Distinct(rest) && Descending(rest, creds)
    requires ready <= creds.Keys && entries.Keys == creds.Keys
    requires forall x :: x in creds ==> entries[x].priority == creds[x].priority
    requires forall x :: x in ready ==> entries[x].priority <= entries[id].priority
    ensures Elems([id] + rest) == ready && Distinct([id] + rest) && Descending([id] + rest, creds)
  {
    forall i | 0 <= i < |rest| ensures rest[i] in ready && rest[i] != id {
      assert rest[i] in Elems(rest);
    }
    assert Elems([id] + rest) == Elems(rest) + {id};
  }

  // ----- rotation

  /** The place reached from `start` after k steps around n places. */
  function Spot(start: nat, n: nat, k: nat): (r: nat)
    requires start < n
    ensures r < n
  {
    if k == 0 then start
    else if Spot(start, n, k - 1) + 1 == n then 0
    else Spot(start, n, k - 1) + 1
  }

  /** How often place j is met in the first `len` steps. */
  function Hits(n: nat, j: nat, start: nat, len: nat): nat
    requires start < n
  {
    if len == 0 then 0 else Hits(n, j, start, len - 1) + if Spot(start, n, len - 1) == j then 1 else 0
  }

  lemma {:induction false} SpotSplit(start: nat, n: nat, k: nat, l: nat)
    requires start < n
    ensures Spot(start, n, k + l) == Spot(Spot(start, n, k), n, l)
    decreases l
  {
    if l > 0 {
      SpotSplit(start, n, k, l - 1);
      assert k + l - 1 == k + (l - 1);
    }
  }

  lemma {:induction false} HitsSplit(n: nat, j: nat, start: nat, len: nat, len': nat)
    requires start < n
    ensures Hits(n, j, start, len + len') == Hits(n, j, start, len) + Hits(n, j, Spot(start, n, len), len')
    decreases len'
  {
    if len' > 0 {
      HitsSplit(n, j, start, len, len' - 1);
      SpotSplit(start, n, len, len' - 1);
      assert len + len' - 1 == len + (len' - 1);
    }
  }

  lemma {:induction false} SpotClimbs(start: nat, n: nat, k: nat)
    requires start + k < n
    ensures Spot(start, n, k) == start + k
    decreases k
  {
    if k > 0 {
      SpotClimbs(start, n, k - 1);
    }
  }

  lemma {:induction false} HitsClimb(n: nat, j: nat, start: nat, k: nat)
    requires start < n && start + k <= n
    ensures Hits(n, j, start, k) == if start <= j < start + k then 1 else 0
    decreases k
  {
    if k > 0 {
      HitsClimb(n, j, start, k - 1);
      SpotClimbs(start, n, k - 1);
    }
  }

  lemma SpotWraps(start: nat, n: nat)
    requires start < n
    ensures Spot(start, n, n - start) == 0
  {
    SpotClimbs(start, n, n - start - 1);
  }

  /** One full turn meets every place once and ends where it began. */
  lemma FullTurn(n: nat, j: nat, start: nat)
    requires start < n && j < n
    ensures Hits(n, j, start, n) == 1 && Spot(start, n, n) == start
  {
    HitsSplit(n, j, start, n - start, start);
    SpotSplit(start, n, n - start, start);
    SpotWraps(start, n);
    HitsClimb(n, j, start, n - start);
    HitsClimb(n, j, 0, start);
    SpotClimbs(0, n, start);
  }

  /** Any k full turns meet each place exactly k times. */
  lemma {:induction false} EvenShare(n: nat, j: nat, start: nat, k: nat)
    requires start < n && j < n
    ensures Hits(n, j, start, k * n) == k
    decreases k
  {
    if k == 0 {
      assert k * n == 0;
    } else {
      var rest := (k - 1) * n;
      assert k * n == n + rest;
      HitsSplit(n, j, start, n, rest);
      FullTurn(n, j, start);
      EvenShare(n, j, start, k - 1);
    }
  }
}
