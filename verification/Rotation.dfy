/** Round-robin through the whole stack: requests that succeed share a bucket evenly. */
module Rotation {
  import opened Credentials
  import opened Ordering
  import opened Blocking
  import opened Shards
  import opened Picking
  import opened Failover
  import opened Scheduling
  import opened Lifecycle
  import opened Managing
  import opened Runs

  /** Nothing a success would have to clear. */
  predicate Healthy(c: Credential) {
    && !c.unavailable && c.lastError.None? && !c.quota.exceeded
    && forall m :: m in c.modelStates ==> !c.modelStates[m].unavailable && c.modelStates[m].lastError.None?
  }

  lemma SuccessLeavesHealthy(c: Credential, r: Result, coolingOff: bool, now: nat)
    requires Healthy(c) && r.success
    ensures MarkCredential(c, r, coolingOff, now) == Marked(c, false)
  {
  }

  // ----- one shard

  ghost function Turn(sh: Shard, p: int, cursor: nat): Shard
    requires p in sh.buckets
  {
    sh.(buckets := sh.buckets[p := sh.buckets[p].(cursor := cursor)])
  }

  /** Nobody's wait ends by `until`, and p is the highest priority with ready credentials. */
  ghost predicate Steady(sh: Shard, p: int, until: nat) {
    && Settled(sh, until) && IsGreatest(p, sh.buckets.Keys)
    && forall q :: q in sh.buckets ==> sh.buckets[q].creds != [] && sh.buckets[q].cursor <= |sh.buckets[q].creds|
  }

  lemma PickTurns(sh: Shard, p: int, until: nat, now: nat)
    requires Steady(sh, p, until) && now <= until
    ensures var b := sh.buckets[p];
            var i := Start(b);
            PickFrom(sh, RoundRobin, {}, now) == ShardPick(Turn(sh, p, i + 1), Picked(b.creds[i]))
  {
    SettledStays(sh, now);
    assert Matching(sh, {}) == sh.buckets.Keys by {
      forall q | q in sh.buckets ensures HasMatch(sh.buckets[q], {}) {
        assert sh.buckets[q].creds[0].id !in {};
      }
    }
    var b := sh.buckets[p];
    FirstTry(b);
  }

  lemma FirstTry(b: Bucket)
    requires b.creds != [] && b.cursor <= |b.creds|
    ensures Choose(RoundRobin, b, {}) == Some(Start(b))
  {
    var n := |b.creds|;
    assert b.cursor % n == Start(b);
    assert (Start(b) + 0) % n == Start(b);
  }

  // ----- when a rotation survives an upsert

  predicate Restarted(sh: Shard) {
    forall p :: p in sh.buckets ==> sh.buckets[p].cursor == 0
  }

  /** From cursors at the start, round-robin answers as fill-first does. */
  lemma RestartedPick(sh: Shard, tried: set<string>, now: nat)
    requires Restarted(sh)
    ensures PickFrom(sh, RoundRobin, tried, now).outcome == PickFrom(sh, FillFirst, tried, now).outcome
  {
    var sh' := Promote(sh, now);
    assert Restarted(sh');
    var ps := Matching(sh', tried);
    if ps != {} {
      RestartedChoice(sh'.buckets[Greatest(ps)], tried);
    }
  }

  lemma RestartedChoice(b: Bucket, tried: set<string>)
    requires b.cursor == 0
    ensures Choose(RoundRobin, b, tried) == Choose(FillFirst, b, tried)
  {
    assert b.creds != [] ==> 0 % |b.creds| == 0;
  }

  /**
   * An upsert leaves every cursor where it is if the credential keeps its place, and otherwise sends all cursors of
   * the shard to the start: the next pick is the one fill-first would make.
   */
  lemma UpsertRotation(sh: Shard, c: Credential, tried: set<string>, now: nat, later: nat)
    ensures var kept := c.id in sh.entries && SamePlace(sh.entries[c.id], Classify(c, sh.key, now));
            var sh' := UpsertEntry(sh, c, now);
            && (kept ==> sh'.buckets == sh.buckets && sh'.blocked == sh.blocked)
            && (!kept ==> Restarted(sh'))
            && (!kept ==>
                  PickFrom(sh', RoundRobin, tried, later).outcome == PickFrom(sh', FillFirst, tried, later).outcome)
  {
    if !(c.id in sh.entries && SamePlace(sh.entries[c.id], Classify(c, sh.key, now))) {
      RestartedPick(UpsertEntry(sh, c, now), tried, later);
    }
  }

  // ----- the cursor after several picks

  /** The place a bucket's next pick is taken from. */
  function Start(b: Bucket): (s: nat)
    requires b.creds != [] && b.cursor <= |b.creds|
    ensures s < |b.creds|
  {
    if b.cursor == |b.creds| then 0 else b.cursor
  }

  function CursorAfter(b: Bucket, k: nat): (cursor: nat)
    requires b.creds != [] && b.cursor <= |b.creds|
    ensures cursor <= |b.creds|
  {
    if k == 0 then b.cursor else Spot(Start(b), |b.creds|, k - 1) + 1
  }

  lemma CursorPlace(b: Bucket, k: nat)
    requires b.creds != [] && b.cursor <= |b.creds|
    ensures Start(b.(cursor := CursorAfter(b, k))) == Spot(Start(b), |b.creds|, k)
  {
  }

  // ----- requests

  ghost predicate Has(m: Manager, provider: string, key: string) {
    provider in m.scheduler.providers && key in m.scheduler.providers[provider].shards
  }

  ghost function ShardOf(m: Manager, provider: string, key: string): Shard
    requires Has(m, provider, key)
  {
    m.scheduler.providers[provider].shards[key]
  }

  ghost function WithShard(m: Manager, provider: string, key: string, sh: Shard): Manager
    requires Has(m, provider, key)
  {
    var p := m.scheduler.providers[provider];
    m.(scheduler := m.scheduler.(providers := m.scheduler.providers[provider := p.(shards := p.shards[key := sh])]))
  }

  /** A healthy round: every credential of the shard's top bucket is healthy, and nobody joins it up to `until`. */
  ghost predicate Round(m: Manager, provider: string, key: string, p: int, until: nat) {
    && m.scheduler.strategy == RoundRobin && Has(m, provider, key)
    && Steady(ShardOf(m, provider, key), p, until)
    && forall c :: c in ShardOf(m, provider, key).buckets[p].creds ==> c.id in m.creds && Healthy(m.creds[c.id])
  }

  /** Healthy and switched on, also for every model. */
  predicate Fit(c: Credential) {
    Healthy(c) && c.status != Disabled && forall m :: m in c.modelStates ==> c.modelStates[m].status != Disabled
  }

  /** Fit, or kept out of the shard's buckets up to `until`. */
  predicate FitOrOut(c: Credential, key: string, until: nat) {
    Fit(c) || Test(c, key, until).Closed?
  }

  lemma FitIsReady(e: Entry, c: Credential, key: string, now: nat, until: nat)
    requires EntryOk(e, c, key, now) && now <= until && FitOrOut(c, key, until)
    ensures e.state == Ready <==> Fit(c)
    ensures e.state == CoolingDown || e.state == Waiting ==> e.nextRetryAt > until
  {
    TestIsGate(c, key, until);
    assert Fit(c) ==> GateOf(c, key) == Free;
  }

  /**
   * Where each credential of a provider is fit or out for longer, and one is fit, every pick leaves such a round
   * behind.
   */
  lemma FitMakesRound(m: Manager, provider: string, model: string, tried: set<string>, now: nat, until: nat,
                      any: string)
    returns (p: int)
    requires Coherent(m, now) && m.scheduler.strategy == RoundRobin && now <= until
    requires forall id :: id in m.creds && m.creds[id].provider == provider ==>
               FitOrOut(m.creds[id], ShardKey(model), until)
    requires any in Of(Projection(m.creds), provider) && Fit(m.creds[any])
    ensures Round(PickCredential(m, provider, model, tried, now), provider, ShardKey(model), p, until)
  {
    var t := Projection(m.creds);
    var key := ShardKey(model);
    var m' := PickCredential(m, provider, model, tried, now);
    PickRepresents(m.scheduler, t, provider, model, tried, now);
    assert provider in m.scheduler.providers;
    assert Has(m', provider, key);
    p := FitShard(ShardOf(m', provider, key), key, Of(t, provider), now, until, any);
  }

  lemma FitShard(sh: Shard, key: string, creds: Table, now: nat, until: nat, any: string) returns (p: int)
    requires Tracks(sh, key, creds, now) && now <= until && any in creds && Fit(creds[any])
    requires forall id :: id in creds ==> FitOrOut(creds[id], key, until)
    ensures Steady(sh, p, until)
    ensures forall c :: c in sh.buckets[p].creds ==> c.id in creds && Fit(creds[c.id])
  {
    FitSettled(sh, key, creds, now, until);
    assert sh.entries[any].priority in Priorities(sh.entries);
    p := Greatest(sh.buckets.Keys);
    NoEmptyBucket(sh);
    forall c | c in sh.buckets[p].creds ensures c.id in creds && Fit(creds[c.id]) {
      var i :| 0 <= i < |sh.buckets[p].creds| && sh.buckets[p].creds[i] == c;
      assert Ids(sh.buckets[p].creds)[i] == c.id;
      BucketMember(sh, p, c.id);
    }
  }

  lemma NoEmptyBucket(sh: Shard)
    requires Indexed(sh)
    ensures forall q :: q in sh.buckets ==> sh.buckets[q].creds != []
  {
    forall q | q in sh.buckets ensures sh.buckets[q].creds != [] {
      var id :| id in sh.entries && sh.entries[id].state == Ready && sh.entries[id].priority == q;
      BucketMember(sh, q, id);
    }
  }

  lemma FitSettled(sh: Shard, key: string, creds: Table, now: nat, until: nat)
    requires Tracks(sh, key, creds, now) && now <= until
    requires forall id :: id in creds ==> FitOrOut(creds[id], key, until)
    ensures Settled(sh, until) && forall id :: id in creds ==> (sh.entries[id].state == Ready <==> Fit(creds[id]))
  {
    forall id | id in creds
      ensures sh.entries[id].state == Ready <==> Fit(creds[id])
      ensures id in sh.blocked ==> sh.entries[id].nextRetryAt > until
    {
      FitIsReady(sh.entries[id], creds[id], key, now, until);
    }
  }

  /** The shard's next credential in turn. */
  ghost function InTurn(m: Manager, provider: string, key: string, p: int, until: nat): Credential
    requires Round(m, provider, key, p, until)
  {
    var b := ShardOf(m, provider, key).buckets[p];
    b.creds[Start(b)]
  }

  ghost function AfterTurn(m: Manager, provider: string, key: string, p: int, until: nat): Manager
    requires Round(m, provider, key, p, until)
  {
    var sh := ShardOf(m, provider, key);
    WithShard(m, provider, key, Turn(sh, p, Start(sh.buckets[p]) + 1))
  }

  lemma RoundPick(s: Scheduler, provider: string, sh: Shard, model: string, now: nat, p: int, until: nat)
    returns (r: Picks)
    requires s.strategy == RoundRobin && Steady(sh, p, until) && now <= until
    requires provider in s.providers && ShardKey(model) in s.providers[provider].shards
    requires s.providers[provider].shards[ShardKey(model)] == sh
    ensures Pick(s, provider, model, {}, now) == r
    ensures var i := Start(sh.buckets[p]);
            var pr := s.providers[provider];
            var pr' := pr.(shards := pr.shards[ShardKey(model) := Turn(sh, p, i + 1)]);
            r == Picks(s.(providers := s.providers[provider := pr']), Picked(sh.buckets[p].creds[i]))
  {
    var q := PickInPlace(s.providers[provider], sh, model, now, p, until);
    r := PickOf(s, provider, model, now, q);
  }

  lemma PickOf(s: Scheduler, provider: string, model: string, now: nat, q: ProviderPick) returns (r: Picks)
    requires provider in s.providers && s.strategy == RoundRobin
    requires PickProvider(s.providers[provider], model, RoundRobin, {}, now) == q
    ensures Pick(s, provider, model, {}, now) == r
    ensures r == Picks(s.(providers := s.providers[provider := q.provider]), q.outcome)
  {
    r := Picks(s.(providers := s.providers[provider := q.provider]), q.outcome);
  }

  /** A successful request moves the cursor and changes nothing else. */
  lemma RequestTurns(m: Manager, e: Event, now: nat, p: int, until: nat)
    requires e.ERequest? && e.failure.None? && now <= until && Round(m, e.provider, ShardKey(e.model), p, until)
    ensures Step(m, e, now) == AfterTurn(m, e.provider, ShardKey(e.model), p, until)
    ensures MarkOf(m, e, now) ==
            Some(ResultOf(InTurn(m, e.provider, ShardKey(e.model), p, until).id, e.model, e.failure))
  {
    var sh, c, m' := TurnShape(m, e.provider, ShardKey(e.model), p, until);
    RoundRequest(m, e, sh, now, p, until, c, m');
  }

  lemma TurnShape(m: Manager, provider: string, key: string, p: int, until: nat)
    returns (sh: Shard, c: Credential, m': Manager)
    requires Round(m, provider, key, p, until)
    ensures sh == ShardOf(m, provider, key) && Steady(sh, p, until)
    ensures c == InTurn(m, provider, key, p, until) && c == sh.buckets[p].creds[Start(sh.buckets[p])]
    ensures c.id in m.creds && Healthy(m.creds[c.id])
    ensures m' == AfterTurn(m, provider, key, p, until)
    ensures m' == WithShard(m, provider, key, Turn(sh, p, Start(sh.buckets[p]) + 1))
  {
    sh := ShardOf(m, provider, key);
    var b := sh.buckets[p];
    c, m' := b.creds[Start(b)], AfterTurn(m, provider, key, p, until);
    assert c in b.creds;
  }

  lemma RoundRequest(m: Manager, e: Event, sh: Shard, now: nat, p: int, until: nat, c: Credential, m': Manager)
    requires e.ERequest? && e.failure.None? && m.scheduler.strategy == RoundRobin
    requires Has(m, e.provider, ShardKey(e.model)) && ShardOf(m, e.provider, ShardKey(e.model)) == sh
    requires Steady(sh, p, until) && now <= until && c.id in m.creds && Healthy(m.creds[c.id])
    requires c == sh.buckets[p].creds[Start(sh.buckets[p])]
    requires m' == WithShard(m, e.provider, ShardKey(e.model), Turn(sh, p, Start(sh.buckets[p]) + 1))
    ensures Step(m, e, now) == m' && MarkOf(m, e, now) == Some(ResultOf(c.id, e.model, e.failure))
  {
    var r := RoundPick(m.scheduler, e.provider, sh, e.model, now, p, until);
    RequestOutcome(m, e, now, r);
  }

  lemma RequestOutcome(m: Manager, e: Event, now: nat, r: Picks)
    requires e.ERequest? && e.failure.None? && Pick(m.scheduler, e.provider, e.model, {}, now) == r
    requires r.outcome.Picked? && r.outcome.cred.id in m.creds && Healthy(m.creds[r.outcome.cred.id])
    ensures Step(m, e, now) == m.(scheduler := r.scheduler)
    ensures MarkOf(m, e, now) == Some(ResultOf(r.outcome.cred.id, e.model, e.failure))
  {
    RequestStep(m, e, now, r);
    MarkHealthy(m.(scheduler := r.scheduler), ResultOf(r.outcome.cred.id, e.model, e.failure), e.storeOk, now);
  }

  lemma MarkHealthy(m: Manager, r: Result, storeOk: bool, now: nat)
    requires r.id in m.creds && Healthy(m.creds[r.id]) && r.success
    ensures Mark(m, r, storeOk, now) == m
  {
    SuccessLeavesHealthy(m.creds[r.id], r, m.coolingOff, now);
  }

  lemma PickInPlace(pr: Provider, sh: Shard, model: string, now: nat, p: int, until: nat) returns (r: ProviderPick)
    requires ShardKey(model) in pr.shards && pr.shards[ShardKey(model)] == sh
    requires Steady(sh, p, until) && now <= until
    ensures PickProvider(pr, model, RoundRobin, {}, now) == r
    ensures var i := Start(sh.buckets[p]);
            r == ProviderPick(pr.(shards := pr.shards[ShardKey(model) := Turn(sh, p, i + 1)]),
                              Picked(sh.buckets[p].creds[i]))
  {
    var i := Start(sh.buckets[p]);
    PickTurns(sh, p, until, now);
    r := PickSettled(pr, sh, model, now, ShardPick(Turn(sh, p, i + 1), Picked(sh.buckets[p].creds[i])));
  }

  lemma PickSettled(pr: Provider, sh: Shard, model: string, now: nat, q: ShardPick) returns (r: ProviderPick)
    requires ShardKey(model) in pr.shards && pr.shards[ShardKey(model)] == sh && Settled(sh, now)
    requires PickFrom(sh, RoundRobin, {}, now) == q
    ensures PickProvider(pr, model, RoundRobin, {}, now) == r
    ensures r == ProviderPick(pr.(shards := pr.shards[ShardKey(model) := q.shard]), q.outcome)
  {
    EnsureInPlace(pr, CanonicalModelKey(model), now);
    r := ProviderPick(pr.(shards := pr.shards[ShardKey(model) := q.shard]), q.outcome);
  }

  lemma EnsureInPlace(pr: Provider, model: string, now: nat)
    requires CanonicalModelKey(model) in pr.shards && Settled(pr.shards[CanonicalModelKey(model)], now)
    ensures EnsureModel(pr, model, now) == pr
  {
    var sh := pr.shards[CanonicalModelKey(model)];
    SettledStays(sh, now);
    assert pr.shards[CanonicalModelKey(model) := sh] == pr.shards;
  }

  /** A run of successful requests for one provider and one shard, up to a time. */
  predicate Successes(es: seq<At>, provider: string, key: string, until: nat) {
    forall i :: 0 <= i < |es| ==>
      && es[i].time <= until
      && es[i].event.ERequest? && es[i].event.failure.None?
      && es[i].event.provider == provider && ShardKey(es[i].event.model) == key
  }

  ghost function Turned(m: Manager, provider: string, key: string, p: int, k: nat): Manager
    requires Has(m, provider, key) && p in ShardOf(m, provider, key).buckets
    requires var b := ShardOf(m, provider, key).buckets[p]; b.creds != [] && b.cursor <= |b.creds|
  {
    var sh := ShardOf(m, provider, key);
    var b := sh.buckets[p];
    WithShard(m, provider, key, Turn(sh, p, CursorAfter(b, k)))
  }

  lemma TurnTwice(sh: Shard, p: int, a: nat, b: nat, until: nat)
    requires p in sh.buckets
    ensures Turn(Turn(sh, p, a), p, b) == Turn(sh, p, b)
    ensures Turn(sh, p, sh.buckets[p].cursor) == sh
    ensures Steady(sh, p, until) && a <= |sh.buckets[p].creds| ==> Steady(Turn(sh, p, a), p, until)
  {
    assert Turn(sh, p, a).buckets.Keys == sh.buckets.Keys;
    assert Turn(sh, p, sh.buckets[p].cursor).buckets == sh.buckets;
  }

  lemma WithShardTwice(m: Manager, provider: string, key: string, a: Shard, b: Shard)
    requires Has(m, provider, key)
    ensures Has(WithShard(m, provider, key, a), provider, key)
    ensures ShardOf(WithShard(m, provider, key, a), provider, key) == a
    ensures WithShard(WithShard(m, provider, key, a), provider, key, b) == WithShard(m, provider, key, b)
    ensures WithShard(m, provider, key, ShardOf(m, provider, key)) == m
  {
    var ps := m.scheduler.providers;
    assert ps[provider].shards[key := a][key := b] == ps[provider].shards[key := b];
    assert ps[provider].shards[key := ps[provider].shards[key]] == ps[provider].shards;
  }

  lemma TurnedRound(m: Manager, provider: string, key: string, p: int, k: nat, until: nat)
    requires Round(m, provider, key, p, until)
    ensures var m' := Turned(m, provider, key, p, k);
            var b := ShardOf(m, provider, key).buckets[p];
            && Round(m', provider, key, p, until)
            && ShardOf(m', provider, key) == Turn(ShardOf(m, provider, key), p, CursorAfter(b, k))
  {
    var sh := ShardOf(m, provider, key);
    var b := sh.buckets[p];
    var c := CursorAfter(b, k);
    TurnTwice(sh, p, c, c, until);
    WithShardTwice(m, provider, key, Turn(sh, p, c), sh);
  }

  /** The k-th request of a round. */
  lemma StepTurns(m: Manager, provider: string, key: string, p: int, k: nat, e: Event, now: nat, until: nat)
    requires Round(m, provider, key, p, until) && now <= until
    requires e.ERequest? && e.failure.None? && e.provider == provider && ShardKey(e.model) == key
    ensures var m' := Turned(m, provider, key, p, k);
            var b := ShardOf(m, provider, key).buckets[p];
            && Step(m', e, now) == Turned(m, provider, key, p, k + 1)
            && MarkOf(m', e, now) == Some(ResultOf(b.creds[Spot(Start(b), |b.creds|, k)].id, e.model, e.failure))
  {
    TurnedRound(m, provider, key, p, k, until);
    TurnedNext(m, provider, key, p, k, until);
    RequestTurns(Turned(m, provider, key, p, k), e, now, p, until);
  }

  /** One more turn of the shard as it is after k requests. */
  lemma TurnedNext(m: Manager, provider: string, key: string, p: int, k: nat, until: nat)
    requires Round(m, provider, key, p, until) && Round(Turned(m, provider, key, p, k), provider, key, p, until)
    ensures var b := ShardOf(m, provider, key).buckets[p];
            var m' := Turned(m, provider, key, p, k);
            && InTurn(m', provider, key, p, until) == b.creds[Spot(Start(b), |b.creds|, k)]
            && AfterTurn(m', provider, key, p, until) == Turned(m, provider, key, p, k + 1)
  {
    var b := ShardOf(m, provider, key).buckets[p];
    TurnedRound(m, provider, key, p, k, until);
    CursorPlace(b, k);
    TurnedTwice(m, provider, key, p, CursorAfter(b, k), CursorAfter(b, k + 1), until);
  }

  lemma TurnedTwice(m: Manager, provider: string, key: string, p: int, a: nat, b: nat, until: nat)
    requires Has(m, provider, key) && p in ShardOf(m, provider, key).buckets
    ensures var sh := ShardOf(m, provider, key);
            WithShard(WithShard(m, provider, key, Turn(sh, p, a)), provider, key, Turn(Turn(sh, p, a), p, b)) ==
            WithShard(m, provider, key, Turn(sh, p, b))
  {
    var sh := ShardOf(m, provider, key);
    TurnTwice(sh, p, a, b, until);
    WithShardTwice(m, provider, key, Turn(sh, p, a), Turn(sh, p, b));
  }

  lemma {:induction false} RunTurns(m: Manager, es: seq<At>, provider: string, key: string, p: int, until: nat)
    requires Round(m, provider, key, p, until) && Successes(es, provider, key, until)
    ensures RunAll(m, es) == Turned(m, provider, key, p, |es|)
  {
    if es == [] {
      var sh := ShardOf(m, provider, key);
      TurnTwice(sh, p, 0, 0, until);
      WithShardTwice(m, provider, key, sh, sh);
    } else {
      var before, last := es[..|es| - 1], es[|es| - 1];
      RunTurns(m, before, provider, key, p, until);
      StepTurns(m, provider, key, p, |before|, last.event, last.time, until);
    }
  }

  /** Which credential served each request of a run. */
  ghost function Servers(m: Manager, es: seq<At>): (q: seq<Option<string>>)
    ensures |q| == |es|
  {
    seq(|es|, i requires 0 <= i < |es| => Server(m, es, i))
  }

  ghost function Server(m: Manager, es: seq<At>, i: nat): Option<string>
    requires i < |es|
  {
    var r := MarkOf(RunAll(m, es[..i]), es[i].event, es[i].time);
    if r.Some? then Some(r.value.id) else None
  }

  function Count<T(==)>(q: seq<T>, x: T): nat {
    if q == [] then 0 else Count(q[..|q| - 1], x) + if q[|q| - 1] == x then 1 else 0
  }

  lemma WhoServed(m: Manager, es: seq<At>, provider: string, key: string, p: int, i: nat, until: nat)
    requires Round(m, provider, key, p, until) && Successes(es, provider, key, until) && i < |es|
    ensures var b := ShardOf(m, provider, key).buckets[p];
            Server(m, es, i) == Some(b.creds[Spot(Start(b), |b.creds|, i)].id)
  {
    RunTurns(m, es[..i], provider, key, p, until);
    StepTurns(m, provider, key, p, i, es[i].event, es[i].time, until);
  }

  /** The places met in turn. */
  function Places(start: nat, n: nat, len: nat): (q: seq<nat>)
    requires start < n
    ensures |q| == len
  {
    if len == 0 then [] else Places(start, n, len - 1) + [Spot(start, n, len - 1)]
  }

  lemma {:induction false} PlaceAt(start: nat, n: nat, len: nat, i: nat)
    requires start < n && i < len
    ensures Places(start, n, len)[i] == Spot(start, n, i)
    decreases len
  {
    if i < len - 1 {
      PlaceAt(start, n, len - 1, i);
    }
  }

  lemma CountAppend<T>(q: seq<T>, y: T, x: T)
    ensures Count(q + [y], x) == Count(q, x) + if y == x then 1 else 0
  {
    assert (q + [y])[..|q + [y]| - 1] == q;
  }

  lemma {:induction false} CountPlaces(start: nat, n: nat, len: nat, j: nat)
    requires start < n
    ensures Count(Places(start, n, len), j) == Hits(n, j, start, len)
  {
    if len > 0 {
      CountPlaces(start, n, len - 1, j);
      CountAppend(Places(start, n, len - 1), Spot(start, n, len - 1), j);
    }
  }

  /** Counting an element of a list without repetitions is counting its place. */
  lemma {:induction false} CountByPlace(q: seq<Option<string>>, places: seq<nat>, ids: seq<string>, j: nat)
    requires |q| == |places| && j < |ids| && Distinct(ids)
    requires forall i :: 0 <= i < |q| ==> places[i] < |ids| && q[i] == Some(ids[places[i]])
    ensures Count(q, Some(ids[j])) == Count(places, j)
  {
    if q != [] {
      var n := |q| - 1;
      CountByPlace(q[..n], places[..n], ids, j);
      assert ids[places[n]] == ids[j] <==> places[n] == j;
    }
  }

  lemma ServedPlaces(m: Manager, es: seq<At>, provider: string, key: string, p: int, until: nat)
    requires Round(m, provider, key, p, until) && Successes(es, provider, key, until)
    ensures var b := ShardOf(m, provider, key).buckets[p];
            forall i :: 0 <= i < |es| ==> Servers(m, es)[i] == Some(Ids(b.creds)[Spot(Start(b), |b.creds|, i)])
  {
    forall i | 0 <= i < |es|
      ensures var b := ShardOf(m, provider, key).buckets[p];
              Servers(m, es)[i] == Some(Ids(b.creds)[Spot(Start(b), |b.creds|, i)])
    {
      WhoServed(m, es, provider, key, p, i, until);
    }
  }

  /** A list that goes round k times meets every element k times. */
  lemma CountRounds(q: seq<Option<string>>, ids: seq<string>, start: nat, j: nat, k: nat)
    requires start < |ids| && j < |ids| && Distinct(ids) && |q| == k * |ids|
    requires forall i :: 0 <= i < |q| ==> q[i] == Some(ids[Spot(start, |ids|, i)])
    ensures Count(q, Some(ids[j])) == k
  {
    var places := Places(start, |ids|, |q|);
    forall i | 0 <= i < |q| ensures places[i] == Spot(start, |ids|, i) {
      PlaceAt(start, |ids|, |q|, i);
    }
    CountByPlace(q, places, ids, j);
    CountPlaces(start, |ids|, |q|, j);
    EvenShare(|ids|, j, start, k);
  }

  /** Any k * n successful requests in a row over a top bucket of n use each of its credentials exactly k times. */
  lemma FairShare(m: Manager, es: seq<At>, provider: string, key: string, p: int, j: nat, k: nat, now: nat, until: nat)
    requires Coherent(m, now) && Round(m, provider, key, p, until) && Successes(es, provider, key, until)
    requires var b := ShardOf(m, provider, key).buckets[p]; j < |b.creds| && |es| == k * |b.creds|
    ensures Count(Servers(m, es), Some(ShardOf(m, provider, key).buckets[p].creds[j].id)) == k
    ensures RunAll(m, es).creds == m.creds && RunAll(m, es).store == m.store
  {
    var b := ShardOf(m, provider, key).buckets[p];
    BucketDistinct(m, provider, key, p, now);
    ServedPlaces(m, es, provider, key, p, until);
    CountRounds(Servers(m, es), Ids(b.creds), Start(b), j, k);
    RunTurns(m, es, provider, key, p, until);
  }

  lemma BucketDistinct(m: Manager, provider: string, key: string, p: int, now: nat)
    requires Coherent(m, now) && Has(m, provider, key) && p in ShardOf(m, provider, key).buckets
    ensures Distinct(Ids(ShardOf(m, provider, key).buckets[p].creds))
  {
    var sh := ShardOf(m, provider, key);
    assert Tracks(sh, key, Of(Projection(m.creds), provider), now);
    var ids := Ids(sh.buckets[p].creds);
    forall a, c | 0 <= a < c < |ids| ensures ids[a] != ids[c] {
      LessIrreflexive(ids[a]);
    }
  }
}
