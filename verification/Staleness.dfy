/** Which value of a credential a pick hands out: the one the bucket was built with. */
module Staleness {
  import opened Credentials
  import opened Ordering
  import opened Blocking
  import opened Shards
  import opened Scheduling
  import opened History

  predicate InBucket(sh: Shard, c: Credential) {
    exists p, i :: p in sh.buckets && 0 <= i < |sh.buckets[p].creds| && sh.buckets[p].creds[i] == c
  }

  lemma ReindexLists(sh: Shard, id: string)
    requires id in sh.entries && sh.entries[id].state == Ready
    ensures InBucket(Reindex(sh), sh.entries[id].cred)
  {
    var p := sh.entries[id].priority;
    assert p in Priorities(sh.entries);
    var ids := Sorted(ReadyAt(sh.entries, p));
    assert id in Elems(ids);
    var i :| 0 <= i < |ids| && ids[i] == id;
    assert Reindex(sh).buckets[p].creds[i] == sh.entries[id].cred;
  }

  // ----- which value the index lists

  /** Every value in a bucket is that of its entry. */
  predicate Current(sh: Shard) {
    forall p :: p in sh.buckets ==> CurrentList(sh.buckets[p].creds, sh.entries)
  }

  predicate CurrentList(creds: seq<Credential>, entries: map<string, Entry>) {
    forall i :: 0 <= i < |creds| ==> creds[i].id in entries && entries[creds[i].id].cred == creds[i]
  }

  /** The same values in the same buckets, whatever the cursors. */
  predicate SameLists(sh: Shard, sh': Shard) {
    sh'.buckets.Keys == sh.buckets.Keys && forall p :: p in sh.buckets ==> sh'.buckets[p].creds == sh.buckets[p].creds
  }

  lemma ReindexCurrent(sh: Shard)
    requires Keyed(sh.entries)
    ensures Current(Reindex(sh))
  {
    forall p | p in Priorities(sh.entries) ensures CurrentList(FreshBucket(sh.entries, p).creds, sh.entries) {
      var ids := Sorted(ReadyAt(sh.entries, p));
      forall i | 0 <= i < |ids| ensures ids[i] in sh.entries {
        assert ids[i] in Elems(ids);
      }
    }
  }

  lemma PromoteLists(sh: Shard, now: nat)
    requires Keyed(sh.entries)
    ensures Current(Promote(sh, now)) || Promote(sh, now) == sh
    ensures ExpiredIds(sh, now) != {} ==> Current(Promote(sh, now))
  {
    var sh' := sh.(entries := Promoted(sh, ExpiredIds(sh, now), now));
    assert Keyed(sh'.entries);
    ReindexCurrent(sh');
  }

  lemma PickedIsListed(sh: Shard, strategy: Strategy, tried: set<string>)
    ensures var r := PickReady(sh, strategy, tried);
            && SameLists(sh, r.shard) && r.shard.entries == sh.entries
            && (r.picked.Some? ==> InBucket(sh, r.picked.value))
            && (Current(sh) && r.picked.Some? ==>
                  r.picked.value.id in sh.entries && sh.entries[r.picked.value.id].cred == r.picked.value)
  {
    var ps := Matching(sh, tried);
    if ps != {} {
      var b := sh.buckets[Greatest(ps)];
      var r := Choose(strategy, b, tried);
      if r.Some? {
        assert b.creds[r.value] == PickReady(sh, strategy, tried).picked.value;
      }
    }
  }

  lemma ClassifiedValue(c: Credential, key: string, now: nat)
    ensures Classify(c, key, now).cred == c
  {
  }

  lemma PutEntryCurrent(sh: Shard, e: Entry)
    requires Keyed(sh.entries)
    ensures Current(Reindex(sh.(entries := sh.entries[e.cred.id := e])))
  {
    ReindexCurrent(sh.(entries := sh.entries[e.cred.id := e]));
  }

  /**
   * An upsert brings the whole index up to date if the credential changes place, and otherwise leaves every list as
   * it is; so the new value of a ready credential is taken up exactly in the first case or if it was listed already.
   */
  lemma UpsertTakenUp(sh: Shard, c: Credential, now: nat)
    requires Keyed(sh.entries)
    ensures var sh' := UpsertEntry(sh, c, now);
            var kept := c.id in sh.entries && SamePlace(sh.entries[c.id], Classify(c, sh.key, now));
            && (if kept then SameLists(sh, sh') else Current(sh'))
            && (Test(c, sh.key, now) == Open ==> (InBucket(sh', c) <==> !kept || InBucket(sh, c)))
  {
    if !(c.id in sh.entries && SamePlace(sh.entries[c.id], Classify(c, sh.key, now))) {
      ClassifiedValue(c, sh.key, now);
      PutEntryCurrent(sh, Classify(c, sh.key, now));
      if Test(c, sh.key, now) == Open {
        ReindexLists(sh.(entries := sh.entries[c.id := Classify(c, sh.key, now)]), c.id);
      }
    }
  }

  lemma RemoveEntryLists(sh: Shard, id: string)
    requires Keyed(sh.entries)
    ensures Current(RemoveEntry(sh, id)) || SameLists(sh, RemoveEntry(sh, id))
  {
    ReindexCurrent(sh.(entries := sh.entries - {id}));
  }

  lemma PickFromLists(sh: Shard, strategy: Strategy, tried: set<string>, now: nat)
    requires Keyed(sh.entries)
    ensures var sh' := PickFrom(sh, strategy, tried, now).shard;
            Current(sh') || (SameLists(sh, sh') && sh'.entries == sh.entries)
    ensures Current(sh) ==> Current(PickFrom(sh, strategy, tried, now).shard)
  {
    PromoteLists(sh, now);
    PickedIsListed(Promote(sh, now), strategy, tried);
  }

  // ----- a refreshed token

  lemma TokenSamePlace(e: Entry, c: Credential, token: string, key: string, now: nat)
    requires EntryOk(e, c, key, now) && e.state == Ready
    ensures SamePlace(e, Classify(c.(token := token), key, now))
  {
    TestIsGate(c, key, now);
    assert Test(c.(token := token), key, now) == Test(c, key, now);
  }

  /**
   * So a refreshed token does not reach callers: whatever is tried, the pick answers as before the refresh, with the
   * value the bucket was built with, until some cooldown in the shard ends and the index is rebuilt.
   */
  lemma RefreshedTokenNotPicked(sh: Shard, creds: map<string, Credential>, id: string, token: string,
                                strategy: Strategy, tried: set<string>, now: nat, later: nat)
    requires Tracks(sh, sh.key, creds, now) && id in creds && sh.entries[id].state == Ready && now <= later
    ensures var sh' := UpsertEntry(sh, creds[id].(token := token), now);
            var o, o' := PickFrom(sh, strategy, tried, later).outcome, PickFrom(sh', strategy, tried, later).outcome;
            if ExpiredIds(sh, later) == {} then
              o' == o && (Current(sh) && o'.Picked? && o'.cred.id == id ==> o'.cred == creds[id])
            else o'.Picked? && o'.cred.id == id ==> o'.cred.token == token
  {
    var c' := creds[id].(token := token);
    TokenSamePlace(sh.entries[id], creds[id], token, sh.key, now);
    TokenPlaces(sh, id, c', now, later);
    if ExpiredIds(sh, later) == {} {
      TrackedValues(sh, sh.key, creds, now);
      QuietRefresh(sh, id, c', strategy, tried, now, later);
    } else {
      UpsertEntryTracks(sh, sh.key, creds, c', now);
      TracksLater(UpsertEntry(sh, c', now), sh.key, creds[id := c'], now, later);
      RebuiltPick(UpsertEntry(sh, c', now), creds[id := c'], strategy, tried, later);
    }
  }

  lemma QuietRefresh(sh: Shard, id: string, c': Credential, strategy: Strategy, tried: set<string>, now: nat,
                     later: nat)
    requires id in sh.entries && c'.id == id && SamePlace(sh.entries[id], Classify(c', sh.key, now))
    requires ExpiredIds(sh, later) == {}
    ensures var o, o' := PickFrom(sh, strategy, tried, later).outcome,
                         PickFrom(UpsertEntry(sh, c', now), strategy, tried, later).outcome;
            o' == o && (Current(sh) && o'.Picked? && o'.cred.id == id ==> o'.cred == sh.entries[id].cred)
  {
    TokenPlaces(sh, id, c', now, later);
    SameIndexPick(sh, UpsertEntry(sh, c', now), strategy, tried, later);
    PickedIsListed(sh, strategy, tried);
  }

  /** The refreshed entry stays where it was, and nobody else is overdue because of it. */
  lemma TokenPlaces(sh: Shard, id: string, c': Credential, now: nat, later: nat)
    requires id in sh.entries && c'.id == id && SamePlace(sh.entries[id], Classify(c', sh.key, now))
    ensures var sh' := UpsertEntry(sh, c', now);
            && sh'.buckets == sh.buckets && sh'.blocked == sh.blocked && ExpiredIds(sh', later) == ExpiredIds(sh, later)
            && sh'.entries.Keys == sh.entries.Keys
            && forall i :: i in sh.entries ==> SamePlace(sh.entries[i], sh'.entries[i])
  {
  }

  /** Answers depend on the index and on the places of the entries. */
  lemma SameIndexPick(sh: Shard, sh': Shard, strategy: Strategy, tried: set<string>, now: nat)
    requires sh'.buckets == sh.buckets && sh'.entries.Keys == sh.entries.Keys
    requires forall i :: i in sh.entries ==> SamePlace(sh.entries[i], sh'.entries[i])
    requires ExpiredIds(sh, now) == {} && ExpiredIds(sh', now) == {}
    ensures PickFrom(sh', strategy, tried, now).outcome == PickFrom(sh, strategy, tried, now).outcome
  {
    assert Matching(sh', tried) == Matching(sh, tried);
    SameError(sh.entries, sh'.entries, tried, now);
  }

  lemma SameError(entries: map<string, Entry>, entries': map<string, Entry>, tried: set<string>, now: nat)
    requires entries'.Keys == entries.Keys
    requires forall i :: i in entries ==> SamePlace(entries[i], entries'[i])
    ensures ErrorFor(entries', tried, now) == ErrorFor(entries, tried, now)
  {
    assert Untried(entries', tried) == Untried(entries, tried);
    forall t ensures t in RetryTimes(entries', tried) <==> t in RetryTimes(entries, tried) {
      if i :| i in entries && i !in tried && entries[i].state == CoolingDown && entries[i].nextRetryAt == t {
        assert entries'[i].nextRetryAt == t;
      }
      if i :| i in entries' && i !in tried && entries'[i].state == CoolingDown && entries'[i].nextRetryAt == t {
        assert entries[i].nextRetryAt == t;
      }
    }
    assert RetryTimes(entries', tried) == RetryTimes(entries, tried);
  }

  /** What is picked from an up-to-date shard is the entry's value. */
  lemma CurrentPick(sh: Shard, strategy: Strategy, tried: set<string>)
    requires Current(sh)
    ensures var r := PickReady(sh, strategy, tried).picked;
            r.Some? ==> r.value.id in sh.entries && sh.entries[r.value.id].cred == r.value
  {
    PickedIsListed(sh, strategy, tried);
  }

  lemma TrackedValues(sh: Shard, key: string, creds: map<string, Credential>, now: nat)
    requires Tracks(sh, key, creds, now)
    ensures Keyed(sh.entries) && sh.entries.Keys == creds.Keys
    ensures forall id :: id in creds ==> sh.entries[id].cred == creds[id]
  {
  }

  /** After a rebuild the value handed out is the current one. */
  lemma RebuiltPick(sh: Shard, creds: map<string, Credential>, strategy: Strategy, tried: set<string>, now: nat)
    requires Tracks(sh, sh.key, creds, now) && ExpiredIds(sh, now) != {}
    ensures var o := PickFrom(sh, strategy, tried, now).outcome;
            o.Picked? ==> o.cred.id in creds && o.cred == creds[o.cred.id]
  {
    TrackedValues(sh, sh.key, creds, now);
    PromoteLists(sh, now);
    PromoteTracks(sh, sh.key, creds, now);
    TrackedValues(Promote(sh, now), sh.key, creds, now);
    CurrentPick(Promote(sh, now), strategy, tried);
  }

  // ----- in the scheduler

  ghost function Find(s: Scheduler, provider: string, key: string): Option<Shard> {
    if provider in s.providers && key in s.providers[provider].shards then Some(s.providers[provider].shards[key])
    else None
  }

  /** From one state of a shard to the next, it was indexed afresh or lists what it listed. */
  predicate Carries(o: Option<Shard>, o': Option<Shard>) {
    o'.Some? ==> Current(o'.value) || (o.Some? && SameLists(o.value, o'.value))
  }

  lemma FoundIsKeyed(s: Scheduler, t: Table, now: nat, provider: string, key: string)
    requires Represents(s, t, now) && Find(s, provider, key).Some?
    ensures Keyed(Find(s, provider, key).value.entries)
  {
    assert Tracks(s.providers[provider].shards[key], key, Of(t, provider), now);
  }

  lemma FindEvicted(s: Scheduler, id: string, provider: string, key: string)
    ensures var o, o' := Find(s, provider, key), Find(Evict(s, id), provider, key);
            o' == o || (o.Some? && o' == Some(RemoveEntry(o.value, id)))
    ensures id in s.owner && s.owner[id] != provider ==> Find(Evict(s, id), provider, key) == Find(s, provider, key)
  {
  }

  lemma FindEnrolled(s: Scheduler, c: Credential, now: nat, provider: string, key: string)
    ensures var o, o' := Find(s, provider, key), Find(Enroll(s, c, now), provider, key);
            o' == o || (o.Some? && o' == Some(UpsertEntry(o.value, c, now)))
    ensures provider != c.provider ==> Find(Enroll(s, c, now), provider, key) == Find(s, provider, key)
  {
  }

  /** An upsert or a removal touches a shard at most once. */
  lemma FindUpserted(s: Scheduler, c: Credential, now: nat, provider: string, key: string)
    ensures var o, o' := Find(s, provider, key), Find(Upsert(s, c, now), provider, key);
            || o' == o
            || (o.Some? && (o' == Some(RemoveEntry(o.value, c.id)) || o' == Some(UpsertEntry(o.value, c, now))))
  {
    FindEvicted(s, c.id, provider, key);
    FindEnrolled(s, c, now, provider, key);
    FindEnrolled(Evict(s, c.id), c, now, provider, key);
  }

  lemma UpsertCarries(s: Scheduler, t: Table, c: Credential, now: nat, provider: string, key: string)
    requires Represents(s, t, now)
    ensures Carries(Find(s, provider, key), Find(Upsert(s, c, now), provider, key))
  {
    var o := Find(s, provider, key);
    FindUpserted(s, c, now, provider, key);
    if o.Some? {
      FoundIsKeyed(s, t, now, provider, key);
      UpsertTakenUp(o.value, c, now);
      RemoveEntryLists(o.value, c.id);
    }
  }

  lemma RemoveCarries(s: Scheduler, t: Table, id: string, now: nat, provider: string, key: string)
    requires Represents(s, t, now)
    ensures Carries(Find(s, provider, key), Find(Remove(s, id), provider, key))
  {
    var o := Find(s, provider, key);
    FindEvicted(s, id, provider, key);
    if o.Some? {
      FoundIsKeyed(s, t, now, provider, key);
      RemoveEntryLists(o.value, id);
    }
  }

  /** A rebuilt scheduler has no shards yet. */
  lemma {:induction false} NoShards(s: Scheduler, cs: seq<Credential>, now: nat, provider: string, key: string)
    requires Find(s, provider, key).None?
    ensures Find(UpsertAll(s, cs, now), provider, key).None?
  {
    if cs != [] {
      NoShards(s, cs[..|cs| - 1], now, provider, key);
      FindUpserted(UpsertAll(s, cs[..|cs| - 1], now), cs[|cs| - 1], now, provider, key);
    }
  }

  /** A pick works on one shard, which it may have to create or to promote. */
  lemma FindPicked(s: Scheduler, provider: string, model: string, tried: set<string>, now: nat)
    requires provider in s.providers
    ensures var r := Pick(s, provider, model, tried, now);
            var p := EnsureModel(s.providers[provider], CanonicalModelKey(model), now);
            var pick := PickFrom(p.shards[ShardKey(model)], s.strategy, tried, now);
            r.outcome == pick.outcome && Find(r.scheduler, provider, ShardKey(model)) == Some(pick.shard)
  {
  }

  lemma FindUnpicked(s: Scheduler, provider: string, model: string, tried: set<string>, now: nat, p: string,
                     key: string)
    requires provider in s.providers && (p != provider || key != ShardKey(model))
    ensures Find(Pick(s, provider, model, tried, now).scheduler, p, key) == Find(s, p, key)
  {
    if p == provider {
      PickElsewhere(s.providers[provider], model, s.strategy, tried, now, key);
    }
    var r := PickProvider(s.providers[provider], model, s.strategy, tried, now);
    FindReplaced(s, provider, r.provider, p, key);
  }

  lemma FindReplaced(s: Scheduler, provider: string, pr: Provider, p: string, key: string)
    requires provider in s.providers
    requires var shards := s.providers[provider].shards;
             p == provider ==>
               (key in pr.shards <==> key in shards) && (key in shards ==> pr.shards[key] == shards[key])
    ensures Find(s.(providers := s.providers[provider := pr]), p, key) == Find(s, p, key)
  {
  }

  lemma PickElsewhere(p: Provider, model: string, strategy: Strategy, tried: set<string>, now: nat, key: string)
    requires key != ShardKey(model)
    ensures var p' := PickProvider(p, model, strategy, tried, now).provider;
            (key in p'.shards <==> key in p.shards) && (key in p.shards ==> p'.shards[key] == p.shards[key])
  {
    EnsureElsewhere(p, CanonicalModelKey(model), now, key);
  }

  lemma EnsureElsewhere(p: Provider, model: string, now: nat, key: string)
    requires key != CanonicalModelKey(model)
    ensures var p' := EnsureModel(p, model, now);
            (key in p'.shards <==> key in p.shards) && (key in p.shards ==> p'.shards[key] == p.shards[key])
  {
  }

  lemma PickCarries(s: Scheduler, t: Table, provider: string, model: string, tried: set<string>, now: nat,
                    p: string, key: string)
    requires Represents(s, t, now)
    ensures Carries(Find(s, p, key), Find(Pick(s, provider, model, tried, now).scheduler, p, key))
  {
    if provider in s.providers {
      if p != provider || key != ShardKey(model) {
        FindUnpicked(s, provider, model, tried, now, p, key);
      } else {
        FindPicked(s, provider, model, tried, now);
        PickShard(s, t, provider, model, now);
        EnsureLists(s.providers[provider], Of(t, provider), CanonicalModelKey(model), now);
        PickFromLists(EnsureModel(s.providers[provider], CanonicalModelKey(model), now).shards[key],
                      s.strategy, tried, now);
      }
    }
  }

  lemma EnsureLists(p: Provider, creds: Table, model: string, now: nat)
    requires ProviderOk(p, creds, now) && forall id :: id in creds ==> creds[id].id == id
    ensures var key := CanonicalModelKey(model);
            var sh := EnsureModel(p, model, now).shards[key];
            Current(sh) || (key in p.shards && p.shards[key] == sh)
  {
    var key := CanonicalModelKey(model);
    if key in p.shards {
      PromoteLists(p.shards[key], now);
    } else {
      ReindexCurrent(Shard(key, map id | id in creds :: Classify(creds[id], key, now), map[], {}));
    }
  }

  /** The value a pick hands out is listed in the shard it leaves behind. */
  lemma PickedIsFound(s: Scheduler, provider: string, model: string, tried: set<string>, now: nat)
    requires Pick(s, provider, model, tried, now).outcome.Picked?
    ensures var r := Pick(s, provider, model, tried, now);
            var o := Find(r.scheduler, provider, ShardKey(model));
            o.Some? && InBucket(o.value, r.outcome.cred)
  {
    FindPicked(s, provider, model, tried, now);
    var sh := EnsureModel(s.providers[provider], CanonicalModelKey(model), now).shards[ShardKey(model)];
    PickedIsListed(Promote(sh, now), s.strategy, tried);
  }

  // ----- over histories

  lemma ApplyCarries(s: Scheduler, t: Table, e: Timed, provider: string, key: string)
    requires Represents(s, t, e.at)
    ensures Carries(Find(s, provider, key), Find(Apply(s, e), provider, key))
  {
    match e.op
    case DoUpsert(c) => UpsertCarries(s, t, c, e.at, provider, key);
    case DoRemove(id) => RemoveCarries(s, t, id, e.at, provider, key);
    case DoRebuild(cs) => NoShards(New(s.strategy), cs, e.at, provider, key);
    case DoSetStrategy(strategy) =>
    case DoPick(p, model, tried) => PickCarries(s, t, p, model, tried, e.at, provider, key);
  }

  ghost function FindAfter(strategy: Strategy, es: seq<Timed>, provider: string, key: string): Option<Shard> {
    Find(Run(New(strategy), es), provider, key)
  }

  /** A moment at which the shard was up to date with the table; its buckets list the same ever since. */
  ghost predicate IndexedAt(strategy: Strategy, es: seq<Timed>, provider: string, key: string, j: nat) {
    j <= |es| &&
    var o, o' := FindAfter(strategy, es[..j], provider, key), FindAfter(strategy, es, provider, key);
    o.Some? && o'.Some? && Current(o.value) && SameLists(o.value, o'.value)
  }

  lemma StepCarries(strategy: Strategy, es: seq<Timed>, now: nat, provider: string, key: string)
    requires es != [] && Ordered(es, now)
    ensures Carries(FindAfter(strategy, es[..|es| - 1], provider, key), FindAfter(strategy, es, provider, key))
  {
    var before, last := es[..|es| - 1], es[|es| - 1];
    HistoryRepresents(strategy, before, last.at);
    ApplyCarries(Run(New(strategy), before), RunTable(map[], before), last, provider, key);
  }

  /** Since that moment the shard has never been up to date again. */
  ghost predicate LastIndexedAt(strategy: Strategy, es: seq<Timed>, provider: string, key: string, j: nat) {
    && IndexedAt(strategy, es, provider, key, j)
    && forall l :: j < l <= |es| ==> !UpToDateAfter(strategy, es[..l], provider, key)
  }

  ghost predicate UpToDateAfter(strategy: Strategy, es: seq<Timed>, provider: string, key: string) {
    FindAfter(strategy, es, provider, key).Some? && Current(FindAfter(strategy, es, provider, key).value)
  }

  lemma LastIndexedStep(strategy: Strategy, es: seq<Timed>, now: nat, provider: string, key: string, j: nat)
    requires es != [] && Ordered(es, now) && FindAfter(strategy, es, provider, key).Some?
    requires !UpToDateAfter(strategy, es, provider, key)
    requires LastIndexedAt(strategy, es[..|es| - 1], provider, key, j)
    ensures LastIndexedAt(strategy, es, provider, key, j)
  {
    var before := es[..|es| - 1];
    StepCarries(strategy, es, now, provider, key);
    forall l | 0 <= l < |es| ensures before[..l] == es[..l] {}
    assert es[..|es|] == es;
  }

  lemma {:induction false} LastIndexed(strategy: Strategy, es: seq<Timed>, now: nat, provider: string, key: string)
    returns (j: nat)
    requires Ordered(es, now) && FindAfter(strategy, es, provider, key).Some?
    ensures LastIndexedAt(strategy, es, provider, key, j)
  {
    assert es[..|es|] == es;
    if UpToDateAfter(strategy, es, provider, key) {
      j := |es|;
    } else {
      StepCarries(strategy, es, now, provider, key);
      j := LastIndexed(strategy, es[..|es| - 1], es[|es| - 1].at, provider, key);
      LastIndexedStep(strategy, es, now, provider, key, j);
    }
  }

  /** What a bucket lists is what the table held at that moment. */
  lemma ListedValue(strategy: Strategy, es: seq<Timed>, now: nat, provider: string, key: string, c: Credential, j: nat)
    requires Ordered(es, now) && IndexedAt(strategy, es, provider, key, j)
    requires InBucket(FindAfter(strategy, es, provider, key).value, c)
    ensures var t := RunTable(map[], es[..j]); c.id in t && t[c.id] == c && c.provider == provider
  {
    HistoryRepresents(strategy, es[..j], now);
    var sh := FindAfter(strategy, es[..j], provider, key).value;
    assert Tracks(sh, key, Of(RunTable(map[], es[..j]), provider), now);
    assert InBucket(sh, c);
  }

  lemma ListedSince(strategy: Strategy, es: seq<Timed>, now: nat, provider: string, key: string, c: Credential)
    returns (j: nat)
    requires Ordered(es, now) && FindAfter(strategy, es, provider, key).Some?
    requires InBucket(FindAfter(strategy, es, provider, key).value, c)
    ensures LastIndexedAt(strategy, es, provider, key, j)
    ensures var t := RunTable(map[], es[..j]); c.id in t && t[c.id] == c && c.provider == provider
  {
    j := LastIndexed(strategy, es, now, provider, key);
    ListedValue(strategy, es, now, provider, key, c, j);
  }

  lemma PickApplied(s: Scheduler, es: seq<Timed>, provider: string, model: string, tried: set<string>, now: nat)
    requires Ordered(es, now)
    ensures var es' := es + [Timed(DoPick(provider, model, tried), now)];
            Ordered(es', now) && Run(s, es') == Pick(Run(s, es), provider, model, tried, now).scheduler
  {
    var es' := es + [Timed(DoPick(provider, model, tried), now)];
    assert es'[..|es'| - 1] == es;
  }

  /** `s` is the scheduler after the history. */
  lemma PickLeaves(strategy: Strategy, es: seq<Timed>, provider: string, model: string, tried: set<string>, now: nat,
                   s: Scheduler)
    requires Ordered(es, now) && s == Run(New(strategy), es) && Pick(s, provider, model, tried, now).outcome.Picked?
    ensures var es' := es + [Timed(DoPick(provider, model, tried), now)];
            var o := FindAfter(strategy, es', provider, ShardKey(model));
            Ordered(es', now) && o.Some? && InBucket(o.value, Pick(s, provider, model, tried, now).outcome.cred)
  {
    PickApplied(New(strategy), es, provider, model, tried, now);
    PickedIsFound(s, provider, model, tried, now);
  }

  /** What is picked is still scheduled; the pick itself changes no table. */
  lemma PickedIsKnown(strategy: Strategy, es: seq<Timed>, provider: string, model: string, tried: set<string>, now: nat)
    requires Ordered(es, now) && Pick(Run(New(strategy), es), provider, model, tried, now).outcome.Picked?
    ensures Pick(Run(New(strategy), es), provider, model, tried, now).outcome.cred.id in RunTable(map[], es)
  {
    HistoryRepresents(strategy, es, now);
    PickRepresents(Run(New(strategy), es), RunTable(map[], es), provider, model, tried, now);
  }

  /**
   * After any history, the value a pick hands out is the one that had been upserted for its ID and provider when
   * the shard was last up to date. It is the current one if and only if that was not replaced since.
   */
  lemma PickedValue(strategy: Strategy, es: seq<Timed>, provider: string, model: string, tried: set<string>, now: nat)
    returns (j: nat)
    requires Ordered(es, now) && Pick(Run(New(strategy), es), provider, model, tried, now).outcome.Picked?
    ensures var es' := es + [Timed(DoPick(provider, model, tried), now)];
            var c := Pick(Run(New(strategy), es), provider, model, tried, now).outcome.cred;
            && LastIndexedAt(strategy, es', provider, ShardKey(model), j)
            && c.provider == provider && c.id in RunTable(map[], es'[..j]) && c.id in RunTable(map[], es)
            && RunTable(map[], es'[..j])[c.id] == c
            && (c == RunTable(map[], es)[c.id] <==>
                  RunTable(map[], es)[c.id] == RunTable(map[], es'[..j])[c.id])
  {
    var s := Run(New(strategy), es);
    PickLeaves(strategy, es, provider, model, tried, now, s);
    PickedIsKnown(strategy, es, provider, model, tried, now);
    j := ListedSince(strategy, es + [Timed(DoPick(provider, model, tried), now)], now, provider, ShardKey(model),
                     Pick(s, provider, model, tried, now).outcome.cred);
  }
}
