/** What a pick must answer, stated as a plain scan of the credentials, and the index's agreement with it. */
module Picking {
  import opened Credentials
  import opened Ordering
  import opened Blocking
  import opened Shards

  // ----- the reference: scan every credential with the block test

  function OpenIds(creds: map<string, Credential>, key: string, tried: set<string>, now: nat): set<string> {
    set id | id in creds && id !in tried && Test(creds[id], key, now) == Open
  }

  /** An acceptable answer: open, untried, and of the highest priority among those. */
  predicate ScanPicks(creds: map<string, Credential>, open: set<string>, id: string)
    requires open <= creds.Keys
  {
    id in open && forall x :: x in open ==> creds[x].priority <= creds[id].priority
  }

  /** The one answer of the fill-first strategy: of those, the first in ID order. */
  predicate ScanPicksFirst(creds: map<string, Credential>, open: set<string>, id: string)
    requires open <= creds.Keys
  {
    ScanPicks(creds, open, id) &&
    forall x :: x in open && x != id && creds[x].priority == creds[id].priority ==> Less(id, x)
  }

  function ScanTimes(creds: map<string, Credential>, key: string, tried: set<string>, now: nat): set<Time> {
    set id | id in creds && id !in tried && Test(creds[id], key, now).Closed? :: Test(creds[id], key, now).next
  }

  predicate AllCooling(creds: map<string, Credential>, key: string, tried: set<string>, now: nat) {
    forall id :: id in creds && id !in tried ==>
      Test(creds[id], key, now).Closed? && Test(creds[id], key, now).reason == Cooldown
  }

  ghost function ScanError(creds: map<string, Credential>, key: string, tried: set<string>, now: nat): Outcome {
    if creds.Keys - tried == {} then NotFound
    else if AllCooling(creds, key, tried, now) && ScanTimes(creds, key, tried, now) != {} then
      Cooling(Seconds(Smallest(ScanTimes(creds, key, tried, now)) - now))
    else Unavailable
  }

  /** The outcome is one the scan could give. */
  ghost predicate Agrees(creds: map<string, Credential>, key: string, strategy: Strategy, tried: set<string>,
                         now: nat, o: Outcome)
  {
    var open := OpenIds(creds, key, tried, now);
    if open == {} then o == ScanError(creds, key, tried, now)
    else
      && o.Picked?
      && ScanPicks(creds, open, o.cred.id)
      && (strategy == FillFirst ==> ScanPicksFirst(creds, open, o.cred.id))
  }

  /** Same credential, or the very same error. */
  predicate SameAnswer(o: Outcome, o': Outcome) {
    if o.Picked? then o'.Picked? && o.cred.id == o'.cred.id else o == o'
  }

  /** With fill-first the scan has one answer. */
  lemma AnswerUnique(creds: map<string, Credential>, key: string, tried: set<string>, now: nat, o: Outcome, o': Outcome)
    requires Agrees(creds, key, FillFirst, tried, now, o) && Agrees(creds, key, FillFirst, tried, now, o')
    ensures SameAnswer(o, o')
  {
    if OpenIds(creds, key, tried, now) != {} && o.cred.id != o'.cred.id {
      LessAsymmetric(o.cred.id, o'.cred.id);
      assert false;
    }
  }

  /** The shortest wait, in whole seconds rounded up, among the credentials not tried. */
  predicate WaitsFor(creds: map<string, Credential>, key: string, tried: set<string>, now: nat, seconds: int) {
    && (forall id :: id in creds && id !in tried && Test(creds[id], key, now).Closed? ==>
          (seconds - 1) * SECOND < Test(creds[id], key, now).next - now)
    && exists id :: id in creds && id !in tried && Test(creds[id], key, now).Closed?
                    && Test(creds[id], key, now).next - now <= seconds * SECOND
  }

  /** Every kind of answer, from the verdicts on the credentials not tried. */
  lemma AnswerMeans(creds: map<string, Credential>, key: string, strategy: Strategy, tried: set<string>, now: nat,
                    o: Outcome)
    requires Agrees(creds, key, strategy, tried, now, o)
    ensures o.Picked? <==> exists id :: id in creds && id !in tried && Test(creds[id], key, now) == Open
    ensures o.Picked? ==>
              o.cred.id in creds && o.cred.id !in tried && Test(creds[o.cred.id], key, now) == Open
    ensures o.NotFound? <==> forall id :: id in creds ==> id in tried
    ensures o.Cooling? <==>
            && (exists id :: id in creds && id !in tried)
            && forall id :: id in creds && id !in tried ==>
                 Test(creds[id], key, now).Closed? && Test(creds[id], key, now).reason == Cooldown
    ensures o.Cooling? ==> WaitsFor(creds, key, tried, now, o.seconds)
  {
    if OpenIds(creds, key, tried, now) == {} {
      forall id | id in creds && id !in tried ensures Test(creds[id], key, now).Closed? {
        assert id !in OpenIds(creds, key, tried, now);
      }
      ErrorMeans(creds, key, tried, now);
    } else {
      assert o.cred.id in OpenIds(creds, key, tried, now);
    }
  }

  lemma ErrorMeans(creds: map<string, Credential>, key: string, tried: set<string>, now: nat)
    requires forall id :: id in creds && id !in tried ==> Test(creds[id], key, now).Closed?
    ensures var o := ScanError(creds, key, tried, now);
            && !o.Picked?
            && (o.NotFound? <==> forall id :: id in creds ==> id in tried)
            && (o.Cooling? <==>
                  && (exists id :: id in creds && id !in tried)
                  && forall id :: id in creds && id !in tried ==> Test(creds[id], key, now).reason == Cooldown)
            && (o.Cooling? ==> WaitsFor(creds, key, tried, now, o.seconds))
  {
    var times := ScanTimes(creds, key, tried, now);
    if creds.Keys - tried == {} {
      forall id | id in creds ensures id in tried {
        assert id !in creds.Keys - tried;
      }
    } else {
      var any := AnyOf(creds.Keys - tried);
      assert Test(creds[any], key, now).next in times;
      if AllCooling(creds, key, tried, now) {
        ShortestWait(creds, key, tried, now);
      }
    }
  }

  lemma CooldownIsAhead(c: Credential, key: string, now: nat)
    requires Test(c, key, now).Closed? && Test(c, key, now).reason == Cooldown
    ensures Test(c, key, now).next > now
  {
    TestIsGate(c, key, now);
  }

  lemma ShortestWait(creds: map<string, Credential>, key: string, tried: set<string>, now: nat)
    requires ScanTimes(creds, key, tried, now) != {} && AllCooling(creds, key, tried, now)
    ensures WaitsFor(creds, key, tried, now, Seconds(Smallest(ScanTimes(creds, key, tried, now)) - now))
  {
    var times := ScanTimes(creds, key, tried, now);
    var first := Smallest(times);
    var s := Seconds(first - now);
    forall id | id in creds && id !in tried && Test(creds[id], key, now).Closed?
      ensures (s - 1) * SECOND < Test(creds[id], key, now).next - now
    {
      assert Test(creds[id], key, now).next in times;
      CooldownIsAhead(creds[id], key, now);
    }
    var id :| id in creds && id !in tried && Test(creds[id], key, now).Closed?
              && Test(creds[id], key, now).next == first;
    CooldownIsAhead(creds[id], key, now);
    assert first - now <= s * SECOND;
  }

  // ----- the cyclic scan of a bucket

  lemma {:induction false} ScanComplete(ids: seq<string>, start: nat, off: nat, tried: set<string>, k: nat)
    requires ids != [] && off <= k < |ids| && ids[(start + k) % |ids|] !in tried
    ensures Scan(ids, start, off, tried).Some?
    decreases |ids| - off
  {
    if ids[(start + off) % |ids|] in tried {
      ScanComplete(ids, start, off + 1, tried, k);
    }
  }

  lemma CyclicOffset(n: nat, start: nat, j: nat) returns (k: nat)
    requires start < n && j < n
    ensures k < n && (start + k) % n == j
  {
    k := if start <= j then j - start else j - start + n;
  }

  lemma {:induction false} ScanFromZero(ids: seq<string>, off: nat, tried: set<string>, j: nat)
    requires ids != [] && off <= j < |ids| && ids[j] !in tried
    ensures Scan(ids, 0, off, tried).Some? && Scan(ids, 0, off, tried).value <= j
    decreases |ids| - off
  {
    assert off % |ids| == off;
    if ids[off] in tried {
      ScanFromZero(ids, off + 1, tried, j);
    }
  }

  lemma ChooseSome(strategy: Strategy, b: Bucket, tried: set<string>)
    requires HasMatch(b, tried)
    ensures Choose(strategy, b, tried).Some?
  {
    var j :| 0 <= j < |b.creds| && b.creds[j].id !in tried;
    var start := if strategy == RoundRobin then b.cursor % |b.creds| else 0;
    var k := CyclicOffset(|b.creds|, start, j);
    ScanComplete(Ids(b.creds), start, 0, tried, k);
  }

  lemma ChooseFirst(b: Bucket, tried: set<string>, x: string)
    requires Ascending(Ids(b.creds)) && x in Ids(b.creds) && x !in tried
    ensures var r := Choose(FillFirst, b, tried);
            r.Some? && (b.creds[r.value].id == x || Less(b.creds[r.value].id, x))
  {
    var ids := Ids(b.creds);
    var j :| 0 <= j < |ids| && ids[j] == x;
    ScanFromZero(ids, 0, tried, j);
  }

  // ----- the index picks what it should

  /** A bucket lists exactly the ready IDs of its priority. */
  lemma BucketMember(sh: Shard, p: int, id: string)
    requires Indexed(sh)
    ensures id in sh.entries && sh.entries[id].state == Ready && sh.entries[id].priority == p
            <==> p in sh.buckets && id in Ids(sh.buckets[p].creds)
    ensures p in sh.buckets ==> Ascending(Ids(sh.buckets[p].creds))
  {
    if p in sh.buckets {
      var ids := Ids(sh.buckets[p].creds);
      assert id in ids <==> id in Elems(ids);
    } else if id in sh.entries && sh.entries[id].state == Ready {
      assert sh.entries[id].priority in Priorities(sh.entries);
    }
  }

  lemma MatchingBucket(sh: Shard, tried: set<string>, x: string)
    requires Indexed(sh) && x in ReadyIds(sh.entries) && x !in tried
    ensures sh.entries[x].priority in Matching(sh, tried)
  {
    var p := sh.entries[x].priority;
    BucketMember(sh, p, x);
    var ids := Ids(sh.buckets[p].creds);
    var i :| 0 <= i < |ids| && ids[i] == x;
    assert sh.buckets[p].creds[i].id !in tried;
  }

  lemma TopPriority(sh: Shard, tried: set<string>)
    requires Indexed(sh)
    ensures Matching(sh, tried) == {} <==> ReadyIds(sh.entries) - tried == {}
    ensures forall x :: x in ReadyIds(sh.entries) - tried ==> sh.entries[x].priority in Matching(sh, tried)
  {
    forall x | x in ReadyIds(sh.entries) - tried ensures sh.entries[x].priority in Matching(sh, tried) {
      MatchingBucket(sh, tried, x);
    }
    if p :| p in Matching(sh, tried) {
      var i :| 0 <= i < |sh.buckets[p].creds| && sh.buckets[p].creds[i].id !in tried;
      var id := Ids(sh.buckets[p].creds)[i];
      BucketMember(sh, p, id);
      assert id in ReadyIds(sh.entries) - tried;
    }
  }

  lemma ChosenReady(sh: Shard, p: int, strategy: Strategy, tried: set<string>)
    requires Indexed(sh) && p in sh.buckets && HasMatch(sh.buckets[p], tried)
    ensures var b := sh.buckets[p];
            var r := Choose(strategy, b, tried);
            && r.Some?
            && b.creds[r.value].id in ReadyAt(sh.entries, p) - tried
            && (strategy == FillFirst ==>
                  forall x :: x in ReadyAt(sh.entries, p) - tried && x != b.creds[r.value].id
                    ==> Less(b.creds[r.value].id, x))
  {
    var b := sh.buckets[p];
    ChooseSome(strategy, b, tried);
    var id := Ids(b.creds)[Choose(strategy, b, tried).value];
    BucketMember(sh, p, id);
    if strategy == FillFirst {
      forall x | x in ReadyAt(sh.entries, p) - tried && x != id ensures Less(id, x) {
        BucketMember(sh, p, x);
        ChooseFirst(b, tried, x);
      }
    }
  }

  /** `id` is ready, untried and of the highest ready priority; with fill-first, also first in ID order. */
  predicate BestReady(entries: map<string, Entry>, tried: set<string>, strategy: Strategy, id: string) {
    && id in ReadyIds(entries) - tried
    && (forall x :: x in ReadyIds(entries) - tried ==> entries[x].priority <= entries[id].priority)
    && (strategy == FillFirst ==>
          forall x :: x in ReadyIds(entries) - tried && x != id && entries[x].priority == entries[id].priority
            ==> Less(id, x))
  }

  lemma TopBucketIsBest(sh: Shard, strategy: Strategy, tried: set<string>)
    requires Indexed(sh) && Matching(sh, tried) != {}
    ensures var b := sh.buckets[Greatest(Matching(sh, tried))];
            Choose(strategy, b, tried).Some? &&
            BestReady(sh.entries, tried, strategy, b.creds[Choose(strategy, b, tried).value].id)
  {
    var p := Greatest(Matching(sh, tried));
    TopPriority(sh, tried);
    ChosenReady(sh, p, strategy, tried);
    forall x | x in ReadyIds(sh.entries) - tried && sh.entries[x].priority == p
      ensures x in ReadyAt(sh.entries, p) - tried {}
  }

  /** The best ready credential is picked if there is one; nothing but a cursor moves. */
  lemma PickReadyCorrect(sh: Shard, strategy: Strategy, tried: set<string>)
    requires Indexed(sh)
    ensures var r := PickReady(sh, strategy, tried);
            && (r.picked.None? <==> ReadyIds(sh.entries) - tried == {})
            && (r.picked.None? ==> r.shard == sh)
            && (r.picked.Some? ==> BestReady(sh.entries, tried, strategy, r.picked.value.id))
            && r.shard.entries == sh.entries && r.shard.key == sh.key && r.shard.blocked == sh.blocked
  {
    TopPriority(sh, tried);
    if Matching(sh, tried) != {} {
      TopBucketIsBest(sh, strategy, tried);
    }
  }

  /** Fill-first leaves the shard as it is; round-robin puts the bucket's cursor just after the picked place. */
  lemma PickMoves(sh: Shard, strategy: Strategy, tried: set<string>) returns (p: int, i: nat)
    requires PickReady(sh, strategy, tried).picked.Some?
    ensures var r := PickReady(sh, strategy, tried);
            && p in sh.buckets && i < |sh.buckets[p].creds| && r.picked.value == sh.buckets[p].creds[i]
            && r.shard == if strategy == FillFirst then sh
                          else sh.(buckets := sh.buckets[p := Bucket(sh.buckets[p].creds, i + 1)])
  {
    p := Greatest(Matching(sh, tried));
    i := Choose(strategy, sh.buckets[p], tried).value;
    assert sh.buckets[p := sh.buckets[p]] == sh.buckets;
  }

  lemma CursorIndexed(sh: Shard, p: int, b: Bucket)
    requires Indexed(sh) && p in sh.buckets && b.creds == sh.buckets[p].creds && b.cursor <= |b.creds|
    ensures Indexed(sh.(buckets := sh.buckets[p := b]))
  {
  }

  /** Moving a cursor does not disturb the index. */
  lemma PickReadyTracks(sh: Shard, key: string, creds: map<string, Credential>, strategy: Strategy,
                        tried: set<string>, now: nat)
    requires Tracks(sh, key, creds, now)
    ensures Tracks(PickReady(sh, strategy, tried).shard, key, creds, now)
  {
    var r := PickReady(sh, strategy, tried);
    if r.picked.Some? {
      var p := Greatest(Matching(sh, tried));
      CursorIndexed(sh, p, r.shard.buckets[p]);
    }
  }

  /** The error reported from the entries is the error of the scan. */
  lemma ErrorAgrees(sh: Shard, key: string, creds: map<string, Credential>, tried: set<string>, now: nat)
    requires Tracks(sh, key, creds, now) && Settled(sh, now)
    requires AllPunctual(creds, key)
    requires OpenIds(creds, key, tried, now) == {}
    ensures ErrorFor(sh.entries, tried, now) == ScanError(creds, key, tried, now)
  {
    forall id | id in creds && id !in tried
      ensures sh.entries[id] == Classify(creds[id], key, now) && Test(creds[id], key, now).Closed?
    {
      assert id !in OpenIds(creds, key, tried, now);
      ReadyIsOpen(sh, key, creds, now, id);
    }
    forall id | id in creds && id !in tried
      ensures sh.entries[id].state == CoolingDown <==> Test(creds[id], key, now).reason == Cooldown
      ensures sh.entries[id].state == CoolingDown ==>
                sh.entries[id].nextRetryAt == Test(creds[id], key, now).next != UNSET
    {
      ClassifyOk(creds[id], key, now);
      BlockedHasTime(sh.entries[id], creds[id], key, now);
    }
    SameTimes(sh.entries, key, creds, tried, now);
  }

  lemma SameTimes(entries: map<string, Entry>, key: string, creds: map<string, Credential>, tried: set<string>,
                  now: nat)
    requires entries.Keys == creds.Keys
    requires forall id :: id in creds && id !in tried ==>
               && Test(creds[id], key, now).Closed?
               && (entries[id].state == CoolingDown <==> Test(creds[id], key, now).reason == Cooldown)
               && (entries[id].state == CoolingDown ==>
                     entries[id].nextRetryAt == Test(creds[id], key, now).next != UNSET)
    ensures ErrorFor(entries, tried, now) == ScanError(creds, key, tried, now)
  {
    if creds.Keys - tried != {} && AllCooling(creds, key, tried, now) {
      assert RetryTimes(entries, tried) == ScanTimes(creds, key, tried, now) by {
        forall t ensures t in RetryTimes(entries, tried) <==> t in ScanTimes(creds, key, tried, now) {
          if t in ScanTimes(creds, key, tried, now) {
            var id :| id in creds && id !in tried && Test(creds[id], key, now).Closed?
                      && Test(creds[id], key, now).next == t;
            assert entries[id].nextRetryAt == t;
          }
          if t in RetryTimes(entries, tried) {
            var id :| id in entries && id !in tried && entries[id].state == CoolingDown && entries[id].nextRetryAt == t;
            assert Test(creds[id], key, now).next == t;
          }
        }
      }
      var id := AnyOf(creds.Keys - tried);
      assert Test(creds[id], key, now).next in ScanTimes(creds, key, tried, now);
    }
  }

  lemma PickReadySound(sh: Shard, key: string, creds: map<string, Credential>, strategy: Strategy, tried: set<string>,
                       now: nat)
    requires Tracks(sh, key, creds, now) && Settled(sh, now)
    ensures var r := PickReady(sh, strategy, tried);
            && Tracks(r.shard, key, creds, now) && Settled(r.shard, now)
            && (r.picked.Some? <==> ReadyIds(r.shard.entries) - tried != {})
            && (r.picked.Some? ==> r.picked.value.id in OpenIds(creds, key, tried, now))
            && r.shard.entries == sh.entries
  {
    PickReadyCorrect(sh, strategy, tried);
    PickReadyTracks(sh, key, creds, strategy, tried, now);
    var r := PickReady(sh, strategy, tried);
    if r.picked.Some? {
      ReadyIsOpen(sh, key, creds, now, r.picked.value.id);
    }
  }

  /** Whatever the times: only open credentials are picked, of the highest ready priority. */
  lemma PickSound(sh: Shard, key: string, creds: map<string, Credential>, strategy: Strategy, tried: set<string>,
                  now: nat)
    requires Tracks(sh, key, creds, now)
    ensures var r := PickFrom(sh, strategy, tried, now);
            && Tracks(r.shard, key, creds, now) && Settled(r.shard, now)
            && (r.outcome.Picked? <==> ReadyIds(r.shard.entries) - tried != {})
            && (r.outcome.Picked? ==> r.outcome.cred.id in OpenIds(creds, key, tried, now))
            && r.shard.entries == Promote(sh, now).entries
  {
    PromoteTracks(sh, key, creds, now);
    PickReadySound(Promote(sh, now), key, creds, strategy, tried, now);
  }

  /** The index answers as the scan does, provided no quota recovers later than its retry time. */
  lemma PickAgrees(sh: Shard, key: string, creds: map<string, Credential>, strategy: Strategy, tried: set<string>,
                   now: nat)
    requires Tracks(sh, key, creds, now)
    requires AllPunctual(creds, key)
    ensures Agrees(creds, key, strategy, tried, now, PickFrom(sh, strategy, tried, now).outcome)
  {
    var sh' := Promote(sh, now);
    PromoteTracks(sh, key, creds, now);
    PickReadyCorrect(sh', strategy, tried);
    ReadyAreOpen(sh', key, creds, tried, now);
    if OpenIds(creds, key, tried, now) == {} {
      ErrorAgrees(sh', key, creds, tried, now);
    } else {
      BestIsScan(sh', key, creds, strategy, tried, now, PickReady(sh', strategy, tried).picked.value.id);
    }
  }

  lemma ReadyAreOpen(sh: Shard, key: string, creds: map<string, Credential>, tried: set<string>, now: nat)
    requires Tracks(sh, key, creds, now) && Settled(sh, now)
    requires AllPunctual(creds, key)
    ensures OpenIds(creds, key, tried, now) == ReadyIds(sh.entries) - tried
  {
    var open := OpenIds(creds, key, tried, now);
    forall id | id in creds ensures id in open <==> id in ReadyIds(sh.entries) - tried {
      ReadyIsOpen(sh, key, creds, now, id);
    }
  }

  lemma BestIsScan(sh: Shard, key: string, creds: map<string, Credential>, strategy: Strategy, tried: set<string>,
                   now: nat, id: string)
    requires EntriesOk(sh.entries, key, creds, now) && BestReady(sh.entries, tried, strategy, id)
    requires OpenIds(creds, key, tried, now) == ReadyIds(sh.entries) - tried
    ensures ScanPicks(creds, OpenIds(creds, key, tried, now), id)
    ensures strategy == FillFirst ==> ScanPicksFirst(creds, OpenIds(creds, key, tried, now), id)
  {
    assert forall x :: x in creds ==> sh.entries[x].priority == creds[x].priority;
  }

  /**
   * The condition is needed: whenever the two times differ, a shard built just before the retry time
   * leaves the credential out at the retry time, although the plain test lets it through.
   */
  lemma UnpunctualIsMissed(c: Credential, key: string, strategy: Strategy)
    requires !PunctualFor(c, key)
    ensures var retry := GateOf(c, key).retry;
            Test(c, key, retry) == Open && !PickFrom(Alone(c, key, retry - 1), strategy, {}, retry).outcome.Picked?
  {
    var retry := GateOf(c, key).retry;
    StillBlocked(c, key);
    MissedAlone(c, key, strategy, retry - 1, retry);
  }

  lemma MissedAlone(c: Credential, key: string, strategy: Strategy, t: nat, now: nat)
    requires Classify(c, key, t).state != Ready && Classify(c, key, t).nextRetryAt > now
    ensures !PickFrom(Alone(c, key, t), strategy, {}, now).outcome.Picked?
  {
    NobodyReady(Alone(c, key, t), strategy, now);
  }

  lemma StillBlocked(c: Credential, key: string)
    requires !PunctualFor(c, key)
    ensures var e := Classify(c, key, GateOf(c, key).retry - 1);
            e.state != Ready && e.nextRetryAt > GateOf(c, key).retry
    ensures Test(c, key, GateOf(c, key).retry) == Open
  {
    TestIsGate(c, key, GateOf(c, key).retry);
    TestIsGate(c, key, GateOf(c, key).retry - 1);
  }

  /** A shard for one credential, built at time t. */
  ghost function Alone(c: Credential, key: string, t: nat): (sh: Shard)
    ensures sh.entries == map[c.id := Classify(c, key, t)] && Indexed(sh)
  {
    NewShardTracks(map[c.id := c], key, t);
    NewShard(map[c.id := c], key, t)
  }

  lemma NobodyReady(sh: Shard, strategy: Strategy, now: nat)
    requires Indexed(sh)
    requires forall id :: id in sh.entries ==> sh.entries[id].state != Ready && sh.entries[id].nextRetryAt > now
    ensures !PickFrom(sh, strategy, {}, now).outcome.Picked?
  {
    SettledStays(sh, now);
    PickReadyCorrect(sh, strategy, {});
    assert ReadyIds(sh.entries) == {};
  }

  ghost predicate ExactAt(c: Credential, key: string, strategy: Strategy, t: nat, now: nat) {
    Agrees(map[c.id := c], key, strategy, {}, now, PickFrom(Alone(c, key, t), strategy, {}, now).outcome)
  }

  lemma PunctualExactAt(c: Credential, key: string, strategy: Strategy, t: nat, now: nat)
    requires PunctualFor(c, key) && t <= now
    ensures ExactAt(c, key, strategy, t, now)
  {
    var creds := map[c.id := c];
    NewShardTracks(creds, key, t);
    TracksLater(Alone(c, key, t), key, creds, t, now);
    PickAgrees(Alone(c, key, t), key, creds, strategy, {}, now);
  }

  lemma UnpunctualNotExact(c: Credential, key: string, strategy: Strategy)
    requires !PunctualFor(c, key)
    ensures !ExactAt(c, key, strategy, GateOf(c, key).retry - 1, GateOf(c, key).retry)
  {
    UnpunctualIsMissed(c, key, strategy);
    assert c.id in OpenIds(map[c.id := c], key, {}, GateOf(c, key).retry);
  }

  /** The index agrees with the scan whenever it was built and is asked, exactly for punctual credentials. */
  lemma ExactIffPunctual(c: Credential, key: string, strategy: Strategy)
    ensures PunctualFor(c, key) <==> forall t: nat, now: nat | t <= now :: ExactAt(c, key, strategy, t, now)
  {
    if PunctualFor(c, key) {
      forall t: nat, now: nat | t <= now ensures ExactAt(c, key, strategy, t, now) {
        PunctualExactAt(c, key, strategy, t, now);
      }
    } else {
      UnpunctualNotExact(c, key, strategy);
    }
  }
}
