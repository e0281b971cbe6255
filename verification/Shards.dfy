/**
 * One model shard of the scheduler as a value: the entries and the index over them.
 * Buckets hold credential values of their own, which may be older than the entries' values.
 */
module Shards {
  import opened Credentials
  import opened Ordering
  import opened Blocking

  datatype EntryState = Ready | CoolingDown | Waiting | SwitchedOff

  datatype Entry = Entry(cred: Credential, priority: int, state: EntryState, nextRetryAt: Time)

  datatype Bucket = Bucket(creds: seq<Credential>, cursor: nat)

  datatype Shard = Shard(
    key: string,
    entries: map<string, Entry>,
    buckets: map<int, Bucket>,
    blocked: set<string>)

  datatype Strategy = RoundRobin | FillFirst

  datatype Outcome = Picked(cred: Credential) | NotFound | Cooling(seconds: int) | Unavailable

  // ----- index

  function Ids(creds: seq<Credential>): (ids: seq<string>)
    ensures |ids| == |creds| && forall i :: 0 <= i < |ids| ==> ids[i] == creds[i].id
  {
    seq(|creds|, i requires 0 <= i < |creds| => creds[i].id)
  }

  function ReadyAt(entries: map<string, Entry>, p: int): set<string> {
    set id | id in entries && entries[id].state == Ready && entries[id].priority == p
  }

  function ReadyIds(entries: map<string, Entry>): set<string> {
    set id | id in entries && entries[id].state == Ready
  }

  function BlockedIds(entries: map<string, Entry>): set<string> {
    set id | id in entries && (entries[id].state == CoolingDown || entries[id].state == Waiting)
  }

  function Priorities(entries: map<string, Entry>): set<int> {
    set id | id in entries && entries[id].state == Ready :: entries[id].priority
  }

  function CredsOf(ids: seq<string>, entries: map<string, Entry>): (creds: seq<Credential>)
    requires forall id :: id in ids ==> id in entries
    ensures |creds| == |ids| && forall i :: 0 <= i < |ids| ==> creds[i] == entries[ids[i]].cred
  {
    seq(|ids|, i requires 0 <= i < |ids| => entries[ids[i]].cred)
  }

  ghost function FreshBucket(entries: map<string, Entry>, p: int): Bucket {
    var ids := Sorted(ReadyAt(entries, p));
    assert forall id :: id in ids ==> id in Elems(ids);
    Bucket(CredsOf(ids, entries), 0)
  }

  /** rebuildIndexesLocked */
  ghost function Reindex(sh: Shard): Shard {
    sh.(buckets := map p | p in Priorities(sh.entries) :: FreshBucket(sh.entries, p),
        blocked := BlockedIds(sh.entries))
  }

  // ----- maintenance

  function Classify(c: Credential, key: string, now: nat): Entry {
    match Test(c, key, now)
    case Open => Entry(c, c.priority, Ready, UNSET)
    case Closed(Cooldown, next) => Entry(c, c.priority, CoolingDown, next)
    case Closed(Off, _) => Entry(c, c.priority, SwitchedOff, UNSET)
    case Closed(Other, next) => Entry(c, c.priority, Waiting, next)
  }

  predicate SamePlace(e: Entry, f: Entry) {
    e.state == f.state && e.nextRetryAt == f.nextRetryAt && e.priority == f.priority
  }

  /** upsertEntryLocked: the index is left alone when state, retry time and priority are unchanged. */
  ghost function UpsertEntry(sh: Shard, c: Credential, now: nat): Shard {
    var e := Classify(c, sh.key, now);
    var sh' := sh.(entries := sh.entries[c.id := e]);
    if c.id in sh.entries && SamePlace(sh.entries[c.id], e) then sh' else Reindex(sh')
  }

  /** removeEntryLocked */
  ghost function RemoveEntry(sh: Shard, id: string): Shard {
    if id in sh.entries then Reindex(sh.(entries := sh.entries - {id})) else sh
  }

  predicate Expired(e: Entry, now: nat) {
    e.nextRetryAt != UNSET && e.nextRetryAt <= now
  }

  function ExpiredIds(sh: Shard, now: nat): set<string> {
    set id | id in sh.blocked && id in sh.entries && Expired(sh.entries[id], now)
  }

  function Retested(e: Entry, key: string, now: nat): Entry {
    Classify(e.cred, key, now).(priority := e.priority)
  }

  function Promoted(sh: Shard, ids: set<string>, now: nat): map<string, Entry> {
    map id | id in sh.entries :: if id in ids then Retested(sh.entries[id], sh.key, now) else sh.entries[id]
  }

  /** promoteExpiredLocked */
  ghost function Promote(sh: Shard, now: nat): Shard {
    var ids := ExpiredIds(sh, now);
    if ids == {} then sh else Reindex(sh.(entries := Promoted(sh, ids, now)))
  }

  /** A shard built from scratch for a set of credentials, in whatever order they come. */
  ghost function NewShard(creds: map<string, Credential>, key: string, now: nat): Shard {
    Reindex(Shard(key, map id | id in creds :: Classify(creds[id], key, now), map[], {}))
  }

  // ----- picking

  /** First index at or after `start`, cyclically and from offset `off` on, whose ID was not tried. */
  function Scan(ids: seq<string>, start: nat, off: nat, tried: set<string>): (r: Option<nat>)
    requires ids != []
    ensures r.Some? ==> r.value < |ids| && ids[r.value] !in tried
    decreases |ids| - off
  {
    if off >= |ids| then None
    else if ids[(start + off) % |ids|] !in tried then Some((start + off) % |ids|)
    else Scan(ids, start, off + 1, tried)
  }

  function Choose(strategy: Strategy, b: Bucket, tried: set<string>): (r: Option<nat>)
    ensures r.Some? ==> r.value < |b.creds| && b.creds[r.value].id !in tried
  {
    if b.creds == [] then None
    else
      var n := |b.creds|;
      match strategy
      case RoundRobin => Scan(Ids(b.creds), b.cursor % n, 0, tried)
      case FillFirst => Scan(Ids(b.creds), 0, 0, tried)
  }

  function Advance(strategy: Strategy, b: Bucket, i: nat): Bucket {
    match strategy
    case RoundRobin => b.(cursor := i + 1)
    case FillFirst => b
  }

  predicate HasMatch(b: Bucket, tried: set<string>) {
    exists i :: 0 <= i < |b.creds| && b.creds[i].id !in tried
  }

  function Matching(sh: Shard, tried: set<string>): set<int> {
    set p | p in sh.buckets && HasMatch(sh.buckets[p], tried)
  }

  datatype PickResult = PickResult(shard: Shard, picked: Option<Credential>)

  /** pickReadyLocked, after promotion */
  ghost function PickReady(sh: Shard, strategy: Strategy, tried: set<string>): PickResult {
    var ps := Matching(sh, tried);
    if ps == {} then PickResult(sh, None)
    else
      var p := Greatest(ps);
      match Choose(strategy, sh.buckets[p], tried)
      case None => PickResult(sh, None)
      case Some(i) =>
        PickResult(sh.(buckets := sh.buckets[p := Advance(strategy, sh.buckets[p], i)]),
                   Some(sh.buckets[p].creds[i]))
  }

  function Untried(entries: map<string, Entry>, tried: set<string>): set<string> {
    entries.Keys - tried
  }

  function RetryTimes(entries: map<string, Entry>, tried: set<string>): set<Time> {
    set id | id in entries && id !in tried && entries[id].state == CoolingDown && entries[id].nextRetryAt != UNSET
      :: entries[id].nextRetryAt
  }

  ghost function Earliest(entries: map<string, Entry>, tried: set<string>): Time {
    if RetryTimes(entries, tried) == {} then UNSET else Smallest(RetryTimes(entries, tried))
  }

  /** formatDuration: whole seconds, rounded up, never negative */
  function Seconds(d: Time): (s: int)
    ensures s >= 0
    ensures d > 0 ==> (s - 1) * SECOND < d <= s * SECOND
    ensures d <= 0 ==> s == 0
  {
    if d <= 0 then 0 else (d + SECOND - 1) / SECOND
  }

  /** unavailableErrorLocked */
  ghost function ErrorFor(entries: map<string, Entry>, tried: set<string>, now: nat): Outcome {
    if Untried(entries, tried) == {} then NotFound
    else if (forall id :: id in Untried(entries, tried) ==> entries[id].state == CoolingDown)
            && Earliest(entries, tried) != UNSET then
      Cooling(Seconds(Earliest(entries, tried) - now))
    else Unavailable
  }

  datatype ShardPick = ShardPick(shard: Shard, outcome: Outcome)

  ghost function PickFrom(sh: Shard, strategy: Strategy, tried: set<string>, now: nat): ShardPick {
    var r := PickReady(Promote(sh, now), strategy, tried);
    ShardPick(r.shard, if r.picked.Some? then Picked(r.picked.value) else ErrorFor(r.shard.entries, tried, now))
  }

  // ----- invariant

  /** An entry was classified from `c` at some time up to `now`. */
  predicate EntryOk(e: Entry, c: Credential, key: string, now: nat) {
    e.cred == c && e.priority == c.priority &&
    match GateOf(c, key)
    case Free => e.state == Ready && e.nextRetryAt == UNSET
    case Shut => e.state == SwitchedOff && e.nextRetryAt == UNSET
    case Until(retry, next, quota) =>
      || (e.state == Ready && e.nextRetryAt == UNSET && retry <= now)
      || (e.state == (if quota then CoolingDown else Waiting) && e.nextRetryAt == next)
  }

  predicate Keyed(entries: map<string, Entry>) {
    forall id :: id in entries ==> entries[id].cred.id == id
  }

  /** Every bucket lists, in ID order, exactly the ready entries of its priority; cursors stay in range. */
  ghost predicate Indexed(sh: Shard) {
    && sh.buckets.Keys == Priorities(sh.entries)
    && (forall p :: p in sh.buckets ==>
          Ids(sh.buckets[p].creds) == Sorted(ReadyAt(sh.entries, p)) && sh.buckets[p].cursor <= |sh.buckets[p].creds|)
    && sh.blocked == BlockedIds(sh.entries)
  }

  predicate EntriesOk(entries: map<string, Entry>, key: string, creds: map<string, Credential>, now: nat) {
    && entries.Keys == creds.Keys
    && forall id :: id in creds ==> creds[id].id == id && EntryOk(entries[id], creds[id], key, now)
  }

  /** The shard is an index, up to date to `now`, of `creds` for the model key. */
  ghost predicate Tracks(sh: Shard, key: string, creds: map<string, Credential>, now: nat) {
    sh.key == key && EntriesOk(sh.entries, key, creds, now) && Indexed(sh)
  }

  // ----- every operation keeps the invariant

  lemma ReindexIndexed(sh: Shard)
    requires Keyed(sh.entries)
    ensures Indexed(Reindex(sh))
  {
    var r := Reindex(sh);
    forall p | p in r.buckets
      ensures Ids(r.buckets[p].creds) == Sorted(ReadyAt(sh.entries, p))
    {
      var ids := Sorted(ReadyAt(sh.entries, p));
      forall i | 0 <= i < |ids| ensures r.buckets[p].creds[i].id == ids[i] {
        assert ids[i] in Elems(ids);
      }
    }
  }

  lemma SamePlacesStayIndexed(sh: Shard, sh': Shard)
    requires Indexed(sh)
    requires sh'.buckets == sh.buckets && sh'.blocked == sh.blocked
    requires sh'.entries.Keys == sh.entries.Keys
    requires forall id :: id in sh.entries ==> SamePlace(sh.entries[id], sh'.entries[id])
    ensures Indexed(sh')
  {
    forall p ensures ReadyAt(sh'.entries, p) == ReadyAt(sh.entries, p) {}
    assert BlockedIds(sh'.entries) == BlockedIds(sh.entries);
    assert Priorities(sh'.entries) == Priorities(sh.entries) by {
      forall p ensures p in Priorities(sh'.entries) <==> p in Priorities(sh.entries) {
        if p in Priorities(sh'.entries) {
          var id :| id in sh'.entries && sh'.entries[id].state == Ready && sh'.entries[id].priority == p;
          assert sh.entries[id].priority == p;
        }
        if p in Priorities(sh.entries) {
          var id :| id in sh.entries && sh.entries[id].state == Ready && sh.entries[id].priority == p;
          assert sh'.entries[id].priority == p;
        }
      }
    }
  }

  lemma ClassifyOk(c: Credential, key: string, now: nat)
    ensures EntryOk(Classify(c, key, now), c, key, now)
    ensures Classify(c, key, now).nextRetryAt == UNSET || Classify(c, key, now).nextRetryAt > now
  {
    TestIsGate(c, key, now);
  }

  lemma TracksLater(sh: Shard, key: string, creds: map<string, Credential>, t: nat, now: nat)
    requires Tracks(sh, key, creds, t) && t <= now
    ensures Tracks(sh, key, creds, now)
  {
  }

  lemma NewShardTracks(creds: map<string, Credential>, key: string, now: nat)
    requires forall id :: id in creds ==> creds[id].id == id
    ensures Tracks(NewShard(creds, key, now), key, creds, now)
  {
    var sh := Shard(key, map id | id in creds :: Classify(creds[id], key, now), map[], {});
    forall id | id in creds ensures EntryOk(sh.entries[id], creds[id], key, now) {
      ClassifyOk(creds[id], key, now);
    }
    ReindexIndexed(sh);
  }

  lemma UpsertedEntriesOk(entries: map<string, Entry>, key: string, creds: map<string, Credential>, c: Credential,
                          now: nat)
    requires EntriesOk(entries, key, creds, now)
    ensures EntriesOk(entries[c.id := Classify(c, key, now)], key, creds[c.id := c], now)
    ensures Keyed(entries[c.id := Classify(c, key, now)])
  {
    ClassifyOk(c, key, now);
  }

  lemma UpsertEntryTracks(sh: Shard, key: string, creds: map<string, Credential>, c: Credential, now: nat)
    requires Tracks(sh, key, creds, now)
    ensures Tracks(UpsertEntry(sh, c, now), key, creds[c.id := c], now)
  {
    var e := Classify(c, key, now);
    var sh' := sh.(entries := sh.entries[c.id := e]);
    UpsertedEntriesOk(sh.entries, key, creds, c, now);
    if c.id in sh.entries && SamePlace(sh.entries[c.id], e) {
      SamePlacesStayIndexed(sh, sh');
    } else {
      ReindexIndexed(sh');
    }
  }

  lemma RemainingEntriesOk(entries: map<string, Entry>, key: string, creds: map<string, Credential>, id: string,
                           now: nat)
    requires EntriesOk(entries, key, creds, now)
    ensures EntriesOk(entries - {id}, key, creds - {id}, now) && Keyed(entries - {id})
  {
  }

  lemma RemoveEntryTracks(sh: Shard, key: string, creds: map<string, Credential>, id: string, now: nat)
    requires Tracks(sh, key, creds, now)
    ensures Tracks(RemoveEntry(sh, id), key, creds - {id}, now)
  {
    if id in sh.entries {
      RemainingEntriesOk(sh.entries, key, creds, id, now);
      ReindexIndexed(sh.(entries := sh.entries - {id}));
    } else {
      assert creds - {id} == creds;
    }
  }

  /** No blocked entry is overdue. */
  predicate Settled(sh: Shard, now: nat) {
    forall id :: id in sh.entries && id in sh.blocked ==> sh.entries[id].nextRetryAt > now
  }

  lemma RetestedOk(e: Entry, c: Credential, key: string, now: nat)
    requires EntryOk(e, c, key, now)
    ensures EntryOk(Retested(e, key, now), c, key, now)
    ensures Retested(e, key, now).nextRetryAt == UNSET || Retested(e, key, now).nextRetryAt > now
    ensures Retested(e, key, now) == Classify(c, key, now)
  {
    ClassifyOk(c, key, now);
  }

  lemma BlockedHasTime(e: Entry, c: Credential, key: string, now: nat)
    requires EntryOk(e, c, key, now)
    ensures e.state == CoolingDown || e.state == Waiting ==> e.nextRetryAt > UNSET
  {
  }

  lemma PromotedEntriesOk(sh: Shard, key: string, creds: map<string, Credential>, now: nat)
    requires Tracks(sh, key, creds, now)
    ensures var entries := Promoted(sh, ExpiredIds(sh, now), now);
            && EntriesOk(entries, key, creds, now) && Keyed(entries)
            && forall id :: id in BlockedIds(entries) ==> entries[id].nextRetryAt > now
  {
    var ids := ExpiredIds(sh, now);
    var entries := Promoted(sh, ids, now);
    forall id | id in creds
      ensures EntryOk(entries[id], creds[id], key, now)
      ensures id in BlockedIds(entries) ==> entries[id].nextRetryAt > now
    {
      if id in ids {
        RetestedOk(sh.entries[id], creds[id], key, now);
        BlockedHasTime(entries[id], creds[id], key, now);
      } else {
        assert entries[id] == sh.entries[id];
        BlockedHasTime(sh.entries[id], creds[id], key, now);
      }
    }
  }

  lemma PromoteTracks(sh: Shard, key: string, creds: map<string, Credential>, now: nat)
    requires Tracks(sh, key, creds, now)
    ensures Tracks(Promote(sh, now), key, creds, now) && Settled(Promote(sh, now), now)
  {
    var ids := ExpiredIds(sh, now);
    if ids == {} {
      forall id | id in sh.entries && id in sh.blocked ensures sh.entries[id].nextRetryAt > now {
        assert id !in ids;
        BlockedHasTime(sh.entries[id], creds[id], key, now);
      }
    } else {
      var sh' := sh.(entries := Promoted(sh, ids, now));
      PromotedEntriesOk(sh, key, creds, now);
      ReindexIndexed(sh');
    }
  }

  /** In a settled shard a ready entry passes the plain test; the converse needs the two times to agree. */
  lemma ReadyIsOpen(sh: Shard, key: string, creds: map<string, Credential>, now: nat, id: string)
    requires Tracks(sh, key, creds, now) && Settled(sh, now) && id in creds
    ensures sh.entries[id].state == Ready ==> Test(creds[id], key, now) == Open
    ensures PunctualFor(creds[id], key) ==>
              (sh.entries[id].state == Ready <==> Test(creds[id], key, now) == Open)
    ensures PunctualFor(creds[id], key) && Test(creds[id], key, now).Closed? ==>
              sh.entries[id] == Classify(creds[id], key, now)
  {
    TestIsGate(creds[id], key, now);
  }

  lemma SettledStays(sh: Shard, now: nat)
    requires Settled(sh, now)
    ensures Promote(sh, now) == sh
  {
    assert ExpiredIds(sh, now) == {};
  }
}
