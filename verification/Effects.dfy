/**
 * What each operation of the manager does to the fields of a credential in memory and store, and what the next picks
 * answer then, stated on the fields themselves and not through the functions that compute the new values.
 */
module Effects {
  import opened Credentials
  import opened Blocking
  import opened Backoff
  import opened Shards
  import opened Picking
  import opened Scheduling
  import opened Lifecycle
  import opened Managing
  import opened Runs

  /** Memory and, if there is one, the store hold the value under its ID; everything else there is as before. */
  predicate Saved(m: Manager, m': Manager, c: Credential) {
    && m'.coolingOff == m.coolingOff
    && m'.creds == m.creds[c.id := c]
    && m'.store == if m.store.Some? then Some(m.store.value[c.id := c]) else None
  }

  /** The store is there and takes the write, or there is none. */
  predicate StoreTakes(m: Manager, id: string, storeOk: bool) {
    m.store.Some? ==> storeOk && id != "" && id in m.store.value
  }

  lemma UpdateSaves(m: Manager, c: Credential, storeOk: bool, now: nat)
    requires StoreTakes(m, c.id, storeOk)
    ensures Saved(m, Update(m, c, true, storeOk, now), c)
  {
  }

  // ----- results

  /** Results that come with an error, as MarkResult tells them apart. */
  predicate Failed(r: Result) {
    !r.success && r.error.Some?
  }

  /** The credential's own setting goes before the global one. */
  predicate Cools(c: Credential, coolingOff: bool) {
    c.coolingOverride == Some(false) || (c.coolingOverride.None? && !coolingOff)
  }

  /** One second doubled per level, at most half an hour, or the hint if that is longer. */
  function Wait(c: Credential, r: Result): (w: Time)
    ensures c.quota.backoffLevel >= 0 ==> w >= Min(SECOND * Pow2(c.quota.backoffLevel), 30 * 60 * SECOND)
    ensures r.retryAfter.Some? ==> w >= r.retryAfter.value
    ensures (r.retryAfter.Some? && w == r.retryAfter.value)
            || (c.quota.backoffLevel < 0 && w == SECOND)
            || (c.quota.backoffLevel >= 0 && w == Min(SECOND * Pow2(c.quota.backoffLevel), 30 * 60 * SECOND))
  {
    var level := if c.quota.backoffLevel < 0 then 0 else c.quota.backoffLevel;
    var d := Min(SECOND * Pow2(level), 30 * 60 * SECOND);
    if r.retryAfter.Some? && r.retryAfter.value > d then r.retryAfter.value else d
  }

  /** What a credential's state for the model was, where a missing one is all blank. */
  function StateOf(c: Credential, model: string): (st: ModelState)
    ensures model in c.modelStates ==> st == c.modelStates[model]
    ensures model !in c.modelStates ==>
              !st.unavailable && st.lastError.None? && !st.quota.exceeded && st.quota.backoffLevel == 0
              && st.nextRetryAfter == st.quota.nextRecoverAt == UNSET
  {
    if model in c.modelStates then c.modelStates[model]
    else ModelState(Unset, false, UNSET, None, Quota(false, "", UNSET, 0))
  }

  /** Exactly the state for the named model is new. */
  predicate States(c: Credential, c': Credential, model: string, st: ModelState) {
    c'.modelStates == if model == "" then c.modelStates else c.modelStates[model := st]
  }

  /** A result that cannot be placed, says nothing or meets a store that refuses leaves everything as it was. */
  lemma MarkIgnored(m: Manager, r: Result, storeOk: bool, now: nat)
    requires r.id == "" || r.id !in m.creds || (!r.success && r.error.None?)
             || (KeysMatch(m.creds) && !StoreTakes(m, r.id, storeOk))
    ensures Mark(m, r, storeOk, now) == m
  {
  }

  lemma MarkSaves(m: Manager, r: Result, storeOk: bool, now: nat)
    requires KeysMatch(m.creds) && r.id != "" && r.id in m.creds && StoreTakes(m, r.id, storeOk)
    requires MarkCredential(m.creds[r.id], r, m.coolingOff, now).changed
    ensures Saved(m, Mark(m, r, storeOk, now), MarkCredential(m.creds[r.id], r, m.coolingOff, now).cred)
  {
    UpdateSaves(m, MarkCredential(m.creds[r.id], r, m.coolingOff, now).cred, storeOk, now);
  }

  /** A 429 while cooling is on: one quota and one retry time for credential and model, and one more level. */
  lemma QuotaEffect(m: Manager, r: Result, storeOk: bool, now: nat)
    requires KeysMatch(m.creds) && r.id != "" && r.id in m.creds && StoreTakes(m, r.id, storeOk)
    requires Failed(r) && r.error.value.httpStatus == 429 && Cools(m.creds[r.id], m.coolingOff)
    ensures var m', end := Mark(m, r, storeOk, now), now + Wait(m.creds[r.id], r);
            r.id in m'.creds &&
            var c, c', st := m.creds[r.id], m'.creds[r.id], StateOf(m.creds[r.id], r.model);
            var q := Quota(true, r.error.value.message, end, c.quota.backoffLevel + 1);
            && Saved(m, m', c')
            && c' == c.(quota := q, unavailable := true, nextRetryAfter := end, status := Error,
                        modelStates := c'.modelStates)
            && States(c, c', r.model, st.(quota := q, unavailable := true, nextRetryAfter := end, status := Error))
  {
    MarkSaves(m, r, storeOk, now);
    assert Pow2(0) == 1;
  }

  /** A 401 or 403 disables the credential; for the rest it only leaves its mark on the model. */
  lemma AuthEffect(m: Manager, r: Result, storeOk: bool, now: nat)
    requires KeysMatch(m.creds) && r.id != "" && r.id in m.creds && StoreTakes(m, r.id, storeOk)
    requires Failed(r) && (r.error.value.httpStatus == 401 || r.error.value.httpStatus == 403)
    ensures var m' := Mark(m, r, storeOk, now);
            r.id in m'.creds &&
            var c, c', st := m.creds[r.id], m'.creds[r.id], StateOf(m.creds[r.id], r.model);
            var retry := if r.retryAfter.Some? then now + r.retryAfter.value else st.nextRetryAfter;
            && Saved(m, m', c')
            && c' == c.(status := Disabled, modelStates := c'.modelStates)
            && States(c, c', r.model, st.(lastError := r.error, status := Error, nextRetryAfter := retry,
                                          unavailable := st.unavailable || r.retryAfter.Some?))
  {
    MarkSaves(m, r, storeOk, now);
  }

  /** Any other failure is recorded for credential and model, and makes them unavailable only by a hint. */
  lemma ErrorEffect(m: Manager, r: Result, storeOk: bool, now: nat)
    requires KeysMatch(m.creds) && r.id != "" && r.id in m.creds && StoreTakes(m, r.id, storeOk)
    requires Failed(r) && r.error.value.httpStatus != 401 && r.error.value.httpStatus != 403
    requires r.error.value.httpStatus != 429 || !Cools(m.creds[r.id], m.coolingOff)
    ensures var m' := Mark(m, r, storeOk, now);
            r.id in m'.creds &&
            var c, c', st := m.creds[r.id], m'.creds[r.id], StateOf(m.creds[r.id], r.model);
            var hint := r.retryAfter.Some?;
            && Saved(m, m', c')
            && c' == c.(lastError := r.error, status := Error, unavailable := c.unavailable || hint,
                        nextRetryAfter := if hint then now + r.retryAfter.value else c.nextRetryAfter,
                        modelStates := c'.modelStates)
            && States(c, c', r.model,
                      st.(lastError := r.error, status := Error, unavailable := st.unavailable || hint,
                          nextRetryAfter := if hint then now + r.retryAfter.value else st.nextRetryAfter))
  {
    MarkSaves(m, r, storeOk, now);
  }

  /** A success with something to clear clears exactly that. */
  lemma SuccessEffect(m: Manager, r: Result, storeOk: bool, now: nat)
    requires KeysMatch(m.creds) && r.id != "" && r.id in m.creds && StoreTakes(m, r.id, storeOk) && r.success
    ensures var c, m' := m.creds[r.id], Mark(m, r, storeOk, now);
            var atCredential := c.unavailable || c.lastError.Some? || c.quota.exceeded;
            var st := StateOf(c, r.model);
            var atModel := r.model != "" && r.model in c.modelStates && (st.unavailable || st.lastError.Some?);
            if !atCredential && !atModel then m' == m
            else
              r.id in m'.creds && var c' := m'.creds[r.id];
              && Saved(m, m', c')
              && (atCredential ==>
                    c' == c.(unavailable := false, lastError := None, nextRetryAfter := UNSET, status := Active,
                             quota := Quota(false, "", UNSET, 0), modelStates := c'.modelStates))
              && (!atCredential ==> c' == c.(modelStates := c'.modelStates))
              && (atModel ==>
                    States(c, c', r.model, ModelState(Active, false, UNSET, None, Quota(false, "", UNSET, 0))))
              && (!atModel ==> c'.modelStates == c.modelStates)
  {
    if MarkCredential(m.creds[r.id], r, m.coolingOff, now).changed {
      MarkSaves(m, r, storeOk, now);
    }
  }

  // ----- what a pick answers then

  lemma PunctualState(c: Credential, model: string, st: ModelState)
    requires model != "" && StateFor(c, model, st) && Punctual(st.quota, st.nextRetryAfter)
    ensures PunctualFor(c, model)
  {
    assert |c.modelStates| > 0;
  }

  /** What a pick answers when there is one credential, from the verdict on it. */
  predicate Alone(o: Outcome, c: Credential, v: Verdict, now: nat) {
    match v
    case Open => o.Picked? && o.cred.id == c.id
    case Closed(Cooldown, next) => o.Cooling? && (o.seconds - 1) * SECOND < next - now <= o.seconds * SECOND
    case Closed(_, _) => o == Unavailable
  }

  lemma AloneFits(c: Credential, key: string, strategy: Strategy, now: nat, o: Outcome)
    requires Agrees(map[c.id := c], key, strategy, {}, now, o)
    ensures Alone(o, c, Test(c, key, now), now)
  {
    AnswerMeans(map[c.id := c], key, strategy, {}, now, o);
    assert c.id in map[c.id := c] && c.id !in {};
  }

  lemma OnlyAnswer(m: Manager, c: Credential, model: string, now: nat)
    requires Coherent(m, now) && OnlyOne(m, c.id) && m.creds[c.id] == c && c.id != "" && c.status != Disabled
    requires PunctualFor(c, ShardKey(model))
    ensures Alone(Pick(m.scheduler, c.provider, model, {}, now).outcome, c, Test(c, ShardKey(model), now), now)
  {
    var o := Pick(m.scheduler, c.provider, model, {}, now).outcome;
    OnlyOneListed(m, c);
    assert m.creds[c.id := c] == m.creds;
    PickIsScan(m.scheduler, Projection(m.creds), c.provider, model, {}, now);
    AloneFits(c, ShardKey(model), m.scheduler.strategy, now, o);
  }

  /** After a value is saved, picks for a model of which it has a state answer by that state. */
  lemma SavedAnswer(m: Manager, m': Manager, c: Credential, model: string, st: ModelState, now: nat)
    requires OnlyOne(m, c.id) && Saved(m, m', c) && c.provider == m.creds[c.id].provider && Coherent(m', now)
    requires c.id != "" && c.status != Disabled && st.status != Disabled && Punctual(st.quota, st.nextRetryAfter)
    requires ShardKey(model) != "" && StateFor(c, ShardKey(model), st)
    ensures var o := Pick(m'.scheduler, c.provider, model, {}, now).outcome;
            if !st.unavailable || st.nextRetryAfter <= now then o.Picked? && o.cred.id == c.id
            else if st.quota.exceeded then
              o.Cooling? && (o.seconds - 1) * SECOND < st.nextRetryAfter - now <= o.seconds * SECOND
            else o == Unavailable
  {
    PunctualState(c, ShardKey(model), st);
    StateDecides(c, ShardKey(model), st, now);
    OnlyAnswer(m', c, model, now);
  }

  /**
   * After a recorded 429 on the provider's only credential, picks for the model report the cooldown with the wait
   * until its end, and return the credential from the end on.
   */
  lemma QuotaAnswer(m: Manager, r: Result, storeOk: bool, now: nat, model: string, later: nat)
    requires Coherent(m, now) && now <= later && r.id != "" && OnlyOne(m, r.id) && StoreTakes(m, r.id, storeOk)
    requires Failed(r) && r.error.value.httpStatus == 429 && Cools(m.creds[r.id], m.coolingOff)
    requires r.model != "" && ShardKey(model) == r.model
    ensures var end := now + Wait(m.creds[r.id], r);
            var o := Pick(Mark(m, r, storeOk, now).scheduler, m.creds[r.id].provider, model, {}, later).outcome;
            if later < end then o.Cooling? && (o.seconds - 1) * SECOND < end - later <= o.seconds * SECOND
            else o.Picked? && o.cred.id == r.id
  {
    var m' := Mark(m, r, storeOk, now);
    QuotaEffect(m, r, storeOk, now);
    MarkCoherent(m, r, storeOk, now);
    CoherentLater(m', now, later);
    SavedAnswer(m, m', m'.creds[r.id], model, m'.creds[r.id].modelStates[r.model], later);
  }

  /**
   * After a failure of another kind with a hint, where no quota is exceeded, picks report unavailability until the
   * hint is over; without a hint, the credential is picked again at once.
   */
  lemma ErrorAnswer(m: Manager, r: Result, storeOk: bool, now: nat, model: string, later: nat)
    requires Coherent(m, now) && now <= later && r.id != "" && OnlyOne(m, r.id) && StoreTakes(m, r.id, storeOk)
    requires Failed(r) && r.error.value.httpStatus != 401 && r.error.value.httpStatus != 403
    requires r.error.value.httpStatus != 429 || !Cools(m.creds[r.id], m.coolingOff)
    requires r.model != "" && ShardKey(model) == r.model
    requires var st := StateOf(m.creds[r.id], r.model);
             !st.unavailable && !st.quota.exceeded && st.quota.nextRecoverAt == UNSET
    ensures var o := Pick(Mark(m, r, storeOk, now).scheduler, m.creds[r.id].provider, model, {}, later).outcome;
            if r.retryAfter.Some? && later < now + r.retryAfter.value then o == Unavailable
            else o.Picked? && o.cred.id == r.id
  {
    var m' := Mark(m, r, storeOk, now);
    ErrorEffect(m, r, storeOk, now);
    MarkCoherent(m, r, storeOk, now);
    CoherentLater(m', now, later);
    SavedAnswer(m, m', m'.creds[r.id], model, m'.creds[r.id].modelStates[r.model], later);
  }

  /** After a recorded 401 or 403 on it there is nothing left to pick. */
  lemma AuthAnswer(m: Manager, r: Result, storeOk: bool, now: nat, model: string, later: nat)
    requires Coherent(m, now) && now <= later && r.id != "" && OnlyOne(m, r.id) && StoreTakes(m, r.id, storeOk)
    requires Failed(r) && (r.error.value.httpStatus == 401 || r.error.value.httpStatus == 403)
    ensures Pick(Mark(m, r, storeOk, now).scheduler, m.creds[r.id].provider, model, {}, later).outcome == NotFound
  {
    var m' := Mark(m, r, storeOk, now);
    var provider := m.creds[r.id].provider;
    AuthEffect(m, r, storeOk, now);
    MarkCoherent(m, r, storeOk, now);
    CoherentLater(m', now, later);
    NobodyAnswers(m', provider, model, later);
  }

  lemma NobodyAnswers(m: Manager, provider: string, model: string, now: nat)
    requires Coherent(m, now) && provider != ""
    requires forall i :: i in m.creds && m.creds[i].provider == provider ==> m.creds[i].status == Disabled
    ensures Pick(m.scheduler, provider, model, {}, now).outcome == NotFound
  {
    assert Of(Projection(m.creds), provider) == map[];
    PickIsScan(m.scheduler, Projection(m.creds), provider, model, {}, now);
    assert OpenIds(map[], ShardKey(model), {}, now) == {};
  }

  /** After a recorded success on the model, unless that is switched off, it is picked at every later time. */
  lemma SuccessAnswer(m: Manager, r: Result, storeOk: bool, now: nat, model: string, later: nat)
    requires Coherent(m, now) && now <= later && r.id != "" && OnlyOne(m, r.id) && StoreTakes(m, r.id, storeOk)
    requires r.success && r.model != "" && ShardKey(model) == r.model && r.model in m.creds[r.id].modelStates
    requires !ModelOff(m.creds[r.id], r.model) && Mark(m, r, storeOk, now).creds[r.id].status != Disabled
    ensures var o := Pick(Mark(m, r, storeOk, now).scheduler, m.creds[r.id].provider, model, {}, later).outcome;
            o.Picked? && o.cred.id == r.id
  {
    var m' := Mark(m, r, storeOk, now);
    SuccessEffect(m, r, storeOk, now);
    MarkCoherent(m, r, storeOk, now);
    CoherentLater(m', now, later);
    var c := m'.creds[r.id];
    StateDecides(c, r.model, c.modelStates[r.model], 0);
    OnlyOneListed(m, c);
    assert m.creds[r.id := c] == m'.creds;
    AloneIsPicked(m'.scheduler, Projection(m'.creds), c, model, later);
  }
}
