/** How one credential value changes: results of requests, and refreshes. */
module Lifecycle {
  import opened Credentials
  import opened Blocking
  import opened Backoff

  datatype Result = Result(
    id: string,
    model: string,
    success: bool,
    error: Option<Failure>,
    retryAfter: Option<Time>)

  datatype Marked = Marked(cred: Credential, changed: bool)

  /** quotaCooldownDisabledForCred */
  predicate CoolingDisabled(c: Credential, coolingOff: bool) {
    match c.coolingOverride
    case Some(b) => b
    case None => coolingOff
  }

  /** The failure is one that starts a cooldown. */
  predicate IsQuota(c: Credential, r: Result, coolingOff: bool) {
    !r.success && r.error.Some? && r.error.value.httpStatus == 429 && !CoolingDisabled(c, coolingOff)
  }

  predicate IsAuth(r: Result) {
    !r.success && r.error.Some? && (r.error.value.httpStatus == 401 || r.error.value.httpStatus == 403)
  }

  function QuotaWait(c: Credential, r: Result): Time {
    var backoff := BackoffAt(c.quota.backoffLevel, QUOTA_BACKOFF_BASE, QUOTA_BACKOFF_MAX);
    if r.retryAfter.Some? && r.retryAfter.value > backoff then r.retryAfter.value else backoff
  }

  // ----- MarkResult on a value

  function MarkSuccess(c: Credential, model: string): Marked {
    var dirty := c.unavailable || c.lastError.Some? || c.quota.exceeded;
    var c1 := if dirty then
                c.(unavailable := false, lastError := None, nextRetryAfter := UNSET, quota := NO_QUOTA,
                   status := Active)
              else c;
    if model != "" && model in c.modelStates &&
       (c.modelStates[model].unavailable || c.modelStates[model].lastError.Some?) then
      Marked(c1.(modelStates := c.modelStates[model := NEW_MODEL_STATE.(status := Active)]), true)
    else Marked(c1, dirty)
  }

  function FailedCredential(c: Credential, r: Result, coolingOff: bool, now: nat): Credential
    requires !r.success && r.error.Some?
  {
    var err := r.error.value;
    if IsQuota(c, r, coolingOff) then
      var until := now + QuotaWait(c, r);
      c.(quota := Quota(true, err.message, until, c.quota.backoffLevel + 1),
         unavailable := true, nextRetryAfter := until, status := Error)
    else if IsAuth(r) then c.(status := Disabled)
    else
      var c1 := c.(lastError := Some(err), status := Error);
      if r.retryAfter.Some? then c1.(nextRetryAfter := now + r.retryAfter.value, unavailable := true) else c1
  }

  /** The model state after a failure; `c` is the credential as already changed. */
  function FailedModel(c: Credential, st: ModelState, r: Result, quota: bool, now: nat): ModelState
    requires !r.success && r.error.Some?
  {
    if quota then
      st.(quota := c.quota, unavailable := true, nextRetryAfter := c.nextRetryAfter, status := Error)
    else
      var st1 := st.(lastError := r.error, status := Error);
      if r.retryAfter.Some? then st1.(unavailable := true, nextRetryAfter := now + r.retryAfter.value) else st1
  }

  /** The cooling switch is read once for the credential and once more for the model. */
  function MarkFailure(c: Credential, r: Result, first: bool, second: bool, now: nat): Credential
    requires !r.success && r.error.Some?
  {
    var c1 := FailedCredential(c, r, first, now);
    if r.model == "" then c1
    else
      var st := if r.model in c.modelStates then c.modelStates[r.model] else NEW_MODEL_STATE;
      c1.(modelStates := c.modelStates[r.model := FailedModel(c1, st, r, IsQuota(c, r, second), now)])
  }

  function MarkReading(c: Credential, r: Result, first: bool, second: bool, now: nat): (m: Marked)
    ensures m.cred.id == c.id && m.cred.provider == c.provider && m.cred.priority == c.priority
    ensures !m.changed ==> m.cred == c
  {
    if r.success then MarkSuccess(c, r.model)
    else if r.error.Some? then Marked(MarkFailure(c, r, first, second, now), true)
    else Marked(c, false)
  }

  /** MarkResult while nobody turns the switch. */
  function MarkCredential(c: Credential, r: Result, coolingOff: bool, now: nat): (m: Marked)
    ensures m.cred.id == c.id && m.cred.provider == c.provider && m.cred.priority == c.priority
    ensures !m.changed ==> m.cred == c
  {
    MarkReading(c, r, coolingOff, coolingOff, now)
  }

  // ----- refreshing

  datatype RefreshOutcome =
    | RefreshFailed
    | RefreshNothing
    | RefreshUpdated(token: string, expiresAt: Option<Time>, status: Status)

  predicate NeedsRefresh(c: Credential, now: nat) {
    && c.status != Refreshing
    && !(c.nextRefreshAfter != UNSET && now < c.nextRefreshAfter)
    && c.expiresAt.Some? && now > c.expiresAt.value - 5 * 60 * SECOND
  }

  /** What refreshOne finally writes, from the snapshot it was started with. */
  function Refreshed(c: Credential, o: RefreshOutcome, now: nat): (r: Credential)
    ensures r.id == c.id && r.status != Refreshing
  {
    match o
    case RefreshFailed => c.(status := Error, nextRefreshAfter := now + 5 * 60 * SECOND)
    case RefreshNothing => c.(status := Active)
    case RefreshUpdated(token, expiresAt, status) =>
      c.(token := token, expiresAt := expiresAt,
         status := if status == Unset || status == Refreshing then Active else status)
  }

  /** A failed refresh is not due again for five minutes, one under way not at all. */
  lemma RefreshNotRepeated(c: Credential, now: nat, later: nat)
    ensures NeedsRefresh(Refreshed(c, RefreshFailed, now), later) ==> later >= now + 5 * 60 * SECOND
    ensures !NeedsRefresh(c.(status := Refreshing), later)
  {
  }

  // ----- what every stored value satisfies

  /** A backoff level comes with an exceeded quota, and that with unavailability. */
  predicate Sane(unavailable: bool, q: Quota) {
    q.backoffLevel >= 0 && (q.backoffLevel > 0 ==> q.exceeded) && (q.exceeded ==> unavailable)
  }

  predicate SaneCredential(c: Credential) {
    Sane(c.unavailable, c.quota) &&
    forall m :: m in c.modelStates ==> Sane(c.modelStates[m].unavailable, c.modelStates[m].quota)
  }

  /** The recovery time is set exactly with an exceeded quota, and is then the retry time. */
  predicate InStep(q: Quota, retry: Time) {
    q.nextRecoverAt == if q.exceeded then retry else UNSET
  }

  predicate InStepCredential(c: Credential) {
    InStep(c.quota, c.nextRetryAfter) &&
    forall m :: m in c.modelStates ==> InStep(c.modelStates[m].quota, c.modelStates[m].nextRetryAfter)
  }

  /** Results keep the implications, whatever they are. */
  lemma MarkKeepsSane(c: Credential, r: Result, first: bool, second: bool, now: nat)
    requires SaneCredential(c)
    ensures SaneCredential(MarkReading(c, r, first, second, now).cred)
  {
    if !r.success && r.error.Some? {
      FailureKeepsSane(c, r, first, second, now);
    }
  }

  lemma FailureKeepsSane(c: Credential, r: Result, first: bool, second: bool, now: nat)
    requires SaneCredential(c) && !r.success && r.error.Some?
    ensures SaneCredential(MarkFailure(c, r, first, second, now))
  {
    var c1 := FailedCredential(c, r, first, now);
    assert Sane(c1.unavailable, c1.quota) && c1.modelStates == c.modelStates;
    if r.model != "" {
      var st := if r.model in c.modelStates then c.modelStates[r.model] else NEW_MODEL_STATE;
      FailedModelSane(c1, st, r, IsQuota(c, r, second), now);
    }
  }

  lemma FailedModelSane(c: Credential, st: ModelState, r: Result, quota: bool, now: nat)
    requires Sane(c.unavailable, c.quota) && Sane(st.unavailable, st.quota) && !r.success && r.error.Some?
    ensures var st' := FailedModel(c, st, r, quota, now); Sane(st'.unavailable, st'.quota)
  {
  }

  /** The states of other models, and all that identifies the credential, are left alone by any result. */
  predicate SameElsewhere(c: Credential, c': Credential, model: string) {
    && c'.id == c.id && c'.provider == c.provider && c'.priority == c.priority && c'.token == c.token
    && c'.coolingOverride == c.coolingOverride && c'.expiresAt == c.expiresAt
    && c'.nextRefreshAfter == c.nextRefreshAfter
    && c.modelStates.Keys <= c'.modelStates.Keys <= c.modelStates.Keys + {model}
    && forall m :: m in c.modelStates && m != model ==> c'.modelStates[m] == c.modelStates[m]
  }

  /**
   * A success clears credential and model: afterwards nothing is unavailable, in error or over quota there, the
   * model is open unless switched off, and a second success changes nothing.
   */
  lemma SuccessClears(c: Credential, r: Result, coolingOff: bool, now: nat)
    requires SaneCredential(c) && r.success
    ensures var c' := MarkCredential(c, r, coolingOff, now).cred;
            && SameElsewhere(c, c', r.model)
            && !c'.unavailable && c'.lastError.None? && !c'.quota.exceeded && c'.quota.backoffLevel == 0
            && (c'.status == Disabled ==> c.status == Disabled)
            && (c' != c && c'.modelStates == c.modelStates ==> c'.status == Active)
            && (r.model != "" && r.model in c.modelStates ==>
                  var st := c'.modelStates[r.model];
                  !st.unavailable && st.lastError.None? && !st.quota.exceeded)
            && MarkCredential(c', r, coolingOff, now) == Marked(c', false)
  {
  }

  /** The model is switched off, with nothing a success would clear. */
  predicate ModelOff(c: Credential, model: string) {
    model in c.modelStates && c.modelStates[model].status == Disabled
    && !c.modelStates[model].unavailable && c.modelStates[model].lastError.None?
  }

  /**
   * After a success the model's state is switched off only if it was and had nothing to clear; a cleared state is
   * active. Unless model or credential are switched off, the model is open from then on at every time.
   */
  lemma SuccessOpens(c: Credential, r: Result, coolingOff: bool, now: nat, t: nat)
    requires r.success && r.model in c.modelStates && r.model != ""
    ensures var c', st := MarkCredential(c, r, coolingOff, now).cred, c.modelStates[r.model];
            var st' := c'.modelStates[r.model];
            && (st'.status == Disabled <==> ModelOff(c, r.model))
            && (st.unavailable || st.lastError.Some? ==> st'.status == Active && st'.nextRetryAfter == UNSET)
            && (!st.unavailable && st.lastError.None? ==> st' == st)
            && (c'.status != Disabled && !ModelOff(c, r.model) ==> Test(c', r.model, t) == Open)
  {
    var c' := MarkCredential(c, r, coolingOff, now).cred;
    if c'.status != Disabled {
      StateDecides(c', r.model, c'.modelStates[r.model], t);
    }
  }

  /** The results that end the disabling of a credential: MarkResult does not look at the status it replaces. */
  predicate Revives(c: Credential, r: Result) {
    if r.success then c.unavailable || c.lastError.Some? || c.quota.exceeded else r.error.Some? && !IsAuth(r)
  }

  lemma DisabledUnlessRevived(c: Credential, r: Result, first: bool, second: bool, now: nat)
    requires c.status == Disabled
    ensures MarkReading(c, r, first, second, now).cred.status == Disabled <==> !Revives(c, r)
    ensures Revives(c, r) ==> MarkReading(c, r, first, second, now).changed
  {
  }

  /** The one way a result can part the two times: a retry hint, not taken as a quota failure, during a cooldown. */
  predicate Disturbs(c: Credential, r: Result, first: bool, second: bool, now: nat) {
    && !r.success && r.error.Some? && r.retryAfter.Some?
    && (|| (!IsQuota(c, r, first) && !IsAuth(r)
            && c.quota.exceeded && now + r.retryAfter.value != c.quota.nextRecoverAt)
        || (!IsQuota(c, r, second) && r.model != "" && r.model in c.modelStates
            && c.modelStates[r.model].quota.exceeded
            && now + r.retryAfter.value != c.modelStates[r.model].quota.nextRecoverAt))
  }

  lemma MarkKeepsInStep(c: Credential, r: Result, first: bool, second: bool, now: nat)
    requires InStepCredential(c)
    ensures InStepCredential(MarkReading(c, r, first, second, now).cred) <==> !Disturbs(c, r, first, second, now)
  {
    if !r.success && r.error.Some? {
      MarkFailureInStep(c, r, first, second, now);
    } else {
      var c' := MarkReading(c, r, first, second, now).cred;
      forall m | m in c'.modelStates ensures InStep(c'.modelStates[m].quota, c'.modelStates[m].nextRetryAfter) {}
    }
  }

  lemma FailedCredentialInStep(c: Credential, r: Result, first: bool, now: nat)
    requires InStepCredential(c) && !r.success && r.error.Some?
    ensures var c1 := FailedCredential(c, r, first, now);
            InStep(c1.quota, c1.nextRetryAfter) <==>
            !(&& !IsQuota(c, r, first) && r.retryAfter.Some? && !IsAuth(r)
              && c.quota.exceeded && now + r.retryAfter.value != c.quota.nextRecoverAt)
  {
  }

  /** A model that counts the failure as one of quota takes over both times of the credential. */
  lemma FailedModelInStep(c: Credential, st: ModelState, r: Result, quota: bool, now: nat)
    requires InStep(st.quota, st.nextRetryAfter) && !r.success && r.error.Some?
    ensures var st' := FailedModel(c, st, r, quota, now);
            InStep(st'.quota, st'.nextRetryAfter) <==>
            if quota then InStep(c.quota, c.nextRetryAfter)
            else !(r.retryAfter.Some? && st.quota.exceeded && now + r.retryAfter.value != st.quota.nextRecoverAt)
  {
  }

  lemma MarkFailureInStep(c: Credential, r: Result, first: bool, second: bool, now: nat)
    requires InStepCredential(c) && !r.success && r.error.Some?
    ensures InStepCredential(MarkFailure(c, r, first, second, now)) <==> !Disturbs(c, r, first, second, now)
  {
    var c1 := FailedCredential(c, r, first, now);
    FailedCredentialInStep(c, r, first, now);
    if r.model != "" {
      var st := if r.model in c.modelStates then c.modelStates[r.model] else NEW_MODEL_STATE;
      FailedModelInStep(c1, st, r, IsQuota(c, r, second), now);
      InStepUpdate(c1, MarkFailure(c, r, first, second, now), r.model);
    }
  }

  lemma InStepUpdate(c: Credential, c': Credential, model: string)
    requires model in c'.modelStates && c' == c.(modelStates := c.modelStates[model := c'.modelStates[model]])
    requires forall m :: m in c.modelStates ==> InStep(c.modelStates[m].quota, c.modelStates[m].nextRetryAfter)
    ensures InStepCredential(c') <==>
            && InStep(c.quota, c.nextRetryAfter)
            && InStep(c'.modelStates[model].quota, c'.modelStates[model].nextRetryAfter)
  {
  }

  /** The hint ends before a quota recovers that it is not part of. */
  predicate CutsShort(c: Credential, r: Result, first: bool, second: bool, now: nat) {
    && !r.success && r.error.Some? && r.retryAfter.Some?
    && (|| (!IsQuota(c, r, first) && !IsAuth(r) && !Punctual(c.quota, now + r.retryAfter.value))
        || (!IsQuota(c, r, second) && r.model != "" && r.model in c.modelStates
            && !Punctual(c.modelStates[r.model].quota, now + r.retryAfter.value)))
  }

  /** Exactly such hints let a quota recover after the retry time; one that lengthens the wait does not. */
  lemma MarkKeepsPunctual(c: Credential, r: Result, first: bool, second: bool, now: nat)
    requires PunctualCredential(c)
    ensures PunctualCredential(MarkReading(c, r, first, second, now).cred) <==> !CutsShort(c, r, first, second, now)
  {
    if !r.success && r.error.Some? {
      FailureKeepsPunctual(c, r, first, second, now);
    }
  }

  lemma FailureKeepsPunctual(c: Credential, r: Result, first: bool, second: bool, now: nat)
    requires PunctualCredential(c) && !r.success && r.error.Some?
    ensures PunctualCredential(MarkFailure(c, r, first, second, now)) <==> !CutsShort(c, r, first, second, now)
  {
    if r.model != "" {
      var c' := MarkFailure(c, r, first, second, now);
      assert forall m :: m in c'.modelStates && m != r.model ==> c'.modelStates[m] == c.modelStates[m];
      assert Punctual(c'.modelStates[r.model].quota, c'.modelStates[r.model].nextRetryAfter) ||
             !PunctualCredential(c');
    }
  }

  lemma RefreshKeepsValues(c: Credential, o: RefreshOutcome, now: nat)
    ensures SaneCredential(c) ==> SaneCredential(Refreshed(c, o, now))
    ensures InStepCredential(c) ==> InStepCredential(Refreshed(c, o, now))
    ensures PunctualCredential(c) ==> PunctualCredential(Refreshed(c, o, now))
  {
  }

  // ----- cooldown of one model

  /** The model is blocked at every time before `until`. */
  predicate Held(c: Credential, model: string, until: Time) {
    model in c.modelStates && c.modelStates[model].unavailable && c.modelStates[model].nextRetryAfter >= until
  }

  lemma HeldIsBlocked(c: Credential, model: string, until: Time, now: nat)
    requires Held(c, model, until) && model != "" && now < until
    ensures Test(c, model, now).Closed?
  {
    assert |c.modelStates| > 0;
  }

  /** A quota failure on a model holds it until the end of the backoff. */
  lemma QuotaHolds(c: Credential, r: Result, coolingOff: bool, now: nat)
    requires IsQuota(c, r, coolingOff) && r.model != ""
    ensures Held(MarkCredential(c, r, coolingOff, now).cred, r.model, now + QuotaWait(c, r))
  {
  }

  /** The results that let a model go before `until`. */
  predicate Releases(c: Credential, r: Result, coolingOff: bool, now: nat, model: string, until: Time) {
    r.model == model &&
    (|| r.success
     || (IsQuota(c, r, coolingOff) && now + QuotaWait(c, r) < until)
     || (r.error.Some? && !IsQuota(c, r, coolingOff) && r.retryAfter.Some? && now + r.retryAfter.value < until))
  }

  lemma HeldUnlessReleased(c: Credential, r: Result, coolingOff: bool, now: nat, model: string, until: Time)
    requires Held(c, model, until) && model != ""
    ensures Held(MarkCredential(c, r, coolingOff, now).cred, model, until) <==>
            !Releases(c, r, coolingOff, now, model, until)
  {
  }

  /**
   * The same if the switch may be turned meanwhile: a model that counts the failure as one of quota takes over the
   * credential's retry time, which is set by the first read, by a hint, or not at all.
   */
  predicate ReleasesReading(c: Credential, r: Result, first: bool, second: bool, now: nat, model: string, until: Time) {
    r.model == model &&
    (|| r.success
     || (r.error.Some? && IsQuota(c, r, second) && IsQuota(c, r, first) && now + QuotaWait(c, r) < until)
     || (r.error.Some? && !(IsQuota(c, r, second) && IsQuota(c, r, first))
         && r.retryAfter.Some? && now + r.retryAfter.value < until)
     || (IsQuota(c, r, second) && !IsQuota(c, r, first) && r.retryAfter.None? && c.nextRetryAfter < until))
  }

  lemma HeldUnlessReleasedReading(c: Credential, r: Result, first: bool, second: bool, now: nat, model: string,
                                  until: Time)
    requires Held(c, model, until) && model != ""
    ensures Held(MarkReading(c, r, first, second, now).cred, model, until) <==>
            !ReleasesReading(c, r, first, second, now, model, until)
  {
  }

  // ----- whether a cooldown reaches picks

  lemma CanonicalShrinks(key: string)
    requires Trimmed(key)
    ensures CanonicalModelKey(key) == key || |CanonicalModelKey(key)| < |key|
  {
    assert Trim(key) == key;
  }

  /** A pick for a model never reads the state kept under its name, unless that name is the shard key. */
  lemma StateUnread(c: Credential, model: string, st: ModelState)
    requires ShardKey(model) != model
    ensures FindState(c.(modelStates := c.modelStates[model := st]), ShardKey(model)) == FindState(c, ShardKey(model))
  {
    CanonicalShrinks(CanonicalModelKey(model));
    CanonicalShrinks(ShardKey(model));
  }

  lemma VerdictUnread(c: Credential, c': Credential, key: string, t: nat)
    requires key != "" && c'.status == Error && c'.modelStates != map[] && FindState(c', key) == FindState(c, key)
    ensures Test(c', key, t) == if c.modelStates == map[] then Open else Test(c.(status := Error), key, t)
  {
    assert |c'.modelStates| > 0 && (c.modelStates != map[] ==> |c.modelStates| > 0);
  }

  lemma QuotaShape(c: Credential, r: Result, coolingOff: bool, now: nat) returns (st: ModelState)
    requires IsQuota(c, r, coolingOff) && r.model != ""
    ensures var c' := MarkCredential(c, r, coolingOff, now).cred;
            c'.status == Error && c'.modelStates == c.modelStates[r.model := st]
  {
    st := MarkCredential(c, r, coolingOff, now).cred.modelStates[r.model];
  }

  lemma SameStates(c: Credential, c': Credential, key: string)
    requires c'.modelStates == c.modelStates
    ensures FindState(c', key) == FindState(c, key)
  {
  }

  /** So a quota failure recorded under such a name leaves the verdict on the model's picks to older states. */
  lemma QuotaUnread(c: Credential, r: Result, coolingOff: bool, now: nat, t: nat)
    requires IsQuota(c, r, coolingOff) && ShardKey(r.model) != r.model && ShardKey(r.model) != ""
    ensures Test(MarkCredential(c, r, coolingOff, now).cred, ShardKey(r.model), t) ==
            if c.modelStates == map[] then Open else Test(c.(status := Error), ShardKey(r.model), t)
  {
    var st := QuotaShape(c, r, coolingOff, now);
    UnreadFrom(c, MarkCredential(c, r, coolingOff, now).cred, r.model, st, t);
  }

  lemma UnreadFrom(c: Credential, c': Credential, model: string, st: ModelState, t: nat)
    requires c'.status == Error && c'.modelStates == c.modelStates[model := st]
    requires ShardKey(model) != model && ShardKey(model) != ""
    ensures Test(c', ShardKey(model), t) ==
            if c.modelStates == map[] then Open else Test(c.(status := Error), ShardKey(model), t)
  {
    var key := ShardKey(model);
    StateUnread(c, model, st);
    SameStates(c.(modelStates := c.modelStates[model := st]), c', key);
    assert model in c'.modelStates;
    VerdictUnread(c, c', key, t);
  }

  /** Picks for the model meet the cooldown that a quota failure on it announces, whatever the credential. */
  ghost predicate QuotaReachesPicks(model: string) {
    forall c, r, coolingOff, now: nat, t: nat
      | IsQuota(c, r, coolingOff) && r.model == model && t < now + QuotaWait(c, r) ::
      Test(MarkCredential(c, r, coolingOff, now).cred, ShardKey(model), t).Closed?
  }

  lemma QuotaRead(c: Credential, r: Result, coolingOff: bool, now: nat, t: nat)
    requires IsQuota(c, r, coolingOff) && ShardKey(r.model) in {r.model, ""} && t < now + QuotaWait(c, r)
    ensures Test(MarkCredential(c, r, coolingOff, now).cred, ShardKey(r.model), t).Closed?
  {
    if ShardKey(r.model) != "" {
      QuotaHolds(c, r, coolingOff, now);
      HeldIsBlocked(MarkCredential(c, r, coolingOff, now).cred, r.model, now + QuotaWait(c, r), t);
    }
  }

  const NEW_CREDENTIAL := Credential("", "", Active, false, None, NO_QUOTA, UNSET, UNSET, map[], 0, None, None, "")

  /** Exactly the names that are their own shard key, or blank, are cooled down by a quota failure. */
  lemma QuotaReachesIff(model: string)
    ensures QuotaReachesPicks(model) <==> ShardKey(model) in {model, ""}
  {
    if ShardKey(model) in {model, ""} {
      forall c, r, coolingOff, now: nat, t: nat
        | IsQuota(c, r, coolingOff) && r.model == model && t < now + QuotaWait(c, r)
        ensures Test(MarkCredential(c, r, coolingOff, now).cred, ShardKey(model), t).Closed?
      {
        QuotaRead(c, r, coolingOff, now, t);
      }
    } else {
      var r := Result("", model, false, Some(Failure(429, "")), None);
      QuotaUnread(NEW_CREDENTIAL, r, false, 0, 0);
      assert QuotaWait(NEW_CREDENTIAL, r) > 0;
    }
  }

  /** A tagged name is such a case: the 429 has no effect on the next pick. */
  lemma TaggedModelNotCooled(c: Credential, r: Result, now: nat, t: nat)
    requires r.model == "llama3:8b" && IsQuota(c, r, false) && c.modelStates == map[]
    ensures ShardKey(r.model) == "llama3"
    ensures Test(MarkCredential(c, r, false, now).cred, ShardKey(r.model), t) == Open
  {
    assert Trim("llama3:8b") == "llama3:8b" && LastColon("llama3:8b") == 6;
    assert "llama3:8b"[..6] == "llama3" && Plain("llama3");
    PlainKey("llama3");
    QuotaUnread(c, r, false, now, t);
  }

  /**
   * A cooldown of requests without a model name ends with the first success on any named model, and such a model
   * is open meanwhile if the credential has states for other models only.
   */
  lemma UnnamedCooldownCut(c: Credential, r: Result, b: Result, coolingOff: bool, now: nat, t: nat)
    requires IsQuota(c, r, coolingOff) && r.model == "" && b.success && b.model != ""
    ensures var c1 := MarkCredential(c, r, coolingOff, now).cred;
            && Test(MarkCredential(c1, b, coolingOff, now).cred, "", t) == Open
            && (c.modelStates != map[] && FindState(c, b.model).None? ==> Test(c1, b.model, t) == Open)
  {
    assert c.modelStates != map[] ==> |c.modelStates| > 0;
  }

  /**
   * A later quota failure on the model can shorten its cooldown: success on another model resets the level that
   * both share.
   */
  lemma ShortenedCooldown(c: Credential, a: string, b: string, now: nat)
    requires a != "" && a != b && c.status != Disabled && c.quota.backoffLevel == 10 && c.coolingOverride == None
    ensures var quotaA := Result(c.id, a, false, Some(Failure(429, "")), None);
            var okB := Result(c.id, b, true, None, None);
            var c1 := MarkCredential(c, quotaA, false, now).cred;
            var c2 := MarkCredential(c1, okB, false, now + 1).cred;
            var c3 := MarkCredential(c2, quotaA, false, now + 2).cred;
            && Held(c1, a, now + 1024 * SECOND)
            && Held(c2, a, now + 1024 * SECOND)
            && Test(c3, a, now + 2 + SECOND) == Open
  {
    assert Pow2(5) == 32;
    assert Pow2(9) == 16 * Pow2(5);
    assert Pow2(10) == 1024;
  }
}
