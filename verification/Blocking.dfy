/** Model keys and the plain block test: may this credential serve this model now? */
module Blocking {
  import opened Credentials

  // ----- model keys

  /** unicode.IsSpace */
  predicate IsSpace(c: char) {
    c in {'\t', '\n', '\U{0B}', '\U{0C}', '\r', ' ', '\U{85}', '\U{A0}', '\U{1680}', '\U{2028}',
          '\U{2029}', '\U{202F}', '\U{205F}', '\U{3000}'} || '\U{2000}' <= c <= '\U{200A}'
  }

  function TrimLeft(s: string): (r: string)
    ensures r != [] ==> !IsSpace(r[0])
    ensures |r| <= |s|
    ensures s == [] || !IsSpace(s[0]) ==> r == s
  {
    if s != [] && IsSpace(s[0]) then TrimLeft(s[1..]) else s
  }

  function TrimRight(s: string): (r: string)
    ensures r <= s
    ensures r != [] ==> !IsSpace(r[|r| - 1])
    ensures s == [] || !IsSpace(s[|s| - 1]) ==> r == s
  {
    if s != [] && IsSpace(s[|s| - 1]) then TrimRight(s[..|s| - 1]) else s
  }

  function Trim(s: string): (r: string)
    ensures Trimmed(r) && |r| <= |s|
    ensures Trimmed(s) ==> r == s
  {
    TrimRight(TrimLeft(s))
  }

  predicate Blank(s: string) {
    forall i :: 0 <= i < |s| ==> IsSpace(s[i])
  }

  lemma {:induction false} TrimLeftRest(s: string) returns (pre: string)
    ensures Blank(pre) && s == pre + TrimLeft(s)
  {
    if s != [] && IsSpace(s[0]) {
      pre := TrimLeftRest(s[1..]);
      pre := [s[0]] + pre;
      assert s == [s[0]] + s[1..];
    } else {
      pre := [];
    }
  }

  lemma {:induction false} TrimRightRest(s: string) returns (post: string)
    ensures Blank(post) && s == TrimRight(s) + post
  {
    if s != [] && IsSpace(s[|s| - 1]) {
      post := TrimRightRest(s[..|s| - 1]);
      post := post + [s[|s| - 1]];
      assert s == s[..|s| - 1] + [s[|s| - 1]];
    } else {
      post := [];
    }
  }

  /** Trimming takes away blanks at both ends and nothing else. */
  lemma TrimRest(s: string) returns (pre: string, post: string)
    ensures Blank(pre) && Blank(post) && s == pre + Trim(s) + post
  {
    pre := TrimLeftRest(s);
    post := TrimRightRest(TrimLeft(s));
  }

  predicate Trimmed(s: string) {
    s == [] || (!IsSpace(s[0]) && !IsSpace(s[|s| - 1]))
  }

  /** strings.LastIndexByte(s, ':') */
  function LastColon(s: string): (i: int)
    ensures -1 <= i < |s|
    ensures i >= 0 ==> s[i] == ':'
    ensures forall k :: i < k < |s| ==> s[k] != ':'
  {
    if s == [] then -1
    else if s[|s| - 1] == ':' then |s| - 1
    else LastColon(s[..|s| - 1])
  }

  function CanonicalModelKey(model: string): (key: string)
    ensures Trimmed(key)
    ensures |key| <= |model|
  {
    var m := Trim(model);
    var i := LastColon(m);
    if i > 0 then Trim(m[..i]) else m
  }

  /** The shard a request for `model` ends up in: the key is canonicalised twice on that path. */
  function ShardKey(model: string): (key: string)
    ensures Trimmed(key)
  {
    CanonicalModelKey(CanonicalModelKey(model))
  }

  /** A model name that carries no variant suffix and no surrounding blanks. */
  predicate Plain(model: string) {
    Trimmed(model) && ':' !in model
  }

  lemma PlainKey(model: string)
    requires Plain(model)
    ensures CanonicalModelKey(model) == model && ShardKey(model) == model
  {
    assert Trim(model) == model;
    assert LastColon(model) == -1;
  }

  lemma {:induction false} LastColonAt(base: string, suffix: string)
    requires ':' !in suffix
    ensures LastColon(base + ":" + suffix) == |base|
    decreases |suffix|
  {
    var s := base + ":" + suffix;
    if suffix != [] {
      LastColonAt(base, suffix[..|suffix| - 1]);
      assert s[..|s| - 1] == base + ":" + suffix[..|suffix| - 1];
      assert s[|s| - 1] == suffix[|suffix| - 1];
    }
  }

  /** A variant suffix goes, with the blanks before it; a colon in first place starts no suffix. */
  lemma SuffixCut(base: string, suffix: string)
    requires Trimmed(base + ":" + suffix) && ':' !in suffix
    ensures CanonicalModelKey(base + ":" + suffix) == if base == "" then ":" + suffix else Trim(base)
  {
    var m := base + ":" + suffix;
    LastColonAt(base, suffix);
    assert Trim(m) == m && m[..|base|] == base;
    assert base == "" ==> m == ":" + suffix;
  }

  /** Canonicalising again changes a key exactly when a suffix is left in it. */
  lemma CanonicalTwice(model: string)
    ensures ShardKey(model) == CanonicalModelKey(model) <==> LastColon(CanonicalModelKey(model)) <= 0
  {
    var k := CanonicalModelKey(model);
    assert Trim(k) == k;
    if LastColon(k) > 0 {
      assert |Trim(k[..LastColon(k)])| < |k|;
    }
  }

  lemma CanonicalNotIdempotent()
    ensures CanonicalModelKey("a:b:c") == "a:b" && ShardKey("a:b:c") == "a"
  {
    assert Trim("a:b:c") == "a:b:c" && LastColon("a:b:c") == 3;
    assert "a:b:c"[..3] == "a:b" && Trim("a:b") == "a:b";
    assert LastColon("a:b") == 1;
    assert "a:b"[..1] == "a" && Trim("a") == "a";
  }

  // ----- the block test

  datatype Reason = Cooldown | Off | Other

  datatype Verdict = Open | Closed(reason: Reason, next: Time)

  /** The retry time that is reported, and later stored: the later of the two times. */
  function Later(retry: Time, recover: Time): Time {
    if recover != UNSET && recover > retry then recover else retry
  }

  function FindState(c: Credential, model: string): Option<ModelState> {
    if model in c.modelStates then Some(c.modelStates[model])
    else
      var base := CanonicalModelKey(model);
      if base != "" && base != model && base in c.modelStates then Some(c.modelStates[base]) else None
  }

  /** isCredentialBlockedForModel */
  function Test(c: Credential, model: string, now: nat): Verdict {
    if c.status == Disabled then Closed(Off, UNSET)
    else if model != "" && |c.modelStates| > 0 then
      match FindState(c, model)
      case None => Open
      case Some(st) =>
        if st.status == Disabled then Closed(Off, UNSET)
        else if st.unavailable && st.nextRetryAfter != UNSET && st.nextRetryAfter > now then
          Closed(if st.quota.exceeded then Cooldown else Other, Later(st.nextRetryAfter, st.quota.nextRecoverAt))
        else Open
    else if c.unavailable && c.nextRetryAfter > now then
      Closed(if c.quota.exceeded then Cooldown else Other, Later(c.nextRetryAfter, c.quota.nextRecoverAt))
    else Open
  }

  /** The state for a model is the one under its name, else the one under the name without suffix. */
  predicate StateFor(c: Credential, model: string, st: ModelState) {
    if model in c.modelStates then st == c.modelStates[model]
    else
      var base := CanonicalModelKey(model);
      base != "" && base in c.modelStates && st == c.modelStates[base]
  }

  /** A switched-off credential is closed to all. */
  lemma SwitchedOffShut(c: Credential, model: string, now: nat)
    ensures c.status == Disabled ==> Test(c, model, now) == Closed(Off, UNSET)
    ensures Test(c, model, now).Closed? && Test(c, model, now).reason == Off ==>
              c.status == Disabled || exists m :: m in c.modelStates && c.modelStates[m].status == Disabled
  {
  }

  /**
   * A state for the model decides alone: switched off, or not available until its retry time, for quota if that is
   * exceeded, with the later of its two times as the next one, or open.
   */
  lemma StateDecides(c: Credential, model: string, st: ModelState, now: nat)
    requires c.status != Disabled && model != "" && StateFor(c, model, st)
    ensures var v := Test(c, model, now);
            if st.status == Disabled then v == Closed(Off, UNSET)
            else if st.unavailable && st.nextRetryAfter > now then
              && v.Closed?
              && (v.reason == Cooldown <==> st.quota.exceeded) && (v.reason == Other <==> !st.quota.exceeded)
              && v.next >= st.nextRetryAfter && v.next >= st.quota.nextRecoverAt
              && (v.next == st.nextRetryAfter || v.next == st.quota.nextRecoverAt)
            else v == Open
  {
    assert |c.modelStates| > 0;
  }

  /** States for other models only leave the model open. */
  lemma OtherStatesDecide(c: Credential, model: string, now: nat)
    requires c.status != Disabled && model != "" && c.modelStates != map[]
    requires model !in c.modelStates && CanonicalModelKey(model) !in c.modelStates
    ensures Test(c, model, now) == Open
  {
    assert |c.modelStates| > 0;
  }

  /** Without states, or without a model name, the credential itself decides, in the same way. */
  lemma CredentialDecides(c: Credential, model: string, now: nat)
    requires c.status != Disabled && (model == "" || c.modelStates == map[])
    ensures var v := Test(c, model, now);
            if c.unavailable && c.nextRetryAfter > now then
              && v.Closed? && (v.reason == Cooldown <==> c.quota.exceeded) && (v.reason == Other <==> !c.quota.exceeded)
              && v.next >= c.nextRetryAfter && v.next >= c.quota.nextRecoverAt
              && (v.next == c.nextRetryAfter || v.next == c.quota.nextRecoverAt)
            else v == Open
  {
  }

  /** A credential's standing for a model with the clock taken out. */
  datatype Gate = Free | Shut | Until(retry: Time, next: Time, quota: bool)

  function MakeGate(unavailable: bool, retry: Time, q: Quota): Gate {
    if unavailable && retry > UNSET then Until(retry, Later(retry, q.nextRecoverAt), q.exceeded) else Free
  }

  function GateOf(c: Credential, model: string): (g: Gate)
    ensures g.Until? ==> UNSET < g.retry <= g.next
  {
    if c.status == Disabled then Shut
    else if model != "" && |c.modelStates| > 0 then
      match FindState(c, model)
      case None => Free
      case Some(st) =>
        if st.status == Disabled then Shut else MakeGate(st.unavailable, st.nextRetryAfter, st.quota)
    else MakeGate(c.unavailable, c.nextRetryAfter, c.quota)
  }

  function Through(g: Gate, now: nat): Verdict {
    match g
    case Free => Open
    case Shut => Closed(Off, UNSET)
    case Until(retry, next, quota) =>
      if retry > now then Closed(if quota then Cooldown else Other, next) else Open
  }

  /** The clock enters the test only through one comparison. */
  lemma TestIsGate(c: Credential, model: string, now: nat)
    ensures Test(c, model, now) == Through(GateOf(c, model), now)
  {
  }

  /** The retry time the index will store is the one the test compares with the clock. */
  predicate Punctual(q: Quota, retry: Time) {
    q.nextRecoverAt == UNSET || q.nextRecoverAt <= retry
  }

  predicate PunctualCredential(c: Credential) {
    Punctual(c.quota, c.nextRetryAfter) &&
    forall m :: m in c.modelStates ==> Punctual(c.modelStates[m].quota, c.modelStates[m].nextRetryAfter)
  }

  /** The same for one model: the gate has one time, not two. */
  predicate PunctualFor(c: Credential, model: string) {
    GateOf(c, model).Until? ==> GateOf(c, model).next == GateOf(c, model).retry
  }

  predicate AllPunctual(creds: map<string, Credential>, model: string) {
    forall id :: id in creds ==> PunctualFor(creds[id], model)
  }

  lemma PunctualGate(c: Credential, model: string)
    requires PunctualCredential(c)
    ensures PunctualFor(c, model)
  {
  }

  /** One time, not two: no recovery after the retry time, where that counts at all. */
  lemma PunctualMeans(c: Credential, model: string, st: ModelState)
    requires c.status != Disabled && model != "" && StateFor(c, model, st)
    ensures PunctualFor(c, model) <==>
            (st.status != Disabled && st.unavailable && st.nextRetryAfter > UNSET ==>
               st.quota.nextRecoverAt <= st.nextRetryAfter)
  {
    assert |c.modelStates| > 0;
  }

  lemma PunctualMeansAtCredential(c: Credential, model: string)
    requires c.status != Disabled && (model == "" || c.modelStates == map[])
    ensures PunctualFor(c, model) <==>
            (c.unavailable && c.nextRetryAfter > UNSET ==> c.quota.nextRecoverAt <= c.nextRetryAfter)
  {
  }
}
