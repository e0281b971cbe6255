/** The state the credential manager works on: credentials, their quota and per-model states. */
module Credentials {

  /** Nanoseconds. UNSET is Go's zero time, which every clock reading (a nat) is at or after. */
  type Time = int

  const UNSET: Time := 0
  const SECOND: Time := 1_000_000_000

  datatype Option<+T> = None | Some(value: T)

  datatype Status = Unset | Unknown | Active | Pending | Refreshing | Error | Disabled

  datatype Failure = Failure(httpStatus: int, message: string)

  datatype Quota = Quota(exceeded: bool, reason: string, nextRecoverAt: Time, backoffLevel: int)

  const NO_QUOTA := Quota(false, "", UNSET, 0)

  datatype ModelState = ModelState(
    status: Status,
    unavailable: bool,
    nextRetryAfter: Time,
    lastError: Option<Failure>,
    quota: Quota)

  const NEW_MODEL_STATE := ModelState(Unset, false, UNSET, None, NO_QUOTA)

  /**
   * `priority`, `coolingOverride` and `expiresAt` are the parsed attribute and metadata values;
   * `token` stands for the rest of the metadata. `provider` is the normalised provider key.
   */
  datatype Credential = Credential(
    id: string,
    provider: string,
    status: Status,
    unavailable: bool,
    lastError: Option<Failure>,
    quota: Quota,
    nextRetryAfter: Time,
    nextRefreshAfter: Time,
    modelStates: map<string, ModelState>,
    priority: int,
    coolingOverride: Option<bool>,
    expiresAt: Option<Time>,
    token: string)

  /** Only such a credential is ever put into the scheduler. */
  predicate Schedulable(c: Credential) {
    c.id != "" && c.provider != "" && c.status != Disabled
  }
}
