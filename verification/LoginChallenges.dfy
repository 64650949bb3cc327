/**
 * Login challenges: what a device unknown to an account must pass before it gets tokens.
 * One function per conditional write of the device-trust service. A code stands for its
 * salted hash, so every approval brings a fresh one.
 */
module LoginChallenges {
  import opened Common

  type ChallengeId = nat
  type UserId = nat
  type DeviceKey = string
  type CodeId = nat
  type Ip = nat

  const SECOND_MS := 1000
  const MINUTE_MS := 60 * SECOND_MS
  const HOUR_MS := 60 * MINUTE_MS
  const DAY_MS := 24 * HOUR_MS

  const DECISION_MS := 5 * MINUTE_MS
  const CODE_TTL_MS := 60 * SECOND_MS
  const MAX_ATTEMPTS := 5
  const RATE_LIMIT: nat := 5
  const ACCOUNT_RATE_LIMIT: nat := 20
  const RATE_WINDOW_MS := 10 * MINUTE_MS
  const RETENTION_MS := 24 * HOUR_MS
  const RECOVERY_DELAY_MS := 24 * HOUR_MS
  const RECOVERY_COMPLETION_WINDOW_MS := 7 * DAY_MS
  const RECOVERY_MAX_ACTIVE: nat := 3
  const SECURITY_CODE_DAILY_FAILURES := 10

  datatype Status = PENDING | APPROVED | REJECTED | CONSUMED

  datatype Challenge = Challenge(
    user: UserId,
    device: DeviceKey,
    ip: Ip,
    createdAt: int,
    status: Status,
    code: Option<CodeId>,
    codeExpiresAt: Option<int>,
    attempts: int,
    expiresAt: int,
    recoveryRequestedAt: Option<int>,
    recoveryAvailableAt: Option<int>)

  type Table = map<ChallengeId, Challenge>

  /** Not decided against, not consumed. */
  predicate Open(c: Challenge) {
    c.status == PENDING || c.status == APPROVED
  }

  datatype PublicStatus = IsPending | IsApproved | IsRejected | IsExpired | IsConsumed

  function PublicStatusOf(c: Challenge, now: int): PublicStatus {
    if c.status == REJECTED then IsRejected
    else if c.status == CONSUMED then IsConsumed
    else if c.attempts >= MAX_ATTEMPTS then IsExpired
    else if c.expiresAt > now then (if c.status == APPROVED then IsApproved else IsPending)
    else if c.status == APPROVED && c.codeExpiresAt.Some? && c.codeExpiresAt.value > now then IsApproved
    else IsExpired
  }

  // ----- Creation and its rate limits

  function CreatedSince(t: Table, user: UserId, since: int): set<ChallengeId> {
    set id | id in t && t[id].user == user && t[id].createdAt > since
  }

  function CreatedFromIpSince(t: Table, user: UserId, ip: Ip, since: int): set<ChallengeId> {
    set id | id in t && t[id].user == user && t[id].ip == ip && t[id].createdAt > since
  }

  predicate RateLimited(t: Table, user: UserId, ip: Ip, now: int) {
    || |CreatedFromIpSince(t, user, ip, now - RATE_WINDOW_MS)| >= RATE_LIMIT
    || |CreatedSince(t, user, now - RATE_WINDOW_MS)| >= ACCOUNT_RATE_LIMIT
  }

  function NewChallenge(user: UserId, device: DeviceKey, ip: Ip, now: int): Challenge {
    Challenge(user, device, ip, now, PENDING, None, None, 0, now + DECISION_MS, None, None)
  }

  function Create(t: Table, id: ChallengeId, user: UserId, device: DeviceKey, ip: Ip, now: int): Table {
    if RateLimited(t, user, ip, now) then t else t[id := NewChallenge(user, device, ip, now)]
  }

  // ----- The trusted device decides

  predicate CanApprove(t: Table, id: ChallengeId, user: UserId, now: int) {
    id in t && t[id].user == user && Open(t[id]) && t[id].expiresAt > now
  }

  function Approve(t: Table, id: ChallengeId, user: UserId, code: CodeId, now: int): Table {
    if CanApprove(t, id, user, now)
    then t[id := t[id].(status := APPROVED, code := Some(code), codeExpiresAt := Some(now + CODE_TTL_MS), attempts := 0)]
    else t
  }

  function Rejected(c: Challenge): Challenge {
    c.(status := REJECTED, code := None, codeExpiresAt := None)
  }

  function Reject(t: Table, id: ChallengeId, user: UserId): Table {
    if id in t && t[id].user == user && Open(t[id]) then t[id := Rejected(t[id])] else t
  }

  /** Password change, log out everywhere and the like: every open challenge of the account. */
  function Invalidate(t: Table, user: UserId): Table {
    map id | id in t :: if t[id].user == user && Open(t[id]) then Rejected(t[id]) else t[id]
  }

  /** A trusted device is in use: recoveries other devices asked for are cancelled. */
  function CancelRecoveries(t: Table, user: UserId, active: DeviceKey): Table {
    map id | id in t ::
      if t[id].user == user && t[id].device != active && t[id].recoveryAvailableAt.Some? && Open(t[id])
      then Rejected(t[id]) else t[id]
  }

  /** Approved, the code ran out, the decision window is still open: back to pending. */
  predicate CanReopen(t: Table, id: ChallengeId, now: int) {
    && id in t && t[id].status == APPROVED
    && t[id].codeExpiresAt.Some? && t[id].codeExpiresAt.value <= now && t[id].expiresAt > now
  }

  function Reopen(t: Table, id: ChallengeId, now: int): Table {
    if CanReopen(t, id, now) then t[id := t[id].(status := PENDING, code := None, codeExpiresAt := None)] else t
  }

  // ----- The new device submits a code

  /** The checks `consumeWithCode` makes on the row it reads. */
  predicate CodeReadable(t: Table, id: ChallengeId, device: DeviceKey, now: int) {
    && id in t && t[id].device == device
    && t[id].status == APPROVED && t[id].attempts < MAX_ATTEMPTS
    && t[id].code.Some? && t[id].codeExpiresAt.Some? && t[id].codeExpiresAt.value > now
  }

  predicate SameCode(t: Table, id: ChallengeId, code: CodeId, readAt: int) {
    && id in t && t[id].status == APPROVED && t[id].code == Some(code)
    && t[id].codeExpiresAt.Some? && t[id].codeExpiresAt.value > readAt
  }

  predicate CanReserve(t: Table, id: ChallengeId, code: CodeId, readAt: int) {
    SameCode(t, id, code, readAt) && t[id].attempts < MAX_ATTEMPTS
  }

  function Reserve(t: Table, id: ChallengeId, code: CodeId, readAt: int): Table {
    if CanReserve(t, id, code, readAt) then t[id := t[id].(attempts := t[id].attempts + 1)] else t
  }

  predicate CanConsume(t: Table, id: ChallengeId, code: CodeId, readAt: int) {
    SameCode(t, id, code, readAt) && t[id].attempts <= MAX_ATTEMPTS
  }

  function Consume(t: Table, id: ChallengeId, code: CodeId, readAt: int): Table {
    if CanConsume(t, id, code, readAt)
    then t[id := t[id].(status := CONSUMED, code := None, attempts := t[id].attempts - 1)] else t
  }

  // ----- Security code or questions instead

  ghost function AttemptSum(t: Table, ids: set<ChallengeId>): int
    requires ids <= t.Keys
    decreases |ids|
  {
    if ids == {} then 0
    else
      var id :| id in ids;
      t[id].attempts + AttemptSum(t, ids - {id})
  }

  lemma {:induction false} AttemptSumWithout(t: Table, ids: set<ChallengeId>, x: ChallengeId)
    requires ids <= t.Keys && x in ids
    ensures AttemptSum(t, ids) == t[x].attempts + AttemptSum(t, ids - {x})
    decreases |ids|
  {
    var id :| id in ids && AttemptSum(t, ids) == t[id].attempts + AttemptSum(t, ids - {id});
    if id != x {
      AttemptSumWithout(t, ids - {id}, x);
      AttemptSumWithout(t, ids - {x}, id);
      assert ids - {id} - {x} == ids - {x} - {id};
    }
  }

  function FallbackFailed(t: Table, id: ChallengeId): Table {
    if id in t && t[id].attempts < MAX_ATTEMPTS then t[id := t[id].(attempts := t[id].attempts + 1)] else t
  }

  predicate CanFallback(t: Table, id: ChallengeId) {
    id in t && Open(t[id]) && t[id].attempts < MAX_ATTEMPTS
  }

  function FallbackPassed(t: Table, id: ChallengeId): Table {
    if CanFallback(t, id) then t[id := t[id].(status := CONSUMED, code := None)] else t
  }

  // ----- Recovery: wait a day, then log in from the same device

  function ActiveRecoveries(t: Table, user: UserId, now: int): set<ChallengeId> {
    set id | id in t && t[id].user == user && t[id].recoveryAvailableAt.Some? && Open(t[id]) && t[id].expiresAt > now
  }

  predicate CanRequestRecovery(t: Table, id: ChallengeId, device: DeviceKey, now: int) {
    && id in t && t[id].device == device
    && Open(t[id]) && t[id].attempts < MAX_ATTEMPTS && t[id].expiresAt > now
    && t[id].recoveryAvailableAt.None?
    && |ActiveRecoveries(t, t[id].user, now)| < RECOVERY_MAX_ACTIVE
  }

  function RequestRecovery(t: Table, id: ChallengeId, device: DeviceKey, now: int): Table {
    if CanRequestRecovery(t, id, device, now)
    then t[id := t[id].(recoveryRequestedAt := Some(now),
                        recoveryAvailableAt := Some(now + RECOVERY_DELAY_MS),
                        expiresAt := now + RECOVERY_DELAY_MS + RECOVERY_COMPLETION_WINDOW_MS)]
    else t
  }

  predicate CanClaim(t: Table, id: ChallengeId, user: UserId, device: DeviceKey, now: int) {
    && id in t && t[id].user == user && t[id].device == device && Open(t[id])
    && t[id].recoveryAvailableAt.Some? && t[id].recoveryAvailableAt.value <= now && t[id].expiresAt > now
  }

  function Claim(t: Table, id: ChallengeId, user: UserId, device: DeviceKey, now: int): Table {
    if CanClaim(t, id, user, device, now)
    then t[id := t[id].(status := CONSUMED, code := None, codeExpiresAt := None)] else t
  }

  predicate CanRelease(t: Table, id: ChallengeId) {
    id in t && t[id].status == CONSUMED && t[id].recoveryAvailableAt.Some?
  }

  function Release(t: Table, id: ChallengeId): Table {
    if CanRelease(t, id) then t[id := t[id].(status := PENDING)] else t
  }

  // ----- Pruning

  function Prune(t: Table, ids: set<ChallengeId>, now: int): Table {
    map id | id in t && !(id in ids && t[id].expiresAt < now - RETENTION_MS) :: t[id]
  }
}
