/**
 * Every interleaving of the writes on login challenges: approvals and rejections by trusted
 * devices, code submissions in flight, fallbacks, recoveries and pruning.
 */
module ChallengeRuns {
  import opened Common
  import opened LoginChallenges

  type SubmissionId = nat

  datatype Stage = Reading | Reserved | Matched

  /** A `consumeWithCode` call between its statements. */
  datatype Submission = Submission(challenge: ChallengeId, code: CodeId, readAt: int, stage: Stage)

  datatype Created = Created(user: UserId, ip: Ip, at: int)

  /**
   * The table, the calls in flight, a record of what happened, and, for each account whose lock a
   * recovery login holds, the challenge it claimed.
   */
  datatype World = World(
    t: Table,
    calls: map<SubmissionId, Submission>,
    usedCodes: set<CodeId>,
    usedCalls: set<SubmissionId>,
    reservations: map<CodeId, set<SubmissionId>>,
    comparisons: map<CodeId, set<SubmissionId>>,
    logins: map<ChallengeId, nat>,
    releases: map<ChallengeId, nat>,
    log: map<ChallengeId, Created>,
    holders: map<UserId, ChallengeId>,
    now: int)

  datatype Op =
    | DoCreate(id: ChallengeId, user: UserId, device: DeviceKey, ip: Ip)
    | DoApprove(id: ChallengeId, user: UserId, code: CodeId)
    | DoReject(id: ChallengeId, user: UserId)
    | DoInvalidate(user: UserId)
    | DoCancel(user: UserId, active: DeviceKey)
    | DoReopen(id: ChallengeId)
    | Submit(call: SubmissionId, id: ChallengeId, device: DeviceKey)
    | DoReserve(call: SubmissionId)
    | Compare(call: SubmissionId, matches: bool)
    | DoConsume(call: SubmissionId)
    | FallbackFail(id: ChallengeId)
    | FallbackPass(id: ChallengeId)
    | DoRequestRecovery(id: ChallengeId, device: DeviceKey)
    | DoClaim(id: ChallengeId, user: UserId, device: DeviceKey)
    | DoRelease(id: ChallengeId)
    | InvalidateOthers(user: UserId)
    | LetGo(user: UserId)
    | DoPrune(ids: set<ChallengeId>)
    | Tick(at: int)

  function Count(m: map<nat, nat>, id: nat): nat {
    if id in m then m[id] else 0
  }

  function Members(m: map<nat, set<nat>>, id: nat): set<nat> {
    if id in m then m[id] else {}
  }

  function Win(w: World, t': Table, id: ChallengeId): World {
    w.(t := t', logins := w.logins[id := Count(w.logins, id) + 1])
  }

  function Reserving(w: World, call: SubmissionId): World {
    if call !in w.calls || w.calls[call].stage != Reading then w
    else
      var s := w.calls[call];
      if CanReserve(w.t, s.challenge, s.code, s.readAt)
      then w.(t := Reserve(w.t, s.challenge, s.code, s.readAt),
              calls := w.calls[call := s.(stage := Reserved)],
              reservations := w.reservations[s.code := Members(w.reservations, s.code) + {call}])
      else w.(calls := w.calls - {call})
  }

  function Comparing(w: World, call: SubmissionId, matches: bool): World {
    if call !in w.calls || w.calls[call].stage != Reserved then w
    else
      var s := w.calls[call];
      w.(calls := if matches then w.calls[call := s.(stage := Matched)] else w.calls - {call},
         comparisons := w.comparisons[s.code := Members(w.comparisons, s.code) + {call}])
  }

  function Consuming(w: World, call: SubmissionId): World {
    if call !in w.calls || w.calls[call].stage != Matched then w
    else
      var s := w.calls[call];
      var w' := w.(calls := w.calls - {call});
      if CanConsume(w.t, s.challenge, s.code, s.readAt)
      then Win(w', Consume(w.t, s.challenge, s.code, s.readAt), s.challenge)
      else w'
  }

  function Do(w: World, op: Op): World {
    match op
    case DoCreate(id, u, d, ip) =>
      if RateLimited(w.t, u, ip, w.now) then w
      else w.(t := Create(w.t, id, u, d, ip, w.now), log := w.log[id := Created(u, ip, w.now)])
    case DoApprove(id, u, code) =>
      w.(t := Approve(w.t, id, u, code, w.now), usedCodes := w.usedCodes + {code})
    case DoReject(id, u) => w.(t := Reject(w.t, id, u))
    case DoInvalidate(u) => w.(t := Invalidate(w.t, u))
    case DoCancel(u, active) => w.(t := CancelRecoveries(w.t, u, active))
    case DoReopen(id) => w.(t := Reopen(w.t, id, w.now))
    case Submit(call, id, d) =>
      if CodeReadable(w.t, id, d, w.now)
      then w.(calls := w.calls[call := Submission(id, w.t[id].code.value, w.now, Reading)], usedCalls := w.usedCalls + {call})
      else w
    case DoReserve(call) => Reserving(w, call)
    case Compare(call, matches) => Comparing(w, call, matches)
    case DoConsume(call) => Consuming(w, call)
    case FallbackFail(id) => w.(t := FallbackFailed(w.t, id))
    case FallbackPass(id) => if CanFallback(w.t, id) then Win(w, FallbackPassed(w.t, id), id) else w
    case DoRequestRecovery(id, d) => w.(t := RequestRecovery(w.t, id, d, w.now))
    case DoClaim(id, u, d) =>
      if CanClaim(w.t, id, u, d, w.now)
      then Win(w, Claim(w.t, id, u, d, w.now), id).(holders := w.holders[u := id]) else w
    case DoRelease(id) =>
      if CanRelease(w.t, id)
      then w.(t := Release(w.t, id), releases := w.releases[id := Count(w.releases, id) + 1])
      else w
    case InvalidateOthers(u) => w.(t := Invalidate(w.t, u))
    case LetGo(u) => w.(holders := w.holders - {u})
    case DoPrune(ids) => w.(t := Prune(w.t, ids, w.now))
    case Tick(at) => w.(now := at)
  }

  /**
   * The account lock: a login keeps it from its claim until it is through or has released the
   * claim, so nobody else refuses, cancels or claims meanwhile, and only a holder releases. While
   * it holds the lock, the recovery itself invalidates what else is open. Approvals, submissions
   * and fallbacks are not held back here.
   */
  predicate Locked(w: World, op: Op) {
    && (op.DoReject? || op.DoInvalidate? || op.DoCancel? || op.DoClaim? ==> op.user !in w.holders)
    && (op.DoRelease? ==> op.id in w.holders.Values)
    && (op.InvalidateOthers? ==> op.user in w.holders)
  }

  /** Identifiers and codes are fresh; time does not run backwards. */
  predicate Legal(w: World, op: Op) {
    && Locked(w, op)
    && (op.DoCreate? ==> op.id !in w.log)
    && (op.DoApprove? ==> op.code !in w.usedCodes)
    && (op.Submit? ==> op.call !in w.usedCalls)
    && (op.Tick? ==> op.at >= w.now)
  }

  function Run(w: World, ops: seq<Op>): World
    decreases |ops|
  {
    if ops == [] then w else Run(Do(w, ops[0]), ops[1..])
  }

  predicate LegalRun(w: World, ops: seq<Op>)
    decreases |ops|
  {
    ops == [] || (Legal(w, ops[0]) && LegalRun(Do(w, ops[0]), ops[1..]))
  }

  predicate Start(w: World) {
    && w.t == map[] && w.calls == map[] && w.usedCodes == {} && w.usedCalls == {}
    && w.reservations == map[] && w.comparisons == map[] && w.logins == map[] && w.releases == map[] && w.log == map[] && w.holders == map[]
  }

  // ----- The inductive invariant

  predicate RowFits(c: Challenge, now: int) {
    && 0 <= c.attempts <= MAX_ATTEMPTS
    && (c.status == APPROVED <==> c.code.Some?)
    && (c.recoveryRequestedAt.Some? <==> c.recoveryAvailableAt.Some?)
    && c.createdAt <= now
    && (if c.recoveryRequestedAt.Some? then
          && c.createdAt <= c.recoveryRequestedAt.value
          && c.recoveryAvailableAt.value == c.recoveryRequestedAt.value + RECOVERY_DELAY_MS
          && c.expiresAt == c.recoveryAvailableAt.value + RECOVERY_COMPLETION_WINDOW_MS
        else c.expiresAt == c.createdAt + DECISION_MS)
  }

  ghost predicate Rows(w: World) {
    forall id | id in w.t :: RowFits(w.t[id], w.now)
  }

  /** Each issued code belongs to one challenge, and no more calls reserved it than it has attempts. */
  ghost predicate Codes(w: World) {
    && (forall id | id in w.t && w.t[id].code.Some? ::
          && w.t[id].code.value in w.usedCodes
          && |Members(w.reservations, w.t[id].code.value)| <= w.t[id].attempts)
    && (forall a, b | a in w.t && b in w.t && w.t[a].code.Some? && w.t[a].code == w.t[b].code :: a == b)
    && (forall code | code in w.reservations :: code in w.usedCodes && |w.reservations[code]| <= MAX_ATTEMPTS)
    && (forall code | code in w.comparisons :: w.comparisons[code] <= Members(w.reservations, code))
  }

  ghost predicate Calls(w: World) {
    && (forall k | k in w.calls ::
          && k in w.usedCalls
          && w.calls[k].code in w.usedCodes
          && (k in Members(w.reservations, w.calls[k].code) <==> w.calls[k].stage != Reading)
          && (k in Members(w.comparisons, w.calls[k].code) <==> w.calls[k].stage == Matched))
    && (forall code | code in w.reservations :: w.reservations[code] <= w.usedCalls)
  }

  /** Every login is matched by the row being consumed now, or by a claim since released. */
  ghost predicate Decisions(w: World) {
    && (forall id | id in w.t ::
          && Count(w.logins, id) == Count(w.releases, id) + (if w.t[id].status == CONSUMED then 1 else 0)
          && (Count(w.releases, id) > 0 ==> w.t[id].recoveryAvailableAt.Some?))
    && (forall id | id !in w.t :: Count(w.logins, id) <= Count(w.releases, id) + 1)
    && (forall id | id !in w.log :: Count(w.logins, id) == 0 && Count(w.releases, id) == 0)
  }

  ghost predicate Logged(w: World) {
    && (forall id | id in w.t :: id in w.log && w.log[id] == Created(w.t[id].user, w.t[id].ip, w.t[id].createdAt))
    && (forall id | id in w.log :: w.log[id].at <= w.now)
    && (forall id | id in w.log && w.log[id].at >= w.now - RETENTION_MS :: id in w.t)
  }

  function InWindow(log: map<ChallengeId, Created>, user: UserId, from: int): set<ChallengeId> {
    set id | id in log && log[id].user == user && from < log[id].at <= from + RATE_WINDOW_MS
  }

  function InWindowFromIp(log: map<ChallengeId, Created>, user: UserId, ip: Ip, from: int): set<ChallengeId> {
    set id | id in log && log[id].user == user && log[id].ip == ip && from < log[id].at <= from + RATE_WINDOW_MS
  }

  ghost predicate Windows(w: World) {
    && (forall user, from :: |InWindow(w.log, user, from)| <= ACCOUNT_RATE_LIMIT)
    && (forall user, ip, from :: |InWindowFromIp(w.log, user, ip, from)| <= RATE_LIMIT)
  }

  /** A held challenge is one of the account whose lock is held. */
  ghost predicate Held(w: World) {
    forall u | u in w.holders :: w.holders[u] in w.log && w.log[w.holders[u]].user == u
  }

  ghost predicate Inv(w: World) {
    Held(w) && Rows(w) && Codes(w) && Calls(w) && Decisions(w) && Logged(w) && Windows(w)
  }
}
