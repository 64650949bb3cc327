/**
 * The device-trust service over its two tables. Methods that run under the account lock are
 * whole; their contracts say what the caller gets and which writes of LoginChallenges happened.
 */
module DeviceTrustService {
  import opened Common
  import opened LoginChallenges

  datatype Trust = Trust(revoked: bool, stableKey: Option<DeviceKey>)
  datatype DeviceId = DeviceId(user: UserId, device: DeviceKey)

  datatype Decision =
    | Trusted
    | MustVerify(challenge: ChallengeId)
    | Recovered(challenge: ChallengeId)
    | DeviceIdRequired
    | TooManyRequests

  datatype RecoveryResult = Waiting(availableAt: int, until: int) | NotAsked(reason: CodeResult) | TooManyRecoveries

  datatype CodeResult = Accepted | InvalidRequest | WasRejected | Locked | Expired | WrongCode

  predicate IsTrusted(devices: map<DeviceId, Trust>, user: UserId, device: DeviceKey) {
    DeviceId(user, device) in devices && !devices[DeviceId(user, device)].revoked
  }

  /** A trusted installation registered this id as the one it would return with. */
  predicate IsAlias(devices: map<DeviceId, Trust>, user: UserId, device: DeviceKey) {
    && DeviceId(user, device) !in devices
    && exists d :: d in devices && d.user == user && !devices[d].revoked && devices[d].stableKey == Some(device)
  }

  predicate HasTrustedDevice(devices: map<DeviceId, Trust>, user: UserId) {
    exists d :: d in devices && d.user == user && !devices[d].revoked
  }

  predicate Reusable(t: Table, id: ChallengeId, user: UserId, device: DeviceKey, now: int) {
    id in t && t[id].user == user && t[id].device == device && Open(t[id]) && t[id].expiresAt > now
  }

  predicate Matured(t: Table, id: ChallengeId, user: UserId, device: DeviceKey, now: int) {
    CanClaim(t, id, user, device, now) && t[id].attempts < MAX_ATTEMPTS
  }

  function RevokeOtherDevices(devices: map<DeviceId, Trust>, user: UserId, keep: Option<DeviceKey>): map<DeviceId, Trust> {
    map d | d in devices :: if d.user == user && Some(d.device) != keep then devices[d].(revoked := true) else devices[d]
  }

  function TrustDevice(devices: map<DeviceId, Trust>, user: UserId, device: DeviceKey): map<DeviceId, Trust> {
    var d := DeviceId(user, device);
    devices[d := if d in devices then devices[d].(revoked := false) else Trust(false, None)]
  }

  class DeviceTrust {
    var challenges: Table
    var devices: map<DeviceId, Trust>

    /** `liveSessions`: the account has an unrevoked, unexpired APP session. `freshId`: the id a
        new challenge would get. A device passes without verification exactly when it is trusted,
        is the return of a trusted installation, or is the first device of the account. */
    method EvaluateLogin(user: UserId, device: Option<DeviceKey>, ip: Ip, liveSessions: bool, now: int, freshId: ChallengeId)
      returns (d: Decision)
      requires freshId !in challenges
      modifies this
      ensures d.Trusted? <==>
                || (device.Some? && DeviceId(user, device.value) in old(devices) && !old(devices)[DeviceId(user, device.value)].revoked)
                || (device.Some? && DeviceId(user, device.value) !in old(devices)
                    && exists k :: k in old(devices) && k.user == user && !old(devices)[k].revoked && old(devices)[k].stableKey == device)
                || (!liveSessions && forall k | k in old(devices) && k.user == user :: old(devices)[k].revoked)
      ensures d.Trusted? && device.Some? ==> IsTrusted(devices, user, device.value)
      ensures !d.Trusted? ==> devices == old(devices)
      ensures d.Trusted? && device.Some?
              && (IsTrusted(old(devices), user, device.value) || IsAlias(old(devices), user, device.value))
              ==> challenges == CancelRecoveries(old(challenges), user, device.value)
      ensures d.Trusted? && !HasTrustedDevice(old(devices), user) ==> challenges == old(challenges)
      ensures d.Recovered? ==> device.Some?
      ensures d.Recovered? ==> Matured(old(challenges), d.challenge, user, device.value, now)
      ensures d.Recovered? ==> challenges == Claim(old(challenges), d.challenge, user, device.value, now)
      ensures d.Recovered? ==> d.challenge in old(challenges)
      ensures d.Recovered? ==>
        var c := old(challenges)[d.challenge];
        && c.user == user && c.device == device.value && (c.status == PENDING || c.status == APPROVED) && c.attempts < MAX_ATTEMPTS
        && c.recoveryAvailableAt.Some? && c.recoveryAvailableAt.value <= now < c.expiresAt
        && challenges == old(challenges)[d.challenge := c.(status := CONSUMED, code := None, codeExpiresAt := None)]
      ensures !d.Recovered? && !d.Trusted? && device.Some? ==>
        forall id | id in old(challenges) && old(challenges)[id].user == user && old(challenges)[id].device == device.value
                    && (old(challenges)[id].status == PENDING || old(challenges)[id].status == APPROVED) && old(challenges)[id].attempts < MAX_ATTEMPTS
                    && old(challenges)[id].recoveryAvailableAt.Some?
          :: now < old(challenges)[id].recoveryAvailableAt.value || old(challenges)[id].expiresAt <= now
      ensures d.MustVerify? ==> device.Some? && Reusable(challenges, d.challenge, user, device.value, now)
      ensures d.MustVerify? ==> forall id :: !Matured(old(challenges), id, user, device.value, now)
      ensures d.MustVerify? && d.challenge in old(challenges) ==> challenges == Reopen(old(challenges), d.challenge, now)
      ensures d.MustVerify? && d.challenge in old(challenges) ==>
        var c := old(challenges)[d.challenge];
        && c.user == user && c.device == device.value && (c.status == PENDING || c.status == APPROVED) && c.expiresAt > now
        && challenges == old(challenges)[d.challenge :=
          if c.status == APPROVED && c.codeExpiresAt.Some? && c.codeExpiresAt.value <= now
          then c.(status := PENDING, code := None, codeExpiresAt := None) else c]
      ensures d.MustVerify? && d.challenge !in old(challenges) ==>
        && d.challenge == freshId
        && challenges == old(challenges)[freshId :=
             Challenge(user, device.value, ip, now, PENDING, None, None, 0, now + 5 * 60_000, None, None)]
        && !RateLimited(old(challenges), user, ip, now)
        && forall id | id in old(challenges) && old(challenges)[id].user == user && old(challenges)[id].device == device.value
                       && (old(challenges)[id].status == PENDING || old(challenges)[id].status == APPROVED)
             :: old(challenges)[id].expiresAt <= now
      ensures (exists id :: device.Some? && Matured(old(challenges), id, user, device.value, now)) && !d.Trusted? ==> d.Recovered?
      ensures d.Trusted? && HasTrustedDevice(old(devices), user) ==> device.Some?
      ensures d.DeviceIdRequired? ==> device.None? && challenges == old(challenges)
      ensures d.TooManyRequests? ==> RateLimited(challenges, user, ip, now) && challenges == old(challenges)
    {
      if device.Some? {
        var key := DeviceId(user, device.value);
        if key in devices && !devices[key].revoked {
          challenges := CancelRecoveries(challenges, user, device.value);
          assert IsTrusted(devices, user, device.value);
          return Trusted;
        }
        if IsAlias(devices, user, device.value) {
          devices := devices[key := Trust(false, None)];
          challenges := CancelRecoveries(challenges, user, device.value);
          return Trusted;
        }
      }
      if !HasTrustedDevice(devices, user) && !liveSessions {
        if device.Some? {
          var key := DeviceId(user, device.value);
          devices := devices[key := if key in devices then devices[key].(revoked := false) else Trust(false, None)];
        }
        return Trusted;
      }
      if device.None? { return DeviceIdRequired; }
      var matured := FindMatured(user, device.value, now);
      if matured.Some? {
        challenges := Claim(challenges, matured.value, user, device.value, now);
        return Recovered(matured.value);
      }
      forall id | id in challenges && challenges[id].user == user && challenges[id].device == device.value
                  && (challenges[id].status == PENDING || challenges[id].status == APPROVED) && challenges[id].attempts < MAX_ATTEMPTS
                  && challenges[id].recoveryAvailableAt.Some?
        ensures now < challenges[id].recoveryAvailableAt.value || challenges[id].expiresAt <= now
      {
        assert !Matured(challenges, id, user, device.value, now);
      }
      var reusable := FindReusable(user, device.value, now);
      if reusable.Some? {
        challenges := Reopen(challenges, reusable.value, now);
        return MustVerify(reusable.value);
      }
      if RateLimited(challenges, user, ip, now) { return TooManyRequests; }
      forall id | id in challenges && challenges[id].user == user && challenges[id].device == device.value
                  && (challenges[id].status == PENDING || challenges[id].status == APPROVED)
        ensures challenges[id].expiresAt <= now
      {
        assert !Reusable(challenges, id, user, device.value, now);
      }
      challenges := Create(challenges, freshId, user, device.value, ip, now);
      return MustVerify(freshId);
    }

    /** The matured recovery that became available first. */
    method FindMatured(user: UserId, device: DeviceKey, now: int) returns (found: Option<ChallengeId>)
      ensures found.Some? ==> Matured(challenges, found.value, user, device, now)
      ensures found.Some? ==> forall id | id in challenges && Matured(challenges, id, user, device, now) ::
                challenges[found.value].recoveryAvailableAt.value <= challenges[id].recoveryAvailableAt.value
      ensures found.None? ==> forall id :: !Matured(challenges, id, user, device, now)
    {
      var rest := set id | id in challenges && Matured(challenges, id, user, device, now);
      ghost var all := rest;
      found := None;
      while rest != {}
        invariant rest <= all
        invariant found.None? ==> rest == all
        invariant found.Some? ==> found.value in all
        invariant found.Some? ==> forall id | id in all - rest ::
                    challenges[found.value].recoveryAvailableAt.value <= challenges[id].recoveryAvailableAt.value
        decreases |rest|
      {
        var id :| id in rest;
        rest := rest - {id};
        if found.None? || challenges[id].recoveryAvailableAt.value < challenges[found.value].recoveryAvailableAt.value {
          found := Some(id);
        }
      }
      assert all == {} <==> found.None?;
      forall id ensures Matured(challenges, id, user, device, now) <==> id in all {}
    }

    /** The newest challenge of this device that is still open in its decision window. */
    method FindReusable(user: UserId, device: DeviceKey, now: int) returns (found: Option<ChallengeId>)
      ensures found.Some? ==> Reusable(challenges, found.value, user, device, now)
      ensures found.Some? ==> forall id | id in challenges && Reusable(challenges, id, user, device, now) ::
                challenges[id].createdAt <= challenges[found.value].createdAt
      ensures found.None? ==> forall id :: !Reusable(challenges, id, user, device, now)
    {
      var rest := set id | id in challenges && Reusable(challenges, id, user, device, now);
      ghost var all := rest;
      found := None;
      while rest != {}
        invariant rest <= all
        invariant found.None? ==> rest == all
        invariant found.Some? ==> found.value in all
        invariant found.Some? ==> forall id | id in all - rest :: challenges[id].createdAt <= challenges[found.value].createdAt
        decreases |rest|
      {
        var id :| id in rest;
        rest := rest - {id};
        if found.None? || challenges[id].createdAt > challenges[found.value].createdAt {
          found := Some(id);
        }
      }
      assert all == {} <==> found.None?;
      forall id ensures Reusable(challenges, id, user, device, now) <==> id in all {}
    }

    /**
     * An approval may be repeated: each gives a new code, clears the attempts, and lets the new
     * device submit for a minute. Nothing but that challenge changes.
     */
    method ApproveChallenge(user: UserId, approver: DeviceKey, id: ChallengeId, code: CodeId, now: int) returns (approved: bool)
      modifies this`challenges
      ensures approved <==>
        && DeviceId(user, approver) in devices && !devices[DeviceId(user, approver)].revoked
        && id in old(challenges) && old(challenges)[id].user == user && old(challenges)[id].expiresAt > now
        && (old(challenges)[id].status == PENDING || old(challenges)[id].status == APPROVED)
      ensures challenges == if approved then Approve(old(challenges), id, user, code, now) else old(challenges)
      ensures approved ==> id in challenges && challenges[id].attempts == 0 && challenges[id].code == Some(code)
      ensures approved ==> forall t :: CodeReadable(challenges, id, challenges[id].device, t) <==> t < now + CODE_TTL_MS
      ensures approved ==> forall t :: CanReserve(challenges, id, code, t) <==> t < now + CODE_TTL_MS
      ensures challenges.Keys == old(challenges).Keys && forall other | other in challenges && other != id :: challenges[other] == old(challenges)[other]
    {
      approved := IsTrusted(devices, user, approver);
      if !approved { return; }
      approved := id in challenges && challenges[id].user == user
        && (challenges[id].status == PENDING || challenges[id].status == APPROVED) && challenges[id].expiresAt > now;
      if approved {
        var c := challenges[id];
        challenges := challenges[id := c.(status := APPROVED, code := Some(code), codeExpiresAt := Some(now + CODE_TTL_MS), attempts := 0)];
      }
    }

    method RejectChallenge(user: UserId, approver: DeviceKey, id: ChallengeId) returns (allowed: bool)
      modifies this`challenges
      ensures allowed <==> DeviceId(user, approver) in devices && !devices[DeviceId(user, approver)].revoked
      ensures allowed && id in challenges && challenges[id].user == user ==> !Open(challenges[id])
      ensures challenges == if allowed then Reject(old(challenges), id, user) else old(challenges)
      ensures challenges ==
        if allowed && id in old(challenges) && old(challenges)[id].user == user
           && (old(challenges)[id].status == PENDING || old(challenges)[id].status == APPROVED)
        then old(challenges)[id := old(challenges)[id].(status := REJECTED, code := None, codeExpiresAt := None)]
        else old(challenges)
    {
      allowed := IsTrusted(devices, user, approver);
      if allowed {
        challenges := Reject(challenges, id, user);
      }
    }

    /** A submission that nothing interrupts: the right code consumes the challenge and costs no
        attempt, a wrong one costs exactly one, a refusal before the comparison costs none. */
    method ConsumeWithCode(id: ChallengeId, device: DeviceKey, codeMatches: bool, now: int) returns (r: CodeResult)
      modifies this`challenges
      ensures id !in old(challenges) || old(challenges)[id].device != device ==> r == InvalidRequest && challenges == old(challenges)
      ensures id in old(challenges) && old(challenges)[id].device == device ==>
        var c := old(challenges)[id];
        var asked := c.status == APPROVED && c.attempts < MAX_ATTEMPTS && c.code.Some? && c.codeExpiresAt.Some? && c.codeExpiresAt.value > now;
        && (r.Accepted? <==> asked && codeMatches)
        && (asked && codeMatches ==> challenges == old(challenges)[id := c.(status := CONSUMED, code := None)])
        && (asked && !codeMatches ==>
              && challenges == old(challenges)[id := c.(attempts := c.attempts + 1)]
              && r == if c.attempts + 1 == MAX_ATTEMPTS then Locked else WrongCode)
        && (!asked ==> challenges == old(challenges))
        && (c.status == REJECTED <==> r.WasRejected?)
        && (c.status == CONSUMED <==> r.InvalidRequest?)
        && (c.status == PENDING && c.attempts < MAX_ATTEMPTS && c.expiresAt > now ==> r.WrongCode?)
    {
      if id !in challenges || challenges[id].device != device { return InvalidRequest; }
      var challenge := challenges[id];
      if challenge.status == REJECTED { return WasRejected; }
      if challenge.status == CONSUMED { return InvalidRequest; }
      if challenge.attempts >= MAX_ATTEMPTS { return Locked; }
      if challenge.status != APPROVED || challenge.code.None?
         || challenge.codeExpiresAt.None? || challenge.codeExpiresAt.value <= now {
        if challenge.status == PENDING && challenge.expiresAt > now { return WrongCode; }
        return Expired;
      }
      challenges := Reserve(challenges, id, challenge.code.value, now);
      if !codeMatches {
        return if challenge.attempts + 1 >= MAX_ATTEMPTS then Locked else WrongCode;
      }
      challenges := Consume(challenges, id, challenge.code.value, now);
      return Accepted;
    }

    /**
     * `answer` is the outcome of comparing the security code. Ten failures of the account within
     * 24 hours, over all its challenges, close this way in whatever the answer. A wrong answer costs
     * one attempt, and the last one locks the challenge; nothing else costs any.
     */
    method VerifySecurityCodeFallback(id: ChallengeId, device: DeviceKey, answer: bool, now: int) returns (r: CodeResult)
      modifies this`challenges
      ensures id !in old(challenges) || old(challenges)[id].device != device ==> r == InvalidRequest && challenges == old(challenges)
      ensures id in old(challenges) && old(challenges)[id].device == device ==>
        var c := old(challenges)[id];
        var asked := (c.status == PENDING || c.status == APPROVED) && c.attempts < MAX_ATTEMPTS
          && (c.expiresAt > now || (c.status == APPROVED && c.codeExpiresAt.Some? && c.codeExpiresAt.value > now))
          && AttemptSum(old(challenges), CreatedSince(old(challenges), c.user, now - RETENTION_MS)) < SECURITY_CODE_DAILY_FAILURES;
        && (r.Accepted? <==> asked && answer)
        && (asked && answer ==> challenges == old(challenges)[id := c.(status := CONSUMED, code := None)])
        && (asked && !answer ==>
              && challenges == old(challenges)[id := c.(attempts := c.attempts + 1)]
              && r == if c.attempts + 1 == MAX_ATTEMPTS then Locked else WrongCode)
        && (!asked ==> challenges == old(challenges) && !r.WrongCode?)
        && (c.status == REJECTED <==> r.WasRejected?)
        && (c.status == CONSUMED <==> r.InvalidRequest?)
        && (r.Expired? ==> c.attempts < MAX_ATTEMPTS && c.expiresAt <= now)
    {
      if id !in challenges || challenges[id].device != device { return InvalidRequest; }
      var challenge := challenges[id];
      match PublicStatusOf(challenge, now) {
        case IsRejected => return WasRejected;
        case IsConsumed => return InvalidRequest;
        case IsExpired => return if challenge.attempts >= MAX_ATTEMPTS then Locked else Expired;
        case _ =>
      }
      var failures := CountFailures(challenge.user, now);
      if failures >= SECURITY_CODE_DAILY_FAILURES { return Locked; }
      if !answer {
        challenges := FallbackFailed(challenges, id);
        return if challenges[id].attempts >= MAX_ATTEMPTS then Locked else WrongCode;
      }
      challenges := FallbackPassed(challenges, id);
      return Accepted;
    }

    method CountFailures(user: UserId, now: int) returns (sum: int)
      ensures sum == AttemptSum(challenges, CreatedSince(challenges, user, now - RETENTION_MS))
    {
      var rest := CreatedSince(challenges, user, now - RETENTION_MS);
      ghost var all := rest;
      sum := 0;
      while rest != {}
        invariant rest <= all && all <= challenges.Keys
        invariant sum + AttemptSum(challenges, rest) == AttemptSum(challenges, all)
        decreases |rest|
      {
        var id :| id in rest;
        AttemptSumWithout(challenges, rest, id);
        sum := sum + challenges[id].attempts;
        rest := rest - {id};
      }
    }

    /** Asking again for a recovery that is under way returns the same dates and changes nothing. */
    method RequestRecovery(id: ChallengeId, device: DeviceKey, now: int) returns (r: RecoveryResult)
      requires id in challenges && challenges[id].recoveryAvailableAt.Some? ==>
        challenges[id].expiresAt == challenges[id].recoveryAvailableAt.value + RECOVERY_COMPLETION_WINDOW_MS
      modifies this`challenges
      ensures challenges == LoginChallenges.RequestRecovery(old(challenges), id, device, now)
      ensures r.Waiting? ==>
        && id in challenges && challenges[id].device == device && Open(challenges[id])
        && challenges[id].recoveryAvailableAt == Some(r.availableAt) && challenges[id].expiresAt == r.until
        && r.until == r.availableAt + RECOVERY_COMPLETION_WINDOW_MS
      ensures r.Waiting? && challenges != old(challenges) ==> r.availableAt == now + RECOVERY_DELAY_MS
      ensures !r.Waiting? ==> challenges == old(challenges)
      ensures challenges != old(challenges) ==>
        && old(challenges)[id].recoveryAvailableAt.None? && |ActiveRecoveries(old(challenges), old(challenges)[id].user, now)| < RECOVERY_MAX_ACTIVE
        && challenges == old(challenges)[id := old(challenges)[id].(
             recoveryRequestedAt := Some(now), recoveryAvailableAt := Some(now + 24 * 3_600_000), expiresAt := now + 8 * 24 * 3_600_000)]
      ensures r.Waiting? <==>
        && id in old(challenges) && old(challenges)[id].device == device
        && (old(challenges)[id].status == PENDING || old(challenges)[id].status == APPROVED) && old(challenges)[id].attempts < MAX_ATTEMPTS
        && (|| (old(challenges)[id].recoveryAvailableAt.None? && old(challenges)[id].expiresAt > now
                && |ActiveRecoveries(old(challenges), old(challenges)[id].user, now)| < RECOVERY_MAX_ACTIVE)
            || (old(challenges)[id].recoveryAvailableAt.Some?
                && (|| old(challenges)[id].expiresAt > now
                    || (old(challenges)[id].status == APPROVED && old(challenges)[id].codeExpiresAt.Some?
                        && old(challenges)[id].codeExpiresAt.value > now))))
      ensures r.TooManyRecoveries? ==>
        id in challenges && |ActiveRecoveries(challenges, challenges[id].user, now)| >= RECOVERY_MAX_ACTIVE
    {
      if id !in challenges || challenges[id].device != device { return NotAsked(InvalidRequest); }
      var challenge := challenges[id];
      match PublicStatusOf(challenge, now) {
        case IsRejected => return NotAsked(WasRejected);
        case IsConsumed => return NotAsked(InvalidRequest);
        case IsExpired => return NotAsked(if challenge.attempts >= MAX_ATTEMPTS then Locked else Expired);
        case _ =>
      }
      if challenge.recoveryAvailableAt.Some? {
        return Waiting(challenge.recoveryAvailableAt.value, challenge.expiresAt);
      }
      var active := ActiveRecoveries(challenges, challenge.user, now);
      if |active| >= RECOVERY_MAX_ACTIVE { return TooManyRecoveries; }
      if challenge.expiresAt <= now { return NotAsked(Expired); }
      var availableAt := now + RECOVERY_DELAY_MS;
      var until := availableAt + RECOVERY_COMPLETION_WINDOW_MS;
      challenges := challenges[id :=
        challenge.(recoveryRequestedAt := Some(now), recoveryAvailableAt := Some(availableAt), expiresAt := until)];
      r := Waiting(availableAt, until);
    }

    method Enrol(user: UserId, device: DeviceKey)
      modifies this`devices
      ensures devices == TrustDevice(old(devices), user, device)
      ensures DeviceId(user, device) in devices && !devices[DeviceId(user, device)].revoked
      ensures forall d | d in devices && d != DeviceId(user, device) :: d in old(devices) && devices[d] == old(devices)[d]
    {
      var d := DeviceId(user, device);
      devices := devices[d := if d in devices then devices[d].(revoked := false) else Trust(false, None)];
    }

    method RevokeOthers(user: UserId, keep: Option<DeviceKey>)
      modifies this`devices
      ensures devices == RevokeOtherDevices(old(devices), user, keep)
      ensures devices.Keys == old(devices).Keys
      ensures forall d | d in devices ::
        devices[d] == if d.user == user && Some(d.device) != keep then old(devices)[d].(revoked := true) else old(devices)[d]
    {
      var todo := set d | d in devices && d.user == user && Some(d.device) != keep;
      while todo != {}
        invariant devices.Keys == old(devices).Keys
        invariant forall d | d in todo :: d in devices && d.user == user && Some(d.device) != keep
        invariant forall d | d in devices ::
          devices[d] == (if d.user == user && Some(d.device) != keep && d !in todo then old(devices)[d].(revoked := true) else old(devices)[d])
        decreases todo
      {
        var d :| d in todo;
        devices := devices[d := devices[d].(revoked := true)];
        todo := todo - {d};
      }
    }

    method InvalidateChallenges(user: UserId)
      modifies this`challenges
      ensures challenges == Invalidate(old(challenges), user)
      ensures challenges.Keys == old(challenges).Keys
      ensures forall id | id in challenges :: var c := old(challenges)[id];
        challenges[id] ==
          if c.user == user && (c.status == PENDING || c.status == APPROVED)
          then c.(status := REJECTED, code := None, codeExpiresAt := None) else c
    {
      challenges := map id | id in challenges ::
        if challenges[id].user == user && (challenges[id].status == PENDING || challenges[id].status == APPROVED)
        then challenges[id].(status := REJECTED, code := None, codeExpiresAt := None) else challenges[id];
    }

    /** A claim given back can be made again, as before it was made, and no other challenge can. */
    method ReleaseRecoveryClaim(id: ChallengeId)
      modifies this`challenges
      ensures challenges == Release(old(challenges), id)
      ensures CanRelease(old(challenges), id) ==>
        forall at :: CanClaim(challenges, id, challenges[id].user, challenges[id].device, at)
                     <==> challenges[id].recoveryAvailableAt.value <= at < challenges[id].expiresAt
      ensures challenges.Keys == old(challenges).Keys
      ensures forall other | other in challenges && (other != id || !CanRelease(old(challenges), id)) :: challenges[other] == old(challenges)[other]
    {
      if id in challenges && challenges[id].status == CONSUMED && challenges[id].recoveryAvailableAt.Some? {
        challenges := challenges[id := challenges[id].(status := PENDING)];
      }
    }

    method CancelRecoveriesForActiveDevice(user: UserId, active: DeviceKey) returns (cancelled: set<ChallengeId>)
      modifies this`challenges
      ensures challenges == CancelRecoveries(old(challenges), user, active)
      ensures challenges.Keys == old(challenges).Keys
      ensures cancelled == set id | id in old(challenges) && old(challenges)[id].user == user && old(challenges)[id].device != active
        && old(challenges)[id].recoveryAvailableAt.Some? && (old(challenges)[id].status == PENDING || old(challenges)[id].status == APPROVED)
      ensures forall id | id in challenges ::
        challenges[id] ==
          if id in cancelled then old(challenges)[id].(status := REJECTED, code := None, codeExpiresAt := None) else old(challenges)[id]
    {
      cancelled := set id | id in challenges && challenges[id].user == user && challenges[id].device != active
        && challenges[id].recoveryAvailableAt.Some? && (challenges[id].status == PENDING || challenges[id].status == APPROVED);
      challenges := map id | id in challenges ::
        if id in cancelled then challenges[id].(status := REJECTED, code := None, codeExpiresAt := None) else challenges[id];
    }

    /** A refresh never revives a revoked device; it enrols only one never seen before. */
    method RecordTrustOnRefresh(user: UserId, bound: DeviceKey, header: Option<DeviceKey>, stableHeader: Option<DeviceKey>)
      returns (trusted: bool)
      modifies this`devices
      ensures trusted <==> IsTrusted(devices, user, bound)
      ensures trusted <==> IsTrusted(old(devices), user, bound) || DeviceId(user, bound) !in old(devices)
      ensures forall d | d in old(devices) :: d in devices && devices[d].revoked == old(devices)[d].revoked
      ensures forall d | d in devices && d != DeviceId(user, bound) :: d in old(devices) && devices[d] == old(devices)[d]
      ensures trusted && (DeviceId(user, bound) !in old(devices)
                          || devices[DeviceId(user, bound)].stableKey != old(devices)[DeviceId(user, bound)].stableKey)
              && devices[DeviceId(user, bound)].stableKey.Some?
              ==> header == Some(bound) && devices[DeviceId(user, bound)].stableKey == stableHeader
    {
      var alias: Option<DeviceKey> :=
        if stableHeader.Some? && header == Some(bound) && stableHeader.value != bound then stableHeader else None;
      var key := DeviceId(user, bound);
      if key in devices && !devices[key].revoked {
        devices := devices[key := if alias.Some? then Trust(false, alias) else devices[key]];
        return true;
      }
      if key in devices { return false; }
      devices := devices[key := Trust(false, alias)];
      return true;
    }
  }
}
