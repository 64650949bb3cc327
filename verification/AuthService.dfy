/**
 * Login, completing a recovery, and refreshing, composed of the token and device services. The
 * account lock keeps the methods from interleaving; which step fails is an input.
 */
module AuthService {
  import opened Common
  import S = SessionTables
  import SessionRuns
  import opened LoginChallenges
  import opened DeviceTrustService
  import opened AuthFlows
  import RefreshTokenService

  datatype LoginOutcome = LoggedIn | VerificationRequired(challenge: ChallengeId) | DeviceRequired | RateLimit | StepFailed

  datatype RefreshOutcome = Invalid | Reuse | Missing | Blocked | Issued(session: S.RowId, cancelled: set<ChallengeId>)

  class Authentication {
    const tokens: RefreshTokenService.RefreshTokens
    const trust: DeviceTrust

    function Contents(): Auth
      reads tokens, trust
    {
      Auth(tokens.Db(), trust.challenges, trust.devices)
    }

    constructor (tokens: RefreshTokenService.RefreshTokens, trust: DeviceTrust)
      ensures this.tokens == tokens && this.trust == trust
    {
      this.tokens, this.trust := tokens, trust;
    }

    method HasLiveAppSession(user: UserId, now: int) returns (live: bool)
      ensures live <==> LiveAppSession(tokens.Db(), user, now)
      ensures !live <==> forall id | id in tokens.rows && tokens.rows[id].user == user && tokens.rows[id].audience == S.APP ::
        tokens.rows[id].revokedAt.Some? || tokens.rows[id].expiredAt <= now
    {
      live := exists id | id in tokens.rows ::
        (&& tokens.rows[id].user == user && tokens.rows[id].audience == S.APP
         && tokens.rows[id].revokedAt.None? && tokens.rows[id].expiredAt > now);
    }

    /** Single-device accounts replace their sessions, others add one. */
    method CreateAppSession(r: Recovery, bound: Option<DeviceKey>)
      requires r.row !in tokens.rows
      modifies tokens
      ensures tokens.Db() == SessionRuns.Apply(old(tokens.Db()), OpenFor(r, bound))
      ensures old(tokens.rows).Keys <= tokens.rows.Keys
      ensures forall id | id in old(tokens.rows) ::
        if r.single && old(tokens.rows)[id].user == r.user && old(tokens.rows)[id].audience == S.APP
        then tokens.rows[id].revokedAt.Some? else tokens.rows[id] == old(tokens.rows)[id]
      ensures r.row in tokens.rows && tokens.rows[r.row].deviceKey == bound && tokens.rows[r.row].user == r.user && tokens.rows[r.row].family == r.family
    {
      if r.single {
        var _ := tokens.ReplaceForSingleDevice(r.user, bound, S.APP, r.family, r.row, r.openedAt, r.refreshUntil);
      } else {
        tokens.CreateWithClient(r.user, bound, S.APP, r.family, r.row, r.refreshUntil);
      }
    }

    /** Recording the expiry may fail on its own; the token is signed all the same. */
    method SignAccessToken(r: Recovery)
      requires r.row in tokens.rows && tokens.rows[r.row].user == r.user
      modifies tokens
      ensures tokens.Db() == SessionRuns.Apply(old(tokens.Db()), SignOp(r))
    {
      if r.recorded { var _ := tokens.RecordAccessTokenIssued(r.user, r.row, r.accessUntil); }
    }

    method OpenAndRevokeOthers(r: Recovery, failsAfter: nat)
      requires r.row !in tokens.rows
      modifies tokens
      ensures tokens.Db() == SessionsAfter(old(tokens.Db()), r, failsAfter)
    {
      if failsAfter == 0 { return; }
      CreateAppSession(r, Some(r.device));
      if failsAfter == 1 { return; }
      SignAccessToken(r);
      if failsAfter == 2 { return; }
      tokens.RevokeOtherSessions(r.user, Some(r.row), r.othersRevokedAt);
    }

    /** First the tokens, then everything else of the account is shut out, and trust comes last. */
    method CompleteRecoveryLogin(r: Recovery, failsAfter: nat) returns (completed: bool)
      requires r.row !in tokens.rows
      modifies tokens, trust
      ensures completed <==> failsAfter >= STEPS
      ensures Contents() == AfterSteps(old(Contents()), r, if completed then STEPS else failsAfter)
    {
      StepsAre(Contents(), r, if failsAfter < STEPS then failsAfter else STEPS);
      OpenAndRevokeOthers(r, failsAfter);
      if failsAfter < 4 { return false; }
      trust.RevokeOthers(r.user, Some(r.device));
      if failsAfter < 5 { return false; }
      trust.InvalidateChallenges(r.user);
      if failsAfter < 6 { return false; }
      trust.Enrol(r.user, r.device);
      completed := true;
    }

    method FinishLogin(r: Recovery, device: Option<DeviceKey>)
      requires r.row !in tokens.rows
      modifies tokens
      ensures tokens.Db() == SessionRuns.Apply(SessionRuns.Apply(old(tokens.Db()), OpenFor(r, device)), SignOp(r))
    {
      CreateAppSession(r, device);
      SignAccessToken(r);
    }

    /** A claimed recovery is carried out, or given back when a step of it fails. */
    method RecoverOrRelease(r: Recovery, failsAfter: nat) returns (completed: bool)
      requires r.row !in tokens.rows
      modifies tokens, trust
      ensures completed <==> failsAfter >= STEPS
      ensures Contents() == if failsAfter < STEPS then Failed(old(Contents()), r, failsAfter) else AfterSteps(old(Contents()), r, STEPS)
    {
      completed := CompleteRecoveryLogin(r, failsAfter);
      if !completed { trust.ReleaseRecoveryClaim(r.challenge); }
    }

    /**
     * The password has been checked. A device that need not be verified gets a session; a matured
     * recovery of this device is carried out, and given back if a step of it fails; anything else
     * writes no session.
     */
    method Login(r: Recovery, device: Option<DeviceKey>, ip: Ip, now: int, freshChallenge: ChallengeId, failsAfter: nat)
      returns (outcome: LoginOutcome, ghost claimed: Option<ChallengeId>)
      requires r.row !in tokens.rows && freshChallenge !in trust.challenges
      requires device.Some? ==> r.device == device.value
      modifies tokens, trust
      ensures claimed.Some? ==> device.Some? && Matured(old(trust.challenges), claimed.value, r.user, r.device, now)
      ensures claimed.Some? ==>
        var a := old(Contents()).(challenges := Claim(old(trust.challenges), claimed.value, r.user, r.device, now));
        var s := r.(challenge := claimed.value);
        Contents() == if failsAfter < STEPS then Failed(a, s, failsAfter) else AfterSteps(a, s, STEPS)
      ensures claimed.Some? ==> (outcome == LoggedIn <==> failsAfter >= STEPS)
      ensures claimed.None? && outcome == LoggedIn ==>
        tokens.Db() == SessionRuns.Apply(SessionRuns.Apply(old(tokens.Db()), OpenFor(r, device)), SignOp(r))
      ensures claimed.None? && outcome != LoggedIn ==> tokens.Db() == old(tokens.Db()) && trust.devices == old(trust.devices)
      ensures device.Some? && claimed.None? ==> (outcome == LoggedIn <==> PassesUnverified(old(Contents()), r.user, r.device, now))
      ensures device.Some? && outcome == LoggedIn ==> IsTrusted(trust.devices, r.user, r.device)
      ensures device.Some? && (IsTrusted(old(trust.devices), r.user, r.device) || IsAlias(old(trust.devices), r.user, r.device)) ==>
        forall c | c in old(trust.challenges) && old(trust.challenges)[c].user == r.user && old(trust.challenges)[c].device != r.device
                   && old(trust.challenges)[c].recoveryAvailableAt.Some? && Open(old(trust.challenges)[c])
          :: c in trust.challenges && trust.challenges[c].status == REJECTED
      ensures outcome.VerificationRequired? ==> device.Some? && Reusable(trust.challenges, outcome.challenge, r.user, r.device, now)
      ensures device.Some? && !PassesUnverified(old(Contents()), r.user, r.device, now) ==>
        (claimed.Some? <==> exists id :: Matured(old(trust.challenges), id, r.user, r.device, now))
    {
      claimed := None;
      var live := HasLiveAppSession(r.user, now);
      var decision := trust.EvaluateLogin(r.user, device, ip, live, now, freshChallenge);
      match decision {
        case MustVerify(id) => outcome := VerificationRequired(id);
        case DeviceIdRequired => outcome := DeviceRequired;
        case TooManyRequests => outcome := RateLimit;
        case Trusted =>
          FinishLogin(r, device);
          outcome := LoggedIn;
        case Recovered(id) =>
          claimed := Some(id);
          var completed := RecoverOrRelease(r.(challenge := id), failsAfter);
          outcome := if completed then LoggedIn else StepFailed;
      }
    }

    /**
     * A rotation stands even if the account is gone. Only an active account that is no administrator gets tokens; the others lose every session.
     * Recoveries are cancelled only by a trusted device in use, and failing to do so, like failing
     * to record its trust, does not keep the tokens back.
     */
    method Refresh(token: S.RowId, owner: UserId, header: Option<DeviceKey>, stableHeader: Option<DeviceKey>,
                   administrator: bool, id: S.RowId, now: int, refreshUntil: int, accessUntil: int,
                   trustWorks: bool, cancelWorks: bool) returns (outcome: RefreshOutcome)
      requires id !in tokens.rows
      modifies tokens, trust
      ensures outcome.Issued? <==> S.RotationBranch(old(tokens.Db()), token, owner, S.APP, now) == S.Rotated
                                   && owner in old(tokens.accounts) && old(tokens.accounts)[owner].active && !administrator
      ensures outcome.Missing? <==> S.RotationBranch(old(tokens.Db()), token, owner, S.APP, now) == S.Rotated && owner !in old(tokens.accounts)
      ensures outcome.Missing? ==> tokens.Db() == S.Rotate(old(tokens.Db()), token, owner, header, S.APP, id, now, refreshUntil)
      ensures outcome.Reuse? <==> S.RotationBranch(old(tokens.Db()), token, owner, S.APP, now) == S.Reuse
      ensures outcome.Blocked? ==> forall row | row in tokens.rows && tokens.rows[row].user == owner :: tokens.rows[row].revokedAt.Some?
      ensures outcome.Issued? ==> outcome.session == id && id in tokens.rows && tokens.rows[id].revokedAt.None?
      ensures outcome.Issued? ==> token in tokens.rows && tokens.rows[id].family == tokens.rows[token].family
      ensures !outcome.Issued? ==> trust.challenges == old(trust.challenges) && trust.devices == old(trust.devices)
      ensures outcome.Issued? ==>
        var bound := tokens.rows[id].deviceKey;
        outcome.cancelled ==
          if cancelWorks && bound.Some? && bound.value != "" && IsTrusted(trust.devices, owner, bound.value) then
            set c | c in old(trust.challenges) && Open(old(trust.challenges)[c])
              && old(trust.challenges)[c].user == owner && old(trust.challenges)[c].device != bound.value
              && old(trust.challenges)[c].recoveryAvailableAt.Some?
          else {}
      ensures trust.challenges.Keys == old(trust.challenges).Keys
      ensures outcome.Issued? ==> forall c | c in outcome.cancelled :: c in trust.challenges && trust.challenges[c].status == REJECTED
      ensures outcome.Issued? ==> forall c | c in trust.challenges && c !in outcome.cancelled :: trust.challenges[c] == old(trust.challenges)[c]
      ensures forall d | d in old(trust.devices) :: d in trust.devices && trust.devices[d].revoked == old(trust.devices)[d].revoked
    {
      var rotation := tokens.RotateLocked(token, owner, header, S.APP, id, now, refreshUntil);
      match rotation {
        case Refused => return Invalid;
        case Replayed(_, _, _) => return Reuse;
        case RotatedTo(session, bound) =>
          if owner !in tokens.accounts { return Missing; }
          if !tokens.accounts[owner].active || administrator {
            tokens.RevokeAll(owner, now);
            return Blocked;
          }
          var _ := tokens.RecordAccessTokenIssued(owner, session, accessUntil);
          if bound.None? || bound.value == "" { return Issued(session, {}); }
          var known: Option<bool> := None;
          if trustWorks {
            var trusted := trust.RecordTrustOnRefresh(owner, bound.value, header, stableHeader);
            known := Some(trusted);
          }
          var trusted := if known.Some? then known.value else IsTrusted(trust.devices, owner, bound.value);
          if !trusted || !cancelWorks { return Issued(session, {}); }
          var cancelled := trust.CancelRecoveriesForActiveDevice(owner, bound.value);
          outcome := Issued(session, cancelled);
      }
    }
  }
}
