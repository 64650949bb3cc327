/**
 * Logging in by recovery, across sessions, challenges and devices: once a matured recovery is
 * claimed, the new device gets a session and everything else of the account is shut out, in
 * steps any of which may fail.
 */
module AuthFlows {
  import opened Common
  import S = SessionTables
  import SessionRuns
  import SessionRefinement
  import SessionTheorems
  import opened LoginChallenges
  import opened DeviceTrustService

  datatype Auth = Auth(sessions: S.Tables, challenges: Table, devices: map<DeviceId, Trust>)

  /** One attempt: who, for which claim, the fresh ids it will use, and when each step happens. */
  datatype Recovery = Recovery(
    user: UserId, device: DeviceKey, challenge: ChallengeId, single: bool,
    row: S.RowId, family: S.FamilyId, openedAt: int, refreshUntil: int,
    signedAt: int, accessUntil: int, recorded: bool, othersRevokedAt: int)

  /** A session is bound to the device the client named, or to none. */
  function OpenFor(r: Recovery, bound: Option<DeviceKey>): SessionRuns.Op {
    if r.single
    then SessionRuns.OpenSingleDevice(r.user, bound, S.APP, r.row, r.family, r.openedAt, r.refreshUntil)
    else SessionRuns.OpenSession(r.user, bound, S.APP, r.row, r.family, r.openedAt, r.refreshUntil)
  }

  function OpenOp(r: Recovery): SessionRuns.Op {
    OpenFor(r, Some(r.device))
  }

  function SignOp(r: Recovery): SessionRuns.Op {
    SessionRuns.SignAccess(r.row, r.signedAt, r.accessUntil, r.recorded)
  }

  function RevokeOthersOp(r: Recovery): SessionRuns.Op {
    SessionRuns.KillOthers(r.user, Some(r.row), r.othersRevokedAt)
  }

  const STEPS: nat := 6

  /** The first `done` of the six steps; the device is trusted only by the last. */
  function AfterSteps(a: Auth, r: Recovery, done: nat): Auth
    requires done <= STEPS
    decreases done
  {
    if done == 0 then a
    else
      var b := AfterSteps(a, r, done - 1);
      match done
      case 1 => b.(sessions := SessionRuns.Apply(b.sessions, OpenOp(r)))
      case 2 => b.(sessions := SessionRuns.Apply(b.sessions, SignOp(r)))
      case 3 => b.(sessions := SessionRuns.Apply(b.sessions, RevokeOthersOp(r)))
      case 4 => b.(devices := RevokeOtherDevices(b.devices, r.user, Some(r.device)))
      case 5 => b.(challenges := Invalidate(b.challenges, r.user))
      case _ => b.(devices := TrustDevice(b.devices, r.user, r.device))
  }

  /** A step failed after `done` of them: the claim is given back. */
  function Failed(a: Auth, r: Recovery, done: nat): Auth
    requires done <= STEPS
  {
    var b := AfterSteps(a, r, done);
    b.(challenges := Release(b.challenges, r.challenge))
  }

  predicate LiveAppSession(t: S.Tables, user: UserId, now: int) {
    exists id | id in t.rows :: t.rows[id].user == user && t.rows[id].audience == S.APP && t.rows[id].revokedAt.None? && t.rows[id].expiredAt > now
  }

  /** The device passes without verification: trusted, returning, or the first of the account. */
  predicate PassesUnverified(a: Auth, user: UserId, device: DeviceKey, now: int) {
    || IsTrusted(a.devices, user, device)
    || IsAlias(a.devices, user, device)
    || (!HasTrustedDevice(a.devices, user) && !LiveAppSession(a.sessions, user, now))
  }

  // ----- Completed: one session, one device

  predicate Fresh(w: SessionRuns.World, r: Recovery) {
    && r.user in w.t.accounts && r.row !in w.usedIds && r.family !in w.usedFamilies
    && w.now < r.openedAt < r.signedAt < r.othersRevokedAt
  }

  function Opened(w: SessionRuns.World, r: Recovery): SessionRuns.World {
    SessionRuns.Do(w, OpenOp(r))
  }

  function Signed(w: SessionRuns.World, r: Recovery): SessionRuns.World {
    SessionRuns.Do(Opened(w, r), SignOp(r))
  }

  function Recovered(w: SessionRuns.World, r: Recovery): SessionRuns.World {
    SessionRuns.Do(Signed(w, r), RevokeOthersOp(r))
  }

  /** The new row is the only one of its family. */
  ghost predicate Alone(t: S.Tables, r: Recovery) {
    && r.row in t.rows && t.rows[r.row].user == r.user && t.rows[r.row].family == r.family
    && t.rows[r.row].audience == S.APP && t.rows[r.row].revokedAt.None? && t.rows[r.row].expiredAt == r.refreshUntil
    && forall id | id in t.rows && t.rows[id].family == r.family :: id == r.row
  }

  lemma OpensAlone(w: SessionRuns.World, r: Recovery)
    requires SessionRuns.Sane(w) && Fresh(w, r)
    ensures Alone(Opened(w, r).t, r) && SessionRuns.Plausible(w, OpenOp(r))
    ensures r.row !in Opened(w, r).killedRows && Opened(w, r).killedTokens == w.killedTokens && Opened(w, r).issued == w.issued
  {
    assert SessionRuns.NewIds(OpenOp(r)) == {r.row} && SessionRuns.NewFamilies(OpenOp(r)) == {r.family};
  }

  lemma SignsAlone(w: SessionRuns.World, r: Recovery)
    requires Alone(w.t, r)
    ensures var w' := SessionRuns.Do(w, SignOp(r));
      && Alone(w'.t, r) && w'.killedRows == w.killedRows && w'.killedTokens == w.killedTokens
      && forall a | a in w'.issued :: a in w.issued || a.session == r.row
  {
  }

  lemma RevokesAllOthers(w: SessionRuns.World, r: Recovery)
    requires Alone(w.t, r)
    ensures var w' := SessionRuns.Do(w, RevokeOthersOp(r));
      && SessionRuns.ExemptionGuard(w.t, RevokeOthersOp(r))
      && Alone(w'.t, r) && w'.issued == w.issued && w'.killedTokens == w.killedTokens
      && w'.killedRows == w.killedRows + set id | id in w.t.rows && w.t.rows[id].user == r.user && id != r.row
      && forall id | id in w'.t.rows && w'.t.rows[id].user == r.user && id != r.row :: w'.t.rows[id].revokedAt.Some?
  {
    assert S.SparedFamily(w.t, r.user, Some(r.row)) == Some(r.family);
    assert S.Selected(w.t.rows, S.AllButFamily(r.user, r.family))
        == set id | id in w.t.rows && w.t.rows[id].user == r.user && id != r.row;
  }

  lemma StepsAreLegal(w: SessionRuns.World, r: Recovery)
    requires SessionRuns.Inv(w) && Fresh(w, r)
    ensures SessionRuns.Inv(Recovered(w, r)) && Alone(Signed(w, r).t, r) && SessionRuns.Sane(Signed(w, r))
    ensures r.row !in Signed(w, r).killedRows && Signed(w, r).killedTokens == w.killedTokens
    ensures forall a | a in Signed(w, r).issued :: a in w.issued || a.session == r.row
  {
    OpensAlone(w, r);
    SessionRefinement.StepKeeps(w, OpenOp(r));
    SignIsLegal(w, r);
    SessionRefinement.StepKeeps(Opened(w, r), SignOp(r));
    SignsAlone(Opened(w, r), r);
    RevokesAllOthers(Signed(w, r), r);
    SessionTheorems.GuardSuffices(Signed(w, r), RevokeOthersOp(r));
    SessionRefinement.StepKeeps(Signed(w, r), RevokeOthersOp(r));
  }

  lemma SignIsLegal(w: SessionRuns.World, r: Recovery)
    requires SessionRuns.Tokens(w) && Fresh(w, r) && Alone(Opened(w, r).t, r) && Opened(w, r).issued == w.issued
    ensures SessionRuns.Legal(Opened(w, r), SignOp(r))
  {
    forall a | a in w.issued ensures a.session != r.row { assert SessionRuns.AccessFits(w, a); }
  }

  /** After a completed recovery the verifier accepts, of all the account's access tokens, the new session's only. */
  lemma RecoveryLeavesOneSession(w: SessionRuns.World, r: Recovery, t: SessionRuns.Access)
    requires SessionRuns.Inv(w) && Fresh(w, r)
    requires t in Recovered(w, r).issued && t.user == r.user && t.expiresAt > r.othersRevokedAt && SessionRuns.Retained(t)
    ensures var after := Recovered(w, r);
      S.VerifyInDatabase(after.t, SessionTheorems.ClaimsOf(t)) == S.Active
      <==> after.t.accounts[r.user].active && t.session == r.row
  {
    StepsAreLegal(w, r);
    SessionTheorems.VerdictFromInv(Recovered(w, r), t);
    OnlyTheNewIsSpared(w, r, t);
  }

  lemma OnlyTheNewIsSpared(w: SessionRuns.World, r: Recovery, t: SessionRuns.Access)
    requires SessionRuns.Sane(w) && SessionRuns.Tokens(w) && Fresh(w, r)
    requires SessionRuns.Tokens(Recovered(w, r)) && Recovered(w, r).now == r.othersRevokedAt
    requires t in Recovered(w, r).issued && t.user == r.user && t.expiresAt > r.othersRevokedAt && SessionRuns.Retained(t)
    ensures t.session == r.row <==> t.session !in Recovered(w, r).killedRows && t !in Recovered(w, r).killedTokens
  {
    OpensAlone(w, r);
    SignsAlone(Opened(w, r), r);
    RevokesAllOthers(Signed(w, r), r);
    if t.session == r.row {
      NewTokenIsNotKilled(w, r, t);
    } else {
      HasItsRow(Recovered(w, r), t);
      assert t.session in Signed(w, r).t.rows && Signed(w, r).t.rows[t.session].user == r.user;
    }
  }

  lemma HasItsRow(w: SessionRuns.World, t: SessionRuns.Access)
    requires SessionRuns.Tokens(w) && t in w.issued && t.expiresAt > w.now && SessionRuns.Retained(t)
    ensures t.session in w.t.rows && w.t.rows[t.session].user == t.user
  {
    assert SessionRuns.AccessFits(w, t);
  }

  lemma NewTokenIsNotKilled(w: SessionRuns.World, r: Recovery, t: SessionRuns.Access)
    requires SessionRuns.Tokens(w) && Fresh(w, r) && t.session == r.row
    ensures t !in w.killedTokens
  {
    assert forall a | a in w.issued :: SessionRuns.AccessFits(w, a);
  }

  /** The other sessions' tokens stay shut out in every later run. */
  lemma RecoveryShutsOutForEver(w: SessionRuns.World, r: Recovery, later: seq<SessionRuns.Op>, t: SessionRuns.Access)
    requires SessionRuns.Inv(w) && Fresh(w, r) && SessionRuns.LegalRun(Recovered(w, r), later)
    requires Recovered(w, r).t.accounts[r.user].active
    requires t in Recovered(w, r).issued && t.user == r.user && t.session != r.row && SessionRuns.Retained(t)
    requires t.expiresAt > r.othersRevokedAt && t.expiresAt > SessionRuns.Run(Recovered(w, r), later).now
    ensures S.VerifyInDatabase(SessionRuns.Run(Recovered(w, r), later).t, SessionTheorems.ClaimsOf(t)) == S.Revoked
  {
    StepsAreLegal(w, r);
    RecoveryLeavesOneSession(w, r, t);
    SessionTheorems.RefusedStaysRefused(Recovered(w, r), later, t);
  }

  function SessionsAfter(t: S.Tables, r: Recovery, done: nat): S.Tables {
    if done == 0 then t
    else
      var open := SessionRuns.Apply(t, OpenOp(r));
      if done == 1 then open
      else
        var signed := SessionRuns.Apply(open, SignOp(r));
        if done == 2 then signed else SessionRuns.Apply(signed, RevokeOthersOp(r))
  }

  /** What each table is after so many steps. */
  lemma {:induction false} StepsAre(a: Auth, r: Recovery, done: nat)
    requires done <= STEPS
    ensures AfterSteps(a, r, done) == Auth(
      SessionsAfter(a.sessions, r, done),
      if done < 5 then a.challenges else Invalidate(a.challenges, r.user),
      if done < 4 then a.devices
      else if done < 6 then RevokeOtherDevices(a.devices, r.user, Some(r.device))
      else TrustDevice(RevokeOtherDevices(a.devices, r.user, Some(r.device)), r.user, r.device))
    decreases done
  {
    if done > 0 { StepsAre(a, r, done - 1); }
  }

  /** The device that asked is the only trusted one, nothing of the account is left open, and no other account changed. */
  lemma RecoveryLeavesOneDevice(a: Auth, r: Recovery, d: DeviceId, id: ChallengeId)
    ensures var b := AfterSteps(a, r, STEPS);
      && (d.user == r.user ==> (IsTrusted(b.devices, d.user, d.device) <==> d.device == r.device))
      && (d.user != r.user ==> (IsTrusted(b.devices, d.user, d.device) <==> IsTrusted(a.devices, d.user, d.device)))
      && (id in b.challenges <==> id in a.challenges)
      && (id in a.challenges && a.challenges[id].user == r.user ==> !Open(b.challenges[id]))
      && (id in a.challenges && a.challenges[id].user != r.user ==> b.challenges[id] == a.challenges[id])
  {
    StepsAre(a, r, STEPS);
    assert DeviceId(d.user, d.device) == d;
  }

  // ----- Failed: the retry goes the same way

  /** The attempt started from a claim that was due, from a device that did not pass otherwise. */
  predicate Claimed(a: Auth, before: Table, r: Recovery, claimedAt: int) {
    CanClaim(before, r.challenge, r.user, r.device, claimedAt) && a.challenges == Claim(before, r.challenge, r.user, r.device, claimedAt)
  }

  /** Whichever step failed, the claim can be made again until the recovery expires. */
  lemma FailedRecoveryIsClaimable(a: Auth, before: Table, r: Recovery, claimedAt: int, done: nat, now: int)
    requires Claimed(a, before, r, claimedAt) && done < STEPS && claimedAt <= now < before[r.challenge].expiresAt
    ensures CanClaim(Failed(a, r, done).challenges, r.challenge, r.user, r.device, now)
  {
    StepsAre(a, r, done);
  }

  lemma OpenedSessionLives(w: SessionRuns.World, r: Recovery, done: nat, now: int)
    requires SessionRuns.Sane(w) && Fresh(w, r) && 1 <= done && now < r.refreshUntil
    ensures LiveAppSession(SessionsAfter(w.t, r, done), r.user, now)
  {
    OpensAlone(w, r);
    SignsAlone(Opened(w, r), r);
    RevokesAllOthers(Signed(w, r), r);
    var t := SessionsAfter(w.t, r, done);
    assert Alone(t, r);
    assert r.row in t.rows;
  }

  lemma NoDevicePasses(a: Auth, r: Recovery, done: nat)
    requires done < STEPS && !IsTrusted(a.devices, r.user, r.device) && !IsAlias(a.devices, r.user, r.device)
    ensures var f := Failed(a, r, done);
      !IsTrusted(f.devices, r.user, r.device) && !IsAlias(f.devices, r.user, r.device) && (done >= 4 ==> !HasTrustedDevice(f.devices, r.user))
  {
    StepsAre(a, r, done);
    var f := Failed(a, r, done);
    forall d | d in f.devices && d.user == r.user ensures done >= 4 ==> f.devices[d].revoked {
      if d.device == r.device { assert d == DeviceId(r.user, r.device); }
    }
  }

  /** A failed attempt that opened its session never lets the device pass as known or first while that session lives. */
  lemma FailedRecoveryDoesNotPass(w: SessionRuns.World, a: Auth, r: Recovery, done: nat, now: int)
    requires SessionRuns.Inv(w) && Fresh(w, r) && a.sessions == w.t && 1 <= done < STEPS && now < r.refreshUntil
    requires !IsTrusted(a.devices, r.user, r.device) && !IsAlias(a.devices, r.user, r.device)
    ensures !PassesUnverified(Failed(a, r, done), r.user, r.device, now)
  {
    StepsAre(a, r, done);
    NoDevicePasses(a, r, done);
    OpenedSessionLives(w, r, done, now);
  }

  /** Once the other devices are shut out, it passes as the first device exactly when that session has run out. */
  lemma LateFailurePassesExactlyWhen(w: SessionRuns.World, a: Auth, r: Recovery, done: nat, now: int)
    requires SessionRuns.Inv(w) && Fresh(w, r) && a.sessions == w.t && 4 <= done < STEPS
    requires !IsTrusted(a.devices, r.user, r.device) && !IsAlias(a.devices, r.user, r.device)
    ensures PassesUnverified(Failed(a, r, done), r.user, r.device, now) <==> r.refreshUntil <= now
  {
    if now < r.refreshUntil {
      FailedRecoveryDoesNotPass(w, a, r, done, now);
    } else {
      NoDevicePasses(a, r, done);
      StepsAre(a, r, done);
      NoOtherSessionLives(w, r, done, now);
    }
  }

  lemma NoOtherSessionLives(w: SessionRuns.World, r: Recovery, done: nat, now: int)
    requires SessionRuns.Sane(w) && Fresh(w, r) && 3 <= done && r.refreshUntil <= now
    ensures !LiveAppSession(SessionsAfter(w.t, r, done), r.user, now)
  {
    OpensAlone(w, r);
    SignsAlone(Opened(w, r), r);
    OnlyItsOwn(Signed(w, r), r, now);
  }

  lemma OnlyItsOwn(w: SessionRuns.World, r: Recovery, now: int)
    requires Alone(w.t, r) && r.refreshUntil <= now
    ensures !LiveAppSession(SessionRuns.Do(w, RevokeOthersOp(r)).t, r.user, now)
  {
    RevokesAllOthers(w, r);
    var t := SessionRuns.Do(w, RevokeOthersOp(r)).t;
    forall id | id in t.rows && t.rows[id].user == r.user && t.rows[id].revokedAt.None? ensures t.rows[id].expiredAt <= now {
      assert id == r.row;
    }
  }

  // ----- Logging out everywhere

  /** After logging out everywhere no access token signed so far for the account verifies. */
  lemma LogoutAllRefusesEverything(w: SessionRuns.World, user: UserId, now: int, t: SessionRuns.Access)
    requires SessionRuns.Inv(w) && w.now < now && user in w.t.accounts
    requires t in w.issued && t.user == user
    ensures S.VerifyInDatabase(SessionRuns.Do(w, SessionRuns.KillAll(user, Some(S.LOGOUT_ALL), now)).t, SessionTheorems.ClaimsOf(t)) == S.Revoked
  {
    assert SessionRuns.AccessFits(w, t);
  }
}
