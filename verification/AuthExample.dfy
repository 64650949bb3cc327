/** A run in which a recovery that failed late lets its device in as the first one. */
module AuthExample {
  import opened Common
  import S = SessionTables
  import SessionRuns
  import SessionRefinement
  import SessionTheorems
  import opened LoginChallenges
  import ChallengeRuns
  import opened DeviceTrustService
  import opened AuthFlows

  const USER: UserId := 0
  const OWN: DeviceKey := "own"
  const NEW: DeviceKey := "new"

  // The account's own device logs in first, and is trusted.
  const EMPTY := SessionRuns.World(S.Tables(map[], map[], map[USER := S.Account(true, None)]), {}, {}, {}, {}, {}, 0)
  const FIRST_LOGIN := SessionRuns.OpenSession(USER, Some(OWN), S.APP, 1, 1, 1, 30 * DAY_MS)

  // The new device asks to recover, waits a day, and claims.
  const NOTHING := ChallengeRuns.World(map[], map[], {}, {}, map[], map[], map[], map[], map[], map[], 0)
  const ASKED := NewChallenge(USER, NEW, 9, 0).(
    recoveryRequestedAt := Some(0), recoveryAvailableAt := Some(RECOVERY_DELAY_MS),
    expiresAt := RECOVERY_DELAY_MS + RECOVERY_COMPLETION_WINDOW_MS)
  const ASKING: seq<ChallengeRuns.Op> := [
    ChallengeRuns.DoCreate(5, USER, NEW, 9), ChallengeRuns.DoRequestRecovery(5, NEW), ChallengeRuns.Tick(DAY_MS)]

  const ATTEMPT := Recovery(USER, NEW, 5, false, 2, 2, DAY_MS, 2 * DAY_MS, DAY_MS + 1, DAY_MS + HOUR_MS, true, DAY_MS + 2)

  function LoggedIn(): SessionRuns.World {
    SessionRuns.Do(EMPTY, FIRST_LOGIN)
  }

  function ClaimedAuth(): Auth {
    Auth(LoggedIn().t, Claim(map[5 := ASKED], 5, USER, NEW, DAY_MS), TrustDevice(map[], USER, OWN))
  }

  lemma FirstLoginIsLegal()
    ensures SessionRuns.Inv(LoggedIn()) && Fresh(LoggedIn(), ATTEMPT)
  {
    SessionTheorems.StartHolds(EMPTY);
    assert SessionRuns.Legal(EMPTY, FIRST_LOGIN);
    SessionRefinement.StepKeeps(EMPTY, FIRST_LOGIN);
    assert LoggedIn().usedIds == {1} && LoggedIn().usedFamilies == {1};
  }

  lemma Creates()
    ensures var op := ChallengeRuns.DoCreate(5, USER, NEW, 9);
      ChallengeRuns.Legal(NOTHING, op) && ChallengeRuns.Do(NOTHING, op).t == map[5 := NewChallenge(USER, NEW, 9, 0)]
  {
    assert CreatedFromIpSince(map[], USER, 9, 0 - RATE_WINDOW_MS) == {} && CreatedSince(map[], USER, 0 - RATE_WINDOW_MS) == {};
  }

  lemma Asks()
    ensures ActiveRecoveries(map[5 := NewChallenge(USER, NEW, 9, 0)], USER, 0) == {}
    ensures RequestRecovery(map[5 := NewChallenge(USER, NEW, 9, 0)], 5, NEW, 0) == map[5 := ASKED]
  {
  }

  lemma AskingIsLegal()
    ensures ChallengeRuns.LegalRun(NOTHING, ASKING)
    ensures var w := ChallengeRuns.Run(NOTHING, ASKING); w.t == map[5 := ASKED] && w.now == DAY_MS
  {
    Creates();
    Asks();
    var w1 := ChallengeRuns.Do(NOTHING, ASKING[0]);
    var w2 := ChallengeRuns.Do(w1, ASKING[1]);
    assert w2.t == map[5 := ASKED] && w2.now == 0;
    assert ASKING[1..] == [ASKING[1], ASKING[2]] && ASKING[1..][1..] == [ASKING[2]] && ASKING[1..][1..][1..] == [];
    assert ChallengeRuns.LegalRun(w2, [ASKING[2]]);
    assert ChallengeRuns.Run(w2, [ASKING[2]]) == ChallengeRuns.Do(w2, ASKING[2]);
  }

  /**
   * From empty tables: the recovery fails after the other devices are shut out. While the session
   * of the attempt lives, its device does not pass; a day later it does, without having been trusted.
   */
  lemma LateFailureLetsTheDeviceIn()
    ensures CanClaim(ChallengeRuns.Run(NOTHING, ASKING).t, 5, USER, NEW, DAY_MS)
    ensures var failed := Failed(ClaimedAuth(), ATTEMPT, 4);
      && !PassesUnverified(failed, USER, NEW, 2 * DAY_MS - 1)
      && PassesUnverified(failed, USER, NEW, 2 * DAY_MS)
      && !IsTrusted(failed.devices, USER, NEW)
  {
    AskingIsLegal();
    FirstLoginIsLegal();
    var a := ClaimedAuth();
    assert a.devices == map[DeviceId(USER, OWN) := Trust(false, None)];
    assert !IsTrusted(a.devices, USER, NEW) && !IsAlias(a.devices, USER, NEW);
    LateFailurePassesExactlyWhen(LoggedIn(), a, ATTEMPT, 4, 2 * DAY_MS - 1);
    LateFailurePassesExactlyWhen(LoggedIn(), a, ATTEMPT, 4, 2 * DAY_MS);
    NoDevicePasses(a, ATTEMPT, 4);
  }
}
