# Sessions, challenges, calls and queues, modelled and proved

A Dafny model of the backend's protocols: what happens to the database when logins, devices,
calls and administrators act on it at the same time. Each protocol is a state and atomic steps, one
step for each transaction or conditional write; runs are sequences of steps in any order. On top of
the step functions stand classes whose methods perform the same writes statement by statement, with
contracts that name the steps, so what is proved of the steps holds of the methods.

| part | files | what it is |
|---|---|---|
| Sessions | `SessionTables`, `SessionRuns`, `SessionRefinement`, `SessionTheorems`, `SessionStanding`, `RefreshTokenService`, `RefreshTokenCleanup` | token families, generation counters per scope with one exempt family, the verifier, and the sets of killed sessions they implement |
| Login challenges | `LoginChallenges`, `ChallengeRuns`, `ChallengeInvariant`, `ChallengeTheorems`, `FallbackBudget`, `RecoveryLimit`, `DeviceTrustService` | approval codes, attempts, recovery, trusted devices |
| Log-in | `AuthFlows`, `AuthService`, `AuthExample` | sessions, challenges and devices together: login, completing a recovery step by step, refreshing |
| Calls | `CallTables`, `CallInvariant`, `CallTheorems`, `LockOrder`, `CallService` | ringing, accepting, rejecting, leaving and six ways to end, with requests in flight between statements |
| Group operations | `GroupOperations`, `GroupOperationInvariant`, `GroupOperationTheorems`, `GroupOperationEffects`, `GroupOperationService`, `GroupOperationExample` | the queue of administrative operations, claims, retries, crashes, and the circles they drive |
| Paging | `AuditedPaging` | scan and recheck, cursors, audit |
| Email codes | `EmailCodes`, `EmailCodeTheorems`, `EmailVerificationService` | one address and purpose at a time |
| Avatar frames | `AvatarFrames`, `AvatarFrameService` | selection deadlines of one user |
| Notices | `ScopeNotices`, `RevocationOutbox`, `RevocationOutboxService` | pending marks of scope revocations, and the outbox of bans |

Verify with `dafny verify dfyconfig.toml`.

## How to read it

Identifiers are numbers. A token, its hash and its row stand for one another; a code stands for its
salted hash. Times are integers in milliseconds. `None` is SQL NULL. The end reason of a cancelled
call is `BY_CALLER`, and the participant status of a missed call is `UNANSWERED`, because the source
uses the words of the call statuses again.

Every invariant is called `Inv` in its module; `StepKeeps` shows that each step keeps it and
`RunKeeps` that every run does. `Legal` says what the environment guarantees: fresh identifiers, a
clock that does not run back, and query results that are what the query asks for. Beyond that:

- Session operations are single steps with a strictly advancing clock, and no row of a spared family
  is rejected by the account generation alone: exactly what the refinement needs
  (`SessionTheorems.SparingIsExact`), and less than what the callers guarantee (`GuardSuffices`).
  `SparingADeadFamily` shows what happens without it.
- The account lock is held by a login from its claim of a recovery until the login is through or the
  claim is released, so nobody else refuses, cancels or claims a recovery of the account meanwhile.
- A sweep of email codes takes the oldest rows first.
- A session row signs at most one access token. Access tokens that are neither recorded nor outlived
  by their row are outside the verdict theorem, and are covered exactly by `PruningChangesVerdict`.
- Claim times of group operations need not differ; only `FencedForEver` asks that later claims bear
  later times.
- The group id of a circle never changes.
- Two revocations of one user by an administrator are at least a millisecond apart.

## Where the code does not do what one might expect

- A one-to-one call does not always end on the first leave: the status is read before the
  participant is written. `LeaveEndsCallExactlyWhen` gives the exact condition and
  `OneToOneCallLeftOpen` a run.
- Accepting reads an ACTIVE call without locking its row, so a participant can join a group call that
  has just ended, and then stays JOINED in it: `JoinsEndedCallExactlyWhen` and `JoinedAfterTheEnd`.
- DISMISSED is not final. Another dismissal is admitted, and if that one fails for good the circle can be
  restored: `DismissedIsLeftByDismissal` and `LastFailureOpensRestore`, and the run
  `DismissedCircleIsRestored`.
- A recovery that fails late leaves the account without a trusted device, and its device then
  passes as the first one, unverified, once the session of the failed attempt has run out:
  `LateFailurePassesExactlyWhen`, and the run `LateFailureLetsTheDeviceIn`.
- The daily budget of wrong security answers adds up the challenges of the last 24 hours only. A recovery
  stays open for eight days, and wrong answers on one older than a day are not counted:
  `BudgetIsUsedExactlyWhen`, and the run `OldRecoveryEscapesTheBudget`.
- Rolling back a code that was delivered and used all the same can let the code before it in again:
  `RollbackReopensExactlyWhen`, and the run `RollbackReopensAnOlderCode`.
- A stored frame deadline is exact after equipping, after a change of grants, and after an extension.
  A membership change that does not extend leaves it as it was, even when the frame stops being
  owned, and so stops being shown, before that time: `ChangedMembershipIsShownWhile`,
  `DeadlineIsExactWhen`, and the run `UpgradeHidesBeforeTheDeadline`.

## Model

| member | source | states |
|---|---|---|
| SessionTheorems.VerdictIsTheKilledSet | src/auth/session-verifier.service.ts:114-189 | In every run from empty tables, an unexpired access token of an active account is accepted exactly when its session is not in the eagerly filled killed set and the token was not cut off by a log-out everywhere, although the tables only hold counters, one exempt family per scope and untouched rotated rows |
| SessionRefinement.StepKeeps | src/auth/refresh-token.service.ts:535-1166 | Every operation on sessions (opening, single-device opening, rotation and replay, family, device, all-but-one, everything, one session, bans, signing, sweeping) keeps the refinement between counters and killed set and the invariants behind it |
| SessionRefinement.ScopeKills | src/auth/refresh-token.service.ts:258-281 | A scope revocation with an exempt family rejects exactly the old killed set and the rows of the scope, provided the rows it exempts were not rejected by the overwritten generation alone |
| SessionTheorems.RefusedStaysRefused | src/auth/session-verifier.service.ts:179-189 | A token refused once while its account was active is refused after every further run |
| SessionTheorems.SetsOnlyGrow | src/auth/refresh-token.service.ts:1040-1166 | No operation takes a session or token out of the killed sets |
| SessionTheorems.OneUnrevokedRow | src/auth/refresh-token.service.ts:778-884 | In every run a token family has at most one unrevoked row |
| SessionTheorems.ReplayEndsFamily | src/auth/refresh-token.service.ts:778-884 | After an unexpired rotated token is presented, in every later run the family has no unrevoked row, none of its tokens rotates, and no access token of any of its rows verifies |
| SessionTheorems.SparingIsExact | src/auth/refresh-token.service.ts:640-696 | Sparing a family keeps the refinement if and only if no row of that family is rejected by the account generation alone; runs admit exactly these calls |
| SessionTheorems.LiveFamilyIsSpared | src/auth/refresh-token.service.ts:1124-1166 | A family that still has an unrevoked row meets that condition, so the guard of the callers is sufficient |
| SessionTheorems.GuardSuffices | src/auth/refresh-token.service.ts:1124-1166 | The guard of the callers, an unrevoked row in the spared family, makes every sparing call one of those the runs admit |
| SessionTheorems.SparingADeadFamily | src/auth/refresh-token.service.ts:1124-1166 | A concrete reachable state and a late call naming a session of a dead family, after which the verifier accepts a token it had refused |
| SessionTheorems.PruningChangesVerdict | src/auth/refresh-token.cleanup.ts:71-129 | A sweep changes the verdict on an unexpired token exactly when it deletes the row of a killed session whose access expiry was not recorded and whose refresh lifetime is over |
| SessionTheorems.PruningKeepsVerdict | src/auth/refresh-token.cleanup.ts:71-129 | For a token with recorded expiry, or outlived by its row, the verdict is the same before and after a sweep of any candidates |
| SessionStanding.RefusedExactlyWhen | src/auth/session-verifier.service.ts:114-189 | A token is refused exactly when its account is missing or inactive, was logged out everywhere no earlier than the token was issued, or its session is somebody else's, revoked other than by rotation, or behind an applicable generation that does not exempt its family; a token without a session row is not refused for its session |
| SessionStanding.BannedIsRefused | src/auth/session-verifier.service.ts:143 | From a ban, in every run until a reinstatement, the verifier refuses every token of the account |
| SessionStanding.BannedSessionsStayDead | src/admin-user/admin-user.service.ts:540-563 | The sessions a ban finds unrevoked never rotate or verify again in any later run, reinstated or not |
| SessionStanding.ReinstatedByTheKilledSets | src/admin-user/admin-user.service.ts:447-461 | Reinstating an account makes exactly its tokens outside the killed sets verify |
| SessionStanding.OthersKeepTheirStanding | src/admin-user/admin-user.service.ts:419-422 | A change of status changes no verdict on a token of any other account |
| SessionStanding.RevocationIsExact | src/auth/refresh-token.service.ts:535-1166 | Each operation turns an accepted token into a refused one exactly if it is meant to end the token's session (audience, family, device, all but one, everything, one session, ban), and changes no other verdict |
| SessionStanding.RevokedOnce | src/auth/refresh-token.service.ts:535-1166 | A session's row is revoked exactly when the session is ended or rotated, a log-out passing over expired rows, and keeps the time and reason of its revocation for ever after |
| SessionStanding.RevokedFor | src/auth/refresh-token.service.ts:535-1166 | Which reason each operation leaves in the rows it revokes |
| SessionStanding.SessionsKeepTheirIdentity | src/auth/refresh-token.service.ts:188-227 | No operation changes whose a session is, its audience, family, device or expiry; the access expiry only by signing for it |
| SessionStanding.NewSessionIsLive | src/auth/refresh-token.service.ts:188-227 | Whatever was revoked before, a session just opened or rotated into is unrevoked, behind no generation, and the caller's |
| SessionStanding.SweepTakesExactly | src/auth/refresh-token.cleanup.ts:71-129 | A sweep deletes exactly the candidates that are expired or were revoked thirty days ago and whose access token is over |
| RefreshTokenService.RefreshTokens.UpdateMany | src/auth/refresh-token.service.ts:535-574 | The revoking statement writes exactly the matching unrevoked rows and counts them |
| RefreshTokenService.RefreshTokens.AdvanceScopeGeneration | src/auth/refresh-token.service.ts:258-281 | The upsert advances one counter by one, overwrites the exempt family, and marks the notice pending |
| RefreshTokenService.RefreshTokens.CurrentScopeGenerations | src/auth/refresh-token.service.ts:229-256 | The four counters a new row snapshots, zero for a missing row or device |
| RefreshTokenService.RefreshTokens.CreateWithClient | src/auth/refresh-token.service.ts:188-227 | A new session row snapshots the counters current at that moment |
| RefreshTokenService.RefreshTokens.ReplaceForSingleDevice | src/auth/refresh-token.service.ts:535-574 | Advances the audience sparing the new family, revokes the rest, opens the new session |
| RefreshTokenService.RefreshTokens.RevokeAllBut | src/auth/refresh-token.service.ts:640-696 | Advances the account scope sparing the family of the current session if it is a row of the user, and revokes the others |
| RefreshTokenService.RefreshTokens.RevokeOtherSessions | src/auth/refresh-token.service.ts:1124-1166 | Nothing without a current session, else the transaction above |
| RefreshTokenService.RefreshTokens.SetSingleDeviceLogin | src/auth/refresh-token.service.ts:640-696 | The account's setting changes, switching on revokes all but the current family, switching off revokes nothing, and without the account nothing happens |
| RefreshTokenService.RefreshTokens.RotateLocked | src/auth/refresh-token.service.ts:778-884 | Which of refused, replayed and rotated happens for each row, the tables after it, and that the successor keeps family and bound device |
| RefreshTokenService.RefreshTokens.RevokeSessionFamily | src/auth/refresh-token.service.ts:1040-1093 | Family revocation and log-out, and exactly when a row was newly revoked |
| RefreshTokenService.RefreshTokens.RevokeDeviceSessions | src/auth/refresh-token.service.ts:1095-1122 | Device revocation |
| RefreshTokenService.RefreshTokens.RevokeAll | src/auth/refresh-token.service.ts:966-1009 | Log-out everywhere: rows and the account watermark |
| RefreshTokenService.RefreshTokens.RevokeSession | src/auth/refresh-token.service.ts:1022-1038 | One session, announced exactly when it was the user's and unrevoked |
| RefreshTokenService.RefreshTokens.RecordAccessTokenIssued | src/auth/refresh-token.service.ts:520-533 | Records the expiry exactly when the row is the user's |
| RefreshTokenCleanup.FindCandidates | src/auth/refresh-token.cleanup.ts:98-110 | A page holds prunable rows only, and all of them if it is not full |
| RefreshTokenCleanup.SweepSessions | src/auth/refresh-token.cleanup.ts:71-129 | Only prunable rows go, the count is right, and with the lease kept every prunable row goes unless the run stopped at its cap of 20 full batches |
| ChallengeInvariant.StepKeeps | src/auth/device-trust.service.ts:580-765 | Every interleaved write on challenges keeps the invariant on attempts, codes, submissions in flight, decisions and creation windows |
| ChallengeTheorems.AttemptsBounded | src/auth/device-trust.service.ts:689-765 | Under every interleaving the attempts of every challenge stay within 0..5, the decrement on success included, and every issued code is compared by at most five submissions |
| ChallengeTheorems.ComparesOnce | src/auth/device-trust.service.ts:689-765 | A submission that has compared does not compare again |
| ChallengeTheorems.SubmittedExactlyWhen | src/auth/device-trust.service.ts:689-720 | A submitted code is looked at exactly on an approved challenge of the device with attempts left and a code in time |
| ChallengeTheorems.SubmissionWritesExactly | src/auth/device-trust.service.ts:720-765 | A submission reserves an attempt, and with the right code consumes the challenge and gets its attempt back, exactly while the challenge is approved with the code it read |
| ChallengeTheorems.LoginsAdmitted | src/auth/device-trust.service.ts:524-541 | In every run the logins a challenge admitted are its released claims, plus one while it is consumed; without a recovery at most one |
| ChallengeTheorems.DecidedOnce | src/auth/device-trust.service.ts:626-664 | REJECTED is never left; CONSUMED is left only by releasing a recovery claim, back to PENDING |
| ChallengeTheorems.OpposedIsNeverClaimed | src/auth/device-trust.service.ts:471-507 | After a rejection, an invalidation, the use of another device, or the completion of another recovery, whatever the status it met, no later run lets any device claim the recovery |
| ChallengeTheorems.RecoveryLogin | src/auth/device-trust.service.ts:337-466 | A login admitted by recovery comes from the requesting device, at least 24 hours and less than 8 days after the request, and no rejection, invalidation, cancelling use of another device or completion of another recovery happened since the request |
| RecoveryLimit.ThreeRecoveriesAtMost | src/auth/device-trust.service.ts:316-390 | In every run, recoveries being asked for under the account lock, an account has at most three active recoveries, also when a claim is given back after others were asked for |
| ChallengeTheorems.ActiveExactlyWhen | src/auth/device-trust.service.ts:356-366 | The active recoveries are the open, unexpired challenges of the account with a recovery |
| ChallengeTheorems.WindowsBounded | src/auth/device-trust.service.ts:1044-1092 | In every run and every ten-minute window an account gets at most 20 challenges, and at most 5 from one address |
| ChallengeTheorems.LimitedExactlyWhenFull | src/auth/device-trust.service.ts:1044-1092 | In every run a login is limited if and only if the account used up 20 challenges, or 5 from this address, in the last ten minutes, deleted rows counted |
| ChallengeTheorems.ToldExactlyWhen | src/auth/device-trust.service.ts:1345-1371 | A device is told pending or approved exactly while its challenge can still be verified, in its own window or the code's, and rejected or consumed exactly when it is |
| ChallengeTheorems.DecidedExactlyWhen | src/auth/device-trust.service.ts:580-664 | An approval or a rejection takes effect exactly on an open challenge of the account, an approval only in its window, with a code for a minute and no attempts used |
| ChallengeTheorems.RecoveryGrantedExactlyWhen | src/auth/device-trust.service.ts:337-390 | A recovery is granted exactly to the device of an open, unexpired challenge with attempts left and no recovery yet, below three active ones: available after 24 hours, open for eight days |
| ChallengeTheorems.ReopenedExactlyWhen | src/auth/device-trust.service.ts:1138-1169 | An approved challenge goes back to pending exactly when its code has run out and its decision window has not |
| ChallengeTheorems.ClaimedExactlyWhen | src/auth/device-trust.service.ts:428-449 | A claim succeeds exactly for a matured, unexpired, open recovery of that account and device, and leaves it consumed; a right fallback answer exactly for an open challenge with attempts left |
| ChallengeTheorems.PruningHidesNothing | src/auth/refresh-token.cleanup.ts:135-164 | Pruning removes no row that the rate limits or the 24-hour failure budget would still count |
| ChallengeTheorems.PruneTakesExactly | src/auth/refresh-token.cleanup.ts:135-164 | Pruning takes exactly the challenges of its batch that expired more than a day ago |
| DeviceTrustService.DeviceTrust.EvaluateLogin | src/auth/device-trust.service.ts:157-260 | A login passes unverified exactly for a trusted device, the return of a trusted installation, or the first device of an account without live sessions; otherwise a matured recovery is claimed, an open challenge of the device reused, a new one with its five minutes created, or the login limited, each with exactly its writes |
| DeviceTrustService.DeviceTrust.FindMatured | src/auth/device-trust.service.ts:428-449 | The matured recovery that became available first, none only if there is none |
| DeviceTrustService.DeviceTrust.FindReusable | src/auth/device-trust.service.ts:157-260 | The newest open challenge of the device, none only if there is none |
| DeviceTrustService.DeviceTrust.RequestRecovery | src/auth/device-trust.service.ts:337-422 | Exactly when a recovery is granted or its dates repeated: 24 hours to wait, eight days in all; asking again changes nothing, three active recoveries are the limit, and every refusal writes nothing |
| DeviceTrustService.DeviceTrust.ApproveChallenge | src/auth/device-trust.service.ts:580-623 | Approval happens exactly for an open, unexpired challenge of the approver's account from a trusted device; afterwards the device that asked can submit the new code, with no attempts used, exactly until the code's minute is over, and every other challenge is as it was |
| DeviceTrustService.DeviceTrust.RejectChallenge | src/auth/device-trust.service.ts:626-664 | Allowed exactly from a trusted device; a permitted rejection leaves exactly an open challenge of the account rejected, without its code |
| DeviceTrustService.DeviceTrust.ConsumeWithCode | src/auth/device-trust.service.ts:689-765 | Undisturbed: accepted exactly for the right code of an approved challenge of the device in time with attempts left; the right code consumes it and costs no attempt, a wrong one costs exactly one and locks at the fifth, a refusal before comparing costs none |
| DeviceTrustService.DeviceTrust.VerifySecurityCodeFallback | src/auth/device-trust.service.ts:1214-1285 | Accepted exactly when the challenge is of the caller's device, pending or approved and in time, the account below ten failures in 24 hours, and the answer right; then, and only then, it is consumed. A wrong answer costs exactly one attempt and locks at the fifth; everything else changes nothing |
| FallbackBudget.StepKeeps | src/auth/device-trust.service.ts:1214-1285 | Every write on challenges, and every step of a security-code check under the account lock, keeps wrong answers and reserved codes within the attempts of their challenge |
| FallbackBudget.WrongAnswersBounded | src/auth/device-trust.service.ts:1254-1266 | In every run a challenge is charged at most five wrong answers between two approvals, each of which has cost it an attempt |
| FallbackBudget.WrongAnswersOfADay | src/auth/device-trust.service.ts:1234-1253 | In every run the challenges an account got within the last 24 hours are charged at most ten wrong answers between them since their last approvals |
| FallbackBudget.BudgetIsUsedExactlyWhen | src/auth/device-trust.service.ts:1234-1266 | A wrong answer uses up the account's budget if and only if its challenge is less than a day old |
| FallbackBudget.OldRecoveryEscapesTheBudget | src/auth/device-trust.service.ts:1234-1253 | A concrete run from empty tables in which a recovery a day old is charged five wrong answers and the account's budget is untouched |
| DeviceTrustService.DeviceTrust.CountFailures | src/auth/device-trust.service.ts:1234-1253 | The sum of attempts over the account's challenges of the last 24 hours |
| DeviceTrustService.DeviceTrust.RecordTrustOnRefresh | src/auth/device-trust.service.ts:890-928 | A refresh never revives a revoked device, enrols only one never seen, and records an alias only for the bound device |
| DeviceTrustService.DeviceTrust.Enrol | src/auth/device-trust.service.ts:836-858 | The device becomes trusted, a revoked one again |
| DeviceTrustService.DeviceTrust.RevokeOthers | src/auth/device-trust.service.ts:978-1007 | Every other device of the user loses trust, no other user's does |
| DeviceTrustService.DeviceTrust.InvalidateChallenges | src/auth/device-trust.service.ts:1187-1211 | Exactly the open challenges of the user are rejected |
| DeviceTrustService.DeviceTrust.ReleaseRecoveryClaim | src/auth/device-trust.service.ts:524-541 | Given back, a claim can be made again by the same device exactly from its maturity until the recovery expires; a challenge that was not a claimed recovery, and every other one, is as it was |
| DeviceTrustService.DeviceTrust.CancelRecoveriesForActiveDevice | src/auth/device-trust.service.ts:471-507 | Cancels exactly the open recoveries of the user's other devices, and reports them |
| AuthFlows.RecoveryLeavesOneSession | src/auth/auth.service.ts:462-503 | After a completed recovery the verifier accepts, of all access tokens of the account, those of the new session and no others |
| AuthFlows.RecoveryShutsOutForEver | src/auth/auth.service.ts:462-503 | The other sessions' tokens are refused in every later run |
| AuthFlows.RecoveryLeavesOneDevice | src/auth/auth.service.ts:462-503 | After a completed recovery the requesting device is the only trusted one, no challenge of the account is open, and no other account changed |
| AuthFlows.FailedRecoveryIsClaimable | src/auth/auth.service.ts:417-430 | Whichever step of a recovery fails, the claim is given back and can be made again until the recovery expires |
| AuthFlows.FailedRecoveryDoesNotPass | src/auth/auth.service.ts:417-430 | A failed attempt that got as far as opening its session never lets the device log in as known or as the first one while that session lives, so the retry is a recovery again |
| AuthFlows.LateFailurePassesExactlyWhen | src/auth/auth.service.ts:417-430 | When the failure came after the other devices were shut out, the device passes as the first one if and only if the session of the failed attempt has run out |
| AuthExample.LateFailureLetsTheDeviceIn | src/auth/auth.service.ts:417-430 | A concrete run from an account without sessions: a recovery fails after shutting the other devices out, and once its session has run out the device passes as the first one, unverified |
| AuthFlows.LogoutAllRefusesEverything | src/auth/auth.service.ts:1172-1188 | After logging out everywhere no access token signed before for the account verifies |
| AuthService.Authentication.HasLiveAppSession | src/auth/device-trust.service.ts:1028-1042 | Exactly whether the account has an unrevoked, unexpired APP session |
| AuthService.Authentication.CreateAppSession | src/auth/refresh-token.service.ts:576-619 | A single-device account has every other app session revoked, another keeps all its sessions; the new session is bound to the device it was opened for, or to none |
| AuthService.Authentication.SignAccessToken | src/auth/auth.service.ts:2126-2204 | Records the expiry on the row if that works, and signs in any case |
| AuthService.Authentication.OpenAndRevokeOthers | src/auth/auth.service.ts:462-503 | The first three steps of a recovery, or as many as work |
| AuthService.Authentication.CompleteRecoveryLogin | src/auth/auth.service.ts:462-503 | The state after a recovery that completes, or fails after any of its steps |
| AuthService.Authentication.FinishLogin | src/auth/auth.service.ts:899-939 | An unverified login opens the session and signs its token |
| AuthService.Authentication.RecoverOrRelease | src/auth/auth.service.ts:417-430 | A claimed recovery is completed, or its claim given back after the step that failed |
| AuthService.Authentication.Login | src/auth/auth.service.ts:357-432 | Which devices log in unverified, with a session bound to the device they sent, or to none; that a known one is trusted afterwards and has every open recovery of the other devices rejected; that a matured recovery of a device that does not pass is always claimed, the state after it completes or fails, and that all else writes no session |
| AuthService.Authentication.Refresh | src/auth/auth.service.ts:964-1096 | Tokens exactly for a rotated token of an active non-administrator; a missing account gets none; the blocked lose every session; a trusted bound device, when cancelling works, rejects exactly the open recoveries of the account's other devices and reports them, and otherwise none is cancelled; no revoked device is revived |
| CallInvariant.StepKeeps | src/call/call.service.ts:687-952 | Every statement of every request in flight keeps the invariant on calls, participants, records and requests |
| CallTheorems.QuietCallsAreAttended | src/call/call.service.ts:687-909 | In every run, with no reject or leave between its write and its ending, a live call has a JOINED participant and a RINGING one an INVITED participant |
| CallTheorems.NobodyIsInTwoCalls | src/call/call.service.ts:1385-1405 | In every run a user is INVITED or JOINED in at most one RINGING or ACTIVE call, acceptances in flight between read and write included |
| CallTheorems.CreatedExactlyWhen | src/call/call.service.ts:1385-1405 | A call is created if and only if none of its participants is INVITED to or JOINED in a call that is RINGING or ACTIVE |
| CallTheorems.OverCallsKeepNobodyBusy | src/call/call.service.ts:1385-1405 | In every run, whose calls are all over can be called, whatever status their seats were left in; the new call rings with exactly its participants |
| CallTheorems.OverForEver | src/call/call.service.ts:920-935 | Once over, a call keeps its status, end reason and record in every later run |
| CallTheorems.OneRecordPerEnding | src/call/call.service.ts:1564-1605 | In every run a live call has no end reason and no record, an ended one exactly one record with its end reason, whichever of the six writers won |
| CallTheorems.EndedFromOutside | src/call/call.service.ts:1564-1685 | Cancelling, expiry and failure end exactly a RINGING call, a finished room a RINGING or ACTIVE one, each with its own status and reason, and no other call |
| CallTheorems.EndedFromInside | src/call/call.service.ts:687-952 | Of the statements in flight only the last reject and the last leave end a call, from which statuses, and with which status and reason |
| CallTheorems.AcceptingActivates | src/call/call.service.ts:596-645 | Accepting makes exactly a RINGING call ACTIVE and leaves every other as it is |
| CallTheorems.SeatsMoveForward | src/call/call.service.ts:596-645 | In every run a participant moves only from INVITED onwards or from JOINED to LEFT |
| CallTheorems.NobodyJoinsAnEndedCall | src/call/call.service.ts:596-645 | Whoever is not JOINED when a call is over, and has no acceptance in flight that read it ACTIVE, never becomes JOINED in it |
| CallTheorems.JoinsEndedCallExactlyWhen | src/call/call.service.ts:596-645 | A statement makes a participant JOINED in a call that is over if and only if it is the write of an acceptance that read the call ACTIVE |
| CallTheorems.JoinedAfterTheEnd | src/call/call.service.ts:632-638 | A concrete run from empty tables in which a participant joins a group call after its end, and stays JOINED in it |
| CallTheorems.LeaveEndsCallExactlyWhen | src/call/call.service.ts:821-909 | A leave that has written its row ends a live call if and only if it is one-to-one and was read ACTIVE, or nobody is JOINED any more |
| CallTheorems.OneToOneCallLeftOpen | src/call/call.service.ts:843-848 | A concrete run in which the first leave of a one-to-one call leaves it ACTIVE with nothing in flight |
| LockOrder.SortSorts | src/call/call.service.ts:1407-1416 | The lock order is sorted and a permutation of the participants |
| LockOrder.RunKeeps | src/call/call.service.ts:1407-1416 | No lock is held twice in any run of transactions |
| LockOrder.NoDeadlock | src/call/call.service.ts:1407-1416 | No run of transactions that take their locks in this order ever has a cycle of waits |
| LockOrder.Progress | src/call/call.service.ts:1407-1416 | While transactions are open, one of them is not waiting |
| CallService.CompleteIsARun | src/call/call.service.ts:687-909 | A request left alone is a legal run of its statements, so the theorems apply to the methods |
| CallService.AloneEnds | src/call/call.service.ts:687-909 | A request left alone finishes within its four statements |
| CallService.RejectAlone | src/call/call.service.ts:687-772 | The net effect of an undisturbed reject: the seat, and the ending if it rang and nobody is left |
| CallService.LeaveAlone | src/call/call.service.ts:821-952 | The net effect of an undisturbed leave |
| CallService.AcceptAlone | src/call/call.service.ts:596-645 | The net effect of an undisturbed accept: the participant JOINED and the call ACTIVE |
| CallService.Calls.LockParticipantsForCall | src/call/call.service.ts:1407-1416 | Acquires exactly the given users, in sorted order |
| CallService.Calls.AssertNotBusy | src/call/call.service.ts:1385-1405 | Not busy exactly when no seat of the users in a RINGING or ACTIVE call is INVITED or JOINED |
| CallService.Calls.FindIdempotentCreateCall | src/call/call.service.ts:1485-1505 | A live call that the initiator created with the same key, none only if there is none |
| CallService.Calls.SeatParticipants | src/call/call.service.ts:403-434 | One seat a participant: the initiator JOINED, the others INVITED |
| CallService.Calls.CreateCallSession | src/call/call.service.ts:387-434 | A request repeated with its key while the call lives gets that call and changes nothing; another creates the call and its seats exactly when no participant is invited to or joined in a call that rings or is active, and is refused as busy otherwise; the locks are released |
| CallService.Calls.EndIf | src/call/call.service.ts:1564-1575 | The conditional write wins exactly from the given statuses, and only the winner records |
| CallService.Calls.UpdateSeats | src/call/call.service.ts:1576-1585 | Moves exactly the participants of one call in one status |
| CallService.Calls.ExpireRingingCallAsMissed | src/call/call.service.ts:1559-1605 | A ringing call becomes MISSED with its invitees, any other stays |
| CallService.Calls.FailRingingCallAsError | src/call/call.service.ts:1608-1640 | A ringing call becomes FAILED, any other stays |
| CallService.Calls.EndLiveKitFinishedCall | src/call/call.service.ts:1643-1685 | A live call ends and its joined participants leave |
| CallService.Calls.Cancel | src/call/call.service.ts:955-1044 | Who may cancel, and that success leaves the call CANCELED |
| CallService.Calls.Accept | src/call/call.service.ts:521-645 | Exactly when accepting succeeds: invited to a live, unexpired call with the friendship or membership still there, or already joined in a live one; participant and call change together or not at all |
| CallService.Calls.EndRingingCallIfNoInviteesRemain | src/call/call.service.ts:1444-1467 | Ends a call read as ringing exactly when nobody is invited |
| CallService.Calls.Reject | src/call/call.service.ts:687-772 | Reject as the steps of the model, repeated rejects included |
| CallService.Calls.Leave | src/call/call.service.ts:821-909 | Leave as the steps of the model |
| GroupOperationInvariant.StepKeeps | src/admin-community/admin-community.service.ts:693-963 | Every request, claim, load, settlement, recovery, crash, creation and dissolution keeps queue and circles in step |
| GroupOperationTheorems.QueueAndCircleInStep | src/admin-community/admin-community.service.ts:693-862 | In every run a circle is DISABLING if and only if a MUTE or DISMISS of it is in progress, and RESTORING if and only if an UNMUTE is |
| GroupOperationTheorems.OneOperationPerGroup | src/admin-community/admin-community.service.ts:1009-1023 | In every run a group has at most one operation in progress |
| GroupOperationTheorems.RestoreAcceptsTheDisabled | src/admin-community/admin-community.service.ts:767-862 | In every reachable state a new restore request is accepted if and only if the circle is DISABLED or SYNC_FAILED and its group is not busy |
| GroupOperationTheorems.DisableAcceptsTheLiving | src/admin-community/admin-community.service.ts:767-862 | In every reachable state a new disable request is accepted if and only if the circle is not deleted and its group is not busy |
| GroupOperationTheorems.RetryChangesNothing | src/admin-community/admin-community.service.ts:718-732 | Repeating any request, accepted or refused, changes nothing more |
| GroupOperationTheorems.RestoreBringsBack | src/admin-community/admin-group-operation.processor.ts:270-284 | Whatever happened in between, a finished restoration gives a circle the very row it had when it was last not deleted |
| GroupOperationTheorems.SettledByTheHolder | src/admin-community/admin-group-operation.processor.ts:152-189 | Only a worker whose own claim time is the current one settles an operation |
| GroupOperationTheorems.FencedWorkerIsHarmless | src/admin-community/admin-group-operation.processor.ts:152-252 | A worker whose claim no longer stands changes nothing |
| GroupOperationTheorems.FencedForEver | src/admin-community/admin-group-operation.processor.ts:254-262 | A recovered or settled claim never stands again while later claims bear later times |
| GroupOperationTheorems.OneEffect | src/admin-community/admin-group-operation.processor.ts:152-252 | In every run an operation has taken effect once if it is settled, and not at all otherwise |
| GroupOperationTheorems.SettledForEver | src/admin-community/admin-group-operation.processor.ts:152-252 | The row of a settled operation never changes again |
| GroupOperationTheorems.DismissedIsLeftByDismissal | src/admin-community/admin-community.service.ts:693-765 | A DISMISSED circle leaves that state exactly when another dismissal of it is queued |
| GroupOperationTheorems.LastFailureOpensRestore | src/admin-community/admin-group-operation.processor.ts:191-252 | The last failed attempt of any operation on a circle, a second dismissal included, makes restoring admissible |
| GroupOperationEffects.GroupRequestQueuedExactlyWhen | src/admin-community/admin-community.service.ts:693-765 | A request for a group is queued if and only if its key is new, no operation of the group is in progress, and a linked circle is only dismissed; the operation and the circle as they are then |
| GroupOperationEffects.CircleRequestAcceptedExactlyWhen | src/admin-community/admin-community.service.ts:767-862 | A request about a circle is accepted if and only if its key is new, its group free, and the circle not deleted and not DISABLED, to disable it, or deleted and DISABLED or SYNC_FAILED with its provenance, to restore it |
| GroupOperationEffects.CircleRequestQueued | src/admin-community/admin-community.service.ts:767-862 | An accepted request for a circle with a group queues the operation and marks the circle, with actor, time and reason |
| GroupOperationEffects.CircleChangedAlone | src/admin-community/admin-community.service.ts:864-963 | An accepted request for a circle without a group changes the circle on the spot and records the key |
| GroupOperationEffects.CompletionLeaves | src/admin-community/admin-group-operation.processor.ts:152-189 | A worker whose claim stands leaves the circle DISABLED with all else kept after a MUTE, DISMISSED and deleted after a DISMISS, and active without provenance after an UNMUTE; the operation SUCCEEDED, and nothing else changed |
| GroupOperationEffects.FailureLeaves | src/admin-community/admin-group-operation.processor.ts:191-252 | A failed operation is PENDING again, due between one second and five minutes later, or after the fifth attempt FAILED with its circle SYNC_FAILED |
| GroupOperationEffects.BackoffDoubles | src/admin-community/admin-group-operation.processor.ts:191-252 | The back-off is one second, doubles with each attempt, and stops at five minutes |
| GroupOperationEffects.BecomesDismissedExactlyWhen | src/admin-community/admin-group-operation.processor.ts:270-284 | Over every step, a circle becomes DISMISSED if and only if the step completes a standing DISMISS of it |
| GroupOperationEffects.BecomesDisabledExactlyWhen | src/admin-community/admin-group-operation.processor.ts:270-284 | Over every step, a circle becomes DISABLED if and only if the step completes a standing MUTE of it, or is the accepted MUTE of a circle without a group |
| GroupOperationEffects.BecomesFailedExactlyWhen | src/admin-community/admin-group-operation.processor.ts:191-252 | Over every step, a circle becomes SYNC_FAILED if and only if the fifth attempt of an operation on it fails |
| GroupOperationEffects.TouchedCirclesSayWhy | src/admin-community/admin-community.service.ts:767-963 | In every run a circle that is not ACTIVE is deleted and says when, by whom and why; an ACTIVE one says nothing |
| GroupOperationEffects.MutedIsRestorable | src/admin-community/admin-community.service.ts:767-862 | Right after a completed MUTE the group is free and a new request to restore the circle is queued |
| GroupOperationEffects.StaleClaimComesBack | src/admin-community/admin-group-operation.processor.ts:254-262 | Recovery gives up exactly the claims older than five minutes, due at once and with their attempts kept |
| GroupOperationEffects.DissolvedStaysDissolved | src/admin-community/admin-community.service.ts:767-862 | In every run a circle dissolved by its owner is neither disabled nor restored, unless its group is dismissed |
| GroupOperationExample.DismissedCircleIsRestored | src/admin-community/admin-community.service.ts:693-862 | A concrete run from empty tables: a circle is dismissed, dismissed again in vain five times, and restored |
| GroupOperationService.ShiftProcesses | src/admin-community/admin-group-operation.processor.ts:67-103 | One operation processed undisturbed is the claim, load, settle and leave of one worker |
| GroupOperationService.Administration.AssertNoActiveOperation | src/admin-community/admin-community.service.ts:1009-1023 | Busy exactly when an operation of the group is in progress |
| GroupOperationService.Administration.RequestGroupOperation | src/admin-community/admin-community.service.ts:693-765 | The tables after the request, and that it is accepted exactly when they change |
| GroupOperationService.Administration.QueueCircleOperation | src/admin-community/admin-community.service.ts:767-862 | The tables after disabling or restoring, queued or local, and exactly when it is accepted |
| GroupOperationService.Administration.ApplyLocalCircleOperation | src/admin-community/admin-community.service.ts:864-963 | A circle without a group changes at once, once per key |
| GroupOperationService.Administration.FindDue | src/admin-community/admin-group-operation.processor.ts:67-73 | The due operation with the earliest next attempt, the first created of those, none only if none is due |
| GroupOperationService.Administration.ProcessOne | src/admin-community/admin-group-operation.processor.ts:67-103 | Processes one due operation by the outcome of its execution, or nothing if none is due |
| GroupOperationService.Administration.CompleteOne | src/admin-community/admin-group-operation.processor.ts:152-189 | Settles and updates the circle only while the claim stands |
| GroupOperationService.Administration.FailOne | src/admin-community/admin-group-operation.processor.ts:191-252 | Puts off with back-off, or fails for good after five attempts, only while the claim stands |
| GroupOperationService.Administration.RecoverStale | src/admin-community/admin-group-operation.processor.ts:254-262 | Afterwards no claim is older than five minutes, the operations that were are PENDING, unclaimed and due, and every other operation, every circle and every claim that is not too old is as it was |
| GroupOperationService.Administration.ProcessAvailable | src/admin-community/admin-group-operation.processor.ts:49-65 | A tick does nothing while another runs; else it moves along a legal run and stops only after ten operations or when none is due |
| AuditedPaging.TopIs | src/admin-im/admin-im.service.ts:307-318 | Ordering by height and limiting yields the greatest heights in strictly descending order, everything cut off lies below |
| AuditedPaging.SurvivorsAre | src/admin-im/admin-im.service.ts:122-152 | The recheck returns exactly the candidates that may still be shown, in order |
| AuditedPaging.HiddenExactlyWhen | src/admin-im/admin-im.service.ts:38-81 | A message is hidden exactly when it is deleted, recalled, cleared, burnt or filtered out |
| AuditedPaging.ArchivedHiddenExactlyWhen | src/admin-im/admin-im.service.ts:38-121 | An archived message is hidden exactly when its term is over or it is filtered out |
| AuditedPaging.FilteredOutExactlyWhen | src/admin-im/admin-im.service.ts:38-121 | A message is filtered out exactly for its sender, its time, or for lacking the text asked for |
| AuditedPaging.NothingIsSkipped | src/admin-im/admin-im.service.ts:159-168 | A message shown at scan and recheck is on the page or below the next cursor |
| AuditedPaging.LastPageExactlyWhen | src/admin-im/admin-im.service.ts:159-168 | A page has no cursor if and only if its scan found no more messages than it may hold, whatever the recheck left |
| AuditedPaging.PagesDescend | src/admin-im/admin-im.service.ts:296-338 | Over all pages heights strictly descend, so no message appears twice, whatever the store does between reads |
| AuditedPaging.ReturnedExactlyOnce | src/admin-im/admin-im.service.ts:296-338 | A message shown throughout is returned exactly once by a walk from the top to the end |
| AuditedPaging.ReturnedWasShown | src/admin-im/admin-im.service.ts:122-152 | Nothing is returned that its page's locked recheck could not show |
| AuditedPaging.WalkEnds | src/admin-im/admin-im.service.ts:159-168 | Below a cursor the walk ends within as many pages as its height, whatever is added or removed |
| AuditedPaging.WalkFromTheTopEnds | src/admin-im/admin-im.service.ts:159-168 | From the top it ends within one page more than the greatest height first scanned |
| AdminImService.AdminIm.Messages | src/admin-im/admin-im.service.ts:265-372 | The page as computed stepwise, and which refusal is given otherwise; one audit entry with the count for each page, none and no rows for a refused read |
| EmailCodeTheorems.StepKeeps | src/auth/email-verification.service.ts:115-318 | Every statement of requests, deliveries, rollbacks, verifications and sweeps keeps spacing and counts |
| EmailCodeTheorems.VerifiedAtMostOnce | src/auth/email-verification.service.ts:311-318 | In every run each code verifies at most once |
| EmailCodeTheorems.GuessesAreBounded | src/auth/email-verification.service.ts:262-309 | In every run the attempts of a row are the wrong guesses compared with it, one each, and with never more than n verifications of it in flight there are fewer than 5 + n, its row deleted or not |
| EmailCodeTheorems.RowsAreSpaced | src/auth/email-verification.service.ts:169-198 | In every run any two surviving rows were created at least 60 seconds apart |
| EmailCodeTheorems.DeliveryLeaves | src/auth/email-verification.service.ts:204-218 | A delivered code takes away exactly the unconsumed rows that are older |
| EmailCodeTheorems.ReportedOnce | src/auth/email-verification.service.ts:200-240 | Once the outcome of a delivery was reported, no later report about it changes anything in any run |
| EmailCodeTheorems.AcceptsTheNewestUsable | src/auth/email-verification.service.ts:262-318 | An undisturbed verification accepts exactly the secret of the newest row, provided that row is unconsumed, unexpired and below five attempts |
| EmailCodeTheorems.AnswersExactlyWhen | src/auth/email-verification.service.ts:262-301 | The code that counts is the newest row, if it is unconsumed, in time and below five attempts |
| EmailCodeTheorems.ConsumingClosesOlderCodes | src/auth/email-verification.service.ts:289-301 | After a code is consumed no older code verifies in any later run in which its delivery is not rolled back, sweeps included |
| EmailCodeTheorems.RollbackReopensExactlyWhen | src/auth/email-verification.service.ts:229-259 | After a rollback another code is accepted if and only if it is unconsumed, unexpired, below five attempts, and no other row than the one rolled back was newer |
| EmailCodeTheorems.RollbackReopensAnOlderCode | src/auth/email-verification.service.ts:229-259 | A concrete run from empty tables in which a code is used, its delivery is reported as failed afterwards, and the code before it is accepted |
| EmailCodeTheorems.RollbackLeavesNoTrace | src/auth/email-verification.service.ts:229-259 | Whatever requests, deliveries, sweeps and verifications happen while a new code is out, in flight or not, rolling it back leaves exactly the rows of the run without it, a legal run in which the verifications that picked the new code are abandoned |
| EmailCodeTheorems.GuessesMissEarlierCodes | src/auth/email-verification.service.ts:229-318 | With only verifications in between, and none past its newest check when the new code was created, rolling back restores exactly the earlier rows: no guess was counted on an earlier code |
| EmailCodeTheorems.PruningChangesNoAnswer | src/auth/refresh-token.cleanup.ts:211-256 | A sweep changes neither the answer to any secret nor the cooldown |
| EmailCodeTheorems.PruneLeaves | src/auth/refresh-token.cleanup.ts:211-256 | A sweep takes away exactly the rows of its batch that expired more than a day ago |
| EmailVerificationService.EmailVerification.FindNewest | src/auth/email-verification.service.ts:293-298 | A newest row of the given ones, none only if there is none |
| EmailVerificationService.EmailVerification.IsCoolingDown | src/auth/email-verification.service.ts:129-138 | Cooling down exactly when some row is younger than 60 seconds |
| EmailVerificationService.EmailVerification.RequestCode | src/auth/email-verification.service.ts:115-259 | Exactly when a request is limited or silently skipped, and the rows after delivery, cleanup, failed delivery and rollback |
| EmailVerificationService.EmailVerification.VerifyCode | src/auth/email-verification.service.ts:262-318 | Accepts exactly the secret of the newest row if that is usable with attempts left, which it then consumes; a wrong guess at it costs it exactly one attempt; otherwise nothing changes |
| AvatarFrames.AvailableUntil | src/avatar-frame/avatar-frame.service.ts:642-651 | The latest end among the sources: attained by one, not exceeded by any |
| AvatarFrames.GrantSourcesAre | src/avatar-frame/avatar-frame.service.ts:627-639 | The grants of the frame in force, and no others, are sources |
| AvatarFrames.EquippedIsShownUntilItsDeadline | src/avatar-frame/avatar-frame.service.ts:345-422 | Accepted at n and left alone, the frame is shown at t from n on exactly when t is before the stored deadline, a repeated equip included |
| AvatarFrames.RecomputedIsShownUntilItsDeadline | src/avatar-frame/avatar-frame.service.ts:483-560 | After a grant is added or revoked, what is selected is shown exactly until its new deadline |
| AvatarFrames.RecomputedLastsAsLongAsOwned | src/avatar-frame/avatar-frame.service.ts:483-560 | When a grant is made or revoked, a running selection that is still owned stays shown for exactly as long as it is owned, and any other ends |
| AvatarFrames.GrantsChangeExactlyWhen | src/avatar-frame/avatar-frame-admin.service.ts:169-344 | A grant is made exactly for a frame in use with time to run, and revoked exactly once |
| AvatarFrames.ExtendedIsShownUntilItsDeadline | src/avatar-frame/avatar-frame.service.ts:426-481 | A membership that extends a selection leaves it shown exactly until a deadline no earlier than before |
| AvatarFrames.ExtendedLastsAsLongAsOwned | src/avatar-frame/avatar-frame.service.ts:426-481 | Shown at an extending change of membership and still owned, a frame stays shown for exactly as long as it is owned |
| AvatarFrames.ChangedMembershipIsShownWhile | src/avatar-frame/avatar-frame.service.ts:426-481 | After any change of membership, extending or not, the frame is shown at t exactly while the stored deadline and the latest end of the sources that remain both lie after t |
| AvatarFrames.DeadlineIsExactWhen | src/avatar-frame/avatar-frame.service.ts:426-481 | So a running stored deadline is exact if and only if sources remain and the latest of them ends no earlier |
| AvatarFrames.UpgradeHidesBeforeTheDeadline | src/membership/membership-admin.service.ts:321-335 | A concrete run: an unlimited membership replaced by a higher, limited one, after which the frame goes at the end of the membership while the stored deadline says never |
| AvatarFrames.MembershipNeverShortens | src/avatar-frame/avatar-frame.service.ts:426-481 | No run of membership changes brings the deadline forward |
| AvatarFrames.LapsedIsNeverShown | src/avatar-frame/avatar-frame.service.ts:653-655 | In every run of grants, revocations, membership and asset changes, a selection past its deadline is never shown again until the user equips |
| AvatarFrames.ShownIsOwned | src/avatar-frame/avatar-frame.service.ts:137-172 | What is shown has a membership or grant in force |
| AvatarFrames.DeactivatedIsHidden | src/avatar-frame/avatar-frame.service.ts:137-172 | A changed asset is shown exactly while it is active, in time and owned |
| AvatarFrameService.Wardrobe.ResolveSources | src/avatar-frame/avatar-frame.service.ts:609-640 | The loop yields the membership source and the grants in force, in order |
| AvatarFrameService.Wardrobe.ToPublicAppearance | src/avatar-frame/avatar-frame.service.ts:137-172 | The frame appears exactly when it is shown |
| AvatarFrameService.Wardrobe.Equip | src/avatar-frame/avatar-frame.service.ts:345-422 | The selection after equipping or clearing, and no change on every refusal |
| AvatarFrameService.Wardrobe.GrantMembership | src/membership/membership-admin.service.ts:202-217 | Changes the membership and extends the selection in one go |
| AvatarFrameService.Wardrobe.ExtendSelectionContinuity | src/avatar-frame/avatar-frame.service.ts:426-481 | The deadline after a membership change |
| AvatarFrameService.Wardrobe.RecomputeSelectionContinuity | src/avatar-frame/avatar-frame.service.ts:483-560 | The selection after a change of grants |
| AvatarFrameService.Wardrobe.GrantFrame | src/avatar-frame/avatar-frame-admin.service.ts:169-249 | Exactly when a grant is made, a repeated request is answered without a change, and a key used for another request is refused; one grant a key; the selection is recomputed |
| AvatarFrameService.Wardrobe.RevokeFrame | src/avatar-frame/avatar-frame-admin.service.ts:287-344 | Revoked exactly once, the same operator repeating the same reason is answered without a change, anyone else refused; the selection is recomputed |
| ScopeNotices.StepKeeps | src/auth/refresh-token.service.ts:413-497 | Every advance, read, announcement, clearing and loss keeps notices faithful to their rows |
| ScopeNotices.RevocationIsPending | src/auth/refresh-token.service.ts:258-281 | Every revocation of a scope advances its generation by one and leaves it pending |
| ScopeNotices.ClearedMeansAnnounced | src/auth/refresh-token.service.ts:413-497 | In every run a row whose pending mark is cleared had its current generation, with its current exempt family, announced |
| ScopeNotices.NoticeAlone | src/auth/refresh-token.service.ts:413-442 | Left alone a notifier announces what the row says and clears its mark |
| ScopeNotices.UndeliveredStaysPending | src/auth/refresh-token.service.ts:413-442 | A notice that does not get through, or is lost, leaves its row pending |
| ScopeNotices.OvertakenClearsNothing | src/auth/refresh-token.service.ts:421-431 | A notice overtaken by a later revocation clears nothing |
| ScopeNotices.Notifications.NotifyPendingScopeRevocations | src/auth/refresh-token.service.ts:443-497 | A pass announces and clears exactly the rows of its page that got through, and counts them |
| RevocationOutbox.StepKeeps | src/admin-user/session-revocation-outbox.processor.ts:26-109 | Every change of status and every statement of every worker keeps the outbox accounts |
| RevocationOutbox.NoRevocationIsLost | src/admin-user/admin-user.service.ts:540-563 | In every run, while a user is banned the last revocation is in the outbox, was announced, or has expired |
| RevocationOutbox.ReactivationEmptiesTheQueue | src/admin-user/admin-user.service.ts:447-461 | In every run an active user has no row in the outbox |
| RevocationOutbox.RowLeavesForAReason | src/admin-user/session-revocation-outbox.processor.ts:41-76 | In every run a row disappears or is replaced only when its own revocation was announced, it expired, the user was reactivated, or a later revocation took its place |
| RevocationOutbox.SlowWorkerIsHarmless | src/admin-user/session-revocation-outbox.processor.ts:69-89 | A worker carrying another revocation leaves the row as it is |
| RevocationOutbox.OneClaimWins | src/admin-user/session-revocation-outbox.processor.ts:49-60 | Of two workers that read the same row, one claims it and the other finds it changed |
| RevocationOutbox.StatusChangesExactlyWhen | src/admin-user/admin-user.service.ts:395-461 | Which changes of status are made; a ban queues the revocation afresh, a reinstatement empties the queue |
| RevocationOutbox.ReadsExactlyTheDue | src/admin-user/session-revocation-outbox.processor.ts:26-47 | A worker takes up exactly the rows that are due or expired |
| RevocationOutbox.ClaimsAlone | src/admin-user/session-revocation-outbox.processor.ts:40-68 | Left alone it drops an expired row, or claims any other for 55 seconds |
| RevocationOutbox.ChangedRowIsNotClaimed | src/admin-user/session-revocation-outbox.processor.ts:49-63 | A worker whose row changed in any way since it read it claims nothing |
| RevocationOutbox.DeliversAlone | src/admin-user/session-revocation-outbox.processor.ts:69-76 | Left alone after its claim it announces the revocation and deletes the row |
| RevocationOutbox.PutsOffAlone | src/admin-user/session-revocation-outbox.processor.ts:77-105 | Left alone after a claim that did not get through it counts one attempt and waits its back-off |
| RevocationOutbox.LostClaimPutsNothingOff | src/admin-user/session-revocation-outbox.processor.ts:77-90 | A worker that lost its claim puts nothing off |
| RevocationOutbox.BackoffDoubles | src/admin-user/session-revocation-outbox.processor.ts:77-105 | The back-off is a minute, doubles with each attempt after the first, and stops at an hour |
| RevocationOutbox.WorkersGoInOrder | src/admin-user/session-revocation-outbox.processor.ts:40-105 | A worker claims before it announces and announces before it deletes |
| RevocationOutbox.RowsAreRemovedInOrder | src/admin-user/session-revocation-outbox.processor.ts:40-76 | Apart from changes of status, a row goes only by a worker of that user that read and did not claim it, or announced it |
| RevocationOutbox.AnnouncedByItsHolder | src/admin-user/session-revocation-outbox.processor.ts:69-76 | A revocation is announced only by a worker that claimed its row |
| RevocationOutboxService.RevocationQueue.UpdateStatus | src/admin-user/admin-user.service.ts:323-476 | Exactly which requests are admitted, roles and transitions written out, and status, outbox and announcement after each, announcing or deleting failing or not; while there is an available super administrator, there is one afterwards |
| RevocationOutboxService.RevocationQueue.CompleteSessionRevocation | src/admin-user/admin-user.service.ts:508-538 | Done exactly when announced; the row of this revocation goes if the deletion works, and is left to the processor if not |
| RevocationOutboxService.RevocationQueue.ProcessOne | src/admin-user/session-revocation-outbox.processor.ts:40-105 | A row is dropped when expired, deleted when announced, and otherwise put off with one more attempt and its back-off |
| RevocationOutboxService.RevocationQueue.ProcessPending | src/admin-user/session-revocation-outbox.processor.ts:26-109 | After a batch exactly the expired and announced rows of the batch are gone, its others put off and all else untouched; what was announced, and the number completed |

## Left out

- SessionTheorems.VerdictIsTheKilledSet: leaves out the column that refuses one row's access tokens, which no modelled code sets, and the verdict for failed lookups.
- SessionRefinement.StepKeeps: a ban advances no generation, so the killed set of a ban holds the unrevoked rows only; rotated ancestors are refused by the account status while the ban lasts, and by the Redis marker.
- DeviceTrustService.DeviceTrust.VerifySecurityCodeFallback: the outcome of comparing the answer is an input.
- FallbackBudget.WrongAnswersOfADay: an approval clears the attempts of its challenge, and with them its share of the budget; wrong answers before it are not counted by the code or here.
- ChallengeTheorems.RecoveryLogin: the account lock ends with its transaction after 30 seconds at the latest; a login that outlives its own lock is not modelled.
- CallService.Calls.CreateCallSession: the rooms created and deleted outside the transaction are left out, and so are the checks repeated before it.
- CallService.Calls.Accept: whether friendship or group membership still holds is an input.
- EmailCodeTheorems.GuessesAreBounded: how many verifications are in flight at once is limited elsewhere, so the number is a parameter.
- RevocationOutboxService.RevocationQueue.UpdateStatus: the audit row is left out, and so are roles changed meanwhile and users deleting themselves; the rows revoked by a ban are part of the sessions.
- AvatarFrameService.Wardrobe.GrantFrame: audit rows are left out; whether the users exist, and whether the key belongs to another user's grant, are inputs.
- AdminImService.AdminIm.Messages: whether the actor may read and whether the conversation is a persisted one are inputs.
- AuthService.Authentication.Login: passwords, administrator lockouts, the verification switch of preproduction, and logging are left out; which step fails is an input, and steps do not interleave, as the account lock has it.
- AuthFlows.LogoutAllRefusesEverything: the devices and challenges that logging out everywhere also touches are those of the recovery.
- LockOrder.NoDeadlock: advisory locks on users only; row locks are left out, and so are collisions of the lock hash.
- GroupOperationService.Administration.ProcessAvailable: seats, mutes and sockets of the chat side appear only as the outcome of executing an operation.
- AuditedPaging.ReturnedExactlyOnce: message bodies, media links and their expiry are left out.
- EmailVerificationService.EmailVerification.RequestCode: the fixed code is off, the two cooldown checks happen at the same instant, and one clock serves application and database.
- ScopeNotices.ClearedMeansAnnounced: delivery means that the publisher did not report failure.
- Hashing, signing, Redis, sockets, push, mail and LiveKit: only "it worked" or "it did not" is kept, as an input.
- The per-session markers in Redis and their lease sweep.
- Membership prices, calendars and benefits: a membership is a level and an expiry.
- Lists, dashboards, search, controllers, DTOs, guards, seeds and scripts: plumbing or easy predicates.
