/** Every step keeps the invariant of ChallengeRuns. */
module ChallengeInvariant {
  import opened Common
  import opened LoginChallenges
  import opened ChallengeRuns

  // ----- Steps that decide nothing in favour of the new device

  /** No new code, no attempt given back while the code stays, no login and no release. */
  predicate Kept(c: Challenge, c': Challenge) {
    && c'.user == c.user && c'.device == c.device && c'.ip == c.ip && c'.createdAt == c.createdAt
    && (c'.code.None? || (c'.code == c.code && c'.attempts >= c.attempts))
    && (c'.status == CONSUMED <==> c.status == CONSUMED)
    && (c.recoveryAvailableAt.Some? ==> c'.recoveryAvailableAt == c.recoveryAvailableAt)
  }

  ghost predicate Quiet(w: World, w': World) {
    && w'.t.Keys <= w.t.Keys
    && (forall id | id in w'.t :: Kept(w.t[id], w'.t[id]))
    && (forall id | id in w.t && id !in w'.t :: w.t[id].createdAt < w.now - RETENTION_MS)
    && w' == w.(t := w'.t, now := w'.now) && w'.now >= w.now
  }

  lemma QuietCodes(w: World, w': World)
    requires Codes(w) && Quiet(w, w')
    ensures Codes(w')
  {
  }

  lemma QuietDecisions(w: World, w': World)
    requires Decisions(w) && Quiet(w, w')
    ensures Decisions(w')
  {
  }

  lemma QuietLogged(w: World, w': World)
    requires Logged(w) && Quiet(w, w')
    ensures Logged(w')
  {
  }

  lemma QuietKeeps(w: World, w': World)
    requires Inv(w) && Quiet(w, w') && Rows(w')
    ensures Inv(w')
  {
    QuietCodes(w, w');
    QuietDecisions(w, w');
    QuietLogged(w, w');
    assert Calls(w') && Windows(w');
  }

  lemma ClosingIsQuiet(w: World, op: Op)
    requires Rows(w) && Legal(w, op) && (op.DoReject? || op.DoInvalidate? || op.DoCancel? || op.DoReopen? || op.InvalidateOthers?)
    ensures Quiet(w, Do(w, op)) && Rows(Do(w, op))
  {
    match op
    case DoReject(_, _) => RejectIsQuiet(w, op);
    case DoReopen(_) => ReopenIsQuiet(w, op);
    case DoInvalidate(user) => InvalidateIsQuiet(w, user);
    case DoCancel(_, _) => CancelIsQuiet(w, op);
    case InvalidateOthers(user) => InvalidateIsQuiet(w, user);
  }

  lemma RejectIsQuiet(w: World, op: Op)
    requires Rows(w) && op.DoReject?
    ensures Quiet(w, Do(w, op)) && Rows(Do(w, op))
  {
    forall id | id in w.t ensures RowFits(w.t[id], w.now) {}
  }

  lemma ReopenIsQuiet(w: World, op: Op)
    requires Rows(w) && op.DoReopen?
    ensures Quiet(w, Do(w, op)) && Rows(Do(w, op))
  {
    forall id | id in w.t ensures RowFits(w.t[id], w.now) {}
  }

  lemma InvalidateIsQuiet(w: World, user: UserId)
    requires Rows(w)
    ensures var w' := w.(t := Invalidate(w.t, user)); Quiet(w, w') && Rows(w')
  {
    forall id | id in w.t ensures RowFits(w.t[id], w.now) {}
  }

  lemma CancelIsQuiet(w: World, op: Op)
    requires Rows(w) && op.DoCancel?
    ensures Quiet(w, Do(w, op)) && Rows(Do(w, op))
  {
    forall id | id in w.t ensures RowFits(w.t[id], w.now) {}
  }

  lemma FailingIsQuiet(w: World, id: ChallengeId)
    requires Rows(w)
    ensures var w' := w.(t := FallbackFailed(w.t, id)); Quiet(w, w') && Rows(w')
  {
  }

  lemma AskingIsQuiet(w: World, id: ChallengeId, device: DeviceKey)
    requires Rows(w)
    ensures var w' := w.(t := RequestRecovery(w.t, id, device, w.now)); Quiet(w, w') && Rows(w')
  {
  }

  lemma CountingIsQuiet(w: World, op: Op)
    requires Rows(w) && (op.FallbackFail? || op.DoRequestRecovery?)
    ensures Quiet(w, Do(w, op)) && Rows(Do(w, op))
  {
    match op
    case FallbackFail(id) => FailingIsQuiet(w, id);
    case DoRequestRecovery(id, device) => AskingIsQuiet(w, id, device);
  }

  lemma PassingIsQuiet(w: World, op: Op)
    requires Rows(w) && Legal(w, op) && (op.DoPrune? || op.Tick?)
    ensures Quiet(w, Do(w, op)) && Rows(Do(w, op))
  {
  }

  // ----- Creation

  lemma CreateKeeps(w: World, op: Op)
    requires Inv(w) && Legal(w, op) && op.DoCreate?
    ensures Inv(Do(w, op))
  {
    if !RateLimited(w.t, op.user, op.ip, w.now) {
      CreateRows(w, op);
      CreateCodes(w, op);
      CreateDecisions(w, op);
      CreateWindows(w, op);
    }
  }

  lemma CreateRows(w: World, op: Op)
    requires Rows(w) && Logged(w)
    requires Legal(w, op) && op.DoCreate? && !RateLimited(w.t, op.user, op.ip, w.now)
    ensures var w' := Do(w, op); Rows(w') && Logged(w')
  {
  }

  lemma CreateCodes(w: World, op: Op)
    requires Codes(w) && Logged(w) && Calls(w)
    requires Legal(w, op) && op.DoCreate? && !RateLimited(w.t, op.user, op.ip, w.now)
    ensures var w' := Do(w, op); Codes(w') && Calls(w')
  {
  }

  lemma CreateDecisions(w: World, op: Op)
    requires Decisions(w) && Logged(w)
    requires Legal(w, op) && op.DoCreate? && !RateLimited(w.t, op.user, op.ip, w.now)
    ensures Decisions(Do(w, op))
  {
  }

  /** A window that the new row falls into held only rows the limiter just counted. */
  lemma CreateWindows(w: World, op: Op)
    requires Logged(w) && Windows(w)
    requires Legal(w, op) && op.DoCreate? && !RateLimited(w.t, op.user, op.ip, w.now)
    ensures Windows(Do(w, op))
  {
    var log' := Do(w, op).log;
    forall user, from ensures |InWindow(log', user, from)| <= ACCOUNT_RATE_LIMIT {
      CreateWindow(w, op, user, from);
    }
    forall user, ip, from ensures |InWindowFromIp(log', user, ip, from)| <= RATE_LIMIT {
      CreateWindowFromIp(w, op, user, ip, from);
    }
  }

  lemma SmallerSet(a: set<nat>, b: set<nat>)
    requires a <= b
    ensures |a| <= |b|
  {
    assert b == a + (b - a);
  }

  lemma CreateWindow(w: World, op: Op, user: UserId, from: int)
    requires Logged(w) && Windows(w)
    requires Legal(w, op) && op.DoCreate? && !RateLimited(w.t, op.user, op.ip, w.now)
    ensures |InWindow(Do(w, op).log, user, from)| <= ACCOUNT_RATE_LIMIT
  {
    WindowGrows(w.log, op.id, Created(op.user, op.ip, w.now), user, from);
    if user == op.user && from < w.now <= from + RATE_WINDOW_MS { WindowIsCounted(w, user, from); }
  }

  /** A new creation enters the windows it falls into, and no other. */
  lemma WindowGrows(log: map<ChallengeId, Created>, id: ChallengeId, c: Created, user: UserId, from: int)
    requires id !in log
    ensures InWindow(log[id := c], user, from)
      == InWindow(log, user, from) + if c.user == user && from < c.at <= from + RATE_WINDOW_MS then {id} else {}
  {
  }

  /** A window that reaches the present is seen by the rate limit. */
  lemma WindowIsCounted(w: World, user: UserId, from: int)
    requires Logged(w) && from < w.now <= from + RATE_WINDOW_MS
    ensures |InWindow(w.log, user, from)| <= |CreatedSince(w.t, user, w.now - RATE_WINDOW_MS)|
  {
    SmallerSet(InWindow(w.log, user, from), CreatedSince(w.t, user, w.now - RATE_WINDOW_MS));
  }

  lemma CreateWindowFromIp(w: World, op: Op, user: UserId, ip: Ip, from: int)
    requires Logged(w) && Windows(w)
    requires Legal(w, op) && op.DoCreate? && !RateLimited(w.t, op.user, op.ip, w.now)
    ensures |InWindowFromIp(Do(w, op).log, user, ip, from)| <= RATE_LIMIT
  {
    WindowFromIpGrows(w.log, op.id, Created(op.user, op.ip, w.now), user, ip, from);
    if user == op.user && ip == op.ip && from < w.now <= from + RATE_WINDOW_MS { WindowFromIpIsCounted(w, user, ip, from); }
  }

  lemma WindowFromIpGrows(log: map<ChallengeId, Created>, id: ChallengeId, c: Created, user: UserId, ip: Ip, from: int)
    requires id !in log
    ensures InWindowFromIp(log[id := c], user, ip, from)
      == InWindowFromIp(log, user, ip, from) + if c.user == user && c.ip == ip && from < c.at <= from + RATE_WINDOW_MS then {id} else {}
  {
  }

  lemma WindowFromIpIsCounted(w: World, user: UserId, ip: Ip, from: int)
    requires Logged(w) && from < w.now <= from + RATE_WINDOW_MS
    ensures |InWindowFromIp(w.log, user, ip, from)| <= |CreatedFromIpSince(w.t, user, ip, w.now - RATE_WINDOW_MS)|
  {
    SmallerSet(InWindowFromIp(w.log, user, ip, from), CreatedFromIpSince(w.t, user, ip, w.now - RATE_WINDOW_MS));
  }

  // ----- Approval

  lemma ApproveKeeps(w: World, op: Op)
    requires Inv(w) && Legal(w, op) && op.DoApprove?
    ensures Inv(Do(w, op))
  {
    ApproveCodes(w, op);
    ApproveDecisions(w, op);
    ApproveLogged(w, op);
    assert Windows(Do(w, op));
  }

  lemma ApproveCodes(w: World, op: Op)
    requires Rows(w) && Codes(w) && Calls(w) && Legal(w, op) && op.DoApprove?
    ensures var w' := Do(w, op); Rows(w') && Codes(w') && Calls(w')
  {
    assert Members(w.reservations, op.code) == {};
  }

  lemma ApproveDecisions(w: World, op: Op)
    requires Decisions(w) && op.DoApprove?
    ensures Decisions(Do(w, op))
  {
  }

  lemma ApproveLogged(w: World, op: Op)
    requires Logged(w) && op.DoApprove?
    ensures Logged(Do(w, op))
  {
  }

  // ----- Submissions in flight

  lemma SubmitKeeps(w: World, op: Op)
    requires Inv(w) && Legal(w, op) && op.Submit?
    ensures Inv(Do(w, op))
  {
    if CodeReadable(w.t, op.id, op.device, w.now) {
      SubmitCalls(w, op);
      var w' := Do(w, op);
      assert Rows(w') && Codes(w') && Decisions(w') && Logged(w') && Windows(w');
    }
  }

  lemma SubmitCalls(w: World, op: Op)
    requires Codes(w) && Calls(w) && Legal(w, op) && op.Submit? && CodeReadable(w.t, op.id, op.device, w.now)
    ensures Calls(Do(w, op))
  {
  }

  /** Dropping a call in flight, whatever it was about to do. */
  lemma DropCall(w: World, call: SubmissionId) returns (w': World)
    requires Inv(w)
    ensures w' == w.(calls := w.calls - {call}) && Inv(w')
  {
    w' := w.(calls := w.calls - {call});
    assert Rows(w') && Codes(w') && Calls(w') && Decisions(w') && Logged(w') && Windows(w');
  }

  lemma ReserveKeeps(w: World, op: Op)
    requires Inv(w) && op.DoReserve?
    ensures Inv(Do(w, op))
  {
    if op.call in w.calls && w.calls[op.call].stage == Reading {
      var s := w.calls[op.call];
      if CanReserve(w.t, s.challenge, s.code, s.readAt) {
        ReserveCodes(w, op.call);
        ReserveCalls(w, op.call);
        ReserveDecisions(w, op.call);
        ReserveLogged(w, op.call);
        assert Windows(Do(w, op));
      } else {
        var _ := DropCall(w, op.call);
      }
    }
  }

  predicate Reserves(w: World, call: SubmissionId) {
    && call in w.calls && w.calls[call].stage == Reading
    && CanReserve(w.t, w.calls[call].challenge, w.calls[call].code, w.calls[call].readAt)
  }

  lemma ReserveCodes(w: World, call: SubmissionId)
    requires Rows(w) && Codes(w) && Calls(w) && Reserves(w, call)
    ensures var w' := Reserving(w, call); Rows(w') && Codes(w')
  {
    var s := w.calls[call];
    var w' := Reserving(w, call);
    var before := Members(w.reservations, s.code);
    assert |before + {call}| == |before| + 1;
    assert Members(w'.reservations, s.code) == before + {call};
    assert w'.t[s.challenge].attempts == w.t[s.challenge].attempts + 1;
    forall id | id in w'.t && w'.t[id].code.Some? ensures |Members(w'.reservations, w'.t[id].code.value)| <= w'.t[id].attempts {
      if id != s.challenge { assert w.t[id].code != Some(s.code); }
    }
  }

  lemma ReserveCalls(w: World, call: SubmissionId)
    requires Codes(w) && Calls(w) && Reserves(w, call)
    ensures Calls(Reserving(w, call))
  {
    var s := w.calls[call];
    var w' := Reserving(w, call);
    assert forall code | code != s.code :: Members(w'.reservations, code) == Members(w.reservations, code);
    assert Members(w'.reservations, s.code) == Members(w.reservations, s.code) + {call};
  }

  lemma ReserveDecisions(w: World, call: SubmissionId)
    requires Decisions(w) && Reserves(w, call)
    ensures Decisions(Reserving(w, call))
  {
    assert Reserving(w, call).t.Keys == w.t.Keys;
  }

  lemma ReserveLogged(w: World, call: SubmissionId)
    requires Logged(w) && Reserves(w, call)
    ensures Logged(Reserving(w, call))
  {
    assert Reserving(w, call).t.Keys == w.t.Keys;
  }

  lemma CompareKeeps(w: World, op: Op)
    requires Inv(w) && op.Compare?
    ensures Inv(Do(w, op))
  {
    if op.call in w.calls && w.calls[op.call].stage == Reserved {
      CompareCalls(w, op);
      CompareCodes(w, op);
      var w' := Do(w, op);
      assert Rows(w') && Decisions(w') && Logged(w') && Windows(w');
    }
  }

  lemma CompareCalls(w: World, op: Op)
    requires Calls(w) && op.Compare? && op.call in w.calls && w.calls[op.call].stage == Reserved
    ensures Calls(Do(w, op))
  {
  }

  lemma CompareCodes(w: World, op: Op)
    requires Codes(w) && Calls(w) && op.Compare? && op.call in w.calls && w.calls[op.call].stage == Reserved
    ensures Codes(Do(w, op))
  {
  }

  // ----- Logins

  /** Consuming a row: the code goes, the attempts stay in range, one login is counted. */
  lemma WinKeeps(w: World, id: ChallengeId, c': Challenge)
    requires Inv(w) && id in w.t && w.t[id].status != CONSUMED
    requires c' == w.t[id].(status := CONSUMED, code := None, codeExpiresAt := c'.codeExpiresAt, attempts := c'.attempts)
    requires 0 <= c'.attempts <= MAX_ATTEMPTS
    ensures Inv(Win(w, w.t[id := c'], id))
  {
    WinRows(w, id, c');
    WinCodes(w, id, c');
    WinDecisions(w, id, c');
    var w' := Win(w, w.t[id := c'], id);
    assert Calls(w') && Windows(w');
  }

  lemma WinRows(w: World, id: ChallengeId, c': Challenge)
    requires Rows(w) && Logged(w) && id in w.t
    requires c' == w.t[id].(status := CONSUMED, code := None, codeExpiresAt := c'.codeExpiresAt, attempts := c'.attempts)
    requires 0 <= c'.attempts <= MAX_ATTEMPTS
    ensures var w' := Win(w, w.t[id := c'], id); Rows(w') && Logged(w')
  {
  }

  lemma WinCodes(w: World, id: ChallengeId, c': Challenge)
    requires Codes(w) && id in w.t && c'.code.None?
    ensures Codes(Win(w, w.t[id := c'], id))
  {
  }

  lemma WinDecisions(w: World, id: ChallengeId, c': Challenge)
    requires Decisions(w) && Logged(w) && id in w.t && w.t[id].status != CONSUMED
    requires c'.status == CONSUMED && c'.recoveryAvailableAt == w.t[id].recoveryAvailableAt
    ensures Decisions(Win(w, w.t[id := c'], id))
  {
  }

  /** The attempt given back was reserved by this very call: the counter does not underflow. */
  lemma ConsumeHasAttempt(w: World, call: SubmissionId)
    requires Codes(w) && Calls(w) && call in w.calls && w.calls[call].stage == Matched
    requires var s := w.calls[call]; s.challenge in w.t && w.t[s.challenge].code == Some(s.code)
    ensures 1 <= w.t[w.calls[call].challenge].attempts
  {
  }

  lemma ConsumeKeeps(w: World, op: Op)
    requires Inv(w) && op.DoConsume?
    ensures Inv(Do(w, op))
  {
    if op.call in w.calls && w.calls[op.call].stage == Matched {
      var s := w.calls[op.call];
      var w' := DropCall(w, op.call);
      if CanConsume(w.t, s.challenge, s.code, s.readAt) {
        ConsumeHasAttempt(w, op.call);
        AttemptsInRange(w, s.challenge);
        WinKeeps(w', s.challenge, Consume(w.t, s.challenge, s.code, s.readAt)[s.challenge]);
      }
    }
  }

  lemma AttemptsInRange(w: World, id: ChallengeId)
    requires Rows(w) && id in w.t
    ensures 0 <= w.t[id].attempts <= MAX_ATTEMPTS
  {
  }

  lemma FallbackKeeps(w: World, op: Op)
    requires Inv(w) && op.FallbackPass?
    ensures Inv(Do(w, op))
  {
    if CanFallback(w.t, op.id) {
      AttemptsInRange(w, op.id);
      WinKeeps(w, op.id, FallbackPassed(w.t, op.id)[op.id]);
    }
  }

  lemma ClaimKeeps(w: World, op: Op)
    requires Inv(w) && op.DoClaim?
    ensures Inv(Do(w, op))
  {
    if CanClaim(w.t, op.id, op.user, op.device, w.now) {
      var w' := Win(w, Claim(w.t, op.id, op.user, op.device, w.now), op.id);
      AttemptsInRange(w, op.id);
      WinKeeps(w, op.id, Claim(w.t, op.id, op.user, op.device, w.now)[op.id]);
      InLog(w, op.id);
      HeldByClaim(w', op.user, op.id);
      HoldersMove(w', w.holders[op.user := op.id]);
    }
  }

  lemma HeldByClaim(w: World, user: UserId, id: ChallengeId)
    requires Held(w) && id in w.log && w.log[id].user == user
    ensures Held(w.(holders := w.holders[user := id]))
  {
  }

  lemma InLog(w: World, id: ChallengeId)
    requires Logged(w) && id in w.t
    ensures id in w.log && w.log[id].user == w.t[id].user
  {
  }

  /** Taking or letting go of an account lock touches nothing else. */
  lemma HoldersMove(w: World, holders: map<UserId, ChallengeId>)
    requires Inv(w) && Held(w.(holders := holders))
    ensures Inv(w.(holders := holders))
  {
    var w' := w.(holders := holders);
    assert Rows(w') && Codes(w') && Calls(w') && Decisions(w') && Logged(w') && Windows(w');
  }

  lemma ReleaseKeeps(w: World, op: Op)
    requires Inv(w) && op.DoRelease?
    ensures Inv(Do(w, op))
  {
    if CanRelease(w.t, op.id) {
      ReleaseRows(w, op.id);
      ReleaseDecisions(w, op.id);
      assert Calls(Do(w, op)) && Windows(Do(w, op));
    }
  }

  lemma ReleaseRows(w: World, id: ChallengeId)
    requires Rows(w) && Codes(w) && Logged(w) && CanRelease(w.t, id)
    ensures var w' := Do(w, DoRelease(id)); Rows(w') && Codes(w') && Logged(w')
  {
  }

  lemma ReleaseDecisions(w: World, id: ChallengeId)
    requires Decisions(w) && Logged(w) && CanRelease(w.t, id)
    ensures Decisions(Do(w, DoRelease(id)))
  {
  }

  lemma ClosingKeeps(w: World, op: Op)
    requires Inv(w) && Legal(w, op) && (op.DoReject? || op.DoInvalidate? || op.DoCancel? || op.DoReopen? || op.InvalidateOthers?)
    ensures Inv(Do(w, op))
  {
    ClosingIsQuiet(w, op);
    QuietKeeps(w, Do(w, op));
  }

  lemma CountingKeeps(w: World, op: Op)
    requires Inv(w) && Legal(w, op) && (op.FallbackFail? || op.DoRequestRecovery?)
    ensures Inv(Do(w, op))
  {
    CountingIsQuiet(w, op);
    QuietKeeps(w, Do(w, op));
  }

  lemma PassingKeeps(w: World, op: Op)
    requires Inv(w) && Legal(w, op) && (op.DoPrune? || op.Tick?)
    ensures Inv(Do(w, op))
  {
    PassingIsQuiet(w, op);
    QuietKeeps(w, Do(w, op));
  }

  lemma StepKeeps(w: World, op: Op)
    requires Inv(w) && Legal(w, op)
    ensures Inv(Do(w, op))
  {
    match op
    case DoCreate(_, _, _, _) => CreateKeeps(w, op);
    case DoApprove(_, _, _) => ApproveKeeps(w, op);
    case DoReject(_, _) => ClosingKeeps(w, op);
    case DoInvalidate(_) => ClosingKeeps(w, op);
    case DoCancel(_, _) => ClosingKeeps(w, op);
    case DoReopen(_) => ClosingKeeps(w, op);
    case Submit(_, _, _) => SubmitKeeps(w, op);
    case DoReserve(_) => ReserveKeeps(w, op);
    case Compare(_, _) => CompareKeeps(w, op);
    case DoConsume(_) => ConsumeKeeps(w, op);
    case FallbackFail(_) => CountingKeeps(w, op);
    case FallbackPass(_) => FallbackKeeps(w, op);
    case DoRequestRecovery(_, _) => CountingKeeps(w, op);
    case DoClaim(_, _, _) => ClaimKeeps(w, op);
    case DoRelease(_) => ReleaseKeeps(w, op);
    case InvalidateOthers(_) => ClosingKeeps(w, op);
    case LetGo(u) => HoldersMove(w, w.holders - {u});
    case DoPrune(_) => PassingKeeps(w, op);
    case Tick(_) => PassingKeeps(w, op);
  }

  lemma {:induction false} RunKeeps(w: World, ops: seq<Op>)
    requires Inv(w) && LegalRun(w, ops)
    ensures Inv(Run(w, ops))
    decreases |ops|
  {
    if ops != [] {
      StepKeeps(w, ops[0]);
      RunKeeps(Do(w, ops[0]), ops[1..]);
    }
  }

  lemma StartHolds(w: World)
    requires Start(w)
    ensures Inv(w)
  {
  }
}
