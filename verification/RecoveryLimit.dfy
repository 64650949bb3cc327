/** How many recoveries of an account can be under way at once. */
module RecoveryLimit {
  import opened Common
  import opened LoginChallenges
  import opened ChallengeRuns
  import ChallengeInvariant
  import ChallengeTheorems

  /** Recoveries are asked for under the account lock, like claims. */
  predicate AskedUnderLock(w: World, op: Op) {
    op.DoRequestRecovery? && op.id in w.t ==> w.t[op.id].user !in w.holders
  }

  ghost predicate AllAskedUnderLock(w: World, ops: seq<Op>)
    decreases |ops|
  {
    ops == [] || (AskedUnderLock(w, ops[0]) && AllAskedUnderLock(Do(w, ops[0]), ops[1..]))
  }

  /** The recovery a login has claimed and may still give back. */
  function Claimed(w: World, user: UserId): set<ChallengeId> {
    if user in w.holders && CanRelease(w.t, w.holders[user]) && w.t[w.holders[user]].expiresAt > w.now then {w.holders[user]} else {}
  }

  function UnderWay(w: World, user: UserId): set<ChallengeId> {
    ActiveRecoveries(w.t, user, w.now) + Claimed(w, user)
  }

  /** Whether one challenge is a recovery of the account that is under way. */
  predicate Wanted(w: World, user: UserId, id: ChallengeId) {
    && id in w.t && w.t[id].user == user && w.t[id].recoveryAvailableAt.Some? && w.t[id].expiresAt > w.now
    && (Open(w.t[id]) || (w.t[id].status == CONSUMED && user in w.holders && w.holders[user] == id))
  }

  lemma UnderWayIsWanted(w: World, user: UserId, id: ChallengeId)
    requires ChallengeRuns.Held(w) && Logged(w)
    ensures id in UnderWay(w, user) <==> Wanted(w, user, id)
  {
    if id in w.t { ChallengeInvariant.InLog(w, id); }
  }

  lemma ReservingStep(w: World, call: SubmissionId, user: UserId, id: ChallengeId)
    requires Wanted(Reserving(w, call), user, id)
    ensures Wanted(w, user, id)
  {
  }

  lemma ConsumingStep(w: World, call: SubmissionId, user: UserId, id: ChallengeId)
    requires Wanted(Consuming(w, call), user, id)
    ensures Wanted(w, user, id)
  {
    ConsumingLeaves(w, call, id);
    ChallengeTheorems.ConsumeIs(w, call);
  }

  lemma ConsumingLeaves(w: World, call: SubmissionId, id: ChallengeId)
    requires id in Consuming(w, call).t
    ensures Consuming(w, call).holders == w.holders && Consuming(w, call).now == w.now
    ensures id in w.t && (Consuming(w, call).t[id] != w.t[id] ==> Open(w.t[id]))
    ensures var c, c' := w.t[id], Consuming(w, call).t[id];
      c'.user == c.user && c'.recoveryAvailableAt == c.recoveryAvailableAt && c'.expiresAt == c.expiresAt
  {
    if call in w.calls {
      ChallengeTheorems.WinSets(
        w.(calls := w.calls - {call}), Consume(w.t, w.calls[call].challenge, w.calls[call].code, w.calls[call].readAt), w.calls[call].challenge);
    }
  }

  lemma ClaimStep(w: World, op: Op, user: UserId, id: ChallengeId)
    requires Legal(w, op) && op.DoClaim? && Wanted(Do(w, op), user, id)
    ensures Wanted(w, user, id)
  {
  }

  lemma ReleaseStep(w: World, op: Op, user: UserId, id: ChallengeId)
    requires ChallengeRuns.Held(w) && Logged(w) && op.DoRelease? && op.id in w.holders.Values && Wanted(Do(w, op), user, id)
    ensures Wanted(w, user, id)
  {
    if id == op.id && id in w.t {
      ChallengeInvariant.InLog(w, id);
      var u :| u in w.holders && w.holders[u] == id;
      assert w.log[id].user == u;
    }
  }

  lemma LetGoStep(w: World, op: Op, user: UserId, id: ChallengeId)
    requires op.LetGo? && Wanted(Do(w, op), user, id)
    ensures Wanted(w, user, id)
  {
  }

  lemma ClosingStep(w: World, op: Op, user: UserId, id: ChallengeId)
    requires op.DoReject? || op.DoInvalidate? || op.DoCancel? || op.InvalidateOthers? || op.DoPrune?
    requires Wanted(Do(w, op), user, id)
    ensures Wanted(w, user, id)
  {
  }

  lemma OpenStep(w: World, op: Op, user: UserId, id: ChallengeId)
    requires op.DoCreate? || op.DoApprove? || op.DoReopen? || op.FallbackFail? || op.FallbackPass? || op.Submit?
    requires Wanted(Do(w, op), user, id)
    ensures Wanted(w, user, id)
  {
  }

  /** An operation brings no recovery under way, unless it asks for it. */
  lemma WantedStep(w: World, op: Op, user: UserId, id: ChallengeId)
    requires ChallengeRuns.Held(w) && Logged(w) && Legal(w, op) && Wanted(Do(w, op), user, id)
    ensures Wanted(w, user, id) || (op.DoRequestRecovery? && op.id == id && CanRequestRecovery(w.t, id, op.device, w.now) && w.t[id].user == user)
  {
    match op
    case DoReserve(call) => ReservingStep(w, call, user, id);
    case DoConsume(call) => ConsumingStep(w, call, user, id);
    case Compare(_, _) =>
    case Tick(_) =>
    case DoRequestRecovery(_, _) =>
    case DoClaim(_, _, _) => ClaimStep(w, op, user, id);
    case DoRelease(_) => ReleaseStep(w, op, user, id);
    case LetGo(_) => LetGoStep(w, op, user, id);
    case DoReject(_, _) => ClosingStep(w, op, user, id);
    case DoInvalidate(_) => ClosingStep(w, op, user, id);
    case InvalidateOthers(_) => ClosingStep(w, op, user, id);
    case DoCancel(_, _) => ClosingStep(w, op, user, id);
    case DoPrune(_) => ClosingStep(w, op, user, id);
    case _ => OpenStep(w, op, user, id);
  }

  lemma UnderWayStep(w: World, op: Op, user: UserId, id: ChallengeId)
    requires Inv(w) && Legal(w, op) && id in UnderWay(Do(w, op), user)
    ensures id in UnderWay(w, user) || (op.DoRequestRecovery? && op.id == id && CanRequestRecovery(w.t, id, op.device, w.now) && w.t[id].user == user)
  {
    ChallengeInvariant.StepKeeps(w, op);
    UnderWayIsWanted(w, user, id);
    UnderWayIsWanted(Do(w, op), user, id);
    WantedStep(w, op, user, id);
  }

  ghost predicate Limited(w: World) {
    forall user: UserId :: |UnderWay(w, user)| <= RECOVERY_MAX_ACTIVE
  }

  lemma Fewer(a: set<ChallengeId>, b: set<ChallengeId>)
    requires a <= b
    ensures |a| <= |b|
  {
    assert b == a + (b - a);
  }

  lemma LimitedStep(w: World, op: Op)
    requires Inv(w) && Legal(w, op) && AskedUnderLock(w, op) && Limited(w)
    ensures Limited(Do(w, op))
  {
    forall user: UserId ensures |UnderWay(Do(w, op), user)| <= RECOVERY_MAX_ACTIVE {
      forall id | id in UnderWay(Do(w, op), user)
        ensures id in UnderWay(w, user) || (op.DoRequestRecovery? && op.id == id && CanRequestRecovery(w.t, id, op.device, w.now) && w.t[id].user == user)
      {
        UnderWayStep(w, op, user, id);
      }
      OneMoreAtMost(w, op, user, UnderWay(Do(w, op), user));
    }
  }

  /** The one that is asked for found fewer than three. */
  lemma OneMoreAtMost(w: World, op: Op, user: UserId, after: set<ChallengeId>)
    requires AskedUnderLock(w, op) && |UnderWay(w, user)| <= RECOVERY_MAX_ACTIVE
    requires forall id | id in after ::
      id in UnderWay(w, user) || (op.DoRequestRecovery? && op.id == id && CanRequestRecovery(w.t, id, op.device, w.now) && w.t[id].user == user)
    ensures |after| <= RECOVERY_MAX_ACTIVE
  {
    if op.DoRequestRecovery? && op.id in after && op.id !in UnderWay(w, user) {
      assert UnderWay(w, user) == ActiveRecoveries(w.t, user, w.now);
      Fewer(after, UnderWay(w, user) + {op.id});
    } else {
      Fewer(after, UnderWay(w, user));
    }
  }

  lemma {:induction false} LimitedRun(w: World, ops: seq<Op>)
    requires Inv(w) && LegalRun(w, ops) && AllAskedUnderLock(w, ops) && Limited(w)
    ensures Limited(Run(w, ops))
    decreases |ops|
  {
    if ops != [] {
      LimitedStep(w, ops[0]);
      ChallengeInvariant.StepKeeps(w, ops[0]);
      LimitedRun(Do(w, ops[0]), ops[1..]);
    }
  }

  /** In every run an account has at most three recoveries under way, claims that may be given back included. */
  lemma ThreeRecoveriesAtMost(w0: World, ops: seq<Op>, user: UserId)
    requires Start(w0) && LegalRun(w0, ops) && AllAskedUnderLock(w0, ops)
    ensures |ActiveRecoveries(Run(w0, ops).t, user, Run(w0, ops).now)| <= 3
  {
    LimitedInRuns(w0, ops);
    AtMostThree(Run(w0, ops), user);
  }

  lemma LimitedInRuns(w0: World, ops: seq<Op>)
    requires Start(w0) && LegalRun(w0, ops) && AllAskedUnderLock(w0, ops)
    ensures Limited(Run(w0, ops))
  {
    ChallengeInvariant.StartHolds(w0);
    assert forall u: UserId :: UnderWay(w0, u) == {};
    LimitedRun(w0, ops);
  }

  lemma AtMostThree(w: World, user: UserId)
    requires Limited(w)
    ensures |ActiveRecoveries(w.t, user, w.now)| <= 3
  {
    Fewer(ActiveRecoveries(w.t, user, w.now), UnderWay(w, user));
    assert |UnderWay(w, user)| <= RECOVERY_MAX_ACTIVE;
  }
}
