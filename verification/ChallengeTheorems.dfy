/** What login challenges promise over whole runs. */
module ChallengeTheorems {
  import opened Common
  import opened LoginChallenges
  import opened ChallengeRuns
  import opened ChallengeInvariant

  // ----- Attempts and codes

  /** Under every interleaving the attempt counter stays in 0..5, the decrement on success
      included, and no issued code is ever compared by more than five calls. */
  lemma AttemptsBounded(w0: World, ops: seq<Op>)
    requires Start(w0) && LegalRun(w0, ops)
    ensures var w := Run(w0, ops);
            && (forall id | id in w.t :: 0 <= w.t[id].attempts <= MAX_ATTEMPTS)
            && (forall code | code in w.comparisons :: |w.comparisons[code]| <= MAX_ATTEMPTS)
  {
    StartHolds(w0);
    RunKeeps(w0, ops);
    var w := Run(w0, ops);
    forall id | id in w.t ensures 0 <= w.t[id].attempts <= MAX_ATTEMPTS { AttemptsInRange(w, id); }
    forall code | code in w.comparisons ensures |w.comparisons[code]| <= MAX_ATTEMPTS {
      SmallerSet(w.comparisons[code], Members(w.reservations, code));
    }
  }

  /** A submission compares at most once: a second comparison by the same call does nothing. */
  lemma ComparesOnce(w: World, call: SubmissionId, code: CodeId, matches: bool)
    requires Inv(w) && call in Members(w.comparisons, code) && (call in w.calls ==> w.calls[call].code == code)
    ensures Do(w, Compare(call, matches)) == w
  {
  }

  /** What a device is told: approved or pending while the challenge can still be verified, in its own window or the code's. */
  lemma ToldExactlyWhen(c: Challenge, now: int)
    ensures PublicStatusOf(c, now) == IsApproved <==>
      c.status == APPROVED && c.attempts < MAX_ATTEMPTS && (c.expiresAt > now || (c.codeExpiresAt.Some? && c.codeExpiresAt.value > now))
    ensures PublicStatusOf(c, now) == IsPending <==> c.status == PENDING && c.attempts < MAX_ATTEMPTS && c.expiresAt > now
    ensures PublicStatusOf(c, now) == IsRejected <==> c.status == REJECTED
    ensures PublicStatusOf(c, now) == IsConsumed <==> c.status == CONSUMED
  {
  }

  /** An account's active recoveries are its open, unexpired challenges with a recovery. */
  lemma ActiveExactlyWhen(t: Table, user: UserId, now: int, id: ChallengeId)
    ensures id in ActiveRecoveries(t, user, now) <==>
      && id in t && t[id].user == user && t[id].recoveryAvailableAt.Some? && t[id].expiresAt > now
      && (t[id].status == PENDING || t[id].status == APPROVED)
  {
  }

  /** An approved challenge goes back to pending exactly when its code has run out and its decision window has not. */
  lemma ReopenedExactlyWhen(w: World, id: ChallengeId)
    requires id in w.t
    ensures var c := w.t[id];
      Do(w, DoReopen(id)).t == w.t[id :=
        if c.status == APPROVED && c.codeExpiresAt.Some? && c.codeExpiresAt.value <= w.now < c.expiresAt
        then c.(status := PENDING, code := None, codeExpiresAt := None) else c]
  {
  }

  /** An approval or a rejection takes effect exactly on an open challenge of the account, an approval only in time. */
  lemma DecidedExactlyWhen(w: World, id: ChallengeId, user: UserId, code: CodeId)
    requires id in w.t
    ensures var c := w.t[id];
      && Do(w, DoApprove(id, user, code)).t == w.t[id :=
           if c.user == user && (c.status == PENDING || c.status == APPROVED) && c.expiresAt > w.now
           then c.(status := APPROVED, code := Some(code), codeExpiresAt := Some(w.now + 60_000), attempts := 0) else c]
      && Do(w, DoReject(id, user)).t == w.t[id :=
           if c.user == user && (c.status == PENDING || c.status == APPROVED)
           then c.(status := REJECTED, code := None, codeExpiresAt := None) else c]
  {
  }

  /** A recovery is granted exactly once, to the device of an open challenge with attempts left, below the limit of three. */
  lemma RecoveryGrantedExactlyWhen(w: World, id: ChallengeId, device: DeviceKey)
    requires id in w.t
    ensures var c := w.t[id];
      Do(w, DoRequestRecovery(id, device)).t == w.t[id :=
        if c.device == device && (c.status == PENDING || c.status == APPROVED) && c.attempts < 5 && c.expiresAt > w.now
           && c.recoveryAvailableAt.None? && |ActiveRecoveries(w.t, c.user, w.now)| < 3
        then c.(recoveryRequestedAt := Some(w.now), recoveryAvailableAt := Some(w.now + 24 * 3_600_000), expiresAt := w.now + 192 * 3_600_000)
        else c]
  {
  }

  /** A claim, and a right answer to the fallback: what each leaves of the table. */
  lemma ClaimedExactlyWhen(w: World, id: ChallengeId, user: UserId, device: DeviceKey)
    requires id in w.t
    ensures var c := w.t[id];
      Do(w, DoClaim(id, user, device)).t == w.t[id :=
        if c.user == user && c.device == device && (c.status == PENDING || c.status == APPROVED)
           && c.recoveryAvailableAt.Some? && c.recoveryAvailableAt.value <= w.now < c.expiresAt
        then c.(status := CONSUMED, code := None, codeExpiresAt := None) else c]
    ensures Do(w, FallbackPass(id)).t == w.t[id :=
      if (w.t[id].status == PENDING || w.t[id].status == APPROVED) && w.t[id].attempts < MAX_ATTEMPTS
      then w.t[id].(status := CONSUMED, code := None) else w.t[id]]
  {
  }

  lemma PruneTakesExactly(w: World, ids: set<ChallengeId>)
    ensures var t := Do(w, DoPrune(ids)).t;
      && (forall id :: id in t <==> id in w.t && !(id in ids && w.t[id].expiresAt < w.now - 24 * 3_600_000))
      && (forall id | id in t :: t[id] == w.t[id])
  {
  }

  /** A submission goes ahead exactly on an approved challenge of its device with attempts left and a code in time. */
  lemma SubmittedExactlyWhen(w: World, call: SubmissionId, id: ChallengeId, device: DeviceKey)
    requires call !in w.calls
    ensures Do(w, Submit(call, id, device)).t == w.t
    ensures call in Do(w, Submit(call, id, device)).calls <==>
      && id in w.t && w.t[id].device == device && w.t[id].status == APPROVED && w.t[id].attempts < 5
      && w.t[id].code.Some? && w.t[id].codeExpiresAt.Some? && w.t[id].codeExpiresAt.value > w.now
  {
  }

  /** It reserves, and when its code matched consumes, exactly while the challenge still carries that code, approved and in time when it was read. */
  lemma SubmissionWritesExactly(w: World, call: SubmissionId)
    requires Rows(w) && call in w.calls && w.calls[call].challenge in w.t
    ensures var s := w.calls[call]; var c := w.t[s.challenge];
      var same := c.status == APPROVED && c.code == Some(s.code) && c.codeExpiresAt.Some? && c.codeExpiresAt.value > s.readAt;
      && (s.stage == Reading ==>
            Reserving(w, call).t == w.t[s.challenge := if same && c.attempts < 5 then c.(attempts := c.attempts + 1) else c])
      && (s.stage == Matched ==>
            Consuming(w, call).t == w.t[s.challenge :=
              if same then c.(status := CONSUMED, code := None, attempts := c.attempts - 1) else c])
  {
    AttemptsInRange(w, w.calls[call].challenge);
  }

  // ----- One decision

  /** In every run the logins a challenge admitted are its releases, plus one if it is consumed
      now; one that never had a recovery admitted at most one. */
  lemma LoginsAdmitted(w0: World, ops: seq<Op>, id: ChallengeId)
    requires Start(w0) && LegalRun(w0, ops)
    requires id in Run(w0, ops).t
    ensures var w := Run(w0, ops);
            && Count(w.logins, id) == Count(w.releases, id) + (if w.t[id].status == CONSUMED then 1 else 0)
            && (w.t[id].recoveryAvailableAt.None? ==> Count(w.logins, id) <= 1)
  {
    StartHolds(w0);
    RunKeeps(w0, ops);
  }

  /** A rejection is final, and a consumed challenge goes back only to pending, only by a release,
      and only if a recovery had been requested. */
  lemma DecidedOnce(w: World, op: Op, id: ChallengeId)
    requires Logged(w) && Legal(w, op) && id in w.t && id in Do(w, op).t
    ensures w.t[id].status == REJECTED ==> Do(w, op).t[id].status == REJECTED
    ensures w.t[id].status == CONSUMED && Do(w, op).t[id].status != CONSUMED ==>
            op == DoRelease(id) && w.t[id].recoveryAvailableAt.Some? && Do(w, op).t[id].status == PENDING
  {
    assert op.DoCreate? ==> op.id != id;
    RowMoves(w, op, id);
  }

  /** The ways one row can move in one step. */
  predicate Moved(c: Challenge, c': Challenge, op: Op, id: ChallengeId) {
    && c'.user == c.user && c'.device == c.device
    && (c.status == REJECTED ==> c'.status == REJECTED)
    && (c.status == CONSUMED && c'.status != CONSUMED ==>
          op == DoRelease(id) && c.recoveryAvailableAt.Some? && c'.status == PENDING)
    && (c.recoveryAvailableAt.Some? ==> c'.recoveryRequestedAt == c.recoveryRequestedAt)
  }

  lemma RowMoves(w: World, op: Op, id: ChallengeId)
    requires id in w.t && id in Do(w, op).t && !(op.DoCreate? && op.id == id)
    ensures Moved(w.t[id], Do(w, op).t[id], op, id)
  {
    if op.DoReserve? || op.Compare? || op.DoConsume? || op.Submit? {
      CallMoves(w, op, id);
    } else if op.DoApprove? || op.DoReopen? || op.FallbackFail? || op.FallbackPass? {
      DecisionMoves(w, op, id);
    } else if op.DoReject? || op.DoInvalidate? || op.DoCancel? || op.InvalidateOthers? {
      RefusalMoves(w, op, id);
    } else {
      RecoveryMoves(w, op, id);
    }
  }

  lemma RefusalMoves(w: World, op: Op, id: ChallengeId)
    requires id in w.t && id in Do(w, op).t && (op.DoReject? || op.DoInvalidate? || op.DoCancel? || op.InvalidateOthers?)
    ensures Moved(w.t[id], Do(w, op).t[id], op, id)
  {
  }

  lemma RecoveryMoves(w: World, op: Op, id: ChallengeId)
    requires id in w.t && id in Do(w, op).t && !(op.DoCreate? && op.id == id)
    requires op.DoCreate? || op.DoRequestRecovery? || op.DoClaim? || op.DoRelease? || op.LetGo? || op.DoPrune? || op.Tick?
    ensures Moved(w.t[id], Do(w, op).t[id], op, id)
  {
  }

  lemma CallMoves(w: World, op: Op, id: ChallengeId)
    requires id in w.t && id in Do(w, op).t && (op.DoReserve? || op.Compare? || op.DoConsume? || op.Submit?)
    ensures Moved(w.t[id], Do(w, op).t[id], op, id)
  {
    match op
    case DoReserve(call) => ReserveMoves(w, call, id);
    case DoConsume(call) => ConsumeMoves(w, call, id);
    case Compare(_, _) => assert Do(w, op).t == w.t;
    case Submit(_, _, _) => assert Do(w, op).t == w.t;
  }

  lemma ReserveIs(w: World, call: SubmissionId)
    ensures Reserving(w, call).log == w.log
    ensures Reserving(w, call).t != w.t ==>
      call in w.calls && Reserving(w, call).t == Reserve(w.t, w.calls[call].challenge, w.calls[call].code, w.calls[call].readAt)
  {
    if call in w.calls {
      var s := w.calls[call];
      if !CanReserve(w.t, s.challenge, s.code, s.readAt) {
        assert Reserving(w, call).t == w.t;
      }
    }
  }

  lemma ConsumeIs(w: World, call: SubmissionId)
    ensures Consuming(w, call).log == w.log
    ensures Consuming(w, call).t != w.t ==>
      call in w.calls && Consuming(w, call).t == Consume(w.t, w.calls[call].challenge, w.calls[call].code, w.calls[call].readAt)
  {
    if call in w.calls {
      var s := w.calls[call];
      WinSets(w.(calls := w.calls - {call}), Consume(w.t, s.challenge, s.code, s.readAt), s.challenge);
    }
  }

  lemma WinSets(w: World, t: Table, id: ChallengeId)
    ensures Win(w, t, id).t == t && Win(w, t, id).log == w.log && Win(w, t, id).now == w.now
  {
  }

  lemma ReserveMovesRow(t: Table, s: Submission, op: Op, id: ChallengeId)
    requires id in t
    ensures var t' := Reserve(t, s.challenge, s.code, s.readAt); t'.Keys == t.Keys && Moved(t[id], t'[id], op, id)
  {
  }

  lemma ConsumeMovesRow(t: Table, s: Submission, op: Op, id: ChallengeId)
    requires id in t
    ensures var t' := Consume(t, s.challenge, s.code, s.readAt); t'.Keys == t.Keys && Moved(t[id], t'[id], op, id)
  {
  }

  lemma ReserveMoves(w: World, call: SubmissionId, id: ChallengeId)
    requires id in w.t
    ensures var op := DoReserve(call); id in Do(w, op).t && Moved(w.t[id], Do(w, op).t[id], op, id)
  {
    ReserveIs(w, call);
    if call in w.calls { ReserveMovesRow(w.t, w.calls[call], DoReserve(call), id); }
  }

  lemma ConsumeMoves(w: World, call: SubmissionId, id: ChallengeId)
    requires id in w.t
    ensures var op := DoConsume(call); id in Do(w, op).t && Moved(w.t[id], Do(w, op).t[id], op, id)
  {
    ConsumeIs(w, call);
    if call in w.calls { ConsumeMovesRow(w.t, w.calls[call], DoConsume(call), id); }
  }

  lemma DecisionMoves(w: World, op: Op, id: ChallengeId)
    requires id in w.t && id in Do(w, op).t && (op.DoApprove? || op.DoReopen? || op.FallbackFail? || op.FallbackPass?)
    ensures Moved(w.t[id], Do(w, op).t[id], op, id)
  {
  }

  // ----- Recovery over whole runs

  /** The challenge keeps this status for as long as its row exists, and never gets a new row. */
  ghost predicate Stuck(w: World, id: ChallengeId, status: Status) {
    id in w.log && (id in w.t ==> w.t[id].status == status)
  }

  lemma StuckStep(w: World, op: Op, id: ChallengeId, status: Status)
    requires Logged(w) && Legal(w, op) && Stuck(w, id, status)
    requires status == REJECTED || (status == CONSUMED && op != DoRelease(id))
    ensures Stuck(Do(w, op), id, status)
  {
    NoNewRow(w, op, id);
    if id in w.t && id in Do(w, op).t { DecidedOnce(w, op, id); }
  }

  lemma NoNewRow(w: World, op: Op, id: ChallengeId)
    requires Legal(w, op) && id in w.log
    ensures id in Do(w, op).log && (id in Do(w, op).t ==> id in w.t)
  {
    if !op.DoCreate? { KeysShrink(w, op); }
  }

  lemma KeysShrink(w: World, op: Op)
    requires !op.DoCreate?
    ensures Do(w, op).t.Keys <= w.t.Keys && Do(w, op).log == w.log
  {
    if op.DoReserve? || op.DoConsume? || op.Submit? || op.Compare? {
      CallKeys(w, op);
    } else if op.DoApprove? || op.DoReject? || op.DoReopen? || op.FallbackFail? || op.FallbackPass? {
      DecisionKeys(w, op);
    }
  }

  lemma CallKeys(w: World, op: Op)
    requires op.DoReserve? || op.DoConsume? || op.Submit? || op.Compare?
    ensures Do(w, op).t.Keys == w.t.Keys && Do(w, op).log == w.log
  {
    match op
    case DoReserve(call) => ReserveKeys(w, call);
    case DoConsume(call) => ConsumeKeys(w, call);
    case _ =>
  }

  lemma ReserveKeys(w: World, call: SubmissionId)
    ensures var w' := Do(w, DoReserve(call)); w'.t.Keys == w.t.Keys && w'.log == w.log
  {
    ReserveIs(w, call);
    if call in w.calls { ReserveAdds(w.t, w.calls[call]); }
  }

  lemma ReserveAdds(t: Table, s: Submission)
    ensures Reserve(t, s.challenge, s.code, s.readAt).Keys == t.Keys
  {
  }

  lemma ConsumeKeys(w: World, call: SubmissionId)
    ensures var w' := Do(w, DoConsume(call)); w'.t.Keys == w.t.Keys && w'.log == w.log
  {
    ConsumeIs(w, call);
    if call in w.calls { ConsumeAdds(w.t, w.calls[call]); }
  }

  lemma ConsumeAdds(t: Table, s: Submission)
    ensures Consume(t, s.challenge, s.code, s.readAt).Keys == t.Keys
  {
  }

  lemma DecisionKeys(w: World, op: Op)
    requires op.DoApprove? || op.DoReject? || op.DoReopen? || op.FallbackFail? || op.FallbackPass?
    ensures Do(w, op).t.Keys == w.t.Keys && Do(w, op).log == w.log
  {
  }

  lemma {:induction false} StuckRun(w: World, ops: seq<Op>, id: ChallengeId)
    requires Inv(w) && LegalRun(w, ops) && Stuck(w, id, REJECTED)
    ensures Stuck(Run(w, ops), id, REJECTED)
    decreases |ops|
  {
    if ops != [] {
      StuckStep(w, ops[0], id, REJECTED);
      StepKeeps(w, ops[0]);
      StuckRun(Do(w, ops[0]), ops[1..], id);
    }
  }

  /** Consumed, and no login holds it any more: nobody is left to release it. */
  ghost predicate Spent(w: World, id: ChallengeId) {
    Stuck(w, id, CONSUMED) && id !in w.holders.Values
  }

  lemma SpentStep(w: World, op: Op, id: ChallengeId)
    requires Logged(w) && Legal(w, op) && Spent(w, id)
    ensures Spent(Do(w, op), id)
  {
    StuckStep(w, op, id, CONSUMED);
    HoldersStep(w, op, id);
  }

  lemma OnlyClaimsTake(w: World, op: Op)
    requires !op.DoClaim?
    ensures forall u | u in Do(w, op).holders :: u in w.holders && Do(w, op).holders[u] == w.holders[u]
  {
  }

  lemma HoldersStep(w: World, op: Op, id: ChallengeId)
    requires Spent(w, id)
    ensures id !in Do(w, op).holders.Values
  {
    if !op.DoClaim? { OnlyClaimsTake(w, op); }
    forall u | u in Do(w, op).holders ensures Do(w, op).holders[u] != id {
      if u in w.holders { assert w.holders[u] in w.holders.Values; }
    }
  }

  lemma {:induction false} SpentRun(w: World, ops: seq<Op>, id: ChallengeId)
    requires Inv(w) && LegalRun(w, ops) && Spent(w, id)
    ensures Spent(Run(w, ops), id)
    decreases |ops|
  {
    if ops != [] {
      SpentStep(w, ops[0], id);
      StepKeeps(w, ops[0]);
      SpentRun(Do(w, ops[0]), ops[1..], id);
    }
  }

  /**
   * A refusal of this login: a rejection, an invalidation, the use of another device of the
   * account, which cancels recoveries, or the completion of another recovery.
   */
  predicate Opposes(w: World, op: Op, id: ChallengeId) {
    && id in w.t
    && (|| op == DoReject(id, w.t[id].user)
        || op == DoInvalidate(w.t[id].user)
        || (op.DoCancel? && op.user == w.t[id].user && op.active != w.t[id].device)
        || (op == InvalidateOthers(w.t[id].user) && id !in w.holders.Values))
  }

  lemma OpposedIsRejected(w: World, op: Op, id: ChallengeId)
    requires Opposes(w, op, id) && w.t[id].recoveryAvailableAt.Some? && w.t[id].status != CONSUMED
    ensures id in Do(w, op).t && Do(w, op).t[id].status == REJECTED
  {
  }

  /** Whoever may refuse under the account lock finds no login holding the challenge. */
  lemma OpposedIsNotHeld(w: World, op: Op, id: ChallengeId)
    requires Held(w) && Logged(w) && Legal(w, op) && Opposes(w, op, id)
    ensures id !in w.holders.Values
  {
    InLog(w, id);
    forall u | u in w.holders ensures w.holders[u] != id { assert w.log[w.holders[u]].user == u; }
  }

  /** After any refusal a recovery is never claimed again, by no device and in no run. */
  lemma OpposedIsNeverClaimed(w: World, op: Op, later: seq<Op>, id: ChallengeId, user: UserId, device: DeviceKey)
    requires Inv(w) && Legal(w, op) && LegalRun(Do(w, op), later)
    requires Opposes(w, op, id) && w.t[id].recoveryAvailableAt.Some?
    ensures var w' := Run(Do(w, op), later); !CanClaim(w'.t, id, user, device, w'.now)
  {
    StepKeeps(w, op);
    NoNewRow(w, op, id);
    InLog(w, id);
    if w.t[id].status != CONSUMED {
      OpposedIsRejected(w, op, id);
      StuckRun(Do(w, op), later, id);
    } else {
      OpposedIsNotHeld(w, op, id);
      SpentStep(w, op, id);
      SpentRun(Do(w, op), later, id);
    }
  }

  /** What a requested recovery never changes. */
  ghost predicate SameRequest(c: Challenge, c': Challenge) {
    c'.user == c.user && c'.device == c.device && c'.recoveryRequestedAt == c.recoveryRequestedAt
  }

  lemma RequestStep(w: World, op: Op, id: ChallengeId)
    requires Rows(w) && Logged(w) && Legal(w, op) && id in w.t && w.t[id].recoveryRequestedAt.Some? && id in Do(w, op).t
    ensures SameRequest(w.t[id], Do(w, op).t[id])
  {
    assert RowFits(w.t[id], w.now);
    assert op.DoCreate? ==> op.id != id;
    RowMoves(w, op, id);
  }

  lemma {:induction false} RequestRun(w: World, ops: seq<Op>, id: ChallengeId)
    requires Inv(w) && LegalRun(w, ops) && id in w.log && id in Run(w, ops).t
    ensures id in w.t
    ensures w.t[id].recoveryRequestedAt.Some? ==> SameRequest(w.t[id], Run(w, ops).t[id])
    decreases |ops|
  {
    if ops != [] {
      StepKeeps(w, ops[0]);
      NoNewRow(w, ops[0], id);
      RequestRun(Do(w, ops[0]), ops[1..], id);
      if w.t[id].recoveryRequestedAt.Some? { RequestStep(w, ops[0], id); }
    }
  }

  lemma {:induction false} RunSplits(w: World, ops: seq<Op>, i: nat)
    requires i < |ops| && LegalRun(w, ops)
    ensures LegalRun(w, ops[..i])
    ensures var at := Run(w, ops[..i]); Legal(at, ops[i]) && LegalRun(Do(at, ops[i]), ops[i + 1..])
    ensures Run(w, ops) == Run(Do(Run(w, ops[..i]), ops[i]), ops[i + 1..])
    decreases |ops|
  {
    if i > 0 {
      assert ops[..i][1..] == ops[1..][..i - 1] && ops[i + 1..] == ops[1..][i..];
      RunSplits(Do(w, ops[0]), ops[1..], i - 1);
    }
  }

  /**
   * A login admitted by recovery comes from the device that asked, at least 24 hours and less
   * than 8 days after it asked, and nothing has refused it since.
   */
  lemma RecoveryLogin(w: World, id: ChallengeId, asking: DeviceKey, between: seq<Op>, user: UserId, device: DeviceKey)
    requires Inv(w) && CanRequestRecovery(w.t, id, asking, w.now)
    requires LegalRun(Do(w, DoRequestRecovery(id, asking)), between)
    requires var w' := Run(Do(w, DoRequestRecovery(id, asking)), between); CanClaim(w'.t, id, user, device, w'.now)
    ensures device == asking && user == w.t[id].user
    ensures var w' := Run(Do(w, DoRequestRecovery(id, asking)), between);
            w.now + 24 * HOUR_MS <= w'.now < w.now + 8 * DAY_MS
    ensures forall i | 0 <= i < |between| ::
              var at := Run(Do(w, DoRequestRecovery(id, asking)), between[..i]);
              !Opposes(at, between[i], id)
  {
    var w1 := Do(w, DoRequestRecovery(id, asking));
    StepKeeps(w, DoRequestRecovery(id, asking));
    RequestIsRecorded(w, id, asking);
    RecoveryLoginFrom(w1, id, between, user, device);
  }

  lemma RequestIsRecorded(w: World, id: ChallengeId, asking: DeviceKey)
    requires CanRequestRecovery(w.t, id, asking, w.now)
    ensures var w1 := Do(w, DoRequestRecovery(id, asking));
            && w1.now == w.now && id in w1.t && w1.t[id].user == w.t[id].user && w1.t[id].device == asking
            && w1.t[id].recoveryRequestedAt == Some(w.now) && w1.t[id].recoveryAvailableAt.Some?
  {
  }

  lemma RecoveryLoginFrom(w: World, id: ChallengeId, between: seq<Op>, user: UserId, device: DeviceKey)
    requires Inv(w) && LegalRun(w, between)
    requires id in w.t && w.t[id].recoveryRequestedAt == Some(w.now) && w.t[id].recoveryAvailableAt.Some?
    requires var w' := Run(w, between); CanClaim(w'.t, id, user, device, w'.now)
    ensures device == w.t[id].device && user == w.t[id].user
    ensures w.now + 24 * HOUR_MS <= Run(w, between).now < w.now + 8 * DAY_MS
    ensures forall i | 0 <= i < |between| ::
              var at := Run(w, between[..i]);
              !Opposes(at, between[i], id)
  {
    RunKeeps(w, between);
    InLog(w, id);
    RequestRun(w, between, id);
    RecoveryTimes(Run(w, between), id);
    forall i | 0 <= i < |between| ensures !Opposes(Run(w, between[..i]), between[i], id) {
      UnopposedSince(w, between, i, id, user, device);
    }
  }

  lemma UnopposedSince(w: World, between: seq<Op>, i: nat, id: ChallengeId, user: UserId, device: DeviceKey)
    requires Inv(w) && LegalRun(w, between) && id in w.t && w.t[id].recoveryAvailableAt.Some? && i < |between|
    requires var w' := Run(w, between); CanClaim(w'.t, id, user, device, w'.now)
    ensures !Opposes(Run(w, between[..i]), between[i], id)
  {
    RunSplits(w, between, i);
    var at := Run(w, between[..i]);
    RunKeeps(w, between[..i]);
    if Opposes(at, between[i], id) {
      RecoveryStays(w, between[..i], id);
      OpposedIsNeverClaimed(at, between[i], between[i + 1..], id, user, device);
    }
  }

  lemma RecoveryStays(w: World, ops: seq<Op>, id: ChallengeId)
    requires Inv(w) && LegalRun(w, ops) && id in w.t && w.t[id].recoveryAvailableAt.Some? && id in Run(w, ops).t
    ensures Run(w, ops).t[id].recoveryAvailableAt.Some?
  {
    RunKeeps(w, ops);
    InLog(w, id);
    RequestRun(w, ops, id);
    RecoveryTimes(w, id);
    RecoveryTimes(Run(w, ops), id);
  }

  lemma RecoveryTimes(w: World, id: ChallengeId)
    requires Rows(w) && id in w.t
    ensures RowFits(w.t[id], w.now)
  {
  }

  // ----- Rate limits

  /** In every run and every ten-minute window, an account gets at most 20 challenges, and at
      most 5 from one address. */
  lemma WindowsBounded(w0: World, ops: seq<Op>, user: UserId, ip: Ip, from: int)
    requires Start(w0) && LegalRun(w0, ops)
    ensures |InWindow(Run(w0, ops).log, user, from)| <= ACCOUNT_RATE_LIMIT
    ensures |InWindowFromIp(Run(w0, ops).log, user, ip, from)| <= RATE_LIMIT
  {
    StartHolds(w0);
    RunKeeps(w0, ops);
  }

  /** A login is limited exactly when the account, or the account from this address, has used up its window. */
  lemma LimitedExactlyWhenFull(w0: World, ops: seq<Op>, user: UserId, ip: Ip)
    requires Start(w0) && LegalRun(w0, ops)
    ensures var w := Run(w0, ops);
      RateLimited(w.t, user, ip, w.now) <==>
        || |InWindow(w.log, user, w.now - RATE_WINDOW_MS)| >= ACCOUNT_RATE_LIMIT
        || |InWindowFromIp(w.log, user, ip, w.now - RATE_WINDOW_MS)| >= RATE_LIMIT
  {
    LoggedInRuns(w0, ops);
    LimitedWhenFull(Run(w0, ops), user, ip);
  }

  lemma LoggedInRuns(w0: World, ops: seq<Op>)
    requires Start(w0) && LegalRun(w0, ops)
    ensures Logged(Run(w0, ops))
  {
    StartHolds(w0);
    RunKeeps(w0, ops);
  }

  lemma LimitedWhenFull(w: World, user: UserId, ip: Ip)
    requires Logged(w)
    ensures RateLimited(w.t, user, ip, w.now) <==>
      || |InWindow(w.log, user, w.now - RATE_WINDOW_MS)| >= ACCOUNT_RATE_LIMIT
      || |InWindowFromIp(w.log, user, ip, w.now - RATE_WINDOW_MS)| >= RATE_LIMIT
  {
    WindowIsTable(w, user, ip);
  }

  lemma WindowIsTable(w: World, user: UserId, ip: Ip)
    requires Logged(w)
    ensures CreatedSince(w.t, user, w.now - RATE_WINDOW_MS) == InWindow(w.log, user, w.now - RATE_WINDOW_MS)
    ensures CreatedFromIpSince(w.t, user, ip, w.now - RATE_WINDOW_MS) == InWindowFromIp(w.log, user, ip, w.now - RATE_WINDOW_MS)
  {
  }

  /** Pruning hides no row from the rate limiter or from the 24-hour failure budget. */
  lemma PruningHidesNothing(w: World, ids: set<ChallengeId>, user: UserId, since: int)
    requires Inv(w) && since >= w.now - RETENTION_MS
    ensures var t' := Prune(w.t, ids, w.now);
            && CreatedSince(t', user, since) == CreatedSince(w.t, user, since)
            && (forall id | id in CreatedSince(t', user, since) :: t'[id] == w.t[id])
            && (forall ip :: CreatedFromIpSince(t', user, ip, since) == CreatedFromIpSince(w.t, user, ip, since))
  {
  }
}
