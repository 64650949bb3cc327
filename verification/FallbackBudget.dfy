/**
 * Security codes instead of an approval, over whole runs: the account's row stays locked from the
 * check of the budget to the recording of the answer, and everything else on challenges goes on.
 */
module FallbackBudget {
  import opened Common
  import opened LoginChallenges
  import C = ChallengeRuns
  import ChallengeInvariant
  import ChallengeTheorems

  /**
   * `answering`: the challenge an account is being asked about. `failures`: the wrong answers each
   * challenge has been charged since its last approval.
   */
  datatype World = World(base: C.World, answering: map<UserId, ChallengeId>, failures: map<ChallengeId, nat>)

  datatype Step =
    | Base(op: C.Op)
    | Begin(user: UserId, id: ChallengeId)
    | AnswerWrong(user: UserId)
    | AnswerRight(user: UserId)
    | GiveUp(user: UserId)

  function Do(w: World, step: Step): World {
    match step
    case Base(op) =>
      World(C.Do(w.base, op), w.answering,
            if op.DoApprove? && CanApprove(w.base.t, op.id, op.user, w.base.now) then w.failures[op.id := 0] else w.failures)
    case Begin(user, id) => w.(answering := w.answering[user := id])
    case AnswerWrong(user) =>
      if user !in w.answering then w
      else
        var id := w.answering[user];
        World(C.Do(w.base, C.FallbackFail(id)), w.answering - {user},
              if id in w.base.t && w.base.t[id].attempts < MAX_ATTEMPTS
              then w.failures[id := C.Count(w.failures, id) + 1] else w.failures)
    case AnswerRight(user) =>
      if user !in w.answering then w
      else w.(base := C.Do(w.base, C.FallbackPass(w.answering[user])), answering := w.answering - {user})
    case GiveUp(user) => w.(answering := w.answering - {user})
  }

  /** The account's challenges of the last day: those whose attempts the budget adds up. */
  function Today(w: C.World, user: UserId): set<ChallengeId> {
    CreatedSince(w.t, user, w.now - RETENTION_MS)
  }

  ghost predicate Legal(w: World, step: Step) {
    match step
    case Base(op) => C.Legal(w.base, op) && !op.FallbackFail? && !op.FallbackPass?
    case Begin(user, id) =>
      && user !in w.answering && id in w.base.t && w.base.t[id].user == user
      && AttemptSum(w.base.t, Today(w.base, user)) < SECURITY_CODE_DAILY_FAILURES
    case _ => true
  }

  function Run(w: World, steps: seq<Step>): World
    decreases |steps|
  {
    if steps == [] then w else Run(Do(w, steps[0]), steps[1..])
  }

  ghost predicate LegalRun(w: World, steps: seq<Step>)
    decreases |steps|
  {
    steps == [] || (Legal(w, steps[0]) && LegalRun(Do(w, steps[0]), steps[1..]))
  }

  ghost predicate Start(w: World) {
    C.Start(w.base) && w.answering == map[] && w.failures == map[]
  }

  // ----- The inductive invariant

  function Reserved(w: C.World, id: ChallengeId): nat
    requires id in w.t
  {
    if w.t[id].code.Some? then |C.Members(w.reservations, w.t[id].code.value)| else 0
  }

  /** Every wrong answer and every submission of the current code has cost an attempt. */
  predicate Paid(w: C.World, id: ChallengeId, n: nat) {
    id in w.t ==> n + Reserved(w, id) <= w.t[id].attempts
  }

  ghost predicate AllPaid(w: World) {
    forall id: ChallengeId :: Paid(w.base, id, C.Count(w.failures, id))
  }

  ghost predicate Capped(w: World) {
    forall id | id in w.failures :: id in w.base.log && w.failures[id] <= MAX_ATTEMPTS
  }

  ghost function Total(f: map<ChallengeId, nat>, ids: set<ChallengeId>): nat
    decreases |ids|
  {
    if ids == {} then 0
    else
      var id :| id in ids;
      C.Count(f, id) + Total(f, ids - {id})
  }

  ghost predicate WithinBudget(w: World) {
    && (forall user :: Total(w.failures, Today(w.base, user)) <= SECURITY_CODE_DAILY_FAILURES)
    && (forall user | user in w.answering :: Total(w.failures, Today(w.base, user)) < SECURITY_CODE_DAILY_FAILURES)
    && (forall user | user in w.answering :: w.answering[user] in w.base.log && w.base.log[w.answering[user]].user == user)
  }

  ghost predicate Inv(w: World) {
    C.Inv(w.base) && AllPaid(w) && Capped(w) && WithinBudget(w)
  }

  // ----- Sums

  lemma {:induction false} TotalWithout(f: map<ChallengeId, nat>, ids: set<ChallengeId>, x: ChallengeId)
    requires x in ids
    ensures Total(f, ids) == C.Count(f, x) + Total(f, ids - {x})
    decreases |ids|
  {
    var id :| id in ids && Total(f, ids) == C.Count(f, id) + Total(f, ids - {id});
    if id != x {
      TotalWithout(f, ids - {id}, x);
      TotalWithout(f, ids - {x}, id);
      assert ids - {id} - {x} == ids - {x} - {id};
    }
  }

  lemma {:induction false} TotalShrinks(f: map<ChallengeId, nat>, ids: set<ChallengeId>, f': map<ChallengeId, nat>, ids': set<ChallengeId>)
    requires forall id | id in ids' :: C.Count(f', id) <= C.Count(f, id) && (id in ids || C.Count(f', id) == 0)
    ensures Total(f', ids') <= Total(f, ids)
    decreases |ids'|
  {
    if ids' != {} {
      var x :| x in ids';
      TotalWithout(f', ids', x);
      if x in ids {
        TotalWithout(f, ids, x);
        TotalShrinks(f, ids - {x}, f', ids' - {x});
      } else {
        TotalShrinks(f, ids, f', ids' - {x});
      }
    }
  }

  lemma TotalOfOneMore(f: map<ChallengeId, nat>, ids: set<ChallengeId>, x: ChallengeId)
    ensures Total(f[x := C.Count(f, x) + 1], ids) <= Total(f, ids) + 1
  {
    var f' := f[x := C.Count(f, x) + 1];
    if x in ids {
      TotalWithout(f, ids, x);
      TotalWithout(f', ids, x);
      TotalShrinks(f, ids - {x}, f', ids - {x});
    } else {
      TotalShrinks(f, ids, f', ids);
    }
  }

  lemma {:induction false} TotalIsPaid(w: World, ids: set<ChallengeId>)
    requires AllPaid(w) && ids <= w.base.t.Keys
    ensures Total(w.failures, ids) <= AttemptSum(w.base.t, ids)
    decreases |ids|
  {
    if ids != {} {
      var x :| x in ids;
      TotalWithout(w.failures, ids, x);
      AttemptSumWithout(w.base.t, ids, x);
      TotalIsPaid(w, ids - {x});
      assert Paid(w.base, x, C.Count(w.failures, x));
    }
  }

  // ----- Attempts are paid

  /** An operation that is no wrong answer keeps what was paid, an approval starts afresh. */
  lemma PaidStep(w: C.World, op: C.Op, id: ChallengeId, n: nat)
    requires C.Inv(w) && C.Legal(w, op) && !op.FallbackFail? && Paid(w, id, n) && (id !in w.log ==> n == 0)
    ensures Paid(C.Do(w, op), id, if op.DoApprove? && op.id == id && CanApprove(w.t, id, op.user, w.now) then 0 else n)
  {
    match op
    case DoCreate(_, _, _, _) => PaidByCreate(w, op, id, n);
    case DoApprove(_, _, _) => PaidByApprove(w, op, id, n);
    case DoReserve(call) => PaidByReserve(w, call, id, n);
    case Compare(_, _) =>
    case Submit(_, _, _) =>
    case DoConsume(call) => PaidByConsume(w, call, id, n);
    case FallbackPass(_) => PaidByDecision(w, op, id, n);
    case _ => PaidByClosing(w, op, id, n);
  }

  lemma PaidByCreate(w: C.World, op: C.Op, id: ChallengeId, n: nat)
    requires Paid(w, id, n) && (id !in w.log ==> n == 0) && op.DoCreate? && op.id !in w.log
    ensures Paid(C.Do(w, op), id, n)
  {
  }

  lemma PaidByApprove(w: C.World, op: C.Op, id: ChallengeId, n: nat)
    requires C.Codes(w) && Paid(w, id, n) && op.DoApprove? && op.code !in w.usedCodes
    ensures Paid(C.Do(w, op), id, if op.id == id && CanApprove(w.t, id, op.user, w.now) then 0 else n)
  {
    assert C.Members(w.reservations, op.code) == {};
  }

  lemma PaidByReserve(w: C.World, call: C.SubmissionId, id: ChallengeId, n: nat)
    requires C.Codes(w) && C.Calls(w) && Paid(w, id, n)
    ensures Paid(C.Reserving(w, call), id, n)
  {
    if id in w.t && call in w.calls {
      var s := w.calls[call];
      var before := C.Members(w.reservations, s.code);
      assert |before + {call}| <= |before| + 1;
      if CanReserve(w.t, s.challenge, s.code, s.readAt) && s.challenge != id { assert w.t[id].code != Some(s.code); }
    }
  }

  lemma PaidByConsume(w: C.World, call: C.SubmissionId, id: ChallengeId, n: nat)
    requires C.Calls(w) && Paid(w, id, n)
    ensures Paid(C.Consuming(w, call), id, n)
  {
    if id in w.t && call in w.calls && w.calls[call].stage == C.Matched {
      var s := w.calls[call];
      var reserved := C.Members(w.reservations, s.code);
      assert call in reserved;
      assert |reserved| > 0;
    }
  }

  lemma PaidByDecision(w: C.World, op: C.Op, id: ChallengeId, n: nat)
    requires Paid(w, id, n) && op.FallbackPass?
    ensures Paid(C.Do(w, op), id, n)
  {
  }

  lemma PaidByClosing(w: C.World, op: C.Op, id: ChallengeId, n: nat)
    requires Paid(w, id, n)
    requires || op.DoReject? || op.DoInvalidate? || op.DoCancel? || op.DoReopen? || op.DoRequestRecovery? || op.DoClaim?
             || op.DoRelease? || op.InvalidateOthers? || op.LetGo? || op.DoPrune? || op.Tick?
    ensures Paid(C.Do(w, op), id, n)
  {
  }

  // ----- Steps

  lemma BaseKeepsPaid(w: World, op: C.Op)
    requires C.Inv(w.base) && AllPaid(w) && Capped(w) && C.Legal(w.base, op) && !op.FallbackFail?
    ensures AllPaid(Do(w, Base(op)))
  {
    var w' := Do(w, Base(op));
    forall id: ChallengeId ensures Paid(w'.base, id, C.Count(w'.failures, id)) {
      assert Paid(w.base, id, C.Count(w.failures, id));
      PaidStep(w.base, op, id, C.Count(w.failures, id));
    }
  }

  lemma BaseKeepsCapped(w: World, op: C.Op)
    requires C.Logged(w.base) && Capped(w) && C.Legal(w.base, op)
    ensures Capped(Do(w, Base(op)))
  {
    forall id | id in w.base.log ensures id in C.Do(w.base, op).log { ChallengeTheorems.NoNewRow(w.base, op, id); }
    if op.DoApprove? && CanApprove(w.base.t, op.id, op.user, w.base.now) { ChallengeInvariant.InLog(w.base, op.id); }
  }

  /** What is there today was there before, or is new and has not failed. */
  lemma TodayShrinks(w: World, op: C.Op, user: UserId, id: ChallengeId)
    requires C.Inv(w.base) && C.Legal(w.base, op) && id in Today(C.Do(w.base, op), user)
    ensures id in Today(w.base, user) || id !in w.base.log
  {
    var b' := C.Do(w.base, op);
    ChallengeInvariant.StepKeeps(w.base, op);
    ChallengeInvariant.InLog(b', id);
    assert b'.log[id] == C.Created(b'.t[id].user, b'.t[id].ip, b'.t[id].createdAt);
    if id in w.base.log {
      ChallengeTheorems.NoNewRow(w.base, op, id);
      LogStays(w.base, op, id);
      assert w.base.log[id] == C.Created(w.base.t[id].user, w.base.t[id].ip, w.base.t[id].createdAt);
      ClockRuns(w.base, op);
    }
  }

  lemma LogStays(w: C.World, op: C.Op, id: ChallengeId)
    requires C.Legal(w, op) && id in w.log
    ensures id in C.Do(w, op).log && C.Do(w, op).log[id] == w.log[id]
  {
    if !op.DoCreate? { ChallengeTheorems.KeysShrink(w, op); }
  }

  lemma ClockRuns(w: C.World, op: C.Op)
    requires C.Legal(w, op)
    ensures w.now <= C.Do(w, op).now
  {
    if op.DoReserve? || op.DoConsume? || op.Compare? || op.Submit? {
      SubmissionsTakeNoTime(w, op);
    } else if op.DoCreate? || op.DoApprove? || op.DoReject? || op.DoInvalidate? || op.DoCancel? || op.DoReopen? || op.FallbackFail? || op.FallbackPass? {
      DecisionsTakeNoTime(w, op);
    }
  }

  lemma SubmissionsTakeNoTime(w: C.World, op: C.Op)
    requires op.DoReserve? || op.DoConsume? || op.Compare? || op.Submit?
    ensures C.Do(w, op).now == w.now
  {
    match op
    case DoReserve(call) => ReservingTakesNoTime(w, call);
    case DoConsume(call) => ConsumingTakesNoTime(w, call);
    case _ =>
  }

  lemma ReservingTakesNoTime(w: C.World, call: C.SubmissionId)
    ensures C.Reserving(w, call).now == w.now
  {
  }

  lemma ConsumingTakesNoTime(w: C.World, call: C.SubmissionId)
    ensures C.Consuming(w, call).now == w.now
  {
    if call in w.calls {
      var s := w.calls[call];
      ChallengeTheorems.WinSets(w.(calls := w.calls - {call}), Consume(w.t, s.challenge, s.code, s.readAt), s.challenge);
    }
  }

  lemma DecisionsTakeNoTime(w: C.World, op: C.Op)
    requires op.DoCreate? || op.DoApprove? || op.DoReject? || op.DoInvalidate? || op.DoCancel? || op.DoReopen? || op.FallbackFail? || op.FallbackPass?
    ensures C.Do(w, op).now == w.now
  {
  }

  lemma BaseKeepsBudget(w: World, op: C.Op)
    requires C.Inv(w.base) && Capped(w) && WithinBudget(w) && C.Legal(w.base, op)
    ensures WithinBudget(Do(w, Base(op)))
  {
    var w' := Do(w, Base(op));
    forall user: UserId ensures Total(w'.failures, Today(w'.base, user)) <= Total(w.failures, Today(w.base, user)) {
      forall id | id in Today(w'.base, user) ensures id in Today(w.base, user) || id !in w.base.log { TodayShrinks(w, op, user, id); }
      forall id | id in Today(w'.base, user)
        ensures C.Count(w'.failures, id) <= C.Count(w.failures, id) && (id in Today(w.base, user) || C.Count(w'.failures, id) == 0)
      {
        if op.DoApprove? && CanApprove(w.base.t, op.id, op.user, w.base.now) { ChallengeInvariant.InLog(w.base, op.id); }
      }
      TotalShrinks(w.failures, Today(w.base, user), w'.failures, Today(w'.base, user));
    }
    forall user | user in w.answering
      ensures w.answering[user] in w'.base.log && w'.base.log[w.answering[user]] == w.base.log[w.answering[user]]
    {
      LogStays(w.base, op, w.answering[user]);
    }
  }

  lemma BaseKeeps(w: World, op: C.Op)
    requires Inv(w) && C.Legal(w.base, op) && !op.FallbackFail?
    ensures Inv(Do(w, Base(op)))
  {
    ChallengeInvariant.StepKeeps(w.base, op);
    BaseKeepsPaid(w, op);
    BaseKeepsCapped(w, op);
    BaseKeepsBudget(w, op);
  }

  lemma BeginKeeps(w: World, user: UserId, id: ChallengeId)
    requires Inv(w) && Legal(w, Begin(user, id))
    ensures Inv(Do(w, Begin(user, id)))
  {
    TotalIsPaid(w, Today(w.base, user));
    ChallengeInvariant.InLog(w.base, id);
    var w' := Do(w, Begin(user, id));
    assert w'.base == w.base && w'.failures == w.failures;
    assert AllPaid(w') by {
      forall i: ChallengeId ensures Paid(w'.base, i, C.Count(w'.failures, i)) { assert Paid(w.base, i, C.Count(w.failures, i)); }
    }
  }

  /** A wrong answer is charged to its challenge and to no other. */
  lemma ChargedTo(w: C.World, id: ChallengeId, other: ChallengeId, n: nat)
    requires Paid(w, other, n)
    ensures var charged := other == id && id in w.t && w.t[id].attempts < MAX_ATTEMPTS;
      Paid(C.Do(w, C.FallbackFail(id)), other, if charged then n + 1 else n)
  {
  }

  lemma WrongKeepsPaid(w: World, user: UserId)
    requires AllPaid(w)
    ensures AllPaid(Do(w, AnswerWrong(user)))
  {
    var w' := Do(w, AnswerWrong(user));
    forall id: ChallengeId ensures Paid(w'.base, id, C.Count(w'.failures, id)) {
      assert Paid(w.base, id, C.Count(w.failures, id));
      if user in w.answering { ChargedTo(w.base, w.answering[user], id, C.Count(w.failures, id)); }
    }
  }

  lemma WrongKeepsCapped(w: World, user: UserId)
    requires C.Inv(w.base) && AllPaid(w) && Capped(w)
    ensures Capped(Do(w, AnswerWrong(user)))
  {
    if user in w.answering && w.answering[user] in w.base.t {
      var id := w.answering[user];
      ChallengeInvariant.InLog(w.base, id);
      assert Paid(w.base, id, C.Count(w.failures, id));
    }
  }

  lemma WrongTotal(w: World, user: UserId, other: UserId)
    requires C.Logged(w.base) && user in w.answering
    requires w.answering[user] in w.base.log && w.base.log[w.answering[user]].user == user
    ensures var w' := Do(w, AnswerWrong(user));
      Total(w'.failures, Today(w'.base, other)) <= Total(w.failures, Today(w.base, other)) + if other == user then 1 else 0
  {
    var w' := Do(w, AnswerWrong(user));
    var id := w.answering[user];
    assert Today(w'.base, other) == Today(w.base, other);
    if other == user {
      TotalOfOneMore(w.failures, Today(w.base, other), id);
    } else {
      if id in w.base.t { ChallengeInvariant.InLog(w.base, id); }
      TotalShrinks(w.failures, Today(w.base, other), w'.failures, Today(w'.base, other));
    }
  }

  lemma WrongLeaves(w: World, user: UserId)
    ensures var w' := Do(w, AnswerWrong(user)); w'.base.log == w.base.log && w'.answering == w.answering - {user}
  {
  }

  lemma WrongKeepsBudget(w: World, user: UserId)
    requires C.Logged(w.base) && WithinBudget(w) && user in w.answering
    ensures WithinBudget(Do(w, AnswerWrong(user)))
  {
    forall other: UserId
      ensures var w' := Do(w, AnswerWrong(user));
        Total(w'.failures, Today(w'.base, other)) <= Total(w.failures, Today(w.base, other)) + if other == user then 1 else 0
    {
      WrongTotal(w, user, other);
    }
    WrongLeaves(w, user);
  }

  lemma StepKeeps(w: World, step: Step)
    requires Inv(w) && Legal(w, step)
    ensures Inv(Do(w, step))
  {
    match step
    case Base(op) => BaseKeeps(w, op);
    case Begin(user, id) => BeginKeeps(w, user, id);
    case AnswerWrong(user) => WrongKeeps(w, user);
    case AnswerRight(user) => RightKeeps(w, user);
    case GiveUp(user) => GiveUpKeeps(w, user);
  }

  lemma WrongKeeps(w: World, user: UserId)
    requires Inv(w)
    ensures Inv(Do(w, AnswerWrong(user)))
  {
    if user in w.answering {
      ChallengeInvariant.StepKeeps(w.base, C.FallbackFail(w.answering[user]));
      WrongKeepsPaid(w, user);
      WrongKeepsCapped(w, user);
      WrongKeepsBudget(w, user);
    }
  }

  lemma GiveUpKeeps(w: World, user: UserId)
    requires Inv(w)
    ensures Inv(Do(w, GiveUp(user)))
  {
    var w' := Do(w, GiveUp(user));
    forall i: ChallengeId ensures Paid(w'.base, i, C.Count(w'.failures, i)) { assert Paid(w.base, i, C.Count(w.failures, i)); }
  }

  lemma RightIs(w: World, user: UserId)
    requires user in w.answering
    ensures Do(Do(w, Base(C.FallbackPass(w.answering[user]))), GiveUp(user)) == Do(w, AnswerRight(user))
  {
  }

  lemma RightKeeps(w: World, user: UserId)
    requires Inv(w)
    ensures Inv(Do(w, AnswerRight(user)))
  {
    if user in w.answering {
      var op := C.FallbackPass(w.answering[user]);
      BaseKeeps(w, op);
      GiveUpKeeps(Do(w, Base(op)), user);
      RightIs(w, user);
    }
  }

  lemma {:induction false} RunKeeps(w: World, steps: seq<Step>)
    requires Inv(w) && LegalRun(w, steps)
    ensures Inv(Run(w, steps))
    decreases |steps|
  {
    if steps != [] {
      StepKeeps(w, steps[0]);
      RunKeeps(Do(w, steps[0]), steps[1..]);
    }
  }

  lemma StartHolds(w: World)
    requires Start(w)
    ensures Inv(w)
  {
    ChallengeInvariant.StartHolds(w.base);
  }

  // ----- What the budget promises

  /** No challenge is charged more than five wrong answers between two approvals, and each has cost it an attempt. */
  lemma WrongAnswersBounded(start: World, steps: seq<Step>, id: ChallengeId)
    requires Start(start) && LegalRun(start, steps)
    ensures var w := Run(start, steps);
      && C.Count(w.failures, id) <= MAX_ATTEMPTS
      && (id in w.base.t ==> C.Count(w.failures, id) <= w.base.t[id].attempts)
  {
    StartHolds(start);
    RunKeeps(start, steps);
    assert Paid(Run(start, steps).base, id, C.Count(Run(start, steps).failures, id));
  }

  /** The challenges an account got within a day are charged no more than ten between them. */
  lemma WrongAnswersOfADay(start: World, steps: seq<Step>, user: UserId)
    requires Start(start) && LegalRun(start, steps)
    ensures var w := Run(start, steps); Total(w.failures, Today(w.base, user)) <= SECURITY_CODE_DAILY_FAILURES
  {
    StartHolds(start);
    RunKeeps(start, steps);
  }

  /** A wrong answer uses up the budget exactly when its challenge is less than a day old. */
  lemma BudgetIsUsedExactlyWhen(w: World, user: UserId)
    requires Inv(w) && user in w.answering && w.answering[user] in w.base.t && w.base.t[w.answering[user]].attempts < MAX_ATTEMPTS
    ensures var b' := Do(w, AnswerWrong(user)).base;
      var young := w.base.t[w.answering[user]].createdAt > w.base.now - RETENTION_MS;
      AttemptSum(b'.t, Today(b', user)) == AttemptSum(w.base.t, Today(w.base, user)) + if young then 1 else 0
  {
    OwnIsAsked(w, user);
    BudgetUsed(w, user);
  }

  lemma OwnIsAsked(w: World, user: UserId)
    requires C.Logged(w.base) && WithinBudget(w) && user in w.answering && w.answering[user] in w.base.t
    ensures w.base.t[w.answering[user]].user == user
  {
    ChallengeInvariant.InLog(w.base, w.answering[user]);
  }

  lemma BudgetUsed(w: World, user: UserId)
    requires user in w.answering && w.answering[user] in w.base.t && w.base.t[w.answering[user]].attempts < MAX_ATTEMPTS
    requires w.base.t[w.answering[user]].user == user
    ensures var b' := Do(w, AnswerWrong(user)).base;
      var young := w.base.t[w.answering[user]].createdAt > w.base.now - RETENTION_MS;
      AttemptSum(b'.t, Today(b', user)) == AttemptSum(w.base.t, Today(w.base, user)) + if young then 1 else 0
  {
    ChargedOnce(w.base.t, w.answering[user], user, w.base.now - RETENTION_MS);
    WrongIs(w, user);
  }

  lemma WrongIs(w: World, user: UserId)
    requires user in w.answering
    ensures var b' := Do(w, AnswerWrong(user)).base; b'.t == FallbackFailed(w.base.t, w.answering[user]) && b'.now == w.base.now
  {
  }

  lemma ChargedOnce(t: Table, id: ChallengeId, user: UserId, since: int)
    requires id in t && t[id].user == user && t[id].attempts < MAX_ATTEMPTS
    ensures var t' := FallbackFailed(t, id);
      AttemptSum(t', CreatedSince(t', user, since)) == AttemptSum(t, CreatedSince(t, user, since)) + if t[id].createdAt > since then 1 else 0
  {
    var t' := FallbackFailed(t, id);
    var ids := CreatedSince(t, user, since);
    assert CreatedSince(t', user, since) == ids;
    if id in ids {
      AttemptSumWithout(t, ids, id);
      AttemptSumWithout(t', ids, id);
      SameSum(t, t', ids - {id});
    } else {
      SameSum(t, t', ids);
    }
  }

  lemma {:induction false} SameSum(t: Table, t': Table, ids: set<ChallengeId>)
    requires ids <= t.Keys && ids <= t'.Keys && forall id | id in ids :: t[id].attempts == t'[id].attempts
    ensures AttemptSum(t, ids) == AttemptSum(t', ids)
    decreases |ids|
  {
    if ids != {} {
      var x :| x in ids;
      AttemptSumWithout(t, ids, x);
      AttemptSumWithout(t', ids, x);
      SameSum(t, t', ids - {x});
    }
  }

  // ----- A recovery older than a day has a budget of its own

  const LATE := 25 * HOUR_MS
  const AGED := Challenge(0, "new", 9, 0, PENDING, None, None, 0, 24 * HOUR_MS + 7 * DAY_MS, Some(0), Some(24 * HOUR_MS))
  const ASKS: seq<Step> :=
    [Base(C.DoCreate(1, 0, "new", 9)), Base(C.DoRequestRecovery(1, "new")), Base(C.Tick(LATE))]

  /** The aged recovery has been charged `n` wrong answers, and nobody is answering. */
  ghost predicate Charged(w: World, n: nat) {
    && w.base.t == map[1 := AGED.(attempts := n)] && w.base.now == LATE && 0 !in w.answering && C.Count(w.failures, 1) == n
  }

  lemma Asked(start: World)
    requires Start(start) && start.base.now == 0
    ensures var w1 := Do(start, ASKS[0]); var w2 := Do(w1, ASKS[1]);
      && Legal(start, ASKS[0]) && w1.base.t == map[1 := NewChallenge(0, "new", 9, 0)] && w1.base.now == 0
      && w1.answering == map[] && w1.failures == map[] && w1.base.holders == map[]
  {
    assert CreatedSince(start.base.t, 0, 0 - RATE_WINDOW_MS) == {} && CreatedFromIpSince(start.base.t, 0, 9, 0 - RATE_WINDOW_MS) == {};
  }

  lemma Granted(w1: World)
    requires w1.base.t == map[1 := NewChallenge(0, "new", 9, 0)] && w1.base.now == 0
    ensures var w2 := Do(w1, ASKS[1]);
      w2.base.t == map[1 := AGED] && w2.base.now == 0 && w2.answering == w1.answering && w2.failures == w1.failures
  {
    assert ActiveRecoveries(w1.base.t, 0, 0) == {};
  }

  lemma Aged(start: World)
    requires Start(start) && start.base.now == 0
    ensures LegalRun(start, ASKS) && Charged(Run(start, ASKS), 0)
  {
    var w1 := Do(start, ASKS[0]);
    var w2 := Do(w1, ASKS[1]);
    Asked(start);
    Granted(w1);
    OneStep(start, ASKS[0]);
    OneStep(w1, ASKS[1]);
    OneStep(w2, ASKS[2]);
    RunJoins(start, [ASKS[0]], [ASKS[1]] + [ASKS[2]]);
    RunJoins(w1, [ASKS[1]], [ASKS[2]]);
    assert ASKS == [ASKS[0]] + ([ASKS[1]] + [ASKS[2]]);
  }

  lemma OneStep(w: World, step: Step)
    ensures Run(w, [step]) == Do(w, step) && (LegalRun(w, [step]) <==> Legal(w, step))
  {
    assert Run(Do(w, step), []) == Do(w, step);
  }

  lemma AskedAgain(w: World, n: nat)
    requires Charged(w, n)
    ensures Legal(w, Begin(0, 1))
    ensures var w1 := Do(w, Begin(0, 1));
      w1.base == w.base && w1.failures == w.failures && 0 in w1.answering && w1.answering[0] == 1
  {
    assert Today(w.base, 0) == {};
  }

  lemma OneWrong(w: World, n: nat)
    requires w.base.t == map[1 := AGED.(attempts := n)] && w.base.now == LATE && C.Count(w.failures, 1) == n
    requires 0 in w.answering && w.answering[0] == 1 && n < MAX_ATTEMPTS
    ensures Charged(Do(w, AnswerWrong(0)), n + 1)
  {
    assert FallbackFailed(w.base.t, 1) == map[1 := AGED.(attempts := n + 1)];
  }

  lemma OneMoreWrong(w: World, n: nat)
    requires Charged(w, n) && n < MAX_ATTEMPTS
    ensures LegalRun(w, [Begin(0, 1)] + [AnswerWrong(0)]) && Charged(Run(w, [Begin(0, 1)] + [AnswerWrong(0)]), n + 1)
  {
    var w1 := Do(w, Begin(0, 1));
    AskedAgain(w, n);
    OneWrong(w1, n);
    OneStep(w, Begin(0, 1));
    OneStep(w1, AnswerWrong(0));
    RunJoins(w, [Begin(0, 1)], [AnswerWrong(0)]);
  }

  lemma {:induction false} RunJoins(w: World, a: seq<Step>, b: seq<Step>)
    ensures Run(w, a + b) == Run(Run(w, a), b)
    ensures LegalRun(w, a + b) <==> LegalRun(w, a) && LegalRun(Run(w, a), b)
    decreases |a|
  {
    if a == [] {
      assert a + b == b;
    } else {
      assert (a + b)[1..] == a[1..] + b;
      RunJoins(Do(w, a[0]), a[1..], b);
    }
  }

  lemma {:induction false} WrongUpTo(w: World, n: nat) returns (steps: seq<Step>)
    requires Charged(w, n) && n <= MAX_ATTEMPTS
    ensures LegalRun(w, steps) && Charged(Run(w, steps), MAX_ATTEMPTS)
    decreases MAX_ATTEMPTS - n
  {
    if n == MAX_ATTEMPTS {
      steps := [];
    } else {
      OneMoreWrong(w, n);
      var once := [Begin(0, 1)] + [AnswerWrong(0)];
      var rest := WrongUpTo(Run(w, once), n + 1);
      RunJoins(w, once, rest);
      steps := once + rest;
    }
  }

  /** From empty tables: five wrong answers on a recovery a day old, and the budget is untouched. */
  lemma OldRecoveryEscapesTheBudget(start: World) returns (steps: seq<Step>)
    requires Start(start) && start.base.now == 0
    ensures LegalRun(start, steps)
    ensures var w := Run(start, steps); C.Count(w.failures, 1) == 5 && AttemptSum(w.base.t, Today(w.base, 0)) == 0
  {
    Aged(start);
    var wrong := WrongUpTo(Run(start, ASKS), 0);
    RunJoins(start, ASKS, wrong);
    steps := ASKS + wrong;
    assert Today(Run(start, steps).base, 0) == {};
  }
}
