/** What requesting, delivering, rolling back, verifying and pruning give over every run. */
module EmailCodeTheorems {
  import opened Common
  import opened EmailCodes

  // ----- The invariant

  lemma SpacedStep(w: World, step: Step)
    requires Spaced(w) && Legal(w, step)
    ensures Spaced(Do(w, step))
  {
    match step
    case Create(id, secret) => SpacedCreate(w, id, secret);
    case _ =>
  }

  lemma SpacedCreate(w: World, id: CodeId, secret: Secret)
    requires Spaced(w)
    ensures Spaced(Do(w, Create(id, secret)))
  {
    if !CoolingDown(w.rows, w.now) {
      assert forall k | k in w.rows :: w.now - w.rows[k].createdAt >= RESEND_COOLDOWN_MS;
    }
  }

  lemma CountedStep(w: World, step: Step)
    requires Counted(w) && Remembered(w) && Legal(w, step)
    ensures Counted(Do(w, step))
  {
  }

  lemma RememberedStep(w: World, step: Step)
    requires Counted(w) && Remembered(w) && Legal(w, step)
    ensures Remembered(Do(w, step))
  {
    match step
    case Create(id, secret) => RememberedCreate(w, id, secret);
    case Read(v, given, record) =>
    case CheckNewest(v, newest) =>
    case Compare(v) => RememberedCompare(w, v);
    case Consume(v) => RememberedCompare(w, v);
    case _ =>
  }

  lemma RememberedCreate(w: World, id: CodeId, secret: Secret)
    requires Remembered(w) && id !in w.used
    ensures Remembered(Do(w, Create(id, secret)))
  {
  }

  lemma RememberedCompare(w: World, v: VerifyId)
    requires Remembered(w)
    ensures Remembered(Do(w, Compare(v))) && Remembered(Do(w, Consume(v)))
  {
  }

  lemma StepKeeps(w: World, step: Step)
    requires Inv(w) && Legal(w, step)
    ensures Inv(Do(w, step))
  {
    SpacedStep(w, step);
    CountedStep(w, step);
    RememberedStep(w, step);
  }

  lemma {:induction false} RunKeeps(w: World, steps: seq<Step>)
    requires Inv(w) && LegalRun(w, steps)
    ensures Inv(Run(w, steps))
    decreases |steps|
  {
    if steps != [] {
      StepKeeps(w, steps[0]);
      RunKeeps(Do(w, steps[0]), steps[1..]);
    }
  }

  /** No code is accepted twice, however many verifications race for it. */
  lemma VerifiedAtMostOnce(start: World, steps: seq<Step>, id: CodeId)
    requires Start(start) && LegalRun(start, steps)
    ensures Verified(Run(start, steps), id) <= 1
  {
    RunKeeps(start, steps);
  }

  /** The rows that survive were created a cooldown apart. */
  lemma RowsAreSpaced(start: World, steps: seq<Step>, a: CodeId, b: CodeId)
    requires Start(start) && LegalRun(start, steps)
    requires a in Run(start, steps).rows && b in Run(start, steps).rows && a != b
    ensures Apart(Run(start, steps).rows[a].createdAt, Run(start, steps).rows[b].createdAt)
  {
    RunKeeps(start, steps);
  }

  // ----- What the outcome of a delivery, and a sweep, leave

  /** A delivered code takes away exactly the unconsumed rows that are older than it. */
  lemma DeliveryLeaves(w: World, id: CodeId)
    requires id in w.sends
    ensures var rows := Do(w, Delivered(id)).rows;
      && (forall k :: k in rows <==> k in w.rows && (w.rows[k].consumedAt.Some? || w.rows[k].createdAt >= w.sends[id]))
      && (forall k | k in rows :: rows[k] == w.rows[k])
  {
  }

  /** A sweep takes away exactly the rows of its batch that expired more than a day ago. */
  lemma PruneLeaves(w: World, ids: set<CodeId>)
    ensures var rows := Do(w, Prune(ids)).rows;
      && (forall k :: k in rows <==> k in w.rows && !(k in ids && w.rows[k].expiresAt < w.now - 86_400_000))
      && (forall k | k in rows :: rows[k] == w.rows[k])
  {
  }

  /** Handed out, and its delivery reported. */
  predicate Reported(w: World, id: CodeId) {
    id in w.used && id !in w.sends
  }

  /** A delivery is reported once: afterwards no report about it changes anything. */
  lemma {:induction false} ReportedOnce(w: World, steps: seq<Step>, id: CodeId, report: Step)
    requires LegalRun(w, steps) && Reported(w, id)
    requires report == Delivered(id) || report == RollBack(id)
    ensures Reported(Run(w, steps), id) && Do(Run(w, steps), report) == Run(w, steps)
    decreases |steps|
  {
    if steps != [] { ReportedOnce(Do(w, steps[0]), steps[1..], id, report); }
  }

  lemma ReportCounts(w: World, id: CodeId, report: Step)
    requires Counted(w) && id in w.sends && (report == Delivered(id) || report == RollBack(id) || report == SendLost(id))
    ensures Reported(Do(w, report), id)
    ensures report == RollBack(id) ==> Do(w, report).rows == w.rows - {id}
    ensures report == SendLost(id) ==> Do(w, report).rows == w.rows
  {
  }

  // ----- What an uninterrupted verification answers

  /** The newest row, if it is unconsumed, unexpired and has attempts left, is the one that counts. */
  ghost predicate Answers(rows: Rows, now: int, n: CodeId) {
    NewestOf(rows, rows.Keys, n) && n in Usable(rows, now) && rows[n].attempts < MAX_ATTEMPTS
  }

  ghost predicate Accepts(rows: Rows, now: int, given: Secret) {
    exists n :: Answers(rows, now, n) && rows[n].secret == given
  }

  /** The code that counts is no older than any other, unconsumed, in time, and has attempts left. */
  lemma AnswersExactlyWhen(rows: Rows, now: int, n: CodeId)
    ensures Answers(rows, now, n) <==>
      && n in rows && rows[n].consumedAt.None? && now < rows[n].expiresAt && rows[n].attempts < 5
      && forall k | k in rows :: rows[k].createdAt <= rows[n].createdAt
  {
  }

  function Uninterrupted(w: World, v: VerifyId, given: Secret, record: Option<CodeId>, newest: Option<CodeId>): World {
    Do(Do(Do(Do(w, Read(v, given, record)), CheckNewest(v, newest)), Compare(v)), Consume(v))
  }

  /** The newest usable row must be the newest row of all. */
  lemma AnswersWhen(w: World, record: Option<CodeId>, newest: Option<CodeId>)
    requires Spaced(w)
    requires if record.Some? then NewestOf(w.rows, Usable(w.rows, w.now), record.value) else Usable(w.rows, w.now) == {}
    requires if newest.Some? then NewestOf(w.rows, w.rows.Keys, newest.value) else w.rows == map[]
    ensures forall k :: Answers(w.rows, w.now, k) <==>
      record == Some(k) && record == newest && w.rows[k].attempts < MAX_ATTEMPTS
  {
  }

  lemma AcceptsWhen(w: World, given: Secret, record: Option<CodeId>, newest: Option<CodeId>)
    requires Spaced(w)
    requires if record.Some? then NewestOf(w.rows, Usable(w.rows, w.now), record.value) else Usable(w.rows, w.now) == {}
    requires if newest.Some? then NewestOf(w.rows, w.rows.Keys, newest.value) else w.rows == map[]
    ensures Accepts(w.rows, w.now, given) <==>
      (record.Some? && record == newest && w.rows[record.value].attempts < MAX_ATTEMPTS && w.rows[record.value].secret == given)
  {
    AnswersWhen(w, record, newest);
  }

  /** Left alone, a verification accepts exactly the secret of a newest row that is usable. */
  lemma AcceptsTheNewestUsable(w: World, v: VerifyId, given: Secret, record: Option<CodeId>, newest: Option<CodeId>)
    requires Spaced(w) && Legal(w, Read(v, given, record)) && Legal(w, CheckNewest(v, newest))
    ensures Uninterrupted(w, v, given, record, newest).verified != w.verified <==> Accepts(w.rows, w.now, given)
  {
    AcceptsWhen(w, given, record, newest);
    if Accepts(w.rows, w.now, given) { AcceptedIsCounted(w, v, given, record.value); }
  }

  lemma AcceptedIsCounted(w: World, v: VerifyId, given: Secret, n: CodeId)
    requires Consumable(w.rows, n) && w.rows[n].attempts < MAX_ATTEMPTS && w.rows[n].secret == given
    ensures Uninterrupted(w, v, given, Some(n), Some(n)).verified == w.verified[n := Verified(w, n) + 1]
    ensures Uninterrupted(w, v, given, Some(n), Some(n)).verified != w.verified
  {
  }

  // ----- How many guesses are compared with one code

  /** The verifications of a code between their read and their comparison. */
  function InFlight(w: World, r: CodeId): set<VerifyId> {
    set v | v in w.verifications && w.verifications[v].record == r && !w.verifications[v].Matched?
  }

  /** Never more than `n` of them at once. */
  ghost predicate AtMost(w: World, steps: seq<Step>, r: CodeId, n: nat)
    decreases |steps|
  {
    |InFlight(w, r)| <= n && (steps == [] || AtMost(Do(w, steps[0]), steps[1..], r, n))
  }

  /** The comparison of a guess at `r` that is wrong. */
  predicate GuessesWrong(w: World, step: Step, r: CodeId) {
    && step.Compare? && step.v in w.verifications && w.verifications[step.v].IsNewest?
    && w.verifications[step.v].record == r && w.verifications[step.v].stored != w.verifications[step.v].given
  }

  function WrongGuesses(w: World, steps: seq<Step>, r: CodeId): nat
    decreases |steps|
  {
    if steps == [] then 0 else (if GuessesWrong(w, steps[0], r) then 1 else 0) + WrongGuesses(Do(w, steps[0]), steps[1..], r)
  }

  /** After `g` wrong guesses at `r`: each has cost an attempt, and a verification in flight may be one more. */
  ghost predicate Guessed(w: World, r: CodeId, g: nat, n: nat) {
    && (r in w.rows ==> w.rows[r].attempts == g)
    && (r !in w.used ==> g == 0)
    && g + |InFlight(w, r)| < MAX_ATTEMPTS + n
  }

  lemma Fewer(a: set<VerifyId>, b: set<VerifyId>)
    requires a <= b
    ensures |a| <= |b|
  {
    assert b == a + (b - a);
  }

  lemma GuessedStep(w: World, step: Step, r: CodeId, g: nat, n: nat)
    requires Counted(w) && Remembered(w) && Legal(w, step) && Guessed(w, r, g, n) && |InFlight(Do(w, step), r)| <= n
    ensures Guessed(Do(w, step), r, if GuessesWrong(w, step, r) then g + 1 else g, n)
  {
    match step
    case Read(v, given, record) => GuessedRead(w, v, given, record, r, g, n);
    case Compare(v) => GuessedCompare(w, v, r, g, n);
    case CheckNewest(_, _) => Fewer(InFlight(Do(w, step), r), InFlight(w, r));
    case Consume(_) => Fewer(InFlight(Do(w, step), r), InFlight(w, r));
    case Abandon(_) => Fewer(InFlight(Do(w, step), r), InFlight(w, r));
    case _ => assert InFlight(Do(w, step), r) == InFlight(w, r);
  }

  /** Only a row with attempts left is read. */
  lemma GuessedRead(w: World, v: VerifyId, given: Secret, record: Option<CodeId>, r: CodeId, g: nat, n: nat)
    requires Guessed(w, r, g, n) && |InFlight(Do(w, Read(v, given, record)), r)| <= n
    ensures Guessed(Do(w, Read(v, given, record)), r, g, n)
  {
    if record != Some(r) { Fewer(InFlight(Do(w, Read(v, given, record)), r), InFlight(w, r)); }
  }

  lemma GuessedCompare(w: World, v: VerifyId, r: CodeId, g: nat, n: nat)
    requires Counted(w) && Remembered(w) && Guessed(w, r, g, n)
    ensures Guessed(Do(w, Compare(v)), r, if GuessesWrong(w, Compare(v), r) then g + 1 else g, n)
  {
    if v in w.verifications && w.verifications[v].IsNewest? {
      if w.verifications[v].record == r { ComparesOwn(w, v, r); } else { ComparesOther(w, v, r); }
    }
  }

  /** A wrong guess costs its row one attempt, a right one none. */
  lemma ComparesOwn(w: World, v: VerifyId, r: CodeId)
    requires v in w.verifications && w.verifications[v].IsNewest? && w.verifications[v].record == r
    ensures var w' := Do(w, Compare(v));
      && |InFlight(w', r)| == |InFlight(w, r)| - 1 && w'.used == w.used && w'.rows.Keys == w.rows.Keys
      && (r in w.rows ==> w'.rows[r].attempts == w.rows[r].attempts + if GuessesWrong(w, Compare(v), r) then 1 else 0)
  {
    assert InFlight(Do(w, Compare(v)), r) == InFlight(w, r) - {v};
  }

  lemma ComparesOther(w: World, v: VerifyId, r: CodeId)
    requires v in w.verifications && w.verifications[v].IsNewest? && w.verifications[v].record != r
    ensures var w' := Do(w, Compare(v));
      && InFlight(w', r) == InFlight(w, r) && w'.used == w.used && w'.rows.Keys == w.rows.Keys
      && (r in w.rows ==> w'.rows[r] == w.rows[r])
  {
  }

  lemma {:induction false} GuessedRun(w: World, steps: seq<Step>, r: CodeId, g: nat, n: nat)
    requires Inv(w) && LegalRun(w, steps) && Guessed(w, r, g, n) && AtMost(w, steps, r, n)
    ensures Guessed(Run(w, steps), r, g + WrongGuesses(w, steps, r), n)
    decreases |steps|
  {
    if steps != [] {
      StepKeeps(w, steps[0]);
      GuessedStep(w, steps[0], r, g, n);
      GuessedRun(Do(w, steps[0]), steps[1..], r, if GuessesWrong(w, steps[0], r) then g + 1 else g, n);
    }
  }

  /**
   * In every run the attempts of a row are the wrong guesses compared with it, and with never more
   * than `n` verifications of it at once there are fewer than five plus `n`, row gone or not.
   */
  lemma GuessesAreBounded(start: World, steps: seq<Step>, r: CodeId, n: nat)
    requires Start(start) && LegalRun(start, steps) && AtMost(start, steps, r, n)
    ensures WrongGuesses(start, steps, r) < MAX_ATTEMPTS + n
    ensures r in Run(start, steps).rows ==> Run(start, steps).rows[r].attempts == WrongGuesses(start, steps, r)
  {
    GuessedRun(start, steps, r, 0, n);
  }

  // ----- Consuming a code closes all older ones

  /** No verification of the code is past its newest check. */
  ghost predicate Unchecked(w: World, r: CodeId) {
    forall v | v in w.verifications :: w.verifications[v].record == r ==> w.verifications[v].HasRead?
  }

  /** `c` is consumed and newer than `r`, or both are gone. */
  ghost predicate Closed(w: World, c: CodeId, r: CodeId) {
    && c in w.used && r in w.used && r != c
    && if c in w.rows then
         && w.rows[c].consumedAt.Some? && Unchecked(w, r)
         && (r in w.rows ==> w.rows[r].createdAt < w.rows[c].createdAt)
       else r !in w.rows
  }

  lemma ClosedStays(w: World, step: Step, c: CodeId, r: CodeId)
    requires Spaced(w) && Closed(w, c, r) && Legal(w, step) && step != RollBack(c)
    ensures Closed(Do(w, step), c, r) && Verified(Do(w, step), r) == Verified(w, r)
  {
    match step
    case CheckNewest(v, newest) => ClosedChecking(w, step, c, r);
    case Compare(v) => ClosedVerifying(w, step, c, r);
    case Consume(v) => ClosedVerifying(w, step, c, r);
    case Prune(ids) => ClosedPruning(w, ids, c, r);
    case _ =>
  }

  lemma ClosedChecking(w: World, step: Step, c: CodeId, r: CodeId)
    requires Closed(w, c, r) && Legal(w, step) && step.CheckNewest?
    ensures Closed(Do(w, step), c, r) && Verified(Do(w, step), r) == Verified(w, r)
  {
    if c in w.rows && step.newest.Some? { assert w.rows[step.newest.value].createdAt >= w.rows[c].createdAt; }
  }

  lemma ClosedVerifying(w: World, step: Step, c: CodeId, r: CodeId)
    requires Closed(w, c, r) && (step.Compare? || step.Consume?)
    ensures Closed(Do(w, step), c, r) && Verified(Do(w, step), r) == Verified(w, r)
  {
  }

  /** The older row expired earlier, so it is swept no later. */
  lemma ClosedPruning(w: World, ids: set<CodeId>, c: CodeId, r: CodeId)
    requires Spaced(w) && Closed(w, c, r) && OldestFirst(w, ids)
    ensures Closed(Do(w, Prune(ids)), c, r)
  {
    if c in w.rows && c in ids && Prunable(w.rows[c], w.now) && r in w.rows {
      assert w.rows[r].expiresAt < w.rows[c].expiresAt && r in ids;
    }
  }

  /** Once a code is consumed no older code verifies, cleaned up or not, unless the consumed row is rolled back. */
  lemma {:induction false} ConsumingClosesOlderCodes(w: World, steps: seq<Step>, c: CodeId, r: CodeId)
    requires Inv(w) && LegalRun(w, steps) && Closed(w, c, r) && RollBack(c) !in steps
    ensures Verified(Run(w, steps), r) == Verified(w, r)
    decreases |steps|
  {
    if steps != [] {
      StepKeeps(w, steps[0]);
      ClosedStays(w, steps[0], c, r);
      ConsumingClosesOlderCodes(Do(w, steps[0]), steps[1..], c, r);
    }
  }

  /** Rolling back a row lets another answer exactly when it is usable and only that row was newer. */
  lemma RollbackReopensExactlyWhen(w: World, c: CodeId, r: CodeId)
    requires c in w.sends && r != c
    ensures var rows := Do(w, RollBack(c)).rows;
      Answers(rows, w.now, r) <==>
        && r in Usable(w.rows, w.now) && w.rows[r].attempts < MAX_ATTEMPTS
        && forall k | k in w.rows && w.rows[k].createdAt > w.rows[r].createdAt :: k == c
  {
    var rows := Do(w, RollBack(c)).rows;
    assert forall k :: k in rows <==> k in w.rows && k != c;
    assert forall k | k in w.rows && k != c :: k in rows.Keys && rows[k] == w.rows[k];
  }

  // The first mail arrives without its cleanup; the second is used, and then reported undelivered.
  const OLD := NewCode(11, 0)
  const NEW := NewCode(22, 60_000)
  const RESENT: World := World(map[1 := OLD, 2 := NEW], 60_000, map[2 := 60_000], {1, 2}, map[], map[])
  const USED: World := RESENT.(rows := map[1 := OLD, 2 := NEW.(consumedAt := Some(60_000))], verified := map[2 := 1])
  const SENDS: seq<Step> := [Create(1, 11), SendLost(1), Tick(60_000), Create(2, 22)]
  const VERIFIES: seq<Step> := [Read(5, 22, Some(2)), CheckNewest(5, Some(2)), Compare(5), Consume(5)]

  lemma {:induction false} RunJoins(w: World, a: seq<Step>, b: seq<Step>)
    ensures Run(w, a + b) == Run(Run(w, a), b)
    ensures LegalRun(w, a + b) <==> LegalRun(w, a) && LegalRun(Run(w, a), b)
    decreases |a|
  {
    if a == [] {
      assert a + b == b;
    } else {
      assert (a + b)[1..] == a[1..] + b;
      RunJoins(Do(w, a[0]), a[1..], b);
    }
  }

  lemma OneStep(w: World, step: Step)
    ensures Run(w, [step]) == Do(w, step) && (LegalRun(w, [step]) <==> Legal(w, step))
  {
    assert [step][1..] == [];
  }

  lemma FourSteps(w: World, a: Step, b: Step, c: Step, d: Step)
    ensures Run(w, [a, b, c, d]) == Do(Do(Do(Do(w, a), b), c), d)
    ensures LegalRun(w, [a, b, c, d]) <==>
      Legal(w, a) && Legal(Do(w, a), b) && Legal(Do(Do(w, a), b), c) && Legal(Do(Do(Do(w, a), b), c), d)
  {
    OneStep(w, a);
    OneStep(Do(w, a), b);
    OneStep(Do(Do(w, a), b), c);
    OneStep(Do(Do(Do(w, a), b), c), d);
    RunJoins(w, [a], [b]);
    RunJoins(w, [a, b], [c]);
    RunJoins(w, [a, b, c], [d]);
    assert [a] + [b] == [a, b] && [a, b] + [c] == [a, b, c] && [a, b, c] + [d] == [a, b, c, d];
  }

  lemma ResendRuns(start: World)
    requires Start(start) && start.now == 0
    ensures Run(start, SENDS) == RESENT && LegalRun(start, SENDS)
  {
    FourSteps(start, SENDS[0], SENDS[1], SENDS[2], SENDS[3]);
    assert SENDS == [SENDS[0], SENDS[1], SENDS[2], SENDS[3]];
    var lost := Do(Do(start, SENDS[0]), SENDS[1]);
    assert lost == World(map[1 := OLD], 0, map[], {1}, map[], map[]);
    assert !CoolingDown(map[1 := OLD], 60_000);
  }

  lemma VerificationRuns()
    ensures Run(RESENT, VERIFIES) == USED && LegalRun(RESENT, VERIFIES)
  {
    FourSteps(RESENT, VERIFIES[0], VERIFIES[1], VERIFIES[2], VERIFIES[3]);
    assert VERIFIES == [VERIFIES[0], VERIFIES[1], VERIFIES[2], VERIFIES[3]];
    assert Usable(RESENT.rows, 60_000) == {1, 2};
    assert RESENT.rows.Keys == {1, 2};
    var read := Do(RESENT, VERIFIES[0]);
    assert read.verifications == map[5 := HasRead(2, 22, 22)];
    var matched := Do(Do(read, VERIFIES[1]), VERIFIES[2]);
    assert matched.verifications == map[5 := Matched(2)] && matched.rows == RESENT.rows;
    assert Do(matched, VERIFIES[3]).verifications == map[];
  }

  /** The condition is met in a run from nothing: a code opens again after a newer one was used. */
  lemma RollbackReopensAnOlderCode(start: World)
    requires Start(start) && start.now == 0
    ensures var steps := SENDS + VERIFIES + [RollBack(2)];
      var w := Run(start, steps);
      LegalRun(start, steps) && Verified(w, 2) == 1 && Accepts(w.rows, w.now, 11)
  {
    ResendRuns(start);
    VerificationRuns();
    RunJoins(start, SENDS, VERIFIES);
    RunJoins(start, SENDS + VERIFIES, [RollBack(2)]);
    OneStep(USED, RollBack(2));
    RollbackReopensExactlyWhen(USED, 2, 1);
    assert Answers(Do(USED, RollBack(2)).rows, 60_000, 1);
  }

  // ----- A failed delivery leaves no trace

  /** The world without the resend, and without the verifications that picked it. */
  function Erased(w: World, id: CodeId): World {
    World(
      w.rows - {id}, w.now, w.sends - {id}, w.used - {id},
      map v | v in w.verifications && w.verifications[v].record != id :: w.verifications[v], w.verified - {id})
  }

  predicate OfErased(w: World, v: VerifyId, id: CodeId) {
    v in w.verifications && w.verifications[v].record == id
  }

  /**
   * What is left of a step when the resend is erased: requests it held up by its cooldown and the
   * statements of verifications that picked it are gone, and a verification that gave up because
   * it saw the resend is abandoned.
   */
  function EraseStep(w: World, step: Step, id: CodeId): seq<Step> {
    match step
    case Create(_, _) => if CoolingDown(w.rows, w.now) then [] else [step]
    case Read(_, _, record) => if record == Some(id) then [] else [step]
    case CheckNewest(v, newest) =>
      if OfErased(w, v, id) then []
      else if newest != Some(id) then [step]
      else if v in w.verifications && w.verifications[v].HasRead? then [Abandon(v)] else []
    case Compare(v) => if OfErased(w, v, id) then [] else [step]
    case Consume(v) => if OfErased(w, v, id) then [] else [step]
    case Abandon(v) => if OfErased(w, v, id) then [] else [step]
    case _ => [step]
  }

  function EraseAll(w: World, steps: seq<Step>, id: CodeId): seq<Step>
    decreases |steps|
  {
    if steps == [] then [] else EraseStep(w, steps[0], id) + EraseAll(Do(w, steps[0]), steps[1..], id)
  }

  /** The request that sent the resend says nothing until it rolls it back. */
  predicate Pending(step: Step, id: CodeId) {
    step != Delivered(id) && step != SendLost(id) && step != RollBack(id)
  }

  ghost predicate Simulated(w: World, step: Step, id: CodeId) {
    var steps := EraseStep(w, step, id);
    && |steps| <= 1
    && (steps == [] ==> Erased(Do(w, step), id) == Erased(w, id))
    && (steps != [] ==> Legal(Erased(w, id), steps[0]) && Do(Erased(w, id), steps[0]) == Erased(Do(w, step), id))
  }

  lemma ErasedStep(w: World, step: Step, id: CodeId)
    requires id in w.used && Legal(w, step) && Pending(step, id)
    ensures Simulated(w, step, id)
  {
    match step
    case Tick(_) =>
    case Create(_, _) => ErasedCreate(w, step, id);
    case Delivered(_) => ErasedSend(w, step, id);
    case RollBack(_) => ErasedSend(w, step, id);
    case SendLost(_) => ErasedSend(w, step, id);
    case Read(_, _, _) => ErasedRead(w, step, id);
    case CheckNewest(_, _) => ErasedCheck(w, step, id);
    case Compare(_) => ErasedCompare(w, step, id);
    case Consume(_) => ErasedConsume(w, step, id);
    case Abandon(_) => ErasedAbandon(w, step, id);
    case Prune(_) => ErasedPrune(w, step, id);
  }

  lemma ErasedCreate(w: World, step: Step, id: CodeId)
    requires id in w.used && Legal(w, step) && step.Create?
    ensures Simulated(w, step, id)
  {
    if !CoolingDown(w.rows, w.now) {
      assert !CoolingDown(w.rows - {id}, w.now);
      var w' := Do(w, step);
      assert w'.rows - {id} == (w.rows - {id})[step.id := NewCode(step.secret, w.now)];
      assert w'.sends - {id} == (w.sends - {id})[step.id := w.now];
      assert w'.used - {id} == w.used - {id} + {step.id};
    }
  }

  lemma ErasedSend(w: World, step: Step, id: CodeId)
    requires (step.Delivered? || step.RollBack? || step.SendLost?) && step.id != id
    ensures Simulated(w, step, id)
  {
    var e := Erased(w, id);
    assert w.sends - {step.id} - {id} == w.sends - {id} - {step.id};
    assert w.rows - {step.id} - {id} == w.rows - {id} - {step.id};
    if step.id in w.sends { assert RemoveStale(w.rows, w.sends[step.id]) - {id} == RemoveStale(w.rows - {id}, w.sends[step.id]); }
  }

  lemma ErasedRead(w: World, step: Step, id: CodeId)
    requires Legal(w, step) && step.Read?
    ensures Simulated(w, step, id)
  {
    var w' := Do(w, step);
    if step.record == Some(id) {
      assert Erased(w', id).verifications == Erased(w, id).verifications;
    } else {
      assert Usable(w.rows - {id}, w.now) == Usable(w.rows, w.now) - {id};
      assert w'.verifications != w.verifications ==>
        Erased(w', id).verifications == Erased(w, id).verifications[step.v := w'.verifications[step.v]];
    }
  }

  lemma ErasedCheck(w: World, step: Step, id: CodeId)
    requires Legal(w, step) && step.CheckNewest?
    ensures Simulated(w, step, id)
  {
    if step.newest != Some(id) { CheckIsLegal(w, step, id); }
    if step.v in w.verifications && w.verifications[step.v].HasRead? {
      var me := w.verifications[step.v];
      GivesNothing(w, step.v, id);
      if me.record == id { GivesToErased(w, step.v, IsNewest(id, me.stored, me.given), id); }
      else { GivesOn(w, step.v, IsNewest(me.record, me.stored, me.given), id); }
    }
  }

  lemma CheckIsLegal(w: World, step: Step, id: CodeId)
    requires Legal(w, step) && step.CheckNewest? && step.newest != Some(id)
    ensures Legal(Erased(w, id), step)
  {
    var e := Erased(w, id);
    assert e.rows.Keys == w.rows.Keys - {id};
    assert step.newest.None? ==> e.rows == map[];
  }

  /** What a verification does is erased with it, or is the same without the resend. */
  lemma GivesNothing(w: World, v: VerifyId, id: CodeId)
    ensures Erased(Give(w, v, None), id) == Give(Erased(w, id), v, None)
    ensures OfErased(w, v, id) ==> Erased(Give(w, v, None), id) == Erased(w, id)
  {
    assert Erased(Give(w, v, None), id).verifications == Erased(w, id).verifications - {v};
    if OfErased(w, v, id) { assert Erased(Give(w, v, None), id).verifications == Erased(w, id).verifications; }
  }

  lemma GivesOn(w: World, v: VerifyId, next: Verification, id: CodeId)
    requires next.record != id
    ensures Erased(Give(w, v, Some(next)), id) == Give(Erased(w, id), v, Some(next))
  {
    assert Erased(Give(w, v, Some(next)), id).verifications == Erased(w, id).verifications[v := next];
  }

  lemma GivesToErased(w: World, v: VerifyId, next: Verification, id: CodeId)
    requires next.record == id && OfErased(w, v, id)
    ensures Erased(Give(w, v, Some(next)), id) == Erased(w, id)
  {
    assert Erased(Give(w, v, Some(next)), id).verifications == Erased(w, id).verifications;
  }

  lemma ErasedCompare(w: World, step: Step, id: CodeId)
    requires step.Compare?
    ensures Simulated(w, step, id)
  {
    if step.v in w.verifications && w.verifications[step.v].IsNewest? {
      var me := w.verifications[step.v];
      if me.stored == me.given {
        if me.record == id { GivesToErased(w, step.v, Matched(id), id); } else { GivesOn(w, step.v, Matched(me.record), id); }
      } else {
        ErasedCount(w, me.record, id);
        GivesNothing(w.(rows := CountAttempt(w.rows, me.record)), step.v, id);
        GivesNothing(w, step.v, id);
      }
    }
  }

  lemma ErasedCount(w: World, r: CodeId, id: CodeId)
    ensures Erased(w.(rows := CountAttempt(w.rows, r)), id)
      == if r == id then Erased(w, id) else Erased(w, id).(rows := CountAttempt(w.rows - {id}, r))
  {
    assert CountAttempt(w.rows, r) - {id} == if r == id then w.rows - {id} else CountAttempt(w.rows - {id}, r);
  }

  lemma ErasedConsume(w: World, step: Step, id: CodeId)
    requires step.Consume?
    ensures Simulated(w, step, id)
  {
    if step.v in w.verifications && w.verifications[step.v].Matched? {
      var r := w.verifications[step.v].record;
      GivesNothing(w, step.v, id);
      if Consumable(w.rows, r) {
        ErasedUse(w, r, id);
        GivesNothing(Used(w, r), step.v, id);
      }
    }
  }

  function Used(w: World, r: CodeId): World
    requires r in w.rows
  {
    w.(rows := w.rows[r := w.rows[r].(consumedAt := Some(w.now))], verified := w.verified[r := Verified(w, r) + 1])
  }

  lemma ErasedUse(w: World, r: CodeId, id: CodeId)
    requires r in w.rows
    ensures Erased(Used(w, r), id) == if r == id then Erased(w, id) else Used(Erased(w, id), r)
  {
    if r == id {
      assert Used(w, r).rows - {id} == w.rows - {id} && Used(w, r).verified - {id} == w.verified - {id};
    } else {
      assert Used(w, r).rows - {id} == (w.rows - {id})[r := w.rows[r].(consumedAt := Some(w.now))];
      assert Used(w, r).verified - {id} == (w.verified - {id})[r := Verified(w, r) + 1];
    }
  }

  lemma ErasedAbandon(w: World, step: Step, id: CodeId)
    requires step.Abandon?
    ensures Simulated(w, step, id)
  {
    GivesNothing(w, step.v, id);
  }

  lemma ErasedPrune(w: World, step: Step, id: CodeId)
    requires Legal(w, step) && step.Prune?
    ensures Simulated(w, step, id)
  {
    assert Do(w, step).rows - {id} == Do(Erased(w, id), step).rows;
  }

  lemma UsedStays(w: World, step: Step)
    ensures w.used <= Do(w, step).used
  {
  }

  lemma {:induction false} ErasedRun(w: World, steps: seq<Step>, id: CodeId)
    requires id in w.used && LegalRun(w, steps) && forall i | 0 <= i < |steps| :: Pending(steps[i], id)
    ensures LegalRun(Erased(w, id), EraseAll(w, steps, id))
    ensures Run(Erased(w, id), EraseAll(w, steps, id)) == Erased(Run(w, steps), id)
    decreases |steps|
  {
    if steps != [] {
      var rest := EraseAll(Do(w, steps[0]), steps[1..], id);
      ErasedStep(w, steps[0], id);
      UsedStays(w, steps[0]);
      ErasedRun(Do(w, steps[0]), steps[1..], id);
      RunJoins(Erased(w, id), EraseStep(w, steps[0], id), rest);
      if EraseStep(w, steps[0], id) != [] { OneStep(Erased(w, id), EraseStep(w, steps[0], id)[0]); }
    }
  }

  lemma CreatedIsErased(w: World, id: CodeId, secret: Secret)
    requires Inv(w) && Legal(w, Create(id, secret)) && !CoolingDown(w.rows, w.now)
    ensures Erased(Do(w, Create(id, secret)), id) == w
  {
    var w' := Do(w, Create(id, secret));
    assert id !in w.rows && id !in w.sends && id !in w.verified;
    assert w'.rows - {id} == w.rows && w'.sends - {id} == w.sends && w'.used - {id} == w.used && w'.verified - {id} == w.verified;
    assert Erased(w', id).verifications == w.verifications;
  }

  /**
   * Whatever else happens while a resend is out, once it is rolled back the rows are those of the
   * same run without it, verifications that picked it or gave up over it being abandoned.
   */
  lemma RollbackLeavesNoTrace(w: World, id: CodeId, secret: Secret, steps: seq<Step>)
    requires Inv(w) && Legal(w, Create(id, secret)) && !CoolingDown(w.rows, w.now)
    requires LegalRun(Do(w, Create(id, secret)), steps) && forall i | 0 <= i < |steps| :: Pending(steps[i], id)
    ensures var w1 := Do(w, Create(id, secret));
      && LegalRun(w, EraseAll(w1, steps, id))
      && Do(Run(w1, steps), RollBack(id)).rows == Run(w, EraseAll(w1, steps, id)).rows
  {
    var w1 := Do(w, Create(id, secret));
    CreatedIsErased(w, id, secret);
    ErasedRun(w1, steps, id);
    SendStays(w1, steps, id);
  }

  lemma {:induction false} SendStays(w: World, steps: seq<Step>, id: CodeId)
    requires id in w.sends && forall i | 0 <= i < |steps| :: Pending(steps[i], id)
    ensures id in Run(w, steps).sends
    decreases |steps|
  {
    if steps != [] { SendStays(Do(w, steps[0]), steps[1..], id); }
  }

  predicate OnlyVerifies(step: Step) {
    step.Tick? || step.Read? || step.CheckNewest? || step.Compare? || step.Consume? || step.Abandon?
  }

  /** The other rows are `base`, the new row is the newest, and nobody is past the newest check of an older one. */
  ghost predicate Shielded(w: World, id: CodeId, base: Rows) {
    && id in w.rows && w.rows - {id} == base && id !in base
    && (forall k | k in base :: base[k].createdAt < w.rows[id].createdAt)
    && (forall v | v in w.verifications :: w.verifications[v].record != id ==> w.verifications[v].HasRead?)
  }

  lemma ShieldedStays(w: World, step: Step, id: CodeId, base: Rows)
    requires Shielded(w, id, base) && Legal(w, step) && OnlyVerifies(step)
    ensures Shielded(Do(w, step), id, base) && Do(w, step).sends == w.sends
  {
    match step
    case Tick(_) =>
    case Read(_, _, _) =>
    case CheckNewest(v, newest) =>
      if v in w.verifications && w.verifications[v].record != id {
        assert w.rows.Keys == base.Keys + {id};
        assert newest == Some(id);
      }
    case Compare(v) => ShieldedWrite(w, step, id, base);
    case Consume(v) => ShieldedWrite(w, step, id, base);
    case Abandon(_) =>
  }

  lemma ShieldedWrite(w: World, step: Step, id: CodeId, base: Rows)
    requires Shielded(w, id, base) && (step.Compare? || step.Consume?)
    ensures Shielded(Do(w, step), id, base) && Do(w, step).sends == w.sends
  {
  }

  lemma {:induction false} ShieldedRun(w: World, steps: seq<Step>, id: CodeId, base: Rows)
    requires Shielded(w, id, base) && LegalRun(w, steps) && forall i | 0 <= i < |steps| :: OnlyVerifies(steps[i])
    ensures Shielded(Run(w, steps), id, base) && Run(w, steps).sends == w.sends
    decreases |steps|
  {
    if steps != [] {
      ShieldedStays(w, steps[0], id, base);
      ShieldedRun(Do(w, steps[0]), steps[1..], id, base);
    }
  }

  /**
   * If only verifications happen meanwhile, and none was past its newest check before, the rows
   * after the rollback are the earlier rows as they were.
   */
  lemma GuessesMissEarlierCodes(w: World, id: CodeId, secret: Secret, steps: seq<Step>)
    requires Inv(w) && Legal(w, Create(id, secret)) && !CoolingDown(w.rows, w.now)
    requires forall v | v in w.verifications :: w.verifications[v].HasRead?
    requires LegalRun(Do(w, Create(id, secret)), steps) && forall i | 0 <= i < |steps| :: OnlyVerifies(steps[i])
    ensures Do(Run(Do(w, Create(id, secret)), steps), RollBack(id)).rows == w.rows
  {
    var w1 := Do(w, Create(id, secret));
    assert w1.rows - {id} == w.rows;
    forall k | k in w.rows ensures w.rows[k].createdAt < w1.rows[id].createdAt {
      assert w.now - w.rows[k].createdAt >= RESEND_COOLDOWN_MS;
    }
    ShieldedRun(w1, steps, id, w.rows);
  }

  // ----- Pruning changes no answer

  lemma PruningKeepsAnswer(w: World, ids: set<CodeId>, n: CodeId)
    requires Spaced(w)
    ensures Answers(Do(w, Prune(ids)).rows, w.now, n) <==> Answers(w.rows, w.now, n)
  {
    var rows := Do(w, Prune(ids)).rows;
    if Answers(rows, w.now, n) {
      forall k | k in w.rows ensures w.rows[k].createdAt <= w.rows[n].createdAt {
        if k in rows { assert rows[k].createdAt <= rows[n].createdAt; }
      }
    }
  }

  /** A sweep may remove rows, but changes neither the answer to any secret nor the cooldown. */
  lemma PruningChangesNoAnswer(w: World, ids: set<CodeId>, given: Secret)
    requires Spaced(w)
    ensures var rows := Do(w, Prune(ids)).rows;
      && (Accepts(rows, w.now, given) <==> Accepts(w.rows, w.now, given))
      && (CoolingDown(rows, w.now) <==> CoolingDown(w.rows, w.now))
  {
    forall n ensures Answers(Do(w, Prune(ids)).rows, w.now, n) <==> Answers(w.rows, w.now, n) { PruningKeepsAnswer(w, ids, n); }
    if CoolingDown(w.rows, w.now) {
      var k :| k in w.rows && w.now - w.rows[k].createdAt < RESEND_COOLDOWN_MS;
      assert k in Do(w, Prune(ids)).rows;
    }
  }
}
