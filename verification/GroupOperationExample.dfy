/** A run in which a circle that was dismissed for good comes back. */
module GroupOperationExample {
  import opened Common
  import opened GroupOperations
  import opened GroupOperationService

  const GROUP: Id := 7
  const CIRCLE: Id := 1

  function Dismissal(status: Status, attempts: nat, next: int, now: int): Operation {
    Operation(GROUP, Some(CIRCLE), DISMISS, "admin", "reason", status, attempts, next, None, now)
  }

  function Marked(state: AdminState, at: int): Circle {
    Circle(Some(GROUP), true, state, Some(at), Some("admin"), Some("reason"))
  }

  const PERIOD := 1_000_000

  /** The circle and the operations are these, and no worker is about. */
  ghost predicate At(w: World, c: Circle, operations: map<Key, Operation>) {
    w.t == Tables(map[CIRCLE := c], operations, map[]) && w.workers == map[]
  }

  lemma OneShift(w: World, c: Circle, operations: map<Key, Operation>, key: Key, now: int, execution: Execution)
    requires At(w, c, operations) && Due(w.t, key, now) && operations[key].circle == Some(CIRCLE)
    ensures var steps := Shift(key, now, execution, operations[key].kind);
      && LegalRun(w, steps) && Run(w, steps).workers == map[]
      && Run(w, steps).t == Processed(w.t, key, now, execution)
  {
    ShiftProcesses(w, key, now, execution);
  }

  lemma Created(start: World)
    requires Start(start)
    ensures var steps := [CreateCircle(CIRCLE, Some(GROUP)), RequestOperation(0, "admin", GROUP, Some(CIRCLE), DISMISS, "reason", 0)];
      LegalRun(start, steps) && At(Run(start, steps), Marked(DISABLING, 0), map[0 := Dismissal(PENDING, 0, 0, 0)])
  {
    var create := CreateCircle(CIRCLE, Some(GROUP));
    var request := RequestOperation(0, "admin", GROUP, Some(CIRCLE), DISMISS, "reason", 0);
    OneStep(start, create);
    OneStep(Do(start, create), request);
    RunJoins(start, [create], [request]);
    assert [create] + [request] == [create, request];
    assert Links(Do(start, create).t, CIRCLE, GROUP);
  }

  lemma Dismissed(w: World)
    requires At(w, Marked(DISABLING, 0), map[0 := Dismissal(PENDING, 0, 0, 0)])
    ensures var steps := Shift(0, 0, Succeeds, DISMISS);
      LegalRun(w, steps) && At(Run(w, steps), Marked(DISMISSED, 0), map[0 := Dismissal(SUCCEEDED, 1, 0, 0)])
  {
    OneShift(w, Marked(DISABLING, 0), map[0 := Dismissal(PENDING, 0, 0, 0)], 0, 0, Succeeds);
  }

  lemma Again(w: World)
    requires At(w, Marked(DISMISSED, 0), map[0 := Dismissal(SUCCEEDED, 1, 0, 0)])
    ensures var step := RequestOperation(1, "admin", GROUP, Some(CIRCLE), DISMISS, "reason", PERIOD);
      && LegalRun(w, [step])
      && At(Run(w, [step]), Marked(DISABLING, PERIOD), map[0 := Dismissal(SUCCEEDED, 1, 0, 0), 1 := Dismissal(PENDING, 0, PERIOD, PERIOD)])
  {
    OneStep(w, RequestOperation(1, "admin", GROUP, Some(CIRCLE), DISMISS, "reason", PERIOD));
    assert Links(w.t, CIRCLE, GROUP);
  }

  /** The second dismissal, `attempts` times failed and due again by `due`. */
  ghost predicate Failing(w: World, attempts: nat, due: int) {
    exists next :: next <= due
      && At(w, Marked(DISABLING, PERIOD), map[0 := Dismissal(SUCCEEDED, 1, 0, 0), 1 := Dismissal(PENDING, attempts, next, PERIOD)])
  }

  lemma FailsOnce(w: World, attempts: nat, now: int)
    requires Failing(w, attempts, now) && attempts < MAX_ATTEMPTS - 1
    ensures var steps := Shift(1, now, Throws, DISMISS); LegalRun(w, steps) && Failing(Run(w, steps), attempts + 1, now + PERIOD)
  {
    var next :| next <= now
      && At(w, Marked(DISABLING, PERIOD), map[0 := Dismissal(SUCCEEDED, 1, 0, 0), 1 := Dismissal(PENDING, attempts, next, PERIOD)]);
    var operations := map[0 := Dismissal(SUCCEEDED, 1, 0, 0), 1 := Dismissal(PENDING, attempts, next, PERIOD)];
    OneShift(w, Marked(DISABLING, PERIOD), operations, 1, now, Throws);
    var later := now + Backoff(attempts + 1);
    assert Processed(w.t, 1, now, Throws).operations == operations[1 := Dismissal(PENDING, attempts + 1, later, PERIOD)];
    assert later <= now + PERIOD;
    assert At(Run(w, Shift(1, now, Throws, DISMISS)), Marked(DISABLING, PERIOD),
              map[0 := Dismissal(SUCCEEDED, 1, 0, 0), 1 := Dismissal(PENDING, attempts + 1, later, PERIOD)]);
  }

  lemma FailsForGood(w: World, now: int)
    requires Failing(w, MAX_ATTEMPTS - 1, now)
    ensures var steps := Shift(1, now, Throws, DISMISS); LegalRun(w, steps) && Run(w, steps).workers == map[]
    ensures var t := Run(w, Shift(1, now, Throws, DISMISS)).t;
      t.circles == map[CIRCLE := Marked(SYNC_FAILED, PERIOD)] && !Busy(t, GROUP) && t.operations.Keys == {0, 1} && t.local == map[]
  {
    var next :| next <= now
      && At(w, Marked(DISABLING, PERIOD), map[0 := Dismissal(SUCCEEDED, 1, 0, 0), 1 := Dismissal(PENDING, MAX_ATTEMPTS - 1, next, PERIOD)]);
    var operations := map[0 := Dismissal(SUCCEEDED, 1, 0, 0), 1 := Dismissal(PENDING, MAX_ATTEMPTS - 1, next, PERIOD)];
    OneShift(w, Marked(DISABLING, PERIOD), operations, 1, now, Throws);
    assert Processed(w.t, 1, now, Throws).operations == operations[1 := Dismissal(FAILED, MAX_ATTEMPTS, next, PERIOD)];
  }

  lemma Restores(w: World, now: int)
    requires w.workers == map[] && w.t.circles == map[CIRCLE := Marked(SYNC_FAILED, PERIOD)]
    requires !Busy(w.t, GROUP) && w.t.operations.Keys == {0, 1} && w.t.local == map[]
    ensures var steps := [RequestChange(2, "admin", CIRCLE, UNMUTE, "reason", now)] + Shift(2, now, Succeeds, UNMUTE);
      LegalRun(w, steps) && Run(w, steps).t.circles == map[CIRCLE := Circle(Some(GROUP), false, ACTIVE, None, None, None)]
  {
    var step := RequestChange(2, "admin", CIRCLE, UNMUTE, "reason", now);
    var w' := Do(w, step);
    OneStep(w, step);
    RunJoins(w, [step], Shift(2, now, Succeeds, UNMUTE));
    assert w'.t.operations[2] == Queued(GROUP, Some(CIRCLE), UNMUTE, "admin", "reason", now);
    ShiftProcesses(w', 2, now, Succeeds);
  }

  /** The second dismissal fails its five attempts. */
  lemma {:induction false} FailsTo(w: World, attempts: nat, now: int) returns (steps: seq<Step>)
    requires Failing(w, attempts, now) && attempts < MAX_ATTEMPTS
    ensures LegalRun(w, steps) && Run(w, steps).workers == map[]
    ensures var t := Run(w, steps).t;
      t.circles == map[CIRCLE := Marked(SYNC_FAILED, PERIOD)] && !Busy(t, GROUP) && t.operations.Keys == {0, 1} && t.local == map[]
    decreases MAX_ATTEMPTS - attempts
  {
    var first := Shift(1, now, Throws, DISMISS);
    if attempts == MAX_ATTEMPTS - 1 {
      FailsForGood(w, now);
      steps := first;
    } else {
      FailsOnce(w, attempts, now);
      var rest := FailsTo(Run(w, first), attempts + 1, now + PERIOD);
      RunJoins(w, first, rest);
      steps := first + rest;
    }
  }

  /** From empty tables: dismissed, dismissed again in vain, restored. */
  lemma DismissedCircleIsRestored(start: World) returns (before: seq<Step>, after: seq<Step>)
    requires Start(start)
    ensures LegalRun(start, before + after)
    ensures Run(start, before).t.circles == map[CIRCLE := Marked(DISMISSED, 0)]
    ensures Run(start, before + after).t.circles == map[CIRCLE := Circle(Some(GROUP), false, ACTIVE, None, None, None)]
  {
    Created(start);
    var create := [CreateCircle(CIRCLE, Some(GROUP)), RequestOperation(0, "admin", GROUP, Some(CIRCLE), DISMISS, "reason", 0)];
    var dismiss := Shift(0, 0, Succeeds, DISMISS);
    Dismissed(Run(start, create));
    RunJoins(start, create, dismiss);
    before := create + dismiss;
    var w := Run(start, before);
    var again := [RequestOperation(1, "admin", GROUP, Some(CIRCLE), DISMISS, "reason", PERIOD)];
    Again(w);
    var fails := FailsTo(Run(w, again), 0, PERIOD);
    RunJoins(w, again, fails);
    var restore := [RequestChange(2, "admin", CIRCLE, UNMUTE, "reason", 6 * PERIOD)] + Shift(2, 6 * PERIOD, Succeeds, UNMUTE);
    Restores(Run(w, again + fails), 6 * PERIOD);
    RunJoins(w, again + fails, restore);
    after := again + fails + restore;
    RunJoins(start, before, after);
  }
}
