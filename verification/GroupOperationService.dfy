/**
 * The administration of circles and groups as it writes its rows: the requests, and the
 * processor that drains the queue. A contract names the writes of GroupOperations performed.
 */
module GroupOperationService {
  import opened Common
  import opened GroupOperations

  datatype Outcome = Accepted | Repeated | KeyReused | Unconfirmed | NotFound | CircleLinked | InProgress | Inadmissible

  /** How carrying an operation out on the chat side ended. */
  datatype Execution = Succeeds | Throws | AlreadyAbsent

  /** One operation claimed, loaded, carried out and settled at `now`. */
  function Processed(t: Tables, key: Key, now: int, execution: Execution): Tables
    requires key in t.operations
    requires t.operations[key].circle.Some? ==> t.operations[key].circle.value in t.circles
  {
    var o := Claim(t.operations[key], now);
    var claimed := t.(operations := t.operations[key := o]);
    if execution == Succeeds || (execution == AlreadyAbsent && o.kind == DISMISS)
    then Complete(claimed, key, o, now) else Fail(claimed, key, o, now)
  }

  predicate Due(t: Tables, key: Key, now: int) {
    key in t.operations && t.operations[key].status == PENDING && t.operations[key].nextAttemptAt <= now
  }

  /** One operation has had its attempt, and it and its circle are where the outcome puts them; nothing else moved. */
  ghost predicate ProcessedAsMeant(t: Tables, t': Tables, key: Key, execution: Execution)
    requires key in t.operations && (t.operations[key].circle.Some? ==> t.operations[key].circle.value in t.circles)
  {
    var o := t.operations[key];
    var worked := execution == Succeeds || (execution == AlreadyAbsent && o.kind == DISMISS);
    && t'.operations.Keys == t.operations.Keys && t'.circles.Keys == t.circles.Keys && t'.local == t.local
    && (forall k | k in t.operations && k != key :: t'.operations[k] == t.operations[k])
    && (forall c | c in t.circles && o.circle != Some(c) :: t'.circles[c] == t.circles[c])
    && SameRequest(t'.operations[key], o) && t'.operations[key].attempts == o.attempts + 1 && t'.operations[key].claimedAt.None?
    && t'.operations[key].status == (if worked then SUCCEEDED else if o.attempts + 1 < 5 then PENDING else FAILED)
    && (o.circle.Some? ==>
          var before := t.circles[o.circle.value].adminState;
          t'.circles[o.circle.value].adminState ==
            if worked then (if o.kind == MUTE then DISABLED else if o.kind == DISMISS then DISMISSED else ACTIVE)
            else if o.attempts + 1 < 5 then before else SYNC_FAILED)
  }

  lemma ProcessingIsAsMeant(t: Tables, key: Key, now: int, execution: Execution)
    requires key in t.operations && t.operations[key].status == PENDING
    requires t.operations[key].circle.Some? ==> t.operations[key].circle.value in t.circles
    ensures ProcessedAsMeant(t, Processed(t, key, now, execution), key, execution)
  {
  }

  lemma RecoveredIs(t: Tables, now: int)
    ensures var t' := GroupOperations.Recover(t, now);
      && t'.operations.Keys == t.operations.Keys
      && (forall k | k in t'.operations :: !Stale(t'.operations[k], now))
      && (forall k | k in t.operations && Stale(t.operations[k], now) ::
            Due(t', k, now) && t'.operations[k].attempts == t.operations[k].attempts && SameRequest(t'.operations[k], t.operations[k]))
      && (forall k | k in t.operations && !Stale(t.operations[k], now) :: t'.operations[k] == t.operations[k])
  {
  }

  /** The order in which pending operations are taken. */
  predicate NoLater(a: Operation, b: Operation) {
    a.nextAttemptAt < b.nextAttemptAt || (a.nextAttemptAt == b.nextAttemptAt && a.createdAt <= b.createdAt)
  }

  /** The steps one undisturbed worker takes for one operation. */
  function Shift(key: Key, now: int, execution: Execution, kind: Kind): seq<Step> {
    [ClaimOperation(0, key, now), LoadOperation(0),
     if execution == Succeeds || (execution == AlreadyAbsent && kind == DISMISS) then CompleteOperation(0) else FailOperation(0),
     WorkerGone(0)]
  }

  lemma {:induction false} RunJoins(w: World, a: seq<Step>, b: seq<Step>)
    ensures Run(w, a + b) == Run(Run(w, a), b)
    ensures LegalRun(w, a + b) <==> LegalRun(w, a) && LegalRun(Run(w, a), b)
    decreases |a|
  {
    if a == [] {
      assert a + b == b;
    } else {
      assert (a + b)[1..] == a[1..] + b;
      RunJoins(Do(w, a[0]), a[1..], b);
    }
  }

  lemma OneStep(w: World, step: Step)
    ensures Run(w, [step]) == Do(w, step) && (LegalRun(w, [step]) <==> Legal(w, step))
  {
  }

  lemma FourSteps(w: World, a: Step, b: Step, c: Step, d: Step)
    ensures Run(w, [a, b, c, d]) == Do(Do(Do(Do(w, a), b), c), d)
    ensures Legal(w, a) && Legal(Do(w, a), b) && Legal(Do(Do(w, a), b), c) && Legal(Do(Do(Do(w, a), b), c), d)
            ==> LegalRun(w, [a, b, c, d])
  {
    OneStep(w, a);
    OneStep(Do(w, a), b);
    OneStep(Do(Do(w, a), b), c);
    OneStep(Do(Do(Do(w, a), b), c), d);
    RunJoins(w, [a], [b]);
    RunJoins(w, [a, b], [c]);
    RunJoins(w, [a, b, c], [d]);
    assert [a] + [b] == [a, b] && [a, b] + [c] == [a, b, c] && [a, b, c] + [d] == [a, b, c, d];
  }

  lemma ShiftProcesses(w: World, key: Key, now: int, execution: Execution)
    requires w.workers == map[] && Due(w.t, key, now)
    requires w.t.operations[key].circle.Some? ==> w.t.operations[key].circle.value in w.t.circles
    ensures var steps := Shift(key, now, execution, w.t.operations[key].kind);
      && LegalRun(w, steps) && Run(w, steps).workers == map[]
      && Run(w, steps).t == Processed(w.t, key, now, execution)
  {
    var steps := Shift(key, now, execution, w.t.operations[key].kind);
    FourSteps(w, steps[0], steps[1], steps[2], steps[3]);
    assert steps == [steps[0], steps[1], steps[2], steps[3]];
    var loaded := Do(Do(w, steps[0]), steps[1]);
    assert loaded.workers == map[0 := Worker(key, now, Some(Claim(w.t.operations[key], now)))];
    assert loaded.t == w.t.(operations := w.t.operations[key := Claim(w.t.operations[key], now)]);
    assert Ready(loaded, 0);
    assert loaded.workers - {0} == map[];
  }

  class Administration {
    var circles: map<Id, Circle>
    var operations: map<Key, Operation>
    var local: map<Key, LocalChange>
    var running: bool

    function Db(): Tables
      reads this`circles, this`operations, this`local
    {
      Tables(circles, operations, local)
    }

    ghost predicate Valid()
      reads this`circles, this`operations, this`local
    {
      forall k | k in operations && operations[k].circle.Some? :: operations[k].circle.value in circles
    }

    constructor ()
      ensures Db() == Tables(map[], map[], map[]) && !running && Valid()
    {
      circles, operations, local, running := map[], map[], map[], false;
    }

    method AssertNoActiveOperation(group: Id) returns (busy: bool)
      ensures busy <==> Busy(Db(), group)
      ensures !busy <==> forall k | k in operations && operations[k].group == group ::
        operations[k].status == SUCCEEDED || operations[k].status == FAILED
    {
      busy := exists k | k in operations ::
        (operations[k].group == group && (operations[k].status == PENDING || operations[k].status == PROCESSING));
    }

    /** `linked` is what looking the group up among the circles returned. */
    method RequestGroupOperation(key: Key, actor: string, group: Id, confirmation: Id, linked: Option<Id>,
                                 kind: Kind, reason: string, now: int) returns (outcome: Outcome)
      requires Valid() && (linked.Some? ==> linked.value in circles)
      modifies this`circles, this`operations
      ensures Valid()
      ensures Db() == if confirmation == group then RequestGroup(old(Db()), key, actor, group, linked, kind, reason, now) else old(Db())
      ensures outcome == Accepted <==> Db() != old(Db())
      ensures outcome == Unconfirmed <==> confirmation != group
      ensures outcome == Repeated || outcome == KeyReused <==> confirmation == group && key in old(operations)
      ensures outcome == Repeated ==>
        && operations[key].requestedBy == actor && operations[key].group == group && operations[key].circle == linked
        && operations[key].kind == kind && operations[key].reason == reason
      ensures outcome == KeyReused ==>
        || operations[key].requestedBy != actor || operations[key].group != group || operations[key].circle != linked
        || operations[key].kind != kind || operations[key].reason != reason
      ensures outcome == CircleLinked <==> confirmation == group && key !in old(operations) && linked.Some? && kind != DISMISS
    {
      if confirmation != group { return Unconfirmed; }
      if key in operations {
        var o := operations[key];
        return if o.requestedBy == actor && o.group == group && o.circle == linked && o.kind == kind && o.reason == reason
          then Repeated else KeyReused;
      }
      if linked.Some? && kind != DISMISS { return CircleLinked; }
      var busy := AssertNoActiveOperation(group);
      if busy { return InProgress; }
      if linked.Some? {
        var c := circles[linked.value];
        circles := circles[linked.value :=
          c.(deleted := true, adminState := DISABLING, disabledAt := Some(now), disabledBy := Some(actor), disableReason := Some(reason))];
      }
      operations := operations[key := Operation(group, linked, kind, actor, reason, PENDING, 0, now, None, now)];
      assert key !in old(Db()).operations && key in Db().operations;
      outcome := Accepted;
    }

    method QueueCircleOperation(key: Key, actor: string, circle: Id, confirmed: bool, kind: Kind, reason: string, now: int)
      returns (outcome: Outcome)
      requires Valid() && kind != DISMISS
      modifies this`circles, this`operations, this`local
      ensures Valid()
      ensures Db() == if confirmed then ChangeCircle(old(Db()), key, actor, circle, kind, reason, now) else old(Db())
      ensures outcome == Accepted <==> Db() != old(Db())
      ensures outcome == NotFound <==> circle !in old(circles)
      ensures outcome == Unconfirmed <==> circle in old(circles) && !confirmed
    {
      if circle !in circles { return NotFound; }
      if !confirmed { return Unconfirmed; }
      var c := circles[circle];
      if c.groupID.None? {
        outcome := ApplyLocalCircleOperation(key, actor, circle, kind, reason, now);
        return;
      }
      if key in operations {
        var o := operations[key];
        return if o.requestedBy == actor && o.group == c.groupID.value && o.circle == Some(circle) && o.kind == kind && o.reason == reason
          then Repeated else KeyReused;
      }
      var busy := AssertNoActiveOperation(c.groupID.value);
      if busy { return InProgress; }
      if kind == MUTE && (c.deleted || c.adminState == DISABLED) { return Inadmissible; }
      if kind == UNMUTE && (c.adminState == DISMISSED || !c.deleted || !HasProvenance(c)) { return Inadmissible; }
      circles := circles[circle :=
        if kind == MUTE
        then c.(deleted := true, adminState := DISABLING, disabledAt := Some(now), disabledBy := Some(actor), disableReason := Some(reason))
        else c.(adminState := RESTORING)];
      operations := operations[key := Operation(c.groupID.value, Some(circle), kind, actor, reason, PENDING, 0, now, None, now)];
      assert key !in old(Db()).operations && key in Db().operations;
      outcome := Accepted;
    }

    method ApplyLocalCircleOperation(key: Key, actor: string, circle: Id, kind: Kind, reason: string, now: int)
      returns (outcome: Outcome)
      requires Valid() && circle in circles && kind != DISMISS
      modifies this`circles, this`local
      ensures Valid()
      ensures Db() == ChangeLocally(old(Db()), key, actor, circle, kind, reason, now)
      ensures outcome == Accepted <==> Db() != old(Db())
      ensures outcome == Repeated <==> key in old(local) && old(local)[key] == LocalChange(actor, circle, reason, kind)
      ensures outcome == KeyReused <==> key in old(local) && old(local)[key] != LocalChange(actor, circle, reason, kind)
      ensures outcome == Accepted || outcome == Repeated || outcome == KeyReused || outcome == Inadmissible
    {
      var c := circles[circle];
      if key in local {
        return if local[key] == LocalChange(actor, circle, reason, kind) then Repeated else KeyReused;
      }
      if kind == MUTE && (c.deleted || c.adminState == DISABLED) { return Inadmissible; }
      if kind == UNMUTE && (!c.deleted || !HasProvenance(c)) { return Inadmissible; }
      circles := circles[circle :=
        if kind == MUTE
        then c.(deleted := true, adminState := DISABLED, disabledAt := Some(now), disabledBy := Some(actor), disableReason := Some(reason))
        else c.(deleted := false, adminState := ACTIVE, disabledAt := None, disabledBy := None, disableReason := None)];
      local := local[key := LocalChange(actor, circle, reason, kind)];
      assert key !in old(Db()).local && key in Db().local;
      outcome := Accepted;
    }

    /** The due operation with the earliest next attempt, of several the first created. */
    method FindDue(now: int) returns (found: Option<Key>)
      ensures found.None? <==> forall k | k in operations :: !Due(Db(), k, now)
      ensures found.Some? ==> Due(Db(), found.value, now)
      ensures found.Some? ==> forall k | Due(Db(), k, now) :: NoLater(operations[found.value], operations[k])
      ensures found.Some? ==> found.value in operations && operations[found.value].status == PENDING && operations[found.value].nextAttemptAt <= now
      ensures forall k | k in operations && operations[k].status == PENDING && operations[k].nextAttemptAt <= now ::
        found.Some? &&
        (|| operations[found.value].nextAttemptAt < operations[k].nextAttemptAt
         || (operations[found.value].nextAttemptAt == operations[k].nextAttemptAt && operations[found.value].createdAt <= operations[k].createdAt))
    {
      found := None;
      var todo := set k | k in operations && operations[k].status == PENDING && operations[k].nextAttemptAt <= now;
      ghost var due := todo;
      assert forall k :: k in due <==> Due(Db(), k, now);
      while todo != {}
        invariant todo <= due
        invariant found.None? ==> todo == due
        invariant found.Some? ==> found.value in due
        invariant found.Some? ==> forall k | k in due - todo :: NoLater(operations[found.value], operations[k])
        decreases todo
      {
        var k :| k in todo;
        if found.None? || !NoLater(operations[found.value], operations[k]) { found := Some(k); }
        todo := todo - {k};
      }
    }

    method ProcessOne(now: int, execution: Execution) returns (found: Option<Key>)
      requires Valid()
      modifies this`circles, this`operations
      ensures Valid()
      ensures found.None? <==> forall k | k in old(operations) :: !Due(old(Db()), k, now)
      ensures found.None? ==> Db() == old(Db())
      ensures found.Some? ==> Due(old(Db()), found.value, now) && Db() == Processed(old(Db()), found.value, now, execution)
      ensures found.Some? ==> ProcessedAsMeant(old(Db()), Db(), found.value, execution)
    {
      found := FindDue(now);
      if found.None? { return; }
      var key := found.value;
      ProcessingIsAsMeant(Db(), key, now, execution);
      var o := operations[key].(status := PROCESSING, attempts := operations[key].attempts + 1, claimedAt := Some(now));
      operations := operations[key := o];
      if execution == Succeeds || (execution == AlreadyAbsent && o.kind == DISMISS) {
        CompleteOne(key, o, now);
      } else {
        FailOne(key, o, now);
      }
    }

    method CompleteOne(key: Key, o: Operation, now: int)
      requires Valid() && (o.circle.Some? ==> o.circle.value in circles)
      modifies this`circles, this`operations
      ensures Valid()
      ensures Db() == GroupOperations.Complete(old(Db()), key, o, now)
    {
      if !(key in operations && operations[key].status == PROCESSING && operations[key].claimedAt == Some(now)) { return; }
      operations := operations[key := operations[key].(status := SUCCEEDED, claimedAt := None)];
      if o.circle.Some? {
        circles := circles[o.circle.value := Completed(circles[o.circle.value], o.kind)];
      }
    }

    method FailOne(key: Key, o: Operation, now: int)
      requires Valid() && (o.circle.Some? ==> o.circle.value in circles)
      modifies this`circles, this`operations
      ensures Valid()
      ensures Db() == GroupOperations.Fail(old(Db()), key, o, now)
    {
      if !(key in operations && operations[key].status == PROCESSING && operations[key].claimedAt == Some(now)) { return; }
      if o.attempts < MAX_ATTEMPTS {
        operations := operations[key :=
          operations[key].(status := PENDING, nextAttemptAt := now + Backoff(o.attempts), claimedAt := None)];
      } else {
        operations := operations[key := operations[key].(status := FAILED, claimedAt := None)];
        if o.circle.Some? {
          circles := circles[o.circle.value := circles[o.circle.value].(adminState := SYNC_FAILED)];
        }
      }
    }

    method RecoverStale(now: int)
      requires Valid()
      modifies this`operations
      ensures Valid() && Db() == GroupOperations.Recover(old(Db()), now)
      ensures forall k | k in operations :: !Stale(operations[k], now)
      ensures forall k | k in old(operations) && Stale(old(operations)[k], now) ::
        Due(Db(), k, now) && operations[k].attempts == old(operations)[k].attempts && SameRequest(operations[k], old(operations)[k])
      ensures forall k | k in old(operations) && !Stale(old(operations)[k], now) :: k in operations && operations[k] == old(operations)[k]
    {
      RecoveredIs(Db(), now);
      operations := map k | k in operations ::
        if operations[k].status == PROCESSING && operations[k].claimedAt.Some? && operations[k].claimedAt.value < now - STALE_CLAIM_MS
        then operations[k].(status := PENDING, claimedAt := None, nextAttemptAt := now) else operations[k];
      assert Db() == GroupOperations.Recover(old(Db()), now);
    }

    /**
     * One tick: nothing while another is running; otherwise stale claims come back and up to ten
     * due operations are processed. The tables move along a legal run of GroupOperations.
     */
    method ProcessAvailable(startedAt: int, clock: seq<int>, executions: seq<Execution>)
      returns (processed: nat, ghost steps: seq<Step>)
      requires Valid() && |clock| == 10 && |executions| == 10
      modifies this`circles, this`operations, this`running
      ensures Valid() && running == old(running) && processed <= 10
      ensures old(running) ==> Db() == old(Db()) && processed == 0
      ensures LegalRun(World(old(Db()), map[], map[]), steps)
      ensures Db() == Run(World(old(Db()), map[], map[]), steps).t
      ensures !old(running) && processed < 10 ==> forall k | k in operations :: !Due(Db(), k, clock[processed])
    {
      ghost var start := World(Db(), map[], map[]);
      processed, steps := 0, [];
      if running { return; }
      running := true;
      RecoverStale(startedAt);
      steps := [RecoverStaleClaims(startedAt)];
      OneStep(start, steps[0]);
      var more := true;
      while more && processed < 10
        invariant Valid() && running && processed <= 10
        invariant LegalRun(start, steps) && Run(start, steps).t == Db() && Run(start, steps).workers == map[]
        invariant !more ==> processed < 10 && forall k | k in operations :: !Due(Db(), k, clock[processed])
        decreases more, 10 - processed
      {
        ghost var before := Db();
        var found := ProcessOne(clock[processed], executions[processed]);
        if found.None? {
          more := false;
        } else {
          ghost var w := Run(start, steps);
          ShiftProcesses(w, found.value, clock[processed], executions[processed]);
          ghost var shift := Shift(found.value, clock[processed], executions[processed], before.operations[found.value].kind);
          RunJoins(start, steps, shift);
          steps := steps + shift;
          processed := processed + 1;
        }
      }
      running := false;
    }
  }
}
