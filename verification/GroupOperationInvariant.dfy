/** Every step of requesters, workers and crashes keeps the invariant of GroupOperations. */
module GroupOperationInvariant {
  import opened Common
  import opened GroupOperations

  // ----- Queueing

  lemma QueueKeepsOneActive(t: Tables, t': Tables, key: Key, o: Operation)
    requires OneActive(t) && key !in t.operations && !Busy(t, o.group)
    requires t'.operations == t.operations[key := o]
    ensures OneActive(t')
  {
  }

  lemma LinksStay(t: Tables, t': Tables, circle: Id, group: Id)
    requires Links(t, circle, group)
    requires circle in t'.circles && t'.circles[circle].groupID == t.circles[circle].groupID
    ensures Links(t', circle, group)
  {
  }

  ghost predicate SameLinks(t: Tables, t': Tables) {
    forall c | c in t.circles :: c in t'.circles && t'.circles[c].groupID == t.circles[c].groupID
  }

  /** One operation in progress on a circle at most. */
  lemma OneDriver(t: Tables, circle: Id, a: Key, b: Key)
    requires OneActive(t) && Linked(t) && Driven(t, circle, a) && Driven(t, circle, b)
    ensures a == b
  {
  }

  /** A queued operation drives its circle from the state the request writes. */
  lemma QueueKeeps(t: Tables, t': Tables, key: Key, o: Operation)
    requires OneActive(t) && Linked(t) && Drives(t) && DrivenWhile(t) && Requests(t)
    requires key !in t.operations && !Busy(t, o.group) && o.status == PENDING && o.claimedAt.None?
    requires |o.requestedBy| > 0 && |o.reason| > 0
    requires t'.operations == t.operations[key := o]
    requires o.circle.Some? ==> Links(t, o.circle.value, o.group)
    requires o.circle.Some? ==> exists c: Circle ::
        && t'.circles == t.circles[o.circle.value := c]
        && c.groupID == t.circles[o.circle.value].groupID && c.adminState == StateDuring(o.kind)
    requires o.circle.None? ==> t'.circles == t.circles
    ensures OneActive(t') && Linked(t') && Drives(t') && DrivenWhile(t') && Requests(t')
  {
    QueueKeepsOneActive(t, t', key, o);
    assert SameLinks(t, t');
    forall k | k in t'.operations && t'.operations[k].circle.Some?
      ensures Links(t', t'.operations[k].circle.value, t'.operations[k].group)
    {
      LinksStay(t, t', t'.operations[k].circle.value, t'.operations[k].group);
    }
    QueueDrives(t, t', key, o);
    forall c | c in t'.circles && (t'.circles[c].adminState == DISABLING || t'.circles[c].adminState == RESTORING)
      ensures exists k :: Driven(t', c, k)
    {
      if o.circle == Some(c) {
        assert Driven(t', c, key);
      } else {
        var k :| Driven(t, c, k);
        assert Driven(t', c, k);
      }
    }
  }

  lemma QueueDrives(t: Tables, t': Tables, key: Key, o: Operation)
    requires Linked(t) && Drives(t) && key !in t.operations && !Busy(t, o.group)
    requires t'.operations == t.operations[key := o]
    requires o.circle.Some? ==> Links(t, o.circle.value, o.group)
    requires o.circle.Some? ==> exists c: Circle ::
        t'.circles == t.circles[o.circle.value := c] && c.adminState == StateDuring(o.kind)
    requires o.circle.None? ==> t'.circles == t.circles
    ensures Drives(t')
  {
  }

  // ----- Settling and rescheduling

  /** Changes to the row of an operation in progress that leave it in progress. */
  ghost predicate Rescheduled(t: Tables, t': Tables) {
    && t'.circles == t.circles
    && t'.operations.Keys == t.operations.Keys
    && (forall k | k in t.operations ::
          SameRequest(t'.operations[k], t.operations[k]) && (Active(t'.operations[k]) <==> Active(t.operations[k])))
  }

  lemma RescheduledKeeps(t: Tables, t': Tables)
    requires OneActive(t) && Linked(t) && Drives(t) && DrivenWhile(t) && AllTraced(t) && Rescheduled(t, t')
    ensures OneActive(t') && Linked(t') && Drives(t') && DrivenWhile(t') && AllTraced(t')
  {
    forall k, c | Driven(t', c, k) ensures c in t'.circles && t'.circles[c].adminState == StateDuring(t'.operations[k].kind) {
      assert Driven(t, c, k);
    }
    forall c | c in t'.circles && (t'.circles[c].adminState == DISABLING || t'.circles[c].adminState == RESTORING)
      ensures exists k :: Driven(t', c, k)
    {
      var k :| Driven(t, c, k);
      assert Driven(t', c, k);
    }
    forall k | k in t'.operations && t'.operations[k].circle.Some?
      ensures Links(t', t'.operations[k].circle.value, t'.operations[k].group)
    {
      assert Links(t, t.operations[k].circle.value, t.operations[k].group);
    }
  }

  /** The operation leaves the queue and its circle leaves the state it was driven in. */
  ghost predicate SettledAt(t: Tables, t': Tables, key: Key) {
    && key in t.operations && Active(t.operations[key])
    && t'.operations.Keys == t.operations.Keys
    && SameRequest(t'.operations[key], t.operations[key]) && !Active(t'.operations[key])
    && (forall k | k in t.operations && k != key :: t'.operations[k] == t.operations[k])
    && SameLinks(t, t') && t'.circles.Keys == t.circles.Keys
    && (forall c | c in t.circles && Some(c) != t.operations[key].circle :: t'.circles[c] == t.circles[c])
    && (forall c | c in t.circles && Some(c) == t.operations[key].circle ::
          t'.circles[c].adminState != DISABLING && t'.circles[c].adminState != RESTORING)
  }

  lemma SettledKeeps(t: Tables, t': Tables, key: Key)
    requires OneActive(t) && Linked(t) && Drives(t) && DrivenWhile(t) && SettledAt(t, t', key)
    ensures OneActive(t') && Linked(t') && Drives(t') && DrivenWhile(t')
  {
    forall k | k in t'.operations && t'.operations[k].circle.Some?
      ensures Links(t', t'.operations[k].circle.value, t'.operations[k].group)
    {
      assert Links(t, t.operations[k].circle.value, t.operations[k].group);
    }
    forall k, c | Driven(t', c, k) ensures c in t'.circles && t'.circles[c].adminState == StateDuring(t'.operations[k].kind) {
      assert Driven(t, c, k);
      if t.operations[key].circle == Some(c) {
        assert Driven(t, c, key);
        OneDriver(t, c, k, key);
      }
    }
    forall c | c in t'.circles && (t'.circles[c].adminState == DISABLING || t'.circles[c].adminState == RESTORING)
      ensures exists k :: Driven(t', c, k)
    {
      var k :| Driven(t, c, k);
      assert Driven(t', c, k);
    }
  }

  /** Circles change outside the queue only when nothing drives them, before or after. */
  ghost predicate Undriven(t: Tables, t': Tables, circle: Id) {
    && t'.operations == t.operations
    && (circle in t.circles ==> circle in t'.circles && t'.circles[circle].groupID == t.circles[circle].groupID)
    && (forall c | c != circle :: (c in t'.circles <==> c in t.circles) && (c in t.circles ==> t'.circles[c] == t.circles[c]))
    && (circle in t.circles ==> t.circles[circle].adminState != DISABLING && t.circles[circle].adminState != RESTORING)
    && (circle in t'.circles ==> t'.circles[circle].adminState != DISABLING && t'.circles[circle].adminState != RESTORING)
  }

  lemma UndrivenKeeps(t: Tables, t': Tables, circle: Id)
    requires OneActive(t) && Linked(t) && Drives(t) && DrivenWhile(t) && Undriven(t, t', circle)
    ensures OneActive(t') && Linked(t') && Drives(t') && DrivenWhile(t')
  {
    forall k | k in t'.operations && t'.operations[k].circle.Some?
      ensures Links(t', t'.operations[k].circle.value, t'.operations[k].group)
    {
      assert Links(t, t.operations[k].circle.value, t.operations[k].group);
    }
    forall k, c | Driven(t', c, k) ensures c in t'.circles && t'.circles[c].adminState == StateDuring(t'.operations[k].kind) {
      assert Driven(t, c, k);
    }
    forall c | c in t'.circles && (t'.circles[c].adminState == DISABLING || t'.circles[c].adminState == RESTORING)
      ensures exists k :: Driven(t', c, k)
    {
      var k :| Driven(t, c, k);
      assert Driven(t', c, k);
    }
  }

  // ----- Step by step

  lemma CreateKeeps(w: World, step: Step)
    requires Inv(w) && Legal(w, step) && step.CreateCircle?
    ensures Inv(Do(w, step))
  {
    var w' := Do(w, step);
    UndrivenKeeps(w.t, w'.t, step.circle);
  }

  lemma DissolveKeeps(w: World, step: Step)
    requires Inv(w) && step.DissolveCircle?
    ensures Inv(Do(w, step))
  {
    var w' := Do(w, step);
    if w'.t != w.t {
      assert Traced(w.t.circles[step.circle]);
      UndrivenKeeps(w.t, w'.t, step.circle);
    }
  }

  /** A request adds one operation, with no effect yet, and leaves the workers alone. */
  lemma QueueSettled(w: World, w': World, key: Key, o: Operation)
    requires Crew(w) && Settled(w) && key !in w.t.operations && Active(o)
    requires w'.t.operations == w.t.operations[key := o] && w'.workers == w.workers && w'.effects == w.effects
    ensures Crew(w') && Settled(w')
  {
  }

  lemma RequestOperationKeeps(w: World, step: Step)
    requires Inv(w) && Legal(w, step) && step.RequestOperation?
    ensures Inv(Do(w, step))
  {
    var w' := Do(w, step);
    if w'.t != w.t {
      var o := Queued(step.group, step.linked, step.kind, step.actor, step.reason, step.now);
      QueueKeeps(w.t, w'.t, step.key, o);
      QueueSettled(w, w', step.key, o);
      assert AllTraced(w'.t);
    }
  }

  lemma RequestChangeKeeps(w: World, step: Step)
    requires Inv(w) && Legal(w, step) && step.RequestChange?
    ensures Inv(Do(w, step))
  {
    var w' := Do(w, step);
    if w'.t != w.t {
      var c := w.t.circles[step.circle];
      assert Traced(c);
      ChangeTraced(w, step);
      if c.groupID.None? {
        UndrivenKeeps(w.t, w'.t, step.circle);
      } else {
        var o := Queued(c.groupID.value, Some(step.circle), step.kind, step.actor, step.reason, step.now);
        QueueKeeps(w.t, w'.t, step.key, o);
        QueueSettled(w, w', step.key, o);
      }
    }
  }

  lemma ChangeTraced(w: World, step: Step)
    requires AllTraced(w.t) && Legal(w, step) && step.RequestChange?
    ensures AllTraced(Do(w, step).t)
  {
  }

  lemma ClaimKeeps(w: World, step: Step)
    requires Inv(w) && step.ClaimOperation?
    ensures Inv(Do(w, step))
  {
    var w' := Do(w, step);
    if w'.t != w.t {
      RescheduledKeeps(w.t, w'.t);
      ClaimRest(w, step);
    }
  }

  lemma ClaimRest(w: World, step: Step)
    requires Requests(w.t) && Crew(w) && Settled(w) && step.ClaimOperation?
    ensures var w' := Do(w, step); Requests(w'.t) && Crew(w') && Settled(w')
  {
    var w' := Do(w, step);
    if w' != w {
      assert SameRequest(w'.t.operations[step.key], w.t.operations[step.key]);
      forall i | i in w'.workers && i != step.worker
        ensures w'.workers[i].key in w'.t.operations
        ensures w'.workers[i].loaded.Some? ==> SameRequest(w'.workers[i].loaded.value, w'.t.operations[w'.workers[i].key])
      {
        assert w'.workers[i] == w.workers[i];
      }
    }
  }

  lemma WorkersKeep(w: World, step: Step)
    requires Inv(w) && (step.LoadOperation? || step.WorkerGone?)
    ensures Inv(Do(w, step))
  {
    assert Crew(Do(w, step));
    assert Settled(Do(w, step));
  }

  lemma RecoverIs(t: Tables, now: int)
    ensures Rescheduled(t, Recover(t, now))
  {
  }

  lemma RecoverRest(w: World, step: Step)
    requires Requests(w.t) && Crew(w) && Settled(w) && step.RecoverStaleClaims?
    ensures var w' := Do(w, step); Requests(w'.t) && Crew(w') && Settled(w')
  {
  }

  lemma RecoverKeeps(w: World, step: Step)
    requires Inv(w) && step.RecoverStaleClaims?
    ensures Inv(Do(w, step))
  {
    RecoverIs(w.t, step.now);
    RescheduledKeeps(w.t, Recover(w.t, step.now));
    RecoverRest(w, step);
  }

  lemma CompleteXIs(w: World, step: Step)
    requires Linked(w.t) && Drives(w.t) && Crew(w) && step.CompleteOperation? && Ready(w, step.worker)
    requires ClaimStands(w.t, w.workers[step.worker].key, w.workers[step.worker].claimedAt)
    ensures SettledAt(w.t, Do(w, step).t, w.workers[step.worker].key)
  {
  }

  lemma FailXIs(w: World, step: Step)
    requires Linked(w.t) && Drives(w.t) && Crew(w) && step.FailOperation? && Ready(w, step.worker)
    requires ClaimStands(w.t, w.workers[step.worker].key, w.workers[step.worker].claimedAt)
    ensures if w.workers[step.worker].loaded.value.attempts < MAX_ATTEMPTS then Rescheduled(w.t, Do(w, step).t)
            else SettledAt(w.t, Do(w, step).t, w.workers[step.worker].key)
  {
  }

  /** One row gives up its claim, and is counted if it leaves the queue. */
  ghost predicate OneRowSettles(w: World, w': World, key: Key, worker: WorkerId) {
    && w'.workers == w.workers && key in w.t.operations && Active(w.t.operations[key])
    && exists o: Operation ::
      && w'.t.operations == w.t.operations[key := o]
      && SameRequest(o, w.t.operations[key]) && o.status != PROCESSING && o.claimedAt.None?
      && w'.effects == if Active(o) then w.effects else w.effects[key := Effects(w, key) + [worker]]
  }

  lemma CompleteRow(w: World, step: Step)
    requires step.CompleteOperation? && Ready(w, step.worker)
    requires ClaimStands(w.t, w.workers[step.worker].key, w.workers[step.worker].claimedAt)
    ensures OneRowSettles(w, Do(w, step), w.workers[step.worker].key, step.worker)
  {
  }

  lemma FailRow(w: World, step: Step)
    requires step.FailOperation? && Ready(w, step.worker)
    requires ClaimStands(w.t, w.workers[step.worker].key, w.workers[step.worker].claimedAt)
    ensures OneRowSettles(w, Do(w, step), w.workers[step.worker].key, step.worker)
  {
    var me := w.workers[step.worker];
    var o := w.t.operations[me.key];
    var o' := if me.loaded.value.attempts < MAX_ATTEMPTS
      then o.(status := PENDING, nextAttemptAt := me.claimedAt + Backoff(me.loaded.value.attempts), claimedAt := None)
      else o.(status := FAILED, claimedAt := None);
    assert Do(w, step).t.operations == w.t.operations[me.key := o'];
  }

  lemma OneRowKeeps(w: World, w': World, key: Key, worker: WorkerId)
    requires Requests(w.t) && Crew(w) && Settled(w) && OneRowSettles(w, w', key, worker)
    ensures Requests(w'.t) && Crew(w') && Settled(w')
  {
  }

  lemma SettleRest(w: World, step: Step)
    requires Requests(w.t) && Crew(w) && Settled(w) && (step.CompleteOperation? || step.FailOperation?)
    ensures var w' := Do(w, step); Requests(w'.t) && Crew(w') && Settled(w')
  {
    if Ready(w, step.worker) && ClaimStands(w.t, w.workers[step.worker].key, w.workers[step.worker].claimedAt) {
      if step.CompleteOperation? { CompleteRow(w, step); } else { FailRow(w, step); }
      OneRowKeeps(w, Do(w, step), w.workers[step.worker].key, step.worker);
    }
  }

  lemma CompleteTraced(t: Tables, key: Key, o: Operation, claimedAt: int)
    requires AllTraced(t) && Drives(t) && (o.circle.Some? ==> Driven(t, o.circle.value, key) && t.operations[key].kind == o.kind)
    ensures o.circle.Some? ==> o.circle.value in t.circles
    ensures AllTraced(Complete(t, key, o, claimedAt))
  {
    if o.circle.Some? { assert Traced(t.circles[o.circle.value]); }
  }

  lemma FailTraced(t: Tables, key: Key, o: Operation, claimedAt: int)
    requires AllTraced(t) && Drives(t) && (o.circle.Some? ==> Driven(t, o.circle.value, key) && t.operations[key].kind == o.kind)
    ensures o.circle.Some? ==> o.circle.value in t.circles
    ensures AllTraced(Fail(t, key, o, claimedAt))
  {
    if o.circle.Some? { assert Traced(t.circles[o.circle.value]); }
  }

  lemma SettleTraced(w: World, step: Step)
    requires AllTraced(w.t) && Drives(w.t) && Crew(w) && (step.CompleteOperation? || step.FailOperation?)
    ensures AllTraced(Do(w, step).t)
  {
    if Ready(w, step.worker) && ClaimStands(w.t, w.workers[step.worker].key, w.workers[step.worker].claimedAt) {
      var me := w.workers[step.worker];
      if step.CompleteOperation? {
        CompleteTraced(w.t, me.key, me.loaded.value, me.claimedAt);
      } else {
        FailTraced(w.t, me.key, me.loaded.value, me.claimedAt);
      }
    }
  }

  lemma SettlingKeeps(w: World, step: Step)
    requires Inv(w) && (step.CompleteOperation? || step.FailOperation?)
    ensures Inv(Do(w, step))
  {
    var w' := Do(w, step);
    SettleRest(w, step);
    SettleTraced(w, step);
    if Ready(w, step.worker) && ClaimStands(w.t, w.workers[step.worker].key, w.workers[step.worker].claimedAt) {
      if step.CompleteOperation? {
        CompleteXIs(w, step);
        SettledKeeps(w.t, w'.t, w.workers[step.worker].key);
      } else {
        FailXIs(w, step);
        if w.workers[step.worker].loaded.value.attempts < MAX_ATTEMPTS {
          RescheduledKeeps(w.t, w'.t);
        } else {
          SettledKeeps(w.t, w'.t, w.workers[step.worker].key);
        }
      }
    }
  }

  lemma StepKeeps(w: World, step: Step)
    requires Inv(w) && Legal(w, step)
    ensures Inv(Do(w, step))
  {
    match step
    case CreateCircle(_, _) => CreateKeeps(w, step);
    case DissolveCircle(_) => DissolveKeeps(w, step);
    case RequestOperation(_, _, _, _, _, _, _) => RequestOperationKeeps(w, step);
    case RequestChange(_, _, _, _, _, _) => RequestChangeKeeps(w, step);
    case ClaimOperation(_, _, _) => ClaimKeeps(w, step);
    case LoadOperation(_) => WorkersKeep(w, step);
    case CompleteOperation(_) => SettlingKeeps(w, step);
    case FailOperation(_) => SettlingKeeps(w, step);
    case RecoverStaleClaims(_) => RecoverKeeps(w, step);
    case WorkerGone(_) => WorkersKeep(w, step);
  }

  lemma {:induction false} RunKeeps(w: World, steps: seq<Step>)
    requires Inv(w) && LegalRun(w, steps)
    ensures Inv(Run(w, steps))
    decreases |steps|
  {
    if steps != [] {
      StepKeeps(w, steps[0]);
      RunKeeps(Do(w, steps[0]), steps[1..]);
    }
  }
}
