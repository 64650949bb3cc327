/** What the invariant of GroupOperations gives over every run of requests, workers and crashes. */
module GroupOperationTheorems {
  import opened Common
  import opened GroupOperations
  import opened GroupOperationInvariant

  lemma Reachable(start: World, steps: seq<Step>)
    requires Start(start) && LegalRun(start, steps)
    ensures Inv(Run(start, steps))
  {
    RunKeeps(start, steps);
  }

  // ----- Circle and queue stay in step

  lemma QueueAndCircleInStep(start: World, steps: seq<Step>, c: Id)
    requires Start(start) && LegalRun(start, steps) && c in Run(start, steps).t.circles
    ensures var t := Run(start, steps).t;
      && (t.circles[c].adminState == DISABLING <==> exists k :: Driven(t, c, k) && t.operations[k].kind != UNMUTE)
      && (t.circles[c].adminState == RESTORING <==> exists k :: Driven(t, c, k) && t.operations[k].kind == UNMUTE)
  {
    Reachable(start, steps);
    var t := Run(start, steps).t;
    if t.circles[c].adminState == DISABLING || t.circles[c].adminState == RESTORING {
      var k :| Driven(t, c, k);
      assert t.circles[c].adminState == StateDuring(t.operations[k].kind);
    }
  }

  lemma OneOperationPerGroup(start: World, steps: seq<Step>, a: Key, b: Key)
    requires Start(start) && LegalRun(start, steps)
    requires var t := Run(start, steps).t;
      && a in t.operations && b in t.operations && Active(t.operations[a]) && Active(t.operations[b])
      && t.operations[a].group == t.operations[b].group
    ensures a == b
  {
    Reachable(start, steps);
  }

  // ----- What disabling and restoring accept

  /** The request is new: its key names nothing yet. */
  predicate NewKey(t: Tables, key: Key) {
    key !in t.operations && key !in t.local
  }

  /** Restoring accepts exactly the DISABLED and SYNC_FAILED circles whose group is not busy. */
  lemma RestoreAcceptsTheDisabled(start: World, steps: seq<Step>, step: Step)
    requires Start(start) && LegalRun(start, steps)
    requires step.RequestChange? && step.kind == UNMUTE && step.circle in Run(start, steps).t.circles
    requires NewKey(Run(start, steps).t, step.key)
    ensures var w := Run(start, steps);
      var c := w.t.circles[step.circle];
      Do(w, step) != w <==>
      (c.adminState == DISABLED || c.adminState == SYNC_FAILED) && (c.groupID.Some? ==> !Busy(w.t, c.groupID.value))
  {
    Reachable(start, steps);
    RestoreAccepts(Run(start, steps), step);
  }

  lemma RestoreAccepts(w: World, step: Step)
    requires AllTraced(w.t) && step.RequestChange? && step.kind == UNMUTE && step.circle in w.t.circles && NewKey(w.t, step.key)
    ensures var c := w.t.circles[step.circle];
      Do(w, step) != w <==>
      (c.adminState == DISABLED || c.adminState == SYNC_FAILED) && (c.groupID.Some? ==> !Busy(w.t, c.groupID.value))
  {
  }

  /** Disabling accepts exactly the circles that are not deleted and whose group is not busy. */
  lemma DisableAcceptsTheLiving(start: World, steps: seq<Step>, step: Step)
    requires Start(start) && LegalRun(start, steps)
    requires step.RequestChange? && step.kind == MUTE && step.circle in Run(start, steps).t.circles
    requires NewKey(Run(start, steps).t, step.key)
    ensures var w := Run(start, steps);
      var c := w.t.circles[step.circle];
      Do(w, step) != w <==> !c.deleted && (c.groupID.Some? ==> !Busy(w.t, c.groupID.value))
  {
    Reachable(start, steps);
    DisableAccepts(Run(start, steps), step);
  }

  lemma DisableAccepts(w: World, step: Step)
    requires AllTraced(w.t) && step.RequestChange? && step.kind == MUTE && step.circle in w.t.circles && NewKey(w.t, step.key)
    ensures var c := w.t.circles[step.circle];
      Do(w, step) != w <==> !c.deleted && (c.groupID.Some? ==> !Busy(w.t, c.groupID.value))
  {
  }

  /** Repeating a request, accepted or refused, changes nothing more. */
  lemma RetryChangesNothing(w: World, step: Step)
    requires step.RequestOperation? || step.RequestChange?
    ensures Do(Do(w, step), step) == Do(w, step)
  {
  }

  // ----- A restored circle is the circle that was disabled

  lemma GroupIDStays(w: World, step: Step, c: Id)
    requires Legal(w, step) && c in w.t.circles
    ensures c in Do(w, step).t.circles && Do(w, step).t.circles[c].groupID == w.t.circles[c].groupID
  {
  }

  lemma {:induction false} GroupIDFixed(w: World, steps: seq<Step>, c: Id)
    requires LegalRun(w, steps) && c in w.t.circles
    ensures c in Run(w, steps).t.circles && Run(w, steps).t.circles[c].groupID == w.t.circles[c].groupID
    decreases |steps|
  {
    if steps != [] {
      GroupIDStays(w, steps[0], c);
      GroupIDFixed(Do(w, steps[0]), steps[1..], c);
    }
  }

  /** The step that finishes a restoration of the circle, queued or local. */
  ghost predicate FinishesRestore(w: World, step: Step, c: Id) {
    || (&& step.CompleteOperation? && Ready(w, step.worker)
        && var me := w.workers[step.worker];
           ClaimStands(w.t, me.key, me.claimedAt) && w.t.operations[me.key].circle == Some(c) && w.t.operations[me.key].kind == UNMUTE)
    || (&& step.RequestChange? && step.circle == c && step.kind == UNMUTE && c in w.t.circles
        && w.t.circles[c].groupID.None? && step.key !in w.t.local && HasProvenance(w.t.circles[c]) && w.t.circles[c].deleted)
  }

  lemma RestoreFinishes(w: World, step: Step, c: Id)
    requires Crew(w) && c in w.t.circles && FinishesRestore(w, step, c)
    ensures Do(w, step).t.circles[c] == Restored(w.t.circles[c])
  {
  }

  /** Whatever happened to a circle in between, a finished restoration brings back the row it had. */
  lemma RestoreBringsBack(start: World, before: seq<Step>, after: seq<Step>, step: Step, c: Id)
    requires Start(start) && LegalRun(start, before)
    requires var w := Run(start, before); c in w.t.circles && !w.t.circles[c].deleted && LegalRun(w, after)
    requires FinishesRestore(Run(Run(start, before), after), step, c)
    ensures var w := Run(start, before); var w' := Do(Run(w, after), step);
      c in w'.t.circles && w'.t.circles[c] == w.t.circles[c]
  {
    Reachable(start, before);
    var w := Run(start, before);
    RunKeeps(w, after);
    GroupIDFixed(w, after, c);
    RestoreFinishes(Run(w, after), step, c);
    assert Traced(w.t.circles[c]);
  }

  // ----- Every operation takes effect once, by the holder of its claim

  /** Only a worker whose own claim time is the current one settles an operation. */
  lemma SettledByTheHolder(w: World, step: Step, k: Key)
    requires Effects(Do(w, step), k) != Effects(w, k)
    ensures && (step.CompleteOperation? || step.FailOperation?) && step.worker in w.workers
            && w.workers[step.worker].key == k && ClaimStands(w.t, k, w.workers[step.worker].claimedAt)
            && Effects(Do(w, step), k) == Effects(w, k) + [step.worker]
  {
  }

  /** A worker whose claim is gone changes nothing at all. */
  lemma FencedWorkerIsHarmless(w: World, step: Step)
    requires (step.CompleteOperation? || step.FailOperation?) && step.worker in w.workers
    requires !ClaimStands(w.t, w.workers[step.worker].key, w.workers[step.worker].claimedAt)
    ensures Do(w, step) == w
  {
  }

  lemma ClaimGone(w: World, step: Step, k: Key, at: int)
    requires k in w.t.operations && !ClaimStands(w.t, k, at) && Legal(w, step)
    requires step.ClaimOperation? ==> step.now > at
    ensures k in Do(w, step).t.operations && !ClaimStands(Do(w, step).t, k, at)
  {
    match step
    case CompleteOperation(_) => ClaimGoneSettling(w, step, k, at);
    case FailOperation(_) => ClaimGoneSettling(w, step, k, at);
    case _ =>
  }

  lemma ClaimGoneSettling(w: World, step: Step, k: Key, at: int)
    requires k in w.t.operations && !ClaimStands(w.t, k, at)
    requires step.CompleteOperation? || step.FailOperation?
    ensures k in Do(w, step).t.operations && !ClaimStands(Do(w, step).t, k, at)
  {
    if Ready(w, step.worker) && ClaimStands(w.t, w.workers[step.worker].key, w.workers[step.worker].claimedAt) {
      if step.CompleteOperation? { CompleteRow(w, step); } else { FailRow(w, step); }
    }
  }

  /** Once recovered or settled, a claim is fenced off for ever by the clock of later claims. */
  lemma {:induction false} FencedForEver(w: World, steps: seq<Step>, k: Key, at: int)
    requires k in w.t.operations && !ClaimStands(w.t, k, at) && LegalRun(w, steps)
    requires forall i | 0 <= i < |steps| :: steps[i].ClaimOperation? ==> steps[i].now > at
    ensures k in Run(w, steps).t.operations && !ClaimStands(Run(w, steps).t, k, at)
    decreases |steps|
  {
    if steps != [] {
      ClaimGone(w, steps[0], k, at);
      FencedForEver(Do(w, steps[0]), steps[1..], k, at);
    }
  }

  lemma OneEffect(start: World, steps: seq<Step>, k: Key)
    requires Start(start) && LegalRun(start, steps) && k in Run(start, steps).t.operations
    ensures var w := Run(start, steps); |Effects(w, k)| == if Active(w.t.operations[k]) then 0 else 1
  {
    Reachable(start, steps);
  }

  lemma SettledRowStays(w: World, step: Step, k: Key)
    requires k in w.t.operations && !Active(w.t.operations[k])
    ensures k in Do(w, step).t.operations && Do(w, step).t.operations[k] == w.t.operations[k]
  {
    match step
    case CompleteOperation(_) => SettledRowSettling(w, step, k);
    case FailOperation(_) => SettledRowSettling(w, step, k);
    case _ =>
  }

  lemma SettledRowSettling(w: World, step: Step, k: Key)
    requires k in w.t.operations && !Active(w.t.operations[k]) && (step.CompleteOperation? || step.FailOperation?)
    ensures k in Do(w, step).t.operations && Do(w, step).t.operations[k] == w.t.operations[k]
  {
    if Ready(w, step.worker) && ClaimStands(w.t, w.workers[step.worker].key, w.workers[step.worker].claimedAt) {
      if step.CompleteOperation? { CompleteRow(w, step); } else { FailRow(w, step); }
    }
  }

  lemma {:induction false} SettledForEver(w: World, steps: seq<Step>, k: Key)
    requires k in w.t.operations && !Active(w.t.operations[k])
    ensures k in Run(w, steps).t.operations && Run(w, steps).t.operations[k] == w.t.operations[k]
    decreases |steps|
  {
    if steps != [] {
      SettledRowStays(w, steps[0], k);
      SettledForEver(Do(w, steps[0]), steps[1..], k);
    }
  }

  // ----- DISMISSED is not final

  ghost predicate DismissesAgain(w: World, step: Step, c: Id) {
    && step.RequestOperation? && step.linked == Some(c) && step.kind == DISMISS
    && step.key !in w.t.operations && !Busy(w.t, step.group)
  }

  /** A dismissed circle leaves DISMISSED exactly when another dismissal of it is queued. */
  lemma DismissedIsLeftByDismissal(w: World, step: Step, c: Id)
    requires Inv(w) && Legal(w, step) && c in w.t.circles && w.t.circles[c].adminState == DISMISSED
    ensures Do(w, step).t.circles[c].adminState != DISMISSED <==> DismissesAgain(w, step, c)
    ensures DismissesAgain(w, step, c) ==> Do(w, step).t.circles[c].adminState == DISABLING
  {
    match step
    case CompleteOperation(_) => NotDriven(w, step, c);
    case FailOperation(_) => NotDriven(w, step, c);
    case _ =>
  }

  lemma NotDriven(w: World, step: Step, c: Id)
    requires Drives(w.t) && Crew(w) && (step.CompleteOperation? || step.FailOperation?)
    requires c in w.t.circles && w.t.circles[c].adminState != DISABLING && w.t.circles[c].adminState != RESTORING
    ensures c in Do(w, step).t.circles && Do(w, step).t.circles[c] == w.t.circles[c]
  {
    if Ready(w, step.worker) && ClaimStands(w.t, w.workers[step.worker].key, w.workers[step.worker].claimedAt) {
      var key := w.workers[step.worker].key;
      if w.t.operations[key].circle == Some(c) { assert Driven(w.t, c, key); }
    }
  }

  /** The last failed attempt of any operation, a second dismissal too, opens the circle to restoring. */
  lemma LastFailureOpensRestore(w: World, worker: WorkerId, c: Id)
    requires Inv(w) && Ready(w, worker)
    requires var me := w.workers[worker];
      && ClaimStands(w.t, me.key, me.claimedAt) && me.loaded.value.attempts >= MAX_ATTEMPTS
      && w.t.operations[me.key].circle == Some(c)
    ensures var w' := Do(w, FailOperation(worker));
      c in w'.t.circles && w'.t.circles[c].adminState == SYNC_FAILED && Admits(w'.t.circles[c], UNMUTE)
  {
    assert Driven(w.t, c, w.workers[worker].key);
    assert Traced(w.t.circles[c]);
  }
}
