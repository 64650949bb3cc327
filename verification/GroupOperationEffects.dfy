/** What each event on the queue does to circles and operations, and what their states can be reached by. */
module GroupOperationEffects {
  import opened Common
  import opened GroupOperations
  import opened GroupOperationInvariant
  import opened GroupOperationTheorems

  // ----- Requests

  /** A request for a group is queued exactly when its key is new, the group free, and a linked circle is only dismissed. */
  lemma GroupRequestQueuedExactlyWhen(w: World, step: Step)
    requires step.RequestOperation? && (step.linked.Some? ==> step.linked.value in w.t.circles)
    ensures Do(w, step) != w <==>
        step.key !in w.t.operations && (step.linked.None? || step.kind == DISMISS)
        && forall k | k in w.t.operations && w.t.operations[k].group == step.group ::
             w.t.operations[k].status == SUCCEEDED || w.t.operations[k].status == FAILED
    ensures var t := Do(w, step).t;
      Do(w, step) != w ==>
        && t.operations == w.t.operations[step.key :=
             Operation(step.group, step.linked, step.kind, step.actor, step.reason, PENDING, 0, step.now, None, step.now)]
        && (step.linked.None? ==> t.circles == w.t.circles)
        && (step.linked.Some? ==>
              t.circles == w.t.circles[step.linked.value :=
                Circle(w.t.circles[step.linked.value].groupID, true, DISABLING, Some(step.now), Some(step.actor), Some(step.reason))])
  {
    var t := Do(w, step).t;
    if step.key in t.operations && step.key !in w.t.operations { assert t.operations != w.t.operations; }
  }

  /** A request about a circle is accepted exactly when its key is new, the group free, and the circle in the state it asks for. */
  lemma CircleRequestAcceptedExactlyWhen(w: World, step: Step)
    requires step.RequestChange? && step.circle in w.t.circles
    ensures var c := w.t.circles[step.circle];
      Do(w, step) != w <==>
        && (if c.groupID.None? then step.key !in w.t.local
            else step.key !in w.t.operations
                 && forall k | k in w.t.operations && w.t.operations[k].group == c.groupID.value ::
                      w.t.operations[k].status == SUCCEEDED || w.t.operations[k].status == FAILED)
        && (if step.kind == MUTE then !c.deleted && c.adminState != DISABLED
            else
              && c.deleted && (c.adminState == DISABLED || c.adminState == SYNC_FAILED)
              && c.disabledAt.Some? && c.disabledBy.Some? && |c.disabledBy.value| > 0 && c.disableReason.Some? && |c.disableReason.value| > 0)
  {
    var t := Do(w, step).t;
    if step.key !in w.t.operations && step.key in t.operations { assert t.operations != w.t.operations; }
    if step.key !in w.t.local && step.key in t.local { assert t.local != w.t.local; }
  }

  /** In every run a circle an administrator has touched says by whom, when and why, and any other says nothing. */
  lemma TouchedCirclesSayWhy(start: World, steps: seq<Step>, c: Id)
    requires Start(start) && LegalRun(start, steps) && c in Run(start, steps).t.circles
    ensures var circle := Run(start, steps).t.circles[c];
      if circle.adminState == ACTIVE then circle.disabledAt.None? && circle.disabledBy.None? && circle.disableReason.None?
      else
        && circle.deleted && circle.disabledAt.Some?
        && circle.disabledBy.Some? && circle.disabledBy.value != "" && circle.disableReason.Some? && circle.disableReason.value != ""
  {
    Reachable(start, steps);
    assert Traced(Run(start, steps).t.circles[c]);
  }

  /** A circle with a group is changed by queueing the operation and marking the circle, both or neither. */
  lemma CircleRequestQueued(w: World, step: Step)
    requires step.RequestChange? && step.circle in w.t.circles && w.t.circles[step.circle].groupID.Some? && Do(w, step) != w
    ensures var t := Do(w, step).t; var c := w.t.circles[step.circle];
      && step.key !in w.t.operations
      && t.operations == w.t.operations[step.key :=
           Operation(c.groupID.value, Some(step.circle), step.kind, step.actor, step.reason, PENDING, 0, step.now, None, step.now)]
      && t.circles == w.t.circles[step.circle :=
           if step.kind == MUTE then Circle(c.groupID, true, DISABLING, Some(step.now), Some(step.actor), Some(step.reason))
           else c.(adminState := RESTORING)]
  {
  }

  /** A circle without a group is changed on the spot, once for each key. */
  lemma CircleChangedAlone(w: World, step: Step)
    requires step.RequestChange? && step.circle in w.t.circles && w.t.circles[step.circle].groupID.None? && Do(w, step) != w
    ensures var t := Do(w, step).t;
      && step.key !in w.t.local && t.local == w.t.local[step.key := LocalChange(step.actor, step.circle, step.reason, step.kind)]
      && t.operations == w.t.operations
      && t.circles == w.t.circles[step.circle :=
           if step.kind == MUTE then Circle(None, true, DISABLED, Some(step.now), Some(step.actor), Some(step.reason))
           else Circle(None, false, ACTIVE, None, None, None)]
  {
  }

  // ----- Settling

  /** The step with which a worker whose claim stands completes, or fails, an operation of this kind on this circle. */
  ghost predicate Settles(w: World, worker: WorkerId, c: Id, kind: Kind) {
    && Ready(w, worker)
    && ClaimStands(w.t, w.workers[worker].key, w.workers[worker].claimedAt)
    && w.t.operations[w.workers[worker].key].circle == Some(c) && w.t.operations[w.workers[worker].key].kind == kind
  }

  /** A completed operation leaves its circle disabled with its provenance, dismissed with it, or active without. */
  lemma CompletionLeaves(w: World, worker: WorkerId, c: Id, kind: Kind)
    requires Crew(w) && Settles(w, worker, c, kind) && c in w.t.circles
    ensures var key := w.workers[worker].key; var t := Do(w, CompleteOperation(worker)).t;
      && t.operations == w.t.operations[key := w.t.operations[key].(status := SUCCEEDED, claimedAt := None)]
      && t.circles == w.t.circles[c := t.circles[c]]
      && t.circles[c].groupID == w.t.circles[c].groupID
      && match kind
         case MUTE => t.circles[c] == w.t.circles[c].(adminState := DISABLED)
         case DISMISS => t.circles[c] == w.t.circles[c].(deleted := true, adminState := DISMISSED)
         case UNMUTE => t.circles[c] == Circle(w.t.circles[c].groupID, false, ACTIVE, None, None, None)
  {
  }

  /** A failed operation is due again after its back-off, or, after the fifth attempt, over, with its circle marked. */
  lemma FailureLeaves(w: World, worker: WorkerId, c: Id, kind: Kind)
    requires Crew(w) && Settles(w, worker, c, kind) && c in w.t.circles
    ensures var me := w.workers[worker]; var o := w.t.operations[me.key]; var t := Do(w, FailOperation(worker)).t;
      if me.loaded.value.attempts < MAX_ATTEMPTS then
        && t.circles == w.t.circles
        && t.operations == w.t.operations[me.key := t.operations[me.key]]
        && SameRequest(t.operations[me.key], o) && t.operations[me.key].status == PENDING && t.operations[me.key].attempts == o.attempts
        && me.claimedAt + 1_000 <= t.operations[me.key].nextAttemptAt <= me.claimedAt + STALE_CLAIM_MS
      else
        && t.operations == w.t.operations[me.key := o.(status := FAILED, claimedAt := None)]
        && t.circles == w.t.circles[c := w.t.circles[c].(adminState := SYNC_FAILED)]
  {
    BackoffDoubles(w.workers[worker].loaded.value.attempts);
  }

  /** One second, doubled with every attempt, never more than five minutes. */
  lemma {:induction false} BackoffDoubles(attempts: nat)
    ensures Backoff(0) == 1_000 && 1_000 <= Backoff(attempts) <= 300_000
    ensures Backoff(attempts + 1) == if 2 * Backoff(attempts) < 300_000 then 2 * Backoff(attempts) else 300_000
  {
    if attempts > 0 { BackoffDoubles(attempts - 1); }
  }

  /** A claim held for more than five minutes is given up, due at once, with its attempts; every other operation is left alone. */
  lemma StaleClaimComesBack(w: World, now: int, k: Key)
    requires k in w.t.operations
    ensures var o := w.t.operations[k]; var t := Do(w, RecoverStaleClaims(now)).t;
      && k in t.operations && t.circles == w.t.circles
      && t.operations[k] ==
         if o.status == PROCESSING && o.claimedAt.Some? && o.claimedAt.value < now - 300_000
         then o.(status := PENDING, claimedAt := None, nextAttemptAt := now) else o
  {
  }

  /** A new circle is nobody's business, and can be disabled. */
  lemma NewCircleCanBeDisabled(w: World, c: Id, group: Id, key: Key, actor: string, reason: string, now: int)
    requires Inv(w) && Legal(w, CreateCircle(c, Some(group))) && key !in w.t.operations && !Busy(w.t, group)
    ensures var w1 := Do(w, CreateCircle(c, Some(group)));
      && w1.t.circles == w.t.circles[c := Circle(Some(group), false, ACTIVE, None, None, None)]
      && Do(w1, RequestChange(key, actor, c, MUTE, reason, now)).t.circles[c].adminState == DISABLING
  {
  }

  // ----- How a circle gets into a state

  /** A circle becomes DISMISSED exactly by completing a dismissal of it. */
  lemma BecomesDismissedExactlyWhen(w: World, step: Step, c: Id)
    requires Crew(w) && c in w.t.circles && w.t.circles[c].adminState != DISMISSED && Legal(w, step)
    ensures c in Do(w, step).t.circles
    ensures Do(w, step).t.circles[c].adminState == DISMISSED <==> step.CompleteOperation? && Settles(w, step.worker, c, DISMISS)
  {
    Moves(w, step, c);
  }

  /** The local change of a circle without a group. */
  predicate ChangesAlone(w: World, step: Step, c: Id) {
    && step.RequestChange? && step.circle == c && c in w.t.circles && w.t.circles[c].groupID.None? && step.key !in w.t.local
  }

  /** A circle becomes DISABLED exactly by completing a MUTE of it, or, without a group, by the request itself. */
  lemma BecomesDisabledExactlyWhen(w: World, step: Step, c: Id)
    requires Crew(w) && c in w.t.circles && w.t.circles[c].adminState != DISABLED && Legal(w, step)
    ensures c in Do(w, step).t.circles
    ensures Do(w, step).t.circles[c].adminState == DISABLED <==>
      || (step.CompleteOperation? && Settles(w, step.worker, c, MUTE))
      || (ChangesAlone(w, step, c) && step.kind == MUTE && !w.t.circles[c].deleted)
  {
    Moves(w, step, c);
  }

  /** A circle is marked SYNC_FAILED exactly when the fifth attempt of an operation on it fails. */
  lemma BecomesFailedExactlyWhen(w: World, step: Step, c: Id)
    requires Crew(w) && c in w.t.circles && w.t.circles[c].adminState != SYNC_FAILED && Legal(w, step)
    ensures c in Do(w, step).t.circles
    ensures Do(w, step).t.circles[c].adminState == SYNC_FAILED <==>
      && step.FailOperation? && (exists kind :: Settles(w, step.worker, c, kind))
      && w.workers[step.worker].loaded.value.attempts >= MAX_ATTEMPTS
  {
    Moves(w, step, c);
    if step.FailOperation? && Ready(w, step.worker) && w.workers[step.worker].key in w.t.operations {
      var kind := w.t.operations[w.workers[step.worker].key].kind;
      assert Touches(w, step.worker, c) ==> Settles(w, step.worker, c, kind);
    }
  }

  ghost predicate Touches(w: World, worker: WorkerId, c: Id) {
    && Ready(w, worker) && ClaimStands(w.t, w.workers[worker].key, w.workers[worker].claimedAt)
    && w.t.operations[w.workers[worker].key].circle == Some(c)
  }

  /** The state of a circle after any step. */
  lemma Moves(w: World, step: Step, c: Id)
    requires Crew(w) && c in w.t.circles && Legal(w, step)
    ensures c in Do(w, step).t.circles
    ensures var before := w.t.circles[c].adminState; var after := Do(w, step).t.circles[c].adminState;
      match step
      case CompleteOperation(worker) =>
        if !Touches(w, worker, c) then after == before
        else
          var kind := w.t.operations[w.workers[worker].key].kind;
          after == if kind == MUTE then DISABLED else if kind == DISMISS then DISMISSED else ACTIVE
      case FailOperation(worker) =>
        after == if Touches(w, worker, c) && w.workers[worker].loaded.value.attempts >= MAX_ATTEMPTS then SYNC_FAILED else before
      case RequestOperation(_, _, _, _, _, _, _) => after == before || after == DISABLING
      case RequestChange(_, _, _, kind, _, _) =>
        || after == before || after == DISABLING || after == RESTORING
        || (ChangesAlone(w, step, c) && after == if kind == MUTE then DISABLED else ACTIVE)
      case _ => after == before
    ensures ChangesAlone(w, step, c) && step.kind == MUTE && w.t.circles[c].adminState != DISABLED ==>
      (Do(w, step).t.circles[c].adminState == DISABLED <==> !w.t.circles[c].deleted)
  {
    match step
    case CompleteOperation(worker) => CompleteMoves(w, worker, c);
    case FailOperation(worker) => FailMoves(w, worker, c);
    case _ =>
  }

  lemma CompleteMoves(w: World, worker: WorkerId, c: Id)
    requires Crew(w) && c in w.t.circles
    ensures var t := Do(w, CompleteOperation(worker)).t;
      && c in t.circles
      && t.circles[c].adminState ==
         if !Touches(w, worker, c) then w.t.circles[c].adminState
         else
           var kind := w.t.operations[w.workers[worker].key].kind;
           if kind == MUTE then DISABLED else if kind == DISMISS then DISMISSED else ACTIVE
  {
  }

  lemma FailMoves(w: World, worker: WorkerId, c: Id)
    requires Crew(w) && c in w.t.circles
    ensures var t := Do(w, FailOperation(worker)).t;
      && c in t.circles
      && t.circles[c].adminState ==
         if Touches(w, worker, c) && w.workers[worker].loaded.value.attempts >= MAX_ATTEMPTS then SYNC_FAILED else w.t.circles[c].adminState
  {
  }

  // ----- Disabled is not for good

  /** As soon as a MUTE is completed its group is free, and a new request to restore the circle is queued. */
  lemma MutedIsRestorable(w: World, worker: WorkerId, c: Id, key: Key, actor: string, reason: string, now: int)
    requires Inv(w) && Settles(w, worker, c, MUTE) && c in w.t.circles && w.t.circles[c].groupID.Some?
    requires key !in w.t.operations
    ensures var w1 := Do(w, CompleteOperation(worker)); var w2 := Do(w1, RequestChange(key, actor, c, UNMUTE, reason, now));
      && !Busy(w1.t, w.t.circles[c].groupID.value)
      && w2.t.circles[c].adminState == RESTORING
      && key in w2.t.operations && w2.t.operations[key].kind == UNMUTE && w2.t.operations[key].status == PENDING
      && w2.t.operations[key].circle == Some(c)
  {
    var me := w.workers[worker];
    CompletionLeaves(w, worker, c, MUTE);
    assert Links(w.t, c, w.t.operations[me.key].group);
    assert Traced(w.t.circles[c]) && Driven(w.t, c, me.key);
  }

  // ----- Dissolution

  /** Dissolved by its owner: deleted without a trace of an administrator. */
  predicate OwnerDissolved(t: Tables, c: Id) {
    c in t.circles && t.circles[c].deleted && t.circles[c].adminState == ACTIVE
  }

  lemma DissolutionHolds(w: World, c: Id)
    requires c in w.t.circles && w.t.circles[c].adminState == ACTIVE
    ensures OwnerDissolved(Do(w, DissolveCircle(c)).t, c)
  {
  }

  lemma DissolvedStep(w: World, step: Step, c: Id)
    requires Inv(w) && Legal(w, step) && OwnerDissolved(w.t, c) && !(step.RequestOperation? && step.linked == Some(c))
    ensures OwnerDissolved(Do(w, step).t, c)
  {
    match step
    case CompleteOperation(_) => NotDriven(w, step, c);
    case FailOperation(_) => NotDriven(w, step, c);
    case _ =>
  }

  /** A circle dissolved by its owner is neither disabled nor restored by any request about it, unless an administrator dismisses it. */
  lemma {:induction false} DissolvedStaysDissolved(w: World, steps: seq<Step>, c: Id)
    requires Inv(w) && LegalRun(w, steps) && OwnerDissolved(w.t, c)
    requires forall i | 0 <= i < |steps| :: !(steps[i].RequestOperation? && steps[i].linked == Some(c))
    ensures OwnerDissolved(Run(w, steps).t, c)
    decreases |steps|
  {
    if steps != [] {
      DissolvedStep(w, steps[0], c);
      StepKeeps(w, steps[0]);
      DissolvedStaysDissolved(Do(w, steps[0]), steps[1..], c);
    }
  }
}
