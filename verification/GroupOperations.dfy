/**
 * Circles, the queue of administrative operations on their chat groups, and the workers that
 * carry the operations out. A circle is linked to the group with its `groupID`, or, for circles
 * that never got one, to the group with the circle's own id.
 */
module GroupOperations {
  import opened Common

  type Id = nat
  type Key = nat
  type WorkerId = nat

  datatype AdminState = ACTIVE | DISABLING | DISABLED | RESTORING | SYNC_FAILED | DISMISSED
  datatype Kind = MUTE | UNMUTE | DISMISS
  datatype Status = PENDING | PROCESSING | SUCCEEDED | FAILED

  datatype Circle = Circle(
    groupID: Option<Id>, deleted: bool, adminState: AdminState,
    disabledAt: Option<int>, disabledBy: Option<string>, disableReason: Option<string>)

  datatype Operation = Operation(
    group: Id, circle: Option<Id>, kind: Kind, requestedBy: string, reason: string,
    status: Status, attempts: nat, nextAttemptAt: int, claimedAt: Option<int>, createdAt: int)

  /** The audit row of a change made without a queued operation. */
  datatype LocalChange = LocalChange(actor: string, circle: Id, reason: string, kind: Kind)

  datatype Tables = Tables(circles: map<Id, Circle>, operations: map<Key, Operation>, local: map<Key, LocalChange>)

  const MAX_ATTEMPTS: nat := 5
  const STALE_CLAIM_MS := 300_000

  predicate Active(o: Operation) {
    o.status == PENDING || o.status == PROCESSING
  }

  predicate Busy(t: Tables, group: Id) {
    exists k | k in t.operations :: t.operations[k].group == group && Active(t.operations[k])
  }

  function GroupOf(id: Id, c: Circle): Id {
    if c.groupID.Some? then c.groupID.value else id
  }

  predicate Links(t: Tables, circle: Id, group: Id) {
    circle in t.circles && GroupOf(circle, t.circles[circle]) == group
  }

  predicate FullProvenance(c: Circle) {
    && c.disabledAt.Some?
    && c.disabledBy.Some? && |c.disabledBy.value| > 0
    && c.disableReason.Some? && |c.disableReason.value| > 0
  }

  /** What restoring asks for. */
  predicate HasProvenance(c: Circle) {
    (c.adminState == DISABLED || c.adminState == SYNC_FAILED) && FullProvenance(c)
  }

  function Disabled(c: Circle, state: AdminState, at: int, actor: string, reason: string): Circle {
    Circle(c.groupID, true, state, Some(at), Some(actor), Some(reason))
  }

  function Restored(c: Circle): Circle {
    Circle(c.groupID, false, ACTIVE, None, None, None)
  }

  function Queued(group: Id, circle: Option<Id>, kind: Kind, actor: string, reason: string, now: int): Operation {
    Operation(group, circle, kind, actor, reason, PENDING, 0, now, None, now)
  }

  /** `linked` is the circle the lookup found, if there is any. */
  function RequestGroup(t: Tables, key: Key, actor: string, group: Id, linked: Option<Id>, kind: Kind, reason: string, now: int): Tables
    requires linked.Some? ==> linked.value in t.circles
  {
    if key in t.operations || (linked.Some? && kind != DISMISS) || Busy(t, group) then t
    else Tables(
      if linked.Some?
      then t.circles[linked.value := Disabled(t.circles[linked.value], DISABLING, now, actor, reason)] else t.circles,
      t.operations[key := Queued(group, linked, kind, actor, reason, now)],
      t.local)
  }

  /** Disabling refuses deleted and DISABLED circles; restoring refuses what no administrator disabled. */
  predicate Admits(c: Circle, kind: Kind) {
    if kind == MUTE then !c.deleted && c.adminState != DISABLED
    else c.adminState != DISMISSED && c.deleted && HasProvenance(c)
  }

  function ChangeCircle(t: Tables, key: Key, actor: string, circle: Id, kind: Kind, reason: string, now: int): Tables {
    if circle !in t.circles then t
    else if t.circles[circle].groupID.None? then ChangeLocally(t, key, actor, circle, kind, reason, now)
    else
      var c := t.circles[circle];
      if key in t.operations || Busy(t, c.groupID.value) || !Admits(c, kind) then t
      else Tables(
        t.circles[circle := if kind == MUTE then Disabled(c, DISABLING, now, actor, reason) else c.(adminState := RESTORING)],
        t.operations[key := Queued(c.groupID.value, Some(circle), kind, actor, reason, now)],
        t.local)
  }

  /** Without a group there is nothing to synchronise: no operation is queued, or looked for. */
  function ChangeLocally(t: Tables, key: Key, actor: string, circle: Id, kind: Kind, reason: string, now: int): Tables
    requires circle in t.circles
  {
    var c := t.circles[circle];
    if key in t.local || !Admits(c, kind) then t
    else Tables(
      t.circles[circle := if kind == MUTE then Disabled(c, DISABLED, now, actor, reason) else Restored(c)],
      t.operations,
      t.local[key := LocalChange(actor, circle, reason, kind)])
  }

  /** The owner's own dissolution leaves the administrative state alone. */
  function Dissolve(t: Tables, circle: Id): Tables {
    if circle in t.circles && !t.circles[circle].deleted
    then t.(circles := t.circles[circle := t.circles[circle].(deleted := true)]) else t
  }

  // ----- Workers

  function Claim(o: Operation, now: int): Operation {
    o.(status := PROCESSING, attempts := o.attempts + 1, claimedAt := Some(now))
  }

  function Backoff(attempts: nat): nat {
    var delay := Power(attempts) * 1_000;
    if delay < STALE_CLAIM_MS then delay else STALE_CLAIM_MS
  }

  predicate ClaimStands(t: Tables, key: Key, claimedAt: int) {
    key in t.operations && t.operations[key].status == PROCESSING && t.operations[key].claimedAt == Some(claimedAt)
  }

  function Completed(c: Circle, kind: Kind): Circle {
    match kind
    case UNMUTE => Restored(c)
    case DISMISS => c.(deleted := true, adminState := DISMISSED)
    case MUTE => c.(adminState := DISABLED)
  }

  function SetCircle(t: Tables, circle: Option<Id>, c: Circle): Tables {
    if circle.Some? then t.(circles := t.circles[circle.value := c]) else t
  }

  /** `o` is the row as the worker loaded it. */
  function Complete(t: Tables, key: Key, o: Operation, claimedAt: int): Tables
    requires o.circle.Some? ==> o.circle.value in t.circles
  {
    if !ClaimStands(t, key, claimedAt) then t
    else
      var done := t.(operations := t.operations[key := t.operations[key].(status := SUCCEEDED, claimedAt := None)]);
      if o.circle.Some? then SetCircle(done, o.circle, Completed(t.circles[o.circle.value], o.kind)) else done
  }

  function Fail(t: Tables, key: Key, o: Operation, claimedAt: int): Tables
    requires o.circle.Some? ==> o.circle.value in t.circles
  {
    if !ClaimStands(t, key, claimedAt) then t
    else if o.attempts < MAX_ATTEMPTS then
      t.(operations := t.operations[key :=
        t.operations[key].(status := PENDING, nextAttemptAt := claimedAt + Backoff(o.attempts), claimedAt := None)])
    else
      var failed := t.(operations := t.operations[key := t.operations[key].(status := FAILED, claimedAt := None)]);
      if o.circle.Some?
      then SetCircle(failed, o.circle, t.circles[o.circle.value].(adminState := SYNC_FAILED)) else failed
  }

  predicate Stale(o: Operation, now: int) {
    o.status == PROCESSING && o.claimedAt.Some? && o.claimedAt.value < now - STALE_CLAIM_MS
  }

  function Recover(t: Tables, now: int): Tables {
    t.(operations := map k | k in t.operations ::
      if Stale(t.operations[k], now)
      then t.operations[k].(status := PENDING, claimedAt := None, nextAttemptAt := now) else t.operations[k])
  }

  // ----- Runs

  /** Between its claim and its load a worker knows only the key. */
  datatype Worker = Worker(key: Key, claimedAt: int, loaded: Option<Operation>)

  /** `effects` lists, for each operation, the workers that settled it. */
  datatype World = World(t: Tables, workers: map<WorkerId, Worker>, effects: map<Key, seq<WorkerId>>)

  datatype Step =
    | CreateCircle(circle: Id, groupID: Option<Id>)
    | DissolveCircle(circle: Id)
    | RequestOperation(key: Key, actor: string, group: Id, linked: Option<Id>, kind: Kind, reason: string, now: int)
    | RequestChange(key: Key, actor: string, circle: Id, kind: Kind, reason: string, now: int)
    | ClaimOperation(worker: WorkerId, key: Key, now: int)
    | LoadOperation(worker: WorkerId)
    | CompleteOperation(worker: WorkerId)
    | FailOperation(worker: WorkerId)
    | RecoverStaleClaims(now: int)
    | WorkerGone(worker: WorkerId)

  function Effects(w: World, key: Key): seq<WorkerId> {
    if key in w.effects then w.effects[key] else []
  }

  predicate Ready(w: World, worker: WorkerId) {
    && worker in w.workers && w.workers[worker].loaded.Some?
    && (w.workers[worker].loaded.value.circle.Some? ==> w.workers[worker].loaded.value.circle.value in w.t.circles)
  }

  /** The settling writes are counted where they win. */
  function Settle(w: World, worker: WorkerId, t: Tables): World
    requires worker in w.workers
  {
    var key := w.workers[worker].key;
    if key in t.operations && key in w.t.operations && Active(w.t.operations[key]) && !Active(t.operations[key])
    then w.(t := t, effects := w.effects[key := Effects(w, key) + [worker]]) else w.(t := t)
  }

  function Do(w: World, step: Step): World {
    match step
    case CreateCircle(circle, groupID) =>
      w.(t := w.t.(circles := w.t.circles[circle := Circle(groupID, false, ACTIVE, None, None, None)]))
    case DissolveCircle(circle) => w.(t := Dissolve(w.t, circle))
    case RequestOperation(key, actor, group, linked, kind, reason, now) =>
      if linked.Some? && linked.value !in w.t.circles then w
      else w.(t := RequestGroup(w.t, key, actor, group, linked, kind, reason, now))
    case RequestChange(key, actor, circle, kind, reason, now) =>
      w.(t := ChangeCircle(w.t, key, actor, circle, kind, reason, now))
    case ClaimOperation(worker, key, now) =>
      if key in w.t.operations && w.t.operations[key].status == PENDING
      then w.(t := w.t.(operations := w.t.operations[key := Claim(w.t.operations[key], now)]),
              workers := w.workers[worker := Worker(key, now, None)])
      else w
    case LoadOperation(worker) =>
      if worker in w.workers && w.workers[worker].key in w.t.operations
      then w.(workers := w.workers[worker := w.workers[worker].(loaded := Some(w.t.operations[w.workers[worker].key]))])
      else w
    case CompleteOperation(worker) =>
      if Ready(w, worker)
      then Settle(w, worker, Complete(w.t, w.workers[worker].key, w.workers[worker].loaded.value, w.workers[worker].claimedAt))
      else w
    case FailOperation(worker) =>
      if Ready(w, worker)
      then Settle(w, worker, Fail(w.t, w.workers[worker].key, w.workers[worker].loaded.value, w.workers[worker].claimedAt))
      else w
    case RecoverStaleClaims(now) => w.(t := Recover(w.t, now))
    case WorkerGone(worker) => w.(workers := w.workers - {worker})
  }

  /**
   * Ids are fresh and group ids unique; requests name an actor and a reason; the lookup finds a
   * linked circle if there is one; circle endpoints never ask to dismiss.
   */
  ghost predicate Legal(w: World, step: Step) {
    match step
    case CreateCircle(circle, groupID) =>
      circle !in w.t.circles && (groupID.Some? ==> forall c | c in w.t.circles :: w.t.circles[c].groupID != groupID)
    case RequestOperation(_, actor, group, linked, _, reason, _) =>
      && |actor| > 0 && |reason| > 0
      && (if linked.Some? then Links(w.t, linked.value, group) else forall c :: !Links(w.t, c, group))
    case RequestChange(_, actor, _, kind, reason, _) => |actor| > 0 && |reason| > 0 && kind != DISMISS
    case ClaimOperation(worker, _, _) => worker !in w.workers
    case _ => true
  }

  function Run(w: World, steps: seq<Step>): World
    decreases |steps|
  {
    if steps == [] then w else Run(Do(w, steps[0]), steps[1..])
  }

  ghost predicate LegalRun(w: World, steps: seq<Step>)
    decreases |steps|
  {
    steps == [] || (Legal(w, steps[0]) && LegalRun(Do(w, steps[0]), steps[1..]))
  }

  predicate Start(w: World) {
    w == World(Tables(map[], map[], map[]), map[], map[])
  }

  // ----- The inductive invariant

  /** A group has one operation in progress at most. */
  ghost predicate OneActive(t: Tables) {
    forall a, b | a in t.operations && b in t.operations && Active(t.operations[a]) && Active(t.operations[b])
      && t.operations[a].group == t.operations[b].group :: a == b
  }

  ghost predicate Linked(t: Tables) {
    forall k | k in t.operations && t.operations[k].circle.Some? :: Links(t, t.operations[k].circle.value, t.operations[k].group)
  }

  ghost predicate Driven(t: Tables, circle: Id, k: Key) {
    k in t.operations && Active(t.operations[k]) && t.operations[k].circle == Some(circle)
  }

  function StateDuring(kind: Kind): AdminState {
    if kind == UNMUTE then RESTORING else DISABLING
  }

  ghost predicate Drives(t: Tables) {
    forall k, c | Driven(t, c, k) :: c in t.circles && t.circles[c].adminState == StateDuring(t.operations[k].kind)
  }

  ghost predicate DrivenWhile(t: Tables) {
    forall c | c in t.circles && (t.circles[c].adminState == DISABLING || t.circles[c].adminState == RESTORING) ::
      exists k :: Driven(t, c, k)
  }

  /** An ACTIVE circle carries no trace of an administrator, any other is deleted and carries all of it. */
  predicate Traced(c: Circle) {
    if c.adminState == ACTIVE then c.disabledAt.None? && c.disabledBy.None? && c.disableReason.None?
    else c.deleted && FullProvenance(c)
  }

  ghost predicate AllTraced(t: Tables) {
    forall c | c in t.circles :: Traced(t.circles[c])
  }

  /** What never changes in the row of an operation. */
  predicate SameRequest(a: Operation, b: Operation) {
    a.group == b.group && a.circle == b.circle && a.kind == b.kind && a.requestedBy == b.requestedBy && a.reason == b.reason
  }

  ghost predicate Requests(t: Tables) {
    && (forall k | k in t.operations :: t.operations[k].status == PROCESSING <==> t.operations[k].claimedAt.Some?)
    && (forall k | k in t.operations ::
          |t.operations[k].requestedBy| > 0 && |t.operations[k].reason| > 0)
  }

  ghost predicate Crew(w: World) {
    forall i | i in w.workers ::
      && w.workers[i].key in w.t.operations
      && (w.workers[i].loaded.Some? ==> SameRequest(w.workers[i].loaded.value, w.t.operations[w.workers[i].key]))
  }

  ghost predicate Settled(w: World) {
    && (forall k | k in w.t.operations :: |Effects(w, k)| == if Active(w.t.operations[k]) then 0 else 1)
    && (forall k | k in w.effects :: k in w.t.operations)
  }

  ghost predicate Inv(w: World) {
    && OneActive(w.t) && Linked(w.t) && Drives(w.t) && DrivenWhile(w.t) && AllTraced(w.t)
    && Requests(w.t) && Crew(w) && Settled(w)
  }
}
