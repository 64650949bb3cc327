/**
 * Banning a user queues one revocation in an outbox with a row per user; the administrator's own
 * request and any number of processors announce it and delete the row by its revocation time.
 */
module RevocationOutbox {
  import opened Common

  type UserId = nat
  type WorkerId = nat

  const CLAIM_LEASE_MS := 55_000
  const MAX_BACKOFF_MS := 3_600_000

  datatype Status = ACTIVE | BANNED | DELETED
  datatype Job = Job(revokedAt: int, expiresAt: int, attempts: nat, nextAttemptAt: int)
  type Outbox = map<UserId, Job>

  function Backoff(attempts: nat): nat {
    var delay := 60_000 * Power(if attempts == 0 then 0 else attempts - 1);
    if delay < MAX_BACKOFF_MS then delay else MAX_BACKOFF_MS
  }

  predicate AllowedChange(from: Status, to: Status) {
    (from == ACTIVE && to != ACTIVE) || (from == BANNED && to != BANNED)
  }

  function Upsert(o: Outbox, user: UserId, at: int, expiresAt: int): Outbox {
    o[user := Job(at, expiresAt, 0, at)]
  }

  /** `deleteMany` by user and revocation time. */
  function DeleteJob(o: Outbox, user: UserId, revokedAt: int): Outbox {
    if user in o && o[user].revokedAt == revokedAt then o - {user} else o
  }

  predicate Due(j: Job, now: int) {
    j.nextAttemptAt <= now || j.expiresAt <= now
  }

  predicate StillAsRead(o: Outbox, user: UserId, j: Job) {
    user in o && o[user].revokedAt == j.revokedAt && o[user].nextAttemptAt == j.nextAttemptAt && o[user].attempts == j.attempts
  }

  function ClaimJob(o: Outbox, user: UserId, j: Job, until: int): Outbox {
    if StillAsRead(o, user, j) then o[user := o[user].(nextAttemptAt := until)] else o
  }

  function Reschedule(o: Outbox, user: UserId, j: Job, until: int, next: int): Outbox {
    if user in o && o[user].revokedAt == j.revokedAt && o[user].nextAttemptAt == until
    then o[user := o[user].(attempts := o[user].attempts + 1, nextAttemptAt := next)] else o
  }

  // ----- Runs

  datatype Stage = READ | CLAIMED | ANNOUNCED
  /** `now` is the time the worker started with. */
  datatype Worker = Worker(user: UserId, job: Job, now: int, stage: Stage)
  datatype Revocation = Revocation(user: UserId, at: int)

  /** `issued` holds every revocation ever queued, with its expiry; `latest` each user's last one. */
  datatype World = World(
    outbox: Outbox, status: map<UserId, Status>, now: int, workers: map<WorkerId, Worker>,
    announced: set<Revocation>, issued: map<Revocation, int>, latest: map<UserId, int>)

  datatype Step =
    | Tick(now: int)
    | UpdateStatus(user: UserId, to: Status, expiresAt: int)
    | DeleteOwnAccount(user: UserId)
    | CompleteNow(worker: WorkerId, user: UserId)
    | ReadDue(worker: WorkerId, user: UserId)
    | DropExpired(worker: WorkerId)
    | Claim(worker: WorkerId)
    | Announce(worker: WorkerId)
    | Remove(worker: WorkerId)
    | Retry(worker: WorkerId)
    | Gone(worker: WorkerId)

  function Leaves(w: World, worker: WorkerId, o: Outbox): World {
    w.(outbox := o, workers := w.workers - {worker})
  }

  function Do(w: World, step: Step): World {
    match step
    case Tick(now) => w.(now := now)
    case UpdateStatus(user, to, expiresAt) =>
      if user !in w.status || !AllowedChange(w.status[user], to) then w
      else if to == ACTIVE then w.(status := w.status[user := to], outbox := w.outbox - {user})
      else w.(
        status := w.status[user := to], outbox := Upsert(w.outbox, user, w.now, expiresAt),
        issued := w.issued[Revocation(user, w.now) := expiresAt], latest := w.latest[user := w.now])
    case DeleteOwnAccount(user) => if user in w.status then w.(status := w.status[user := DELETED]) else w
    case CompleteNow(worker, user) =>
      if user in w.outbox then w.(workers := w.workers[worker := Worker(user, w.outbox[user], w.now, CLAIMED)]) else w
    case ReadDue(worker, user) =>
      if user in w.outbox && Due(w.outbox[user], w.now)
      then w.(workers := w.workers[worker := Worker(user, w.outbox[user], w.now, READ)]) else w
    case DropExpired(worker) =>
      if worker in w.workers && w.workers[worker].stage == READ && w.workers[worker].job.expiresAt <= w.workers[worker].now
      then Leaves(w, worker, DeleteJob(w.outbox, w.workers[worker].user, w.workers[worker].job.revokedAt)) else w
    case Claim(worker) =>
      if worker in w.workers && w.workers[worker].stage == READ && w.workers[worker].job.expiresAt > w.workers[worker].now then
        var me := w.workers[worker];
        if StillAsRead(w.outbox, me.user, me.job)
        then w.(outbox := ClaimJob(w.outbox, me.user, me.job, me.now + CLAIM_LEASE_MS), workers := w.workers[worker := me.(stage := CLAIMED)])
        else Leaves(w, worker, w.outbox)
      else w
    case Announce(worker) =>
      if worker in w.workers && w.workers[worker].stage == CLAIMED then
        var me := w.workers[worker];
        w.(announced := w.announced + {Revocation(me.user, me.job.revokedAt)}, workers := w.workers[worker := me.(stage := ANNOUNCED)])
      else w
    case Remove(worker) =>
      if worker in w.workers && w.workers[worker].stage == ANNOUNCED
      then Leaves(w, worker, DeleteJob(w.outbox, w.workers[worker].user, w.workers[worker].job.revokedAt)) else w
    case Retry(worker) =>
      if worker in w.workers && w.workers[worker].stage != READ then
        var me := w.workers[worker];
        Leaves(w, worker, Reschedule(w.outbox, me.user, me.job, me.now + CLAIM_LEASE_MS, w.now + Backoff(me.job.attempts + 1)))
      else w
    case Gone(worker) => w.(workers := w.workers - {worker})
  }

  /** The clock does not run back, and two revocations of one user are at least a tick apart. */
  predicate Legal(w: World, step: Step) {
    match step
    case Tick(now) => w.now <= now
    case UpdateStatus(user, to, _) => to != ACTIVE && user in w.latest ==> w.latest[user] < w.now
    case CompleteNow(worker, _) => worker !in w.workers
    case ReadDue(worker, _) => worker !in w.workers
    case _ => true
  }

  function Run(w: World, steps: seq<Step>): World
    decreases |steps|
  {
    if steps == [] then w else Run(Do(w, steps[0]), steps[1..])
  }

  predicate LegalRun(w: World, steps: seq<Step>)
    decreases |steps|
  {
    steps == [] || (Legal(w, steps[0]) && LegalRun(Do(w, steps[0]), steps[1..]))
  }

  ghost predicate Start(w: World) {
    && w.outbox == map[] && w.workers == map[] && w.announced == {} && w.issued == map[] && w.latest == map[]
    && forall u | u in w.status :: w.status[u] != BANNED
  }

  // ----- The inductive invariant

  /** The row of a user is the user's last revocation. */
  ghost predicate RowIsLatest(w: World) {
    forall u | u in w.outbox ::
      && u in w.latest && w.latest[u] == w.outbox[u].revokedAt
      && Revocation(u, w.outbox[u].revokedAt) in w.issued
      && w.issued[Revocation(u, w.outbox[u].revokedAt)] == w.outbox[u].expiresAt
  }

  /** A worker carries a revocation that was issued, and says so only if it announced it. */
  ghost predicate Carries(w: World, me: Worker) {
    && Revocation(me.user, me.job.revokedAt) in w.issued
    && w.issued[Revocation(me.user, me.job.revokedAt)] == me.job.expiresAt
    && me.user in w.latest && me.job.revokedAt <= w.latest[me.user]
    && me.now <= w.now
    && (me.stage == ANNOUNCED ==> Revocation(me.user, me.job.revokedAt) in w.announced)
  }

  ghost predicate WorkersCarry(w: World) {
    forall i | i in w.workers :: Carries(w, w.workers[i])
  }

  ghost predicate LatestIssued(w: World) {
    && (forall u | u in w.latest :: Revocation(u, w.latest[u]) in w.issued && w.latest[u] <= w.now)
    && (forall r | r in w.issued :: r.user in w.latest && r.at <= w.latest[r.user])
  }

  /** Waiting in the outbox, announced, or past the life of any token it could concern. */
  ghost predicate Accounted(w: World, u: UserId) {
    u in w.latest &&
    (|| (u in w.outbox && w.outbox[u].revokedAt == w.latest[u])
     || Revocation(u, w.latest[u]) in w.announced
     || (Revocation(u, w.latest[u]) in w.issued && w.issued[Revocation(u, w.latest[u])] <= w.now))
  }

  ghost predicate BannedAccounted(w: World) {
    forall u | u in w.status && w.status[u] == BANNED :: Accounted(w, u)
  }

  ghost predicate ActiveUnqueued(w: World) {
    forall u | u in w.status && w.status[u] == ACTIVE :: u !in w.outbox
  }

  ghost predicate Inv(w: World) {
    RowIsLatest(w) && WorkersCarry(w) && LatestIssued(w) && BannedAccounted(w) && ActiveUnqueued(w)
  }

  lemma RowStep(w: World, step: Step)
    requires RowIsLatest(w) && Legal(w, step)
    ensures RowIsLatest(Do(w, step))
  {
  }

  lemma CarriesStays(w: World, step: Step, me: Worker)
    requires Carries(w, me) && Legal(w, step)
    ensures Carries(Do(w, step), me)
  {
  }

  lemma WorkerStep(w: World, step: Step)
    requires RowIsLatest(w) && WorkersCarry(w) && Legal(w, step)
    ensures WorkersCarry(Do(w, step))
  {
    forall i | i in Do(w, step).workers ensures Carries(Do(w, step), Do(w, step).workers[i]) {
      if i in w.workers {
        CarriesStays(w, step, w.workers[i]);
        WorkerMoves(w, step, i);
      }
    }
  }

  lemma WorkerMoves(w: World, step: Step, i: WorkerId)
    requires i in w.workers && i in Do(w, step).workers && Legal(w, step) && Carries(Do(w, step), w.workers[i])
    ensures Carries(Do(w, step), Do(w, step).workers[i])
  {
  }

  lemma LatestStep(w: World, step: Step)
    requires LatestIssued(w) && Legal(w, step)
    ensures LatestIssued(Do(w, step))
  {
  }

  lemma StepKeeps(w: World, step: Step)
    requires Inv(w) && Legal(w, step)
    ensures Inv(Do(w, step))
  {
    RowStep(w, step);
    WorkerStep(w, step);
    LatestStep(w, step);
    BannedStep(w, step);
    ActiveStep(w, step);
  }

  lemma BannedStep(w: World, step: Step)
    requires RowIsLatest(w) && WorkersCarry(w) && BannedAccounted(w) && Legal(w, step)
    ensures BannedAccounted(Do(w, step))
  {
  }

  lemma ActiveStep(w: World, step: Step)
    requires ActiveUnqueued(w) && Legal(w, step)
    ensures ActiveUnqueued(Do(w, step))
  {
  }

  lemma {:induction false} RunKeeps(w: World, steps: seq<Step>)
    requires Inv(w) && LegalRun(w, steps)
    ensures Inv(Run(w, steps))
    decreases |steps|
  {
    if steps != [] {
      StepKeeps(w, steps[0]);
      RunKeeps(Do(w, steps[0]), steps[1..]);
    }
  }

  // ----- Theorems

  /** While a user is banned, the last revocation is queued, was announced, or has expired. */
  lemma NoRevocationIsLost(start: World, steps: seq<Step>, u: UserId)
    requires Start(start) && LegalRun(start, steps)
    requires u in Run(start, steps).status && Run(start, steps).status[u] == BANNED
    ensures Accounted(Run(start, steps), u)
  {
    RunKeeps(start, steps);
  }

  /** A reactivated user has nothing queued. */
  lemma ReactivationEmptiesTheQueue(start: World, steps: seq<Step>, u: UserId)
    requires Start(start) && LegalRun(start, steps)
    requires u in Run(start, steps).status && Run(start, steps).status[u] == ACTIVE
    ensures u !in Run(start, steps).outbox
  {
    RunKeeps(start, steps);
  }

  /** A row leaves, or is replaced, for exactly one of the reasons that settle it. */
  lemma RowLeavesForAReason(start: World, steps: seq<Step>, step: Step, u: UserId)
    requires Start(start) && LegalRun(start, steps) && Legal(Run(start, steps), step)
    requires u in Run(start, steps).outbox
    requires var w' := Do(Run(start, steps), step);
      u !in w'.outbox || w'.outbox[u].revokedAt != Run(start, steps).outbox[u].revokedAt
    ensures var w := Run(start, steps); var j := w.outbox[u];
      || Revocation(u, j.revokedAt) in w.announced
      || j.expiresAt <= w.now
      || (step.UpdateStatus? && step.user == u && (step.to == ACTIVE || Do(w, step).outbox[u].revokedAt > j.revokedAt))
  {
    RunKeeps(start, steps);
    RowLeaves(Run(start, steps), step, u);
  }

  lemma RowLeaves(w: World, step: Step, u: UserId)
    requires RowIsLatest(w) && WorkersCarry(w) && Legal(w, step) && u in w.outbox
    requires var w' := Do(w, step); u !in w'.outbox || w'.outbox[u].revokedAt != w.outbox[u].revokedAt
    ensures var j := w.outbox[u];
      || Revocation(u, j.revokedAt) in w.announced
      || j.expiresAt <= w.now
      || (step.UpdateStatus? && step.user == u && (step.to == ACTIVE || Do(w, step).outbox[u].revokedAt > j.revokedAt))
  {
  }

  /** A worker that carries an older revocation leaves the row of a newer one as it is. */
  lemma SlowWorkerIsHarmless(w: World, step: Step, u: UserId)
    requires u in w.outbox && (step.DropExpired? || step.Claim? || step.Announce? || step.Remove? || step.Retry?)
    requires step.worker in w.workers
      && (w.workers[step.worker].user != u || w.workers[step.worker].job.revokedAt != w.outbox[u].revokedAt)
    ensures u in Do(w, step).outbox && Do(w, step).outbox[u] == w.outbox[u]
  {
  }

  /** Of the workers that read the same row, one claim wins: the others find it changed. */
  lemma OneClaimWins(w: World, a: WorkerId, b: WorkerId)
    requires a in w.workers && b in w.workers && a != b
    requires w.workers[a].stage == READ && w.workers[b].stage == READ
    requires w.workers[a].user == w.workers[b].user && w.workers[a].job == w.workers[b].job
    requires w.workers[a].job.nextAttemptAt <= w.workers[a].now < w.workers[a].job.expiresAt
    requires StillAsRead(w.outbox, w.workers[a].user, w.workers[a].job)
    ensures var w' := Do(Do(w, Claim(a)), Claim(b));
      && a in w'.workers && w'.workers[a].stage == CLAIMED
      && (b in w'.workers ==> w'.workers[b].stage == READ)
      && w'.outbox == Do(w, Claim(a)).outbox
  {
  }

  // ----- What a pass does to a row

  /** A minute, doubled with every attempt after the first, never more than an hour. */
  lemma {:induction false} BackoffDoubles(attempts: nat)
    ensures Backoff(0) == 60_000 && Backoff(1) == 60_000 && 60_000 <= Backoff(attempts) <= 3_600_000
    ensures attempts > 0 ==> Backoff(attempts + 1) == if 2 * Backoff(attempts) < 3_600_000 then 2 * Backoff(attempts) else 3_600_000
    decreases attempts
  {
    if attempts > 1 { BackoffDoubles(attempts - 1); }
  }

  /** A row is read when it is due or expired, by a worker that remembers it as it is. */
  lemma ReadsExactlyTheDue(w: World, i: WorkerId, u: UserId)
    requires i !in w.workers && u in w.outbox
    ensures var w' := Do(w, ReadDue(i, u)); var j := w.outbox[u];
      if j.nextAttemptAt <= w.now || j.expiresAt <= w.now
      then w' == w.(workers := w.workers[i := Worker(u, j, w.now, READ)]) else w' == w
  {
  }

  /** Left alone, a worker claims the row it read for 55 seconds, or drops it once it has expired. */
  lemma ClaimsAlone(w: World, i: WorkerId)
    requires i in w.workers && w.workers[i].stage == READ
    requires var me := w.workers[i]; me.user in w.outbox && w.outbox[me.user] == me.job
    ensures var me := w.workers[i];
      if me.job.expiresAt <= me.now then
        && Do(w, Claim(i)) == w
        && Do(w, DropExpired(i)) == w.(outbox := w.outbox - {me.user}, workers := w.workers - {i})
      else
        && Do(w, DropExpired(i)) == w
        && Do(w, Claim(i)) == w.(
             outbox := w.outbox[me.user := me.job.(nextAttemptAt := me.now + 55_000)],
             workers := w.workers[i := me.(stage := CLAIMED)])
  {
  }

  /** Left alone after its claim, a worker announces the revocation and deletes the row. */
  lemma DeliversAlone(w: World, i: WorkerId)
    requires i in w.workers && w.workers[i].stage == CLAIMED
    requires var me := w.workers[i]; me.user in w.outbox && w.outbox[me.user].revokedAt == me.job.revokedAt
    ensures var me := w.workers[i];
      Do(Do(w, Announce(i)), Remove(i)) == w.(
        outbox := w.outbox - {me.user}, workers := w.workers - {i}, announced := w.announced + {Revocation(me.user, me.job.revokedAt)})
  {
  }

  /** Left alone after a claim that did not get through, it counts the attempt, waits, and lets go. */
  lemma PutsOffAlone(w: World, i: WorkerId)
    requires i in w.workers && w.workers[i].stage != READ
    requires var me := w.workers[i];
      me.user in w.outbox && w.outbox[me.user] == me.job.(nextAttemptAt := me.now + 55_000)
    ensures var me := w.workers[i];
      Do(w, Retry(i)) == w.(
        outbox := w.outbox[me.user := me.job.(attempts := me.job.attempts + 1, nextAttemptAt := w.now + Backoff(me.job.attempts + 1))],
        workers := w.workers - {i})
  {
  }

  /** A worker whose row has changed in any way since it read it claims nothing and leaves. */
  lemma ChangedRowIsNotClaimed(w: World, i: WorkerId)
    requires i in w.workers && w.workers[i].stage == READ && w.workers[i].job.expiresAt > w.workers[i].now
    requires var me := w.workers[i];
      me.user !in w.outbox || w.outbox[me.user].revokedAt != me.job.revokedAt
      || w.outbox[me.user].nextAttemptAt != me.job.nextAttemptAt || w.outbox[me.user].attempts != me.job.attempts
    ensures Do(w, Claim(i)) == w.(workers := w.workers - {i})
  {
  }

  /** A worker that lost its claim puts nothing off. */
  lemma LostClaimPutsNothingOff(w: World, i: WorkerId)
    requires i in w.workers && w.workers[i].user in w.outbox
    requires w.outbox[w.workers[i].user].nextAttemptAt != w.workers[i].now + 55_000
    ensures Do(w, Retry(i)).outbox == w.outbox
  {
  }

  /** Only a worker that has read and not claimed drops a row, and only one that has announced deletes it. */
  lemma RowsAreRemovedInOrder(w: World, step: Step, u: UserId)
    requires u in w.outbox && u !in Do(w, step).outbox && !step.UpdateStatus?
    ensures (step.DropExpired? || step.Remove?) && step.worker in w.workers && w.workers[step.worker].user == u
    ensures step.DropExpired? ==> w.workers[step.worker].stage == READ
    ensures step.Remove? ==> w.workers[step.worker].stage == ANNOUNCED
  {
  }

  /** A worker takes its steps in order: it announces what it claimed, and only then deletes. */
  lemma WorkersGoInOrder(w: World, step: Step, i: WorkerId)
    requires Legal(w, step) && i in w.workers && i in Do(w, step).workers && Do(w, step).workers[i] != w.workers[i]
    ensures var me, me' := w.workers[i], Do(w, step).workers[i];
      && me' == me.(stage := me'.stage)
      && (|| (step == Claim(i) && me.stage == READ && me'.stage == CLAIMED)
          || (step == Announce(i) && me.stage == CLAIMED && me'.stage == ANNOUNCED))
  {
  }

  /** A revocation is announced only by a worker that claimed it. */
  lemma AnnouncedByItsHolder(w: World, step: Step, r: Revocation)
    requires r in Do(w, step).announced && r !in w.announced
    ensures step.Announce? && step.worker in w.workers && w.workers[step.worker].stage == CLAIMED
    ensures r == Revocation(w.workers[step.worker].user, w.workers[step.worker].job.revokedAt)
  {
  }

  /** A change of status by an administrator: which are made, and that a ban is queued and a reinstatement empties the queue. */
  lemma StatusChangesExactlyWhen(w: World, u: UserId, to: Status, expiresAt: int)
    requires u in w.status
    ensures var w' := Do(w, UpdateStatus(u, to, expiresAt));
      if (w.status[u] == ACTIVE && (to == BANNED || to == DELETED)) || (w.status[u] == BANNED && (to == ACTIVE || to == DELETED)) then
        && w'.status == w.status[u := to]
        && w'.outbox == (if to == ACTIVE then w.outbox - {u} else w.outbox[u := Job(w.now, expiresAt, 0, w.now)])
      else w' == w
  {
  }

  /** A user's own deletion, the clock, and a worker that dies touch no row. */
  lemma OthersTouchNoRow(w: World, step: Step)
    requires step.DeleteOwnAccount? || step.Tick? || step.Gone? || step.CompleteNow?
    ensures Do(w, step).outbox == w.outbox && Do(w, step).announced == w.announced
    ensures step.Tick? ==> Do(w, step).now == step.now
    ensures step.Gone? ==> step.worker !in Do(w, step).workers
    ensures step.DeleteOwnAccount? && step.user in w.status ==> Do(w, step).status == w.status[step.user := DELETED]
    ensures step.CompleteNow? && step.user in w.outbox ==>
      Do(w, step).workers == w.workers[step.worker := Worker(step.user, w.outbox[step.user], w.now, CLAIMED)]
  {
  }
}
