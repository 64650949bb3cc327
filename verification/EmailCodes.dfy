/**
 * The verification codes of one email address and one purpose. Creating is a transaction under
 * a lock; what follows a delivery, and verifying, are separate statements in any order. Hashes
 * are injective, so a code is compared by its secret.
 */
module EmailCodes {
  import opened Common

  type CodeId = nat
  type Secret = nat
  type VerifyId = nat

  const CODE_TTL_MS := 600_000
  const RESEND_COOLDOWN_MS := 60_000
  const MAX_ATTEMPTS: nat := 5
  const RETENTION_MS := 86_400_000

  datatype Code = Code(secret: Secret, createdAt: int, expiresAt: int, attempts: nat, consumedAt: Option<int>)
  type Rows = map<CodeId, Code>

  /** `orderBy: createdAt desc`: no row is newer. */
  ghost predicate NewestOf(rows: Rows, ids: set<CodeId>, id: CodeId) {
    id in ids && id in rows && forall k | k in ids && k in rows :: rows[k].createdAt <= rows[id].createdAt
  }

  function Usable(rows: Rows, now: int): set<CodeId> {
    set k | k in rows && rows[k].consumedAt.None? && rows[k].expiresAt > now
  }

  predicate CoolingDown(rows: Rows, now: int) {
    exists k | k in rows :: now - rows[k].createdAt < RESEND_COOLDOWN_MS
  }

  function NewCode(secret: Secret, now: int): Code {
    Code(secret, now, now + CODE_TTL_MS, 0, None)
  }

  function CreateRow(rows: Rows, id: CodeId, secret: Secret, now: int): Rows {
    if CoolingDown(rows, now) then rows else rows[id := NewCode(secret, now)]
  }

  /** After a delivery: only older rows, and only unconsumed ones, go. */
  function RemoveStale(rows: Rows, createdAt: int): Rows {
    map k | k in rows && !(rows[k].consumedAt.None? && rows[k].createdAt < createdAt) :: rows[k]
  }

  predicate Prunable(c: Code, now: int) {
    c.expiresAt < now - RETENTION_MS
  }

  function CountAttempt(rows: Rows, id: CodeId): Rows {
    if id in rows then rows[id := rows[id].(attempts := rows[id].attempts + 1)] else rows
  }

  predicate Consumable(rows: Rows, id: CodeId) {
    id in rows && rows[id].consumedAt.None?
  }

  // ----- Runs

  /** A verification that has read its record, then found it the newest, then compared it. */
  datatype Verification =
    | HasRead(record: CodeId, stored: Secret, given: Secret)
    | IsNewest(record: CodeId, stored: Secret, given: Secret)
    | Matched(record: CodeId)

  /**
   * `sends` holds the requests between creating a row and hearing of its delivery; `used` every
   * id handed out; `verified` how often each code was accepted.
   */
  datatype World = World(
    rows: Rows, now: int, sends: map<CodeId, int>, used: set<CodeId>,
    verifications: map<VerifyId, Verification>, verified: map<CodeId, nat>)

  datatype Step =
    | Tick(now: int)
    | Create(id: CodeId, secret: Secret)
    | Delivered(id: CodeId)
    | RollBack(id: CodeId)
    | SendLost(id: CodeId)
    | Read(v: VerifyId, given: Secret, record: Option<CodeId>)
    | CheckNewest(v: VerifyId, newest: Option<CodeId>)
    | Compare(v: VerifyId)
    | Consume(v: VerifyId)
    | Abandon(v: VerifyId)
    | Prune(ids: set<CodeId>)

  function Verified(w: World, id: CodeId): nat {
    if id in w.verified then w.verified[id] else 0
  }

  function Give(w: World, v: VerifyId, next: Option<Verification>): World {
    w.(verifications := if next.Some? then w.verifications[v := next.value] else w.verifications - {v})
  }

  function Do(w: World, step: Step): World {
    match step
    case Tick(now) => w.(now := now)
    case Create(id, secret) =>
      if CoolingDown(w.rows, w.now) then w
      else w.(rows := CreateRow(w.rows, id, secret, w.now), sends := w.sends[id := w.now], used := w.used + {id})
    case Delivered(id) =>
      if id in w.sends then w.(rows := RemoveStale(w.rows, w.sends[id]), sends := w.sends - {id}) else w
    case RollBack(id) => if id in w.sends then w.(rows := w.rows - {id}, sends := w.sends - {id}) else w
    case SendLost(id) => w.(sends := w.sends - {id})
    case Read(v, given, record) =>
      if record.Some? && record.value in w.rows && w.rows[record.value].attempts < MAX_ATTEMPTS
      then Give(w, v, Some(HasRead(record.value, w.rows[record.value].secret, given))) else w
    case CheckNewest(v, newest) =>
      if v in w.verifications && w.verifications[v].HasRead? then
        var me := w.verifications[v];
        Give(w, v, if newest.Some? && newest.value != me.record then None else Some(IsNewest(me.record, me.stored, me.given)))
      else w
    case Compare(v) =>
      if v in w.verifications && w.verifications[v].IsNewest? then
        var me := w.verifications[v];
        if me.stored == me.given then Give(w, v, Some(Matched(me.record)))
        else Give(w.(rows := CountAttempt(w.rows, me.record)), v, None)
      else w
    case Consume(v) =>
      if v in w.verifications && w.verifications[v].Matched? then
        var id := w.verifications[v].record;
        if Consumable(w.rows, id)
        then Give(w.(rows := w.rows[id := w.rows[id].(consumedAt := Some(w.now))], verified := w.verified[id := Verified(w, id) + 1]), v, None)
        else Give(w, v, None)
      else w
    case Abandon(v) => Give(w, v, None)
    case Prune(ids) => w.(rows := map k | k in w.rows && !(k in ids && Prunable(w.rows[k], w.now)) :: w.rows[k])
  }

  /** A batch of the sweep takes what expired first. */
  ghost predicate OldestFirst(w: World, ids: set<CodeId>) {
    forall k, j | k in ids && k in w.rows && j in w.rows && w.rows[j].expiresAt < w.rows[k].expiresAt && Prunable(w.rows[k], w.now)
      :: j in ids
  }

  /** The clock never runs back, ids are fresh, and queries return what they ask for. */
  ghost predicate Legal(w: World, step: Step) {
    match step
    case Tick(now) => w.now <= now
    case Create(id, _) => id !in w.used
    case Read(v, _, record) =>
      && v !in w.verifications
      && (if record.Some? then NewestOf(w.rows, Usable(w.rows, w.now), record.value) else Usable(w.rows, w.now) == {})
    case Prune(ids) => OldestFirst(w, ids)
    case CheckNewest(_, newest) => if newest.Some? then NewestOf(w.rows, w.rows.Keys, newest.value) else w.rows == map[]
    case _ => true
  }

  function Run(w: World, steps: seq<Step>): World
    decreases |steps|
  {
    if steps == [] then w else Run(Do(w, steps[0]), steps[1..])
  }

  ghost predicate LegalRun(w: World, steps: seq<Step>)
    decreases |steps|
  {
    steps == [] || (Legal(w, steps[0]) && LegalRun(Do(w, steps[0]), steps[1..]))
  }

  predicate Start(w: World) {
    w.rows == map[] && w.sends == map[] && w.used == {} && w.verifications == map[] && w.verified == map[]
  }

  // ----- The inductive invariant

  predicate Apart(a: int, b: int) {
    a + RESEND_COOLDOWN_MS <= b || b + RESEND_COOLDOWN_MS <= a
  }

  ghost predicate Spaced(w: World) {
    && (forall a, b | a in w.rows && b in w.rows && a != b :: Apart(w.rows[a].createdAt, w.rows[b].createdAt))
    && (forall a | a in w.rows :: w.rows[a].createdAt <= w.now && w.rows[a].expiresAt == w.rows[a].createdAt + CODE_TTL_MS)
  }

  /** Accepted once if it was consumed, and otherwise not yet. */
  ghost predicate Counted(w: World) {
    && (forall k | k in w.rows :: k in w.used && Verified(w, k) == if w.rows[k].consumedAt.Some? then 1 else 0)
    && (forall k | k in w.verified :: k in w.used && w.verified[k] <= 1)
    && (forall k | k in w.sends :: k in w.used)
  }

  /** What a verification remembers is what its row holds, if the row is still there. */
  ghost predicate Remembered(w: World) {
    forall v | v in w.verifications ::
      var me := w.verifications[v];
      me.record in w.used && (!me.Matched? && me.record in w.rows ==> w.rows[me.record].secret == me.stored)
  }

  ghost predicate Inv(w: World) {
    Spaced(w) && Counted(w) && Remembered(w)
  }
}
