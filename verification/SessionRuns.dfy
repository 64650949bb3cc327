/**
 * Runs of session operations beside the simple thing they implement: two explicit sets
 * of killed sessions and killed access tokens, filled eagerly by every revocation.
 *
 * The service never writes those sets. It bumps one counter per revocation, leaves
 * rotated ancestors alone and overwrites the exempt family each time; the theorems say
 * that the verifier nevertheless answers as the sets would.
 */
module SessionRuns {
  import opened Common
  import opened SessionTables

  /** An access token that was signed; `rowExpiresAt` is the refresh expiry of its row. */
  datatype Access = Access(
    user: UserId, session: RowId, issuedAt: int, expiresAt: int, rowExpiresAt: int, recorded: bool)

  datatype World = World(
    t: Tables,
    issued: set<Access>,
    killedRows: set<RowId>,
    killedTokens: set<Access>,
    usedIds: set<RowId>,
    usedFamilies: set<FamilyId>,
    now: int)

  datatype Op =
    | OpenSession(user: UserId, device: Option<string>, audience: Audience,
                  id: RowId, family: FamilyId, now: int, expiredAt: int)
    | OpenSingleDevice(user: UserId, device: Option<string>, audience: Audience,
                       id: RowId, family: FamilyId, now: int, expiredAt: int)
    | Refresh(token: RowId, owner: UserId, device: Option<string>, audience: Audience,
              id: RowId, now: int, expiredAt: int)
    | KillFamily(user: UserId, session: RowId, logout: bool, now: int)
    | KillDevice(user: UserId, deviceKey: string, now: int)
    | KillOthers(user: UserId, current: Option<RowId>, now: int)
    | KillAll(user: UserId, reason: Option<Reason>, now: int)
    | KillSession(user: UserId, session: RowId, now: int)
    | ChangeStatus(user: UserId, active: bool, now: int)
    | SignAccess(session: RowId, now: int, expiresAt: int, recorded: bool)
    | Sweep(ids: set<RowId>, now: int)

  function Apply(t: Tables, op: Op): Tables {
    match op
    case OpenSession(u, d, a, id, f, now, e) => Create(t, id, u, d, a, f, e)
    case OpenSingleDevice(u, d, a, id, f, now, e) => ReplaceForSingleDevice(t, u, d, a, id, f, now, e)
    case Refresh(token, owner, d, a, id, now, e) => Rotate(t, token, owner, d, a, id, now, e)
    case KillFamily(u, s, logout, now) => RevokeFamily(t, u, s, logout, now)
    case KillDevice(u, d, now) => RevokeDevice(t, u, d, now)
    case KillOthers(u, current, now) => RevokeAllBut(t, u, current, now)
    case KillAll(u, reason, now) => RevokeAll(t, u, reason, now)
    case KillSession(u, s, now) => RevokeSession(t, u, s, now)
    case ChangeStatus(u, active, now) => SetStatus(t, u, active, now)
    case SignAccess(s, now, e, recorded) =>
      if recorded && s in t.rows then RecordAccess(t, t.rows[s].user, s, e) else t
    case Sweep(ids, now) => Prune(t, ids, now)
  }

  /** What a revocation means: every row of its scope, rotated ancestors included. */
  function KilledBy(t: Tables, op: Op): set<RowId> {
    match op
    case OpenSingleDevice(u, _, a, _, _, _, _) => Selected(t.rows, InAudience(u, a))
    case Refresh(token, owner, _, a, _, now, _) =>
      if RotationBranch(t, token, owner, a, now) == Reuse
      then Selected(t.rows, InFamily(t.rows[token].user, t.rows[token].family)) else {}
    case KillFamily(u, s, _, _) =>
      if OwnRow(t, u, s) then Selected(t.rows, InFamily(u, t.rows[s].family)) else {}
    case KillDevice(u, d, _) => Selected(t.rows, OnDevice(u, d))
    case KillOthers(u, current, _) => Selected(t.rows, OthersFilter(u, SparedFamily(t, u, current)))
    case KillAll(u, _, _) => if u in t.accounts then Unrevoked(t.rows, AllRows(u)) else {}
    case KillSession(u, s, _) => Unrevoked(t.rows, OneRow(u, s))
    case ChangeStatus(u, active, _) =>
      if u in t.accounts && !active then Unrevoked(t.rows, AllRows(u)) else {}
    case _ => {}
  }

  function Signed(w: World, op: Op): set<Access> {
    if op.SignAccess? && op.session in w.t.rows then
      var r := w.t.rows[op.session];
      {Access(r.user, op.session, op.now, op.expiresAt, r.expiredAt, op.recorded)}
    else {}
  }

  function NewIds(op: Op): set<RowId> {
    if op.OpenSession? || op.OpenSingleDevice? || op.Refresh? then {op.id} else {}
  }

  function NewFamilies(op: Op): set<FamilyId> {
    if op.OpenSession? || op.OpenSingleDevice? then {op.family} else {}
  }

  function Do(w: World, op: Op): World {
    World(Apply(w.t, op),
          w.issued + Signed(w, op),
          w.killedRows + KilledBy(w.t, op),
          w.killedTokens + (if op.KillAll? && op.user in w.t.accounts then set a | a in w.issued && a.user == op.user else {}),
          w.usedIds + NewIds(op),
          w.usedFamilies + NewFamilies(op),
          op.now)
  }

  /** The family still has an unrevoked row: what the caller's own valid session shows. */
  predicate FamilyLive(t: Tables, family: FamilyId) {
    exists id :: id in t.rows && t.rows[id].family == family && t.rows[id].revokedAt.None?
  }

  predicate ExemptionGuard(t: Tables, op: Op) {
    (op.KillOthers? && SparedFamily(t, op.user, op.current).Some?) ==>
      FamilyLive(t, SparedFamily(t, op.user, op.current).value)
  }

  /** A rotated ancestor of the family is rejected by the account generation and nothing else. */
  predicate OnlyAccountRejects(t: Tables, family: FamilyId) {
    exists id :: id in t.rows && t.rows[id].family == family
              && !RevokedInRow(t.rows[id])
              && StaleAt(t, t.rows[id], AccountScope)
              && !StaleBesides(t, t.rows[id], true)
  }

  /** What sparing a family needs of it. */
  predicate SparesCleanly(t: Tables, op: Op) {
    (op.KillOthers? && SparedFamily(t, op.user, op.current).Some?) ==>
      !OnlyAccountRejects(t, SparedFamily(t, op.user, op.current).value)
  }

  /** Fresh identifiers, an advancing clock, existing accounts, one access token a row. */
  predicate Plausible(w: World, op: Op) {
    && op.now > w.now
    && NewIds(op) !! w.usedIds
    && NewFamilies(op) !! w.usedFamilies
    && (op.OpenSession? || op.OpenSingleDevice? ==> op.user in w.t.accounts)
    && (op.KillAll? ==> op.reason != Some(ROTATED))
    && (op.KillDevice? ==> op.deviceKey != "")
    && (op.SignAccess? ==> op.session in w.t.rows && forall a | a in w.issued :: a.session != op.session)
  }

  predicate Legal(w: World, op: Op) {
    Plausible(w, op) && SparesCleanly(w.t, op)
  }

  function Run(w: World, ops: seq<Op>): World
    decreases |ops|
  {
    if ops == [] then w else Run(Do(w, ops[0]), ops[1..])
  }

  predicate LegalRun(w: World, ops: seq<Op>)
    decreases |ops|
  {
    ops == [] || (Legal(w, ops[0]) && LegalRun(Do(w, ops[0]), ops[1..]))
  }

  predicate Start(w: World) {
    && w.t.rows == map[] && w.t.gens == map[]
    && w.issued == {} && w.killedRows == {} && w.killedTokens == {} && w.usedIds == {} && w.usedFamilies == {}
  }

  // ----- The inductive invariant

  predicate RowBounded(t: Tables, r: Row) {
    && r.accountGeneration <= CurrentGeneration(t, r.user, AccountScope)
    && r.audienceGeneration <= CurrentGeneration(t, r.user, AudienceScope(r.audience))
    && (HasDevice(r.deviceKey) ==>
          r.deviceGeneration <= CurrentGeneration(t, r.user, DeviceScope(r.deviceKey.value)))
    && r.familyGeneration <= CurrentGeneration(t, r.user, FamilyScope(r.family))
  }

  /** Snapshots never run ahead; device and family scopes never exempt; ids were handed out. */
  ghost predicate Sane(w: World) {
    && (forall id | id in w.t.rows ::
          && RowBounded(w.t, w.t.rows[id])
          && (w.t.rows[id].reason.Some? ==> w.t.rows[id].revokedAt.Some?)
          && id in w.usedIds && w.t.rows[id].family in w.usedFamilies && w.t.rows[id].user in w.t.accounts)
    && (forall s | s in w.t.gens && (s.key.DeviceScope? || s.key.FamilyScope?) :: w.t.gens[s].exempt.None?)
    && w.killedRows <= w.usedIds
  }

  predicate Kin(a: Row, b: Row) {
    a.family == b.family ==>
      && a.user == b.user && a.audience == b.audience
      && (a.revokedAt.None? && b.deviceKey.Some? ==> a.deviceKey == b.deviceKey)
  }

  ghost predicate Families(t: Tables) {
    forall a, b | a in t.rows && b in t.rows :: Kin(t.rows[a], t.rows[b])
  }

  /** Every token family has at most one unrevoked row. */
  ghost predicate OneLive(t: Tables) {
    forall a, b | a in t.rows && b in t.rows
      :: t.rows[a].family == t.rows[b].family && t.rows[a].revokedAt.None? && t.rows[b].revokedAt.None? ==> a == b
  }

  predicate FamilyStale(t: Tables, r: Row) {
    StaleAt(t, r, FamilyScope(r.family))
  }

  /** A family with an unrevoked row has no killed row, unless the family itself was revoked. */
  ghost predicate CleanLive(w: World) {
    forall a, b | a in w.t.rows && b in w.t.rows
      :: w.t.rows[a].family == w.t.rows[b].family && w.t.rows[a].revokedAt.None? && b in w.killedRows
         ==> FamilyStale(w.t, w.t.rows[a]) && FamilyStale(w.t, w.t.rows[b])
  }

  /** Logout leaves only expired rows unrevoked behind a family revocation. */
  ghost predicate DeadExpired(w: World) {
    forall a | a in w.t.rows
      :: w.t.rows[a].revokedAt.None? && FamilyStale(w.t, w.t.rows[a]) ==> w.t.rows[a].expiredAt <= w.now
  }

  /** The row-and-generation part of the verifier is membership in the killed set. */
  ghost predicate Refines(w: World) {
    forall id | id in w.t.rows :: id in w.killedRows <==> RowRejected(w.t, w.t.rows[id])
  }

  predicate Watermarked(t: Tables, a: Access) {
    && a.user in t.accounts
    && t.accounts[a.user].accessTokensRevokedAt.Some?
    && a.issuedAt <= t.accounts[a.user].accessTokensRevokedAt.value
  }

  /** Its expiry was recorded on the row, or the row outlives it as a refresh token. */
  predicate Retained(a: Access) {
    a.recorded || a.expiresAt <= a.rowExpiresAt
  }

  predicate AccessFits(w: World, a: Access) {
    && a.user in w.t.accounts && a.session in w.usedIds && a.issuedAt <= w.now
    && (a in w.killedTokens <==> Watermarked(w.t, a))
    && (a.session in w.t.rows ==>
          var r := w.t.rows[a.session];
          && r.user == a.user && r.expiredAt == a.rowExpiresAt
          && r.accessTokenExpiresAt == (if a.recorded then Some(a.expiresAt) else None))
    && (a.expiresAt > w.now && Retained(a) ==> a.session in w.t.rows)
  }

  ghost predicate Tokens(w: World) {
    && (forall a | a in w.issued :: AccessFits(w, a))
    && (forall a, b | a in w.issued && b in w.issued :: a.session == b.session ==> a == b)
    && w.killedTokens <= w.issued
    && (forall id | id in w.t.rows && w.t.rows[id].accessTokenExpiresAt.Some? :: exists a :: a in w.issued && a.session == id)
    && (forall u | u in w.t.accounts && w.t.accounts[u].accessTokensRevokedAt.Some?
          :: w.t.accounts[u].accessTokensRevokedAt.value <= w.now)
  }

  ghost predicate Inv(w: World) {
    Sane(w) && Families(w.t) && OneLive(w.t) && CleanLive(w) && DeadExpired(w) && Refines(w) && Tokens(w)
  }
}
