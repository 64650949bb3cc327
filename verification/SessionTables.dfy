/**
 * The tables behind a login session, the decision the session verifier takes from
 * them, and one function per transaction of the refresh-token service.
 *
 * A token, its hash and the primary key of its row stand for one another: a session
 * is named by the id of its row.
 */
module SessionTables {
  import opened Common

  type UserId = nat
  type RowId = nat
  type FamilyId = nat

  datatype Audience = APP | ADMIN

  /** Scope and scope key of a generation row; the account scope has the single key `*`. */
  datatype ScopeKey =
    | AccountScope
    | AudienceScope(audience: Audience)
    | DeviceScope(deviceKey: string)
    | FamilyScope(family: FamilyId)

  datatype ScopeId = ScopeId(user: UserId, key: ScopeKey)

  datatype Generation = Generation(generation: nat, exempt: Option<FamilyId>, pending: bool)

  datatype Reason =
    | ROTATED | SINGLE_DEVICE_REPLACED | LOGOUT | LOGOUT_ALL
    | SESSION_REVOKED | OTHER_SESSIONS_REVOKED | TOKEN_FAMILY_REUSE

  datatype Row = Row(
    user: UserId,
    family: FamilyId,
    audience: Audience,
    deviceKey: Option<string>,
    accountGeneration: nat,
    audienceGeneration: nat,
    deviceGeneration: nat,
    familyGeneration: nat,
    expiredAt: int,
    accessTokenExpiresAt: Option<int>,
    revokedAt: Option<int>,
    reason: Option<Reason>)

  datatype Account = Account(active: bool, accessTokensRevokedAt: Option<int>)

  datatype Tables = Tables(
    rows: map<RowId, Row>,
    gens: map<ScopeId, Generation>,
    accounts: map<UserId, Account>)

  // ----- Which generation rows apply to a session

  /** A device key is looked up only when it is neither null nor the empty string. */
  predicate HasDevice(deviceKey: Option<string>) {
    deviceKey.Some? && deviceKey.value != ""
  }

  predicate Applies(r: Row, key: ScopeKey) {
    match key
    case AccountScope => true
    case AudienceScope(a) => a == r.audience
    case DeviceScope(d) => HasDevice(r.deviceKey) && d == r.deviceKey.value
    case FamilyScope(f) => f == r.family
  }

  function Snapshot(r: Row, key: ScopeKey): nat {
    match key
    case AccountScope => r.accountGeneration
    case AudienceScope(_) => r.audienceGeneration
    case DeviceScope(_) => r.deviceGeneration
    case FamilyScope(_) => r.familyGeneration
  }

  function CurrentGeneration(t: Tables, user: UserId, key: ScopeKey): nat {
    var id := ScopeId(user, key);
    if id in t.gens then t.gens[id].generation else 0
  }

  // ----- The verifier

  predicate StaleAt(t: Tables, r: Row, key: ScopeKey) {
    var id := ScopeId(r.user, key);
    && id in t.gens
    && t.gens[id].generation != Snapshot(r, key)
    && t.gens[id].exempt != Some(r.family)
  }

  predicate StaleBesides(t: Tables, r: Row, skipAccount: bool) {
    || (!skipAccount && StaleAt(t, r, AccountScope))
    || StaleAt(t, r, AudienceScope(r.audience))
    || (HasDevice(r.deviceKey) && StaleAt(t, r, DeviceScope(r.deviceKey.value)))
    || StaleAt(t, r, FamilyScope(r.family))
  }

  /** Some generation that applies to the session moved on without exempting its family. */
  predicate Stale(t: Tables, r: Row) {
    StaleBesides(t, r, false)
  }

  predicate RevokedInRow(r: Row) {
    r.revokedAt.Some? && r.reason != Some(ROTATED)
  }

  predicate RowRejected(t: Tables, r: Row) {
    RevokedInRow(r) || Stale(t, r)
  }

  datatype Verdict = Active | Revoked

  /** The claims of an access token that the verifier reads; `issuedAtMs` falls back to `iat`. */
  datatype Claims = Claims(sub: Option<UserId>, sid: Option<RowId>, issuedAtMs: Option<int>)

  function VerifyInDatabase(t: Tables, token: Claims): Verdict {
    if token.sub.None? || token.sub.value !in t.accounts || !t.accounts[token.sub.value].active then Revoked
    else
      var watermark := t.accounts[token.sub.value].accessTokensRevokedAt;
      if watermark.Some? && (token.issuedAtMs.None? || token.issuedAtMs.value <= watermark.value) then Revoked
      else if token.sid.None? || token.sid.value !in t.rows then Active
      else
        var session := t.rows[token.sid.value];
        if session.user != token.sub.value || RevokedInRow(session) then Revoked
        else if Stale(t, session) then Revoked
        else Active
  }

  // ----- Conditional writes

  /** The `where` clauses of the revocation statements. */
  datatype Filter =
    | AllRows(user: UserId)
    | AllButFamily(user: UserId, family: FamilyId)
    | InAudience(user: UserId, audience: Audience)
    | OnDevice(user: UserId, deviceKey: string)
    | InFamily(user: UserId, family: FamilyId)
    | InFamilyUnexpired(user: UserId, family: FamilyId, now: int)
    | OneRow(user: UserId, id: RowId)

  predicate Matches(f: Filter, id: RowId, r: Row) {
    && r.user == f.user
    && match f
       case AllRows(_) => true
       case AllButFamily(_, family) => r.family != family
       case InAudience(_, audience) => r.audience == audience
       case OnDevice(_, deviceKey) => r.deviceKey == Some(deviceKey)
       case InFamily(_, family) => r.family == family
       case InFamilyUnexpired(_, family, now) => r.family == family && r.expiredAt > now
       case OneRow(_, only) => id == only
  }

  /** `updateMany` on the rows that match and are not revoked yet. */
  function RevokeRows(rows: map<RowId, Row>, f: Filter, at: int, reason: Option<Reason>): map<RowId, Row> {
    map id | id in rows ::
      if rows[id].revokedAt.None? && Matches(f, id, rows[id])
      then rows[id].(revokedAt := Some(at), reason := reason)
      else rows[id]
  }

  /** The rows, revoked or not, that a filter selects. */
  function Selected(rows: map<RowId, Row>, f: Filter): set<RowId> {
    set id | id in rows && Matches(f, id, rows[id])
  }

  function Unrevoked(rows: map<RowId, Row>, f: Filter): set<RowId> {
    set id | id in rows && Matches(f, id, rows[id]) && rows[id].revokedAt.None?
  }

  // ----- Transactions

  function Advance(t: Tables, user: UserId, key: ScopeKey, exempt: Option<FamilyId>): Tables {
    t.(gens := t.gens[ScopeId(user, key) :=
      Generation(CurrentGeneration(t, user, key) + 1, exempt, true)])
  }

  /** The row `create` inserts: it snapshots the generations current at that moment. */
  function NewRow(t: Tables, user: UserId, deviceKey: Option<string>, audience: Audience,
                  family: FamilyId, expiredAt: int): Row {
    Row(user, family, audience, deviceKey,
        CurrentGeneration(t, user, AccountScope),
        CurrentGeneration(t, user, AudienceScope(audience)),
        if HasDevice(deviceKey) then CurrentGeneration(t, user, DeviceScope(deviceKey.value)) else 0,
        CurrentGeneration(t, user, FamilyScope(family)),
        expiredAt, None, None, None)
  }

  function Create(t: Tables, id: RowId, user: UserId, deviceKey: Option<string>, audience: Audience,
                  family: FamilyId, expiredAt: int): Tables {
    t.(rows := t.rows[id := NewRow(t, user, deviceKey, audience, family, expiredAt)])
  }

  /** Advance a scope, then revoke in their own rows the sessions that are still unrevoked. */
  function RevokeScope(t: Tables, user: UserId, key: ScopeKey, exempt: Option<FamilyId>,
                       f: Filter, at: int, reason: Reason): Tables {
    var advanced := Advance(t, user, key, exempt);
    advanced.(rows := RevokeRows(t.rows, f, at, Some(reason)))
  }

  predicate OwnRow(t: Tables, user: UserId, id: RowId) {
    id in t.rows && t.rows[id].user == user
  }

  /** The family that "all but this one" spares: that of the caller's session, if it still has a row. */
  function SparedFamily(t: Tables, user: UserId, current: Option<RowId>): Option<FamilyId> {
    if current.Some? && OwnRow(t, user, current.value) then Some(t.rows[current.value].family) else None
  }

  function OthersFilter(user: UserId, spared: Option<FamilyId>): Filter {
    if spared.Some? then AllButFamily(user, spared.value) else AllRows(user)
  }

  function RevokeAllBut(t: Tables, user: UserId, current: Option<RowId>, now: int): Tables {
    var spared := SparedFamily(t, user, current);
    RevokeScope(t, user, AccountScope, spared, OthersFilter(user, spared), now, OTHER_SESSIONS_REVOKED)
  }

  datatype Rotation = Invalid | Reuse | Rotated

  /** The branch `rotateLocked` takes for a presented token. */
  function RotationBranch(t: Tables, token: RowId, owner: UserId, audience: Audience, now: int): Rotation {
    if token !in t.rows then Invalid
    else
      var r := t.rows[token];
      if r.audience != audience || r.user != owner || r.expiredAt <= now then Invalid
      else if r.revokedAt.Some? then
        if r.reason.Some? && r.reason.value != ROTATED then Invalid else Reuse
      else Rotated
  }

  function Coalesce(a: Option<string>, b: Option<string>): Option<string> {
    if a.Some? then a else b
  }

  function Rotate(t: Tables, token: RowId, owner: UserId, deviceKey: Option<string>, audience: Audience,
                  id: RowId, now: int, expiredAt: int): Tables
  {
    match RotationBranch(t, token, owner, audience, now)
    case Invalid => t
    case Reuse =>
      var r := t.rows[token];
      RevokeScope(t, r.user, FamilyScope(r.family), None, InFamily(r.user, r.family), now, TOKEN_FAMILY_REUSE)
    case Rotated =>
      var r := t.rows[token];
      var retired := t.(rows := t.rows[token := r.(revokedAt := Some(now), reason := Some(ROTATED))]);
      Create(retired, id, r.user, Coalesce(r.deviceKey, deviceKey), r.audience, r.family, expiredAt)
  }

  function ReplaceForSingleDevice(t: Tables, user: UserId, deviceKey: Option<string>, audience: Audience,
                                  id: RowId, family: FamilyId, now: int, expiredAt: int): Tables {
    var cleared := RevokeScope(t, user, AudienceScope(audience), Some(family),
                               InAudience(user, audience), now, SINGLE_DEVICE_REPLACED);
    Create(cleared, id, user, deviceKey, audience, family, expiredAt)
  }

  function RevokeFamily(t: Tables, user: UserId, session: RowId, logout: bool, now: int): Tables {
    if !OwnRow(t, user, session) then t
    else
      var family := t.rows[session].family;
      var f := if logout then InFamilyUnexpired(user, family, now) else InFamily(user, family);
      RevokeScope(t, user, FamilyScope(family), None, f, now, if logout then LOGOUT else SESSION_REVOKED)
  }

  function RevokeDevice(t: Tables, user: UserId, deviceKey: string, now: int): Tables {
    RevokeScope(t, user, DeviceScope(deviceKey), None, OnDevice(user, deviceKey), now, SESSION_REVOKED)
  }

  /** Log out everywhere: rows still unrevoked, and every access token issued up to `now`. */
  function RevokeAll(t: Tables, user: UserId, reason: Option<Reason>, now: int): Tables {
    if user !in t.accounts then t
    else t.(rows := RevokeRows(t.rows, AllRows(user), now, reason),
            accounts := t.accounts[user := t.accounts[user].(accessTokensRevokedAt := Some(now))])
  }

  function RevokeSession(t: Tables, user: UserId, session: RowId, now: int): Tables {
    t.(rows := RevokeRows(t.rows, OneRow(user, session), now, Some(SESSION_REVOKED)))
  }

  /** An administrator bans or reinstates an account; a ban revokes rows without a reason. */
  function SetStatus(t: Tables, user: UserId, active: bool, now: int): Tables {
    if user !in t.accounts then t
    else
      var marked := t.(accounts := t.accounts[user := t.accounts[user].(active := active)]);
      if active then marked else marked.(rows := RevokeRows(t.rows, AllRows(user), now, None))
  }

  function RecordAccess(t: Tables, user: UserId, session: RowId, expiresAt: int): Tables {
    if OwnRow(t, user, session)
    then t.(rows := t.rows[session := t.rows[session].(accessTokenExpiresAt := Some(expiresAt))])
    else t
  }

  // ----- Pruning

  const REVOKED_RETENTION_MS := 30 * 24 * 60 * 60 * 1000

  /** `staleWhere` of the cleanup job: dead for refresh, and its access token is over. */
  predicate Prunable(r: Row, now: int) {
    && (r.expiredAt < now || (r.revokedAt.Some? && r.revokedAt.value < now - REVOKED_RETENTION_MS))
    && (if r.accessTokenExpiresAt.Some? then r.accessTokenExpiresAt.value <= now else r.expiredAt <= now)
  }

  /** `deleteMany` on a batch of candidates, the predicate checked again. */
  function Prune(t: Tables, ids: set<RowId>, now: int): Tables {
    t.(rows := map id | id in t.rows && !(id in ids && Prunable(t.rows[id], now)) :: t.rows[id])
  }
}
