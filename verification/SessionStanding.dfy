/**
 * What a revocation and a change of an account's status do to access tokens, said of the tokens
 * alone: which of them are refused afterwards, and that no other changes its answer.
 */
module SessionStanding {
  import opened Common
  import opened SessionTables
  import opened SessionRuns
  import opened SessionRefinement
  import opened SessionTheorems

  // ----- The verdict, said of the rows

  /** A generation row of the user speaks against the session: it applies to it, moved on since, and does not exempt its family. */
  predicate SpeaksAgainst(t: Tables, r: Row, key: ScopeKey) {
    && ScopeId(r.user, key) in t.gens
    && t.gens[ScopeId(r.user, key)].exempt != Some(r.family)
    && match key
       case AccountScope => t.gens[ScopeId(r.user, key)].generation != r.accountGeneration
       case AudienceScope(audience) => audience == r.audience && t.gens[ScopeId(r.user, key)].generation != r.audienceGeneration
       case DeviceScope(device) =>
         device != "" && r.deviceKey == Some(device) && t.gens[ScopeId(r.user, key)].generation != r.deviceGeneration
       case FamilyScope(family) => family == r.family && t.gens[ScopeId(r.user, key)].generation != r.familyGeneration
  }

  /**
   * A token is refused exactly when its account is missing or inactive, or was logged out everywhere no earlier than the
   * token was issued, or its session is somebody else's, revoked for another reason than rotation, or spoken against.
   * A token that names no session, or one whose row is gone, is not refused for its session.
   */
  lemma RefusedExactlyWhen(t: Tables, claims: Claims)
    ensures VerifyInDatabase(t, claims) == Revoked <==>
      || claims.sub.None? || claims.sub.value !in t.accounts || !t.accounts[claims.sub.value].active
      || (&& t.accounts[claims.sub.value].accessTokensRevokedAt.Some?
          && (claims.issuedAtMs.None? || claims.issuedAtMs.value <= t.accounts[claims.sub.value].accessTokensRevokedAt.value))
      || (&& claims.sid.Some? && claims.sid.value in t.rows
          && var r := t.rows[claims.sid.value];
             || r.user != claims.sub.value
             || (r.revokedAt.Some? && r.reason != Some(ROTATED))
             || exists key :: SpeaksAgainst(t, r, key))
  {
    if claims.sid.Some? && claims.sid.value in t.rows { StaleIs(t, t.rows[claims.sid.value]); }
  }

  lemma StaleIs(t: Tables, r: Row)
    ensures Stale(t, r) <==> exists key :: SpeaksAgainst(t, r, key)
  {
    if Stale(t, r) {
      assert || SpeaksAgainst(t, r, AccountScope) || SpeaksAgainst(t, r, AudienceScope(r.audience))
             || (HasDevice(r.deviceKey) && SpeaksAgainst(t, r, DeviceScope(r.deviceKey.value))) || SpeaksAgainst(t, r, FamilyScope(r.family));
    }
  }

  // ----- A banned account

  predicate Inactive(t: Tables, user: UserId) {
    user !in t.accounts || !t.accounts[user].active
  }

  predicate Reinstates(op: Op, user: UserId) {
    op.ChangeStatus? && op.user == user && op.active
  }

  lemma InactiveStep(t: Tables, op: Op, user: UserId)
    requires Inactive(t, user) && !Reinstates(op, user)
    ensures Inactive(Apply(t, op), user)
  {
  }

  lemma {:induction false} InactiveRun(w: World, ops: seq<Op>, user: UserId)
    requires Inactive(w.t, user) && forall i | 0 <= i < |ops| :: !Reinstates(ops[i], user)
    ensures Inactive(Run(w, ops).t, user)
    decreases |ops|
  {
    if ops != [] {
      InactiveStep(w.t, ops[0], user);
      InactiveRun(Do(w, ops[0]), ops[1..], user);
    }
  }

  /** From a ban until a reinstatement nothing of the account verifies. */
  lemma BannedIsRefused(w: World, ops: seq<Op>, user: UserId, now: int, claims: Claims)
    requires claims.sub == Some(user) && forall i | 0 <= i < |ops| :: !Reinstates(ops[i], user)
    ensures VerifyInDatabase(Run(Do(w, ChangeStatus(user, false, now)), ops).t, claims) == Revoked
  {
    InactiveRun(Do(w, ChangeStatus(user, false, now)), ops, user);
  }

  /** Revoked in its row, for another reason than rotation, or gone. */
  predicate Dead(t: Tables, id: RowId) {
    id in t.rows ==> RevokedInRow(t.rows[id])
  }

  lemma DeadStep(w: World, op: Op, id: RowId)
    requires Dead(w.t, id) && id in w.usedIds && Plausible(w, op)
    ensures Dead(Do(w, op).t, id) && id in Do(w, op).usedIds
  {
  }

  lemma {:induction false} DeadRun(w: World, ops: seq<Op>, id: RowId)
    requires Dead(w.t, id) && id in w.usedIds && LegalRun(w, ops)
    ensures Dead(Run(w, ops).t, id)
    decreases |ops|
  {
    if ops != [] {
      DeadStep(w, ops[0], id);
      DeadRun(Do(w, ops[0]), ops[1..], id);
    }
  }

  /** The sessions a ban finds stay dead, reinstated or not: their rows neither rotate nor verify again. */
  lemma BannedSessionsStayDead(w: World, ops: seq<Op>, user: UserId, now: int, id: RowId)
    requires Sane(w) && id in w.t.rows && w.t.rows[id].user == user && w.t.rows[id].revokedAt.None?
    requires LegalRun(Do(w, ChangeStatus(user, false, now)), ops)
    ensures var t := Run(Do(w, ChangeStatus(user, false, now)), ops).t;
      id in t.rows ==>
        && (forall owner, audience, at :: RotationBranch(t, id, owner, audience, at) != Rotated)
        && (forall sub, issuedAt :: VerifyInDatabase(t, Claims(sub, Some(id), issuedAt)) == Revoked)
  {
    DeadRun(Do(w, ChangeStatus(user, false, now)), ops, id);
  }

  /** Reinstated, exactly the tokens outside the killed sets verify. */
  lemma ReinstatedByTheKilledSets(w: World, user: UserId, now: int, a: Access)
    requires Inv(w) && Legal(w, ChangeStatus(user, true, now))
    requires a in w.issued && a.user == user && a.expiresAt > now && Retained(a)
    ensures VerifyInDatabase(Do(w, ChangeStatus(user, true, now)).t, ClaimsOf(a)) == Active
            <==> a.session !in w.killedRows && a !in w.killedTokens
  {
    var w' := Do(w, ChangeStatus(user, true, now));
    StepKeeps(w, ChangeStatus(user, true, now));
    VerdictFromInv(w', a);
    assert AccessFits(w, a);
  }

  /** A change of status changes no answer about anybody else. */
  lemma OthersKeepTheirStanding(t: Tables, user: UserId, active: bool, now: int, claims: Claims)
    requires claims.sub != Some(user)
    ensures VerifyInDatabase(SetStatus(t, user, active, now), claims) == VerifyInDatabase(t, claims)
  {
  }

  // ----- What one operation refuses

  /** The sessions an operation is meant to end. */
  predicate Ends(t: Tables, op: Op, id: RowId)
    requires id in t.rows
  {
    var r := t.rows[id];
    match op
    case OpenSingleDevice(user, _, audience, _, _, _, _) => r.user == user && r.audience == audience
    case Refresh(token, owner, _, audience, _, now, _) =>
      // a rotated, unexpired token presented again
      && token in t.rows && t.rows[token].user == owner && t.rows[token].audience == audience && t.rows[token].expiredAt > now
      && t.rows[token].revokedAt.Some? && (t.rows[token].reason.None? || t.rows[token].reason == Some(ROTATED))
      && r.family == t.rows[token].family
    case KillFamily(user, session, _, _) => session in t.rows && t.rows[session].user == user && r.family == t.rows[session].family
    case KillDevice(user, deviceKey, _) => r.user == user && r.deviceKey == Some(deviceKey)
    case KillOthers(user, current, _) =>
      r.user == user && !(current.Some? && current.value in t.rows && t.rows[current.value].user == user && r.family == t.rows[current.value].family)
    case KillAll(user, _, _) => r.user == user
    case KillSession(user, session, _) => id == session && r.user == user && r.revokedAt.None?
    case ChangeStatus(user, active, _) => r.user == user && !active
    case _ => false
  }

  /** An operation refuses the tokens it is meant to end, and changes no other answer. */
  lemma RevocationIsExact(w: World, op: Op, a: Access)
    requires Inv(w) && Legal(w, op) && a in w.issued && a.expiresAt > op.now && Retained(a)
    requires a.user in w.t.accounts && w.t.accounts[a.user].active
    ensures a.session in w.t.rows
    ensures VerifyInDatabase(Do(w, op).t, ClaimsOf(a)) == Active
            <==> VerifyInDatabase(w.t, ClaimsOf(a)) == Active && !Ends(w.t, op, a.session)
  {
    assert AccessFits(w, a);
    StepKeeps(w, op);
    VerdictFromInv(w, a);
    VerdictFromInv(Do(w, op), a);
    AccountsAfter(w, op, a);
    KilledExactly(w, op, a);
  }

  lemma AccountsAfter(w: World, op: Op, a: Access)
    requires a.user in w.t.accounts && w.t.accounts[a.user].active && a in w.issued
    ensures a.user in Do(w, op).t.accounts
    ensures Do(w, op).t.accounts[a.user].active <==> !(op.ChangeStatus? && op.user == a.user && !op.active)
    ensures a in Do(w, op).killedTokens <==> a in w.killedTokens || (op.KillAll? && op.user == a.user)
  {
  }

  lemma KilledExactly(w: World, op: Op, a: Access)
    requires Families(w.t) && a.session in w.t.rows && w.t.rows[a.session].user == a.user && a.user in w.t.accounts
    ensures op.KillAll? ==> (Ends(w.t, op, a.session) <==> op.user == a.user)
    ensures op.ChangeStatus? ==> (Ends(w.t, op, a.session) <==> op.user == a.user && !op.active)
    ensures a.session in KilledBy(w.t, op) ==> Ends(w.t, op, a.session)
    ensures !op.KillAll? && !op.ChangeStatus? ==> (a.session in KilledBy(w.t, op) <==> Ends(w.t, op, a.session))
  {
    var r := w.t.rows[a.session];
    if op.KillFamily? && op.session in w.t.rows { assert Kin(r, w.t.rows[op.session]); }
    if op.Refresh? && op.token in w.t.rows { assert Kin(r, w.t.rows[op.token]); }
  }

  // ----- What an operation writes

  /** An unexpired, unrevoked token presented by its owner for its audience. */
  predicate Retires(t: Tables, op: Op, id: RowId)
    requires id in t.rows
  {
    && op.Refresh? && op.token == id && t.rows[id].user == op.owner && t.rows[id].audience == op.audience
    && t.rows[id].expiredAt > op.now && t.rows[id].revokedAt.None?
  }

  /** How one row is revoked, or kept, by an operation. */
  ghost predicate RevokedAsMeant(t: Tables, t': Tables, op: Op, id: RowId)
    requires id in t.rows && id in t'.rows
  {
    var r, r' := t.rows[id], t'.rows[id];
    && (r.revokedAt.Some? ==> r'.revokedAt == r.revokedAt && r'.reason == r.reason)
    && (r.revokedAt.None? ==>
          (r'.revokedAt.Some? <==>
            Retires(t, op, id) || (Ends(t, op, id) && (op.KillFamily? && op.logout ==> r.expiredAt > op.now))))
    && (r.revokedAt.None? && r'.revokedAt.Some? ==> r'.revokedAt == Some(op.now))
    && (r.revokedAt.None? && r'.revokedAt.None? ==> r'.reason == r.reason)
  }

  lemma RefreshRevokes(t: Tables, op: Op, id: RowId)
    requires op.Refresh? && id in t.rows && op.id !in t.rows && Families(t)
    ensures id in Apply(t, op).rows && RevokedAsMeant(t, Apply(t, op), op, id)
  {
    if op.token in t.rows { assert Kin(t.rows[id], t.rows[op.token]); }
  }

  lemma FamilyRevokes(t: Tables, op: Op, id: RowId)
    requires op.KillFamily? && id in t.rows && Families(t)
    ensures id in Apply(t, op).rows && RevokedAsMeant(t, Apply(t, op), op, id)
  {
    if op.session in t.rows { assert Kin(t.rows[id], t.rows[op.session]); }
  }

  lemma ScopeRevokes(t: Tables, op: Op, id: RowId)
    requires op.KillDevice? || op.KillOthers? || (op.OpenSingleDevice? && op.id !in t.rows)
    requires id in t.rows
    ensures id in Apply(t, op).rows && RevokedAsMeant(t, Apply(t, op), op, id)
  {
  }

  lemma AccountRevokes(t: Tables, op: Op, id: RowId)
    requires op.KillAll? || op.KillSession? || op.ChangeStatus?
    requires id in t.rows && t.rows[id].user in t.accounts
    ensures id in Apply(t, op).rows && RevokedAsMeant(t, Apply(t, op), op, id)
  {
  }

  lemma OthersRevokeNothing(t: Tables, op: Op, id: RowId)
    requires (op.OpenSession? && op.id !in t.rows) || op.SignAccess? || op.Sweep?
    requires id in t.rows && id in Apply(t, op).rows
    ensures RevokedAsMeant(t, Apply(t, op), op, id)
  {
  }

  lemma OperationRevokes(t: Tables, op: Op, id: RowId)
    requires Families(t) && id in t.rows && t.rows[id].user in t.accounts && NewIds(op) !! t.rows.Keys && id in Apply(t, op).rows
    ensures RevokedAsMeant(t, Apply(t, op), op, id)
  {
    match op
    case Refresh(_, _, _, _, _, _, _) => RefreshRevokes(t, op, id);
    case KillFamily(_, _, _, _) => FamilyRevokes(t, op, id);
    case OpenSession(_, _, _, _, _, _, _) => OthersRevokeNothing(t, op, id);
    case SignAccess(_, _, _, _) => OthersRevokeNothing(t, op, id);
    case Sweep(_, _) => OthersRevokeNothing(t, op, id);
    case KillAll(_, _, _) => AccountRevokes(t, op, id);
    case KillSession(_, _, _) => AccountRevokes(t, op, id);
    case ChangeStatus(_, _, _) => AccountRevokes(t, op, id);
    case _ => ScopeRevokes(t, op, id);
  }

  /** A session is revoked once, when it is ended or rotated, and keeps the time and the reason; a logout passes over what has expired. */
  lemma RevokedOnce(w: World, op: Op, id: RowId)
    requires Sane(w) && Families(w.t) && Plausible(w, op) && id in w.t.rows && id in Do(w, op).t.rows
    ensures RevokedAsMeant(w.t, Do(w, op).t, op, id)
  {
    assert w.t.rows[id].user in w.t.accounts;
    assert NewIds(op) !! w.t.rows.Keys;
    OperationRevokes(w.t, op, id);
  }

  /** The reason a session is revoked for. */
  lemma RevokedFor(w: World, op: Op, id: RowId)
    requires Plausible(w, op) && id in w.t.rows && id in Do(w, op).t.rows
    requires w.t.rows[id].revokedAt.None? && Do(w, op).t.rows[id].revokedAt.Some?
    ensures Do(w, op).t.rows[id].reason ==
      match op
      case OpenSingleDevice(_, _, _, _, _, _, _) => Some(SINGLE_DEVICE_REPLACED)
      case Refresh(token, _, _, _, _, _, _) => if id == token then Some(ROTATED) else Some(TOKEN_FAMILY_REUSE)
      case KillFamily(_, _, logout, _) => if logout then Some(LOGOUT) else Some(SESSION_REVOKED)
      case KillOthers(_, _, _) => Some(OTHER_SESSIONS_REVOKED)
      case KillAll(_, reason, _) => reason
      case ChangeStatus(_, _, _) => None
      case _ => Some(SESSION_REVOKED)
  {
  }

  /** Whose session it is, for which audience, family and device, and until when, never changes. */
  lemma SessionsKeepTheirIdentity(w: World, op: Op, id: RowId)
    requires Plausible(w, op) && id in w.t.rows && id in w.usedIds && id in Do(w, op).t.rows
    ensures var r := w.t.rows[id]; var r' := Do(w, op).t.rows[id];
      && r'.user == r.user && r'.family == r.family && r'.audience == r.audience && r'.deviceKey == r.deviceKey && r'.expiredAt == r.expiredAt
      && (r'.accessTokenExpiresAt == if op.SignAccess? && op.session == id && op.recorded then Some(op.expiresAt) else r.accessTokenExpiresAt)
  {
  }

  /** A session that is opened, or that a token rotates into, is the caller's and is not rejected. */
  lemma NewSessionIsLive(w: World, op: Op)
    requires Inv(w) && Legal(w, op)
    requires op.OpenSession? || op.OpenSingleDevice? || (op.Refresh? && op.token in w.t.rows && Retires(w.t, op, op.token))
    ensures var t := Do(w, op).t;
      && op.id in t.rows && t.rows[op.id].revokedAt.None? && !RowRejected(t, t.rows[op.id])
      && t.rows[op.id].audience == op.audience && t.rows[op.id].expiredAt == op.expiredAt
      && (op.Refresh? ==>
            && t.rows[op.id].user == op.owner && t.rows[op.id].family == w.t.rows[op.token].family
            && t.rows[op.id].deviceKey == if w.t.rows[op.token].deviceKey.Some? then w.t.rows[op.token].deviceKey else op.device)
      && (!op.Refresh? ==> t.rows[op.id].user == op.user && t.rows[op.id].family == op.family && t.rows[op.id].deviceKey == op.device)
  {
    StepKeeps(w, op);
    NewRowIsWritten(w, op);
    assert op.id !in w.t.rows && op.id !in w.killedRows;
    assert op.id !in Do(w, op).killedRows;
  }

  lemma NewRowIsWritten(w: World, op: Op)
    requires op.OpenSession? || op.OpenSingleDevice? || (op.Refresh? && op.token in w.t.rows && Retires(w.t, op, op.token))
    ensures var t := Do(w, op).t;
      && op.id in t.rows && t.rows[op.id].revokedAt.None?
      && t.rows[op.id].audience == op.audience && t.rows[op.id].expiredAt == op.expiredAt
      && (op.Refresh? ==>
            && t.rows[op.id].user == op.owner && t.rows[op.id].family == w.t.rows[op.token].family
            && t.rows[op.id].deviceKey == if w.t.rows[op.token].deviceKey.Some? then w.t.rows[op.token].deviceKey else op.device)
      && (!op.Refresh? ==> t.rows[op.id].user == op.user && t.rows[op.id].family == op.family && t.rows[op.id].deviceKey == op.device)
  {
  }

  /** A sweep takes exactly the candidates that can no longer be refreshed and whose access token is over. */
  lemma SweepTakesExactly(w: World, ids: set<RowId>, now: int)
    ensures var rows := Do(w, Sweep(ids, now)).t.rows;
      && (forall id | id in rows :: id in w.t.rows && rows[id] == w.t.rows[id])
      && (forall id | id in w.t.rows ::
            var r := w.t.rows[id];
            id !in rows <==>
              && id in ids
              && (r.expiredAt < now || (r.revokedAt.Some? && r.revokedAt.value < now - 30 * 86_400_000))
              && (if r.accessTokenExpiresAt.Some? then r.accessTokenExpiresAt.value <= now else r.expiredAt <= now))
  {
  }
}
