/** Every legal step keeps the invariant of SessionRuns, one kind of step at a time. */
module SessionRefinement {
  import opened Common
  import opened SessionTables
  import opened SessionRuns

  // ----- One scope revocation, for any scope

  predicate RejectedElsewhere(t: Tables, r: Row, key: ScopeKey) {
    RevokedInRow(r) || (key == AccountScope && StaleBesides(t, r, true))
  }

  /** The rows a scope revocation must reject, and why the others keep their verdict. */
  ghost predicate ScopeFits(w: World, user: UserId, key: ScopeKey, exempt: Option<FamilyId>, kill: Filter) {
    forall id | id in w.t.rows ::
      var r := w.t.rows[id];
      if Matches(kill, id, r) then r.user == user && Applies(r, key) && exempt != Some(r.family)
      else
        || r.user != user || !Applies(r, key)
        || (exempt == Some(r.family) && (id in w.killedRows ==> RejectedElsewhere(w.t, r, key)))
  }

  lemma ScopeKills(w: World, user: UserId, key: ScopeKey, exempt: Option<FamilyId>,
                   kill: Filter, write: Filter, at: int, reason: Reason)
    requires Sane(w) && Refines(w) && reason != ROTATED
    requires key.AudienceScope? ==> forall id | id in w.t.rows :: exempt != Some(w.t.rows[id].family)
    requires key.DeviceScope? || key.FamilyScope? ==> exempt.None?
    requires ScopeFits(w, user, key, exempt, kill)
    requires forall id | id in w.t.rows :: Matches(write, id, w.t.rows[id]) ==> Matches(kill, id, w.t.rows[id])
    ensures var t' := RevokeScope(w.t, user, key, exempt, write, at, reason);
            Refines(w.(t := t', killedRows := w.killedRows + Selected(w.t.rows, kill)))
  {
    var t' := RevokeScope(w.t, user, key, exempt, write, at, reason);
    var killed' := w.killedRows + Selected(w.t.rows, kill);
    forall id | id in t'.rows ensures id in killed' <==> RowRejected(t', t'.rows[id]) {
      if Matches(kill, id, w.t.rows[id]) {
        KilledRowIsStale(w.t, user, key, exempt, write, at, reason, id);
      } else {
        SparedRowKeepsVerdict(w.t, user, key, exempt, w.t.rows[id]);
        assert t'.rows[id] == w.t.rows[id] && t'.gens == Advance(w.t, user, key, exempt).gens;
      }
    }
  }

  lemma KilledRowIsStale(t: Tables, user: UserId, key: ScopeKey, exempt: Option<FamilyId>,
                         write: Filter, at: int, reason: Reason, id: RowId)
    requires id in t.rows && RowBounded(t, t.rows[id])
    requires var r := t.rows[id]; r.user == user && Applies(r, key) && exempt != Some(r.family)
    ensures var t' := RevokeScope(t, user, key, exempt, write, at, reason); RowRejected(t', t'.rows[id])
  {
    var t' := RevokeScope(t, user, key, exempt, write, at, reason);
    assert StaleAt(t', t'.rows[id], key);
  }

  lemma SparedRowKeepsVerdict(t: Tables, user: UserId, key: ScopeKey, exempt: Option<FamilyId>, r: Row)
    requires key.AudienceScope? ==> exempt != Some(r.family)
    requires key.DeviceScope? || key.FamilyScope? ==> exempt.None?
    requires r.user == user && Applies(r, key) ==> exempt == Some(r.family) && (RowRejected(t, r) ==> RejectedElsewhere(t, r, key))
    ensures RowRejected(Advance(t, user, key, exempt), r) <==> RowRejected(t, r)
  {
  }

  // ----- Steps that only revoke: rows keep everything but their revocation

  predicate Revised(r: Row, r': Row) {
    r' == r || (r.revokedAt.None? && r'.revokedAt.Some? && r' == r.(revokedAt := r'.revokedAt, reason := r'.reason))
  }

  ghost predicate Revision(t: Tables, t': Tables) {
    && t'.rows.Keys == t.rows.Keys
    && (forall id | id in t.rows :: Revised(t.rows[id], t'.rows[id]))
    && (forall s | s in t.gens :: s in t'.gens && t.gens[s].generation <= t'.gens[s].generation)
    && (forall s | s in t'.gens && (s.key.DeviceScope? || s.key.FamilyScope?) :: t'.gens[s].exempt.None?)
    && t'.accounts.Keys == t.accounts.Keys
  }

  lemma RevisionSane(w: World, w': World)
    requires Sane(w) && Revision(w.t, w'.t)
    requires w'.usedIds == w.usedIds && w'.usedFamilies == w.usedFamilies && w'.killedRows <= w.usedIds
    ensures Sane(w')
  {
    forall id | id in w'.t.rows
      ensures RowBounded(w'.t, w'.t.rows[id]) && (w'.t.rows[id].reason.Some? ==> w'.t.rows[id].revokedAt.Some?)
    {
      assert Revised(w.t.rows[id], w'.t.rows[id]);
    }
  }

  lemma RevisionFamilies(t: Tables, t': Tables)
    requires Families(t) && OneLive(t) && Revision(t, t')
    ensures Families(t') && OneLive(t')
  {
    forall a, b | a in t'.rows && b in t'.rows
      ensures Kin(t'.rows[a], t'.rows[b])
      ensures t'.rows[a].family == t'.rows[b].family && t'.rows[a].revokedAt.None? && t'.rows[b].revokedAt.None? ==> a == b
    {
      assert Revised(t.rows[a], t'.rows[a]) && Revised(t.rows[b], t'.rows[b]) && Kin(t.rows[a], t.rows[b]);
    }
  }

  lemma RevisionTokens(w: World, w': World)
    requires Tokens(w) && Revision(w.t, w'.t)
    requires w'.issued == w.issued && w'.killedTokens == w.killedTokens && w'.usedIds == w.usedIds && w.now <= w'.now
    requires forall u | u in w.t.accounts :: w'.t.accounts[u].accessTokensRevokedAt == w.t.accounts[u].accessTokensRevokedAt
    ensures Tokens(w')
  {
  }

  lemma FamilyStaleStays(w: World, t': Tables, id: RowId)
    requires Sane(w) && Revision(w.t, t') && id in w.t.rows && FamilyStale(w.t, w.t.rows[id])
    ensures FamilyStale(t', t'.rows[id])
  {
  }

  /** New kills only reach families without an unrevoked row, or revoke the family itself. */
  lemma RevisionClean(w: World, w': World, killed: set<RowId>)
    requires Sane(w) && CleanLive(w) && Revision(w.t, w'.t) && w'.killedRows == w.killedRows + killed
    requires forall a, b | a in w'.t.rows && b in killed && b in w'.t.rows ::
        w'.t.rows[a].family == w'.t.rows[b].family && w'.t.rows[a].revokedAt.None?
        ==> FamilyStale(w'.t, w'.t.rows[a]) && FamilyStale(w'.t, w'.t.rows[b])
    ensures CleanLive(w')
  {
    forall a, b | a in w'.t.rows && b in w'.t.rows && w'.t.rows[a].family == w'.t.rows[b].family
                  && w'.t.rows[a].revokedAt.None? && b in w'.killedRows
      ensures FamilyStale(w'.t, w'.t.rows[a]) && FamilyStale(w'.t, w'.t.rows[b])
    {
      if b !in killed {
        assert Revised(w.t.rows[a], w'.t.rows[a]) && Revised(w.t.rows[b], w'.t.rows[b]);
        FamilyStaleStays(w, w'.t, a);
        FamilyStaleStays(w, w'.t, b);
      }
    }
  }

  lemma RevisionDead(w: World, w': World)
    requires DeadExpired(w) && Revision(w.t, w'.t) && w.now <= w'.now
    requires forall a | a in w'.t.rows && w'.t.rows[a].revokedAt.None? && FamilyStale(w'.t, w'.t.rows[a]) ::
        FamilyStale(w.t, w.t.rows[a]) || w'.t.rows[a].expiredAt <= w'.now
    ensures DeadExpired(w')
  {
  }

  /** A scope revocation is a revision of the tables. */
  lemma ScopeRevises(w: World, user: UserId, key: ScopeKey, exempt: Option<FamilyId>, f: Filter, at: int, reason: Reason)
    requires Sane(w) && (key.DeviceScope? || key.FamilyScope? ==> exempt.None?)
    ensures Revision(w.t, RevokeScope(w.t, user, key, exempt, f, at, reason))
  {
  }

  /** How the rows killed, the rows written and the scope advanced belong together. */
  ghost predicate Scoped(w: World, user: UserId, key: ScopeKey, exempt: Option<FamilyId>, kill: Filter, write: Filter, now: int) {
    && (key.AudienceScope? ==> forall id | id in w.t.rows :: exempt != Some(w.t.rows[id].family))
    && (key.DeviceScope? || key.FamilyScope? ==> exempt.None?)
    && ScopeFits(w, user, key, exempt, kill)
    && (forall id | id in w.t.rows :: Matches(write, id, w.t.rows[id]) ==> Matches(kill, id, w.t.rows[id]))
    // the write revokes what it may of the rows killed, and a family scope may leave expired rows
    && (forall a, b | a in w.t.rows && b in w.t.rows && Matches(kill, b, w.t.rows[b])
                 && w.t.rows[a].family == w.t.rows[b].family && w.t.rows[a].revokedAt.None? ::
        Matches(write, a, w.t.rows[a]) || (key == FamilyScope(w.t.rows[a].family) && w.t.rows[a].expiredAt <= now))
    && (key.FamilyScope? ==> forall a | a in w.t.rows && w.t.rows[a].user == user && w.t.rows[a].family == key.family ::
        Matches(kill, a, w.t.rows[a]))
  }

  /** Every scope revocation that fits its rows keeps the invariant. */
  lemma ScopeKeeps(w: World, user: UserId, key: ScopeKey, exempt: Option<FamilyId>,
                   kill: Filter, write: Filter, now: int, reason: Reason) returns (w': World)
    requires Inv(w) && reason != ROTATED && w.now <= now
    requires Scoped(w, user, key, exempt, kill, write, now)
    ensures w' == w.(t := RevokeScope(w.t, user, key, exempt, write, now, reason),
                     killedRows := w.killedRows + Selected(w.t.rows, kill), now := now)
    ensures Inv(w')
  {
    var killed := Selected(w.t.rows, kill);
    w' := w.(t := RevokeScope(w.t, user, key, exempt, write, now, reason), killedRows := w.killedRows + killed, now := now);
    ScopeRevises(w, user, key, exempt, write, now, reason);
    ScopeKills(w, user, key, exempt, kill, write, now, reason);
    RevisionSane(w, w');
    RevisionFamilies(w.t, w'.t);
    RevisionTokens(w, w');
    ScopeClean(w, w', user, key, exempt, kill, write, now, reason);
    RevisionClean(w, w', killed);
    ScopeDead(w, w', user, key, exempt, kill, write, now, reason);
    RevisionDead(w, w');
  }

  lemma ScopeClean(w: World, w': World, user: UserId, key: ScopeKey, exempt: Option<FamilyId>,
                   kill: Filter, write: Filter, now: int, reason: Reason)
    requires Sane(w) && Families(w.t) && Scoped(w, user, key, exempt, kill, write, now)
    requires w'.t == RevokeScope(w.t, user, key, exempt, write, now, reason)
    ensures forall a, b | a in w'.t.rows && b in Selected(w.t.rows, kill) && b in w'.t.rows ::
        w'.t.rows[a].family == w'.t.rows[b].family && w'.t.rows[a].revokedAt.None?
        ==> FamilyStale(w'.t, w'.t.rows[a]) && FamilyStale(w'.t, w'.t.rows[b])
  {
  }

  lemma ScopeDead(w: World, w': World, user: UserId, key: ScopeKey, exempt: Option<FamilyId>,
                  kill: Filter, write: Filter, now: int, reason: Reason)
    requires w'.t == RevokeScope(w.t, user, key, exempt, write, now, reason) && w'.now == now
    requires Scoped(w, user, key, exempt, kill, write, now)
    ensures forall a | a in w'.t.rows && w'.t.rows[a].revokedAt.None? && FamilyStale(w'.t, w'.t.rows[a]) ::
        FamilyStale(w.t, w.t.rows[a]) || w'.t.rows[a].expiredAt <= w'.now
  {
  }

  lemma OthersScoped(w: World, op: Op)
    requires Families(w.t) && Refines(w) && SparesCleanly(w.t, op) && op.KillOthers?
    ensures var spared := SparedFamily(w.t, op.user, op.current);
            var f := OthersFilter(op.user, spared);
            Scoped(w, op.user, AccountScope, spared, f, f, op.now)
  {
  }

  lemma KillOthersKeeps(w: World, op: Op)
    requires Inv(w) && Legal(w, op) && op.KillOthers?
    ensures Inv(Do(w, op))
  {
    OthersScoped(w, op);
    OthersIs(w, op);
    var spared := SparedFamily(w.t, op.user, op.current);
    var f := OthersFilter(op.user, spared);
    var _ := ScopeKeeps(w, op.user, AccountScope, spared, f, f, op.now, OTHER_SESSIONS_REVOKED);
  }

  lemma OthersIs(w: World, op: Op)
    requires op.KillOthers?
    ensures var spared := SparedFamily(w.t, op.user, op.current);
            var f := OthersFilter(op.user, spared);
            Do(w, op) == w.(t := RevokeScope(w.t, op.user, AccountScope, spared, f, op.now, OTHER_SESSIONS_REVOKED),
                            killedRows := w.killedRows + Selected(w.t.rows, f), now := op.now)
  {
  }

  lemma FamilyScoped(w: World, user: UserId, family: FamilyId, write: Filter, now: int)
    requires Families(w.t)
    requires write == InFamily(user, family) || write == InFamilyUnexpired(user, family, now)
    ensures Scoped(w, user, FamilyScope(family), None, InFamily(user, family), write, now)
  {
  }

  lemma KillDeviceKeeps(w: World, op: Op)
    requires Inv(w) && Plausible(w, op) && op.KillDevice?
    ensures Inv(Do(w, op))
  {
    var f := OnDevice(op.user, op.deviceKey);
    DeviceScoped(w, op.user, op.deviceKey, op.now);
    var w' := ScopeKeeps(w, op.user, DeviceScope(op.deviceKey), None, f, f, op.now, SESSION_REVOKED);
    KillDeviceIs(w, op);
  }

  lemma KillDeviceIs(w: World, op: Op)
    requires op.KillDevice?
    ensures var f := OnDevice(op.user, op.deviceKey);
            Do(w, op) == w.(t := RevokeScope(w.t, op.user, DeviceScope(op.deviceKey), None, f, op.now, SESSION_REVOKED),
                            killedRows := w.killedRows + Selected(w.t.rows, f), now := op.now)
  {
  }

  lemma DeviceScoped(w: World, user: UserId, deviceKey: string, now: int)
    requires Families(w.t) && deviceKey != ""
    ensures Scoped(w, user, DeviceScope(deviceKey), None, OnDevice(user, deviceKey), OnDevice(user, deviceKey), now)
  {
  }

  /** Revocations that touch unrevoked rows only: log out everywhere, one session, a ban. */
  lemma RowsOnlyKeeps(w: World, t': Tables, f: Filter, at: int, reason: Option<Reason>, w': World)
    requires Inv(w) && reason != Some(ROTATED) && w.now <= w'.now
    requires t'.rows == RevokeRows(w.t.rows, f, at, reason) && t'.gens == w.t.gens && t'.accounts.Keys == w.t.accounts.Keys
    requires f.AllRows? || f.OneRow?
    requires w'.t == t' && w'.killedRows == w.killedRows + Unrevoked(w.t.rows, f)
    requires w'.issued == w.issued && w'.usedIds == w.usedIds && w'.usedFamilies == w.usedFamilies
    ensures Revision(w.t, t') && Sane(w') && Families(t') && OneLive(t') && CleanLive(w') && DeadExpired(w') && Refines(w')
  {
    RowsOnlyRevises(w, t', f, at, reason);
    var killed := Unrevoked(w.t.rows, f);
    RevisionSane(w, w');
    RevisionFamilies(w.t, t');
    RowsOnlyApart(w.t, t', f, at, reason);
    RevisionClean(w, w', killed);
    RevisionDead(w, w');
    RowsOnlyRefines(w, t', f, at, reason, w');
  }

  lemma RowsOnlyRevises(w: World, t': Tables, f: Filter, at: int, reason: Option<Reason>)
    requires Sane(w)
    requires t'.rows == RevokeRows(w.t.rows, f, at, reason) && t'.gens == w.t.gens && t'.accounts.Keys == w.t.accounts.Keys
    ensures Revision(w.t, t')
    ensures forall a | a in t'.rows :: FamilyStale(t', t'.rows[a]) ==> FamilyStale(w.t, w.t.rows[a])
  {
  }

  lemma RowsOnlyApart(t: Tables, t': Tables, f: Filter, at: int, reason: Option<Reason>)
    requires Families(t) && OneLive(t) && t'.rows == RevokeRows(t.rows, f, at, reason) && (f.AllRows? || f.OneRow?)
    ensures forall a, b | a in t'.rows && b in Unrevoked(t.rows, f) && b in t'.rows ::
        !(t'.rows[a].family == t'.rows[b].family && t'.rows[a].revokedAt.None?)
  {
  }

  lemma RowsOnlyRefines(w: World, t': Tables, f: Filter, at: int, reason: Option<Reason>, w': World)
    requires Refines(w) && reason != Some(ROTATED)
    requires t'.rows == RevokeRows(w.t.rows, f, at, reason) && t'.gens == w.t.gens
    requires w'.t == t' && w'.killedRows == w.killedRows + Unrevoked(w.t.rows, f)
    ensures Refines(w')
  {
    forall id | id in t'.rows ensures id in w'.killedRows <==> RowRejected(t', t'.rows[id]) {
      assert id in w.killedRows <==> RowRejected(w.t, w.t.rows[id]);
    }
  }

  lemma KillAllTokens(w: World, op: Op)
    requires Inv(w) && Plausible(w, op) && op.KillAll? && Revision(w.t, Do(w, op).t)
    ensures Tokens(Do(w, op))
  {
  }

  lemma KillRowsKeeps(w: World, op: Op)
    requires Inv(w) && Plausible(w, op) && (op.KillAll? || op.KillSession? || op.ChangeStatus?)
    ensures Inv(Do(w, op))
  {
    match op
    case KillAll(_, _, _) => KillAllKeeps(w, op);
    case KillSession(_, _, _) => KillSessionKeeps(w, op);
    case ChangeStatus(_, _, _) => ChangeStatusKeeps(w, op);
  }

  lemma KillAllKeeps(w: World, op: Op)
    requires Inv(w) && Plausible(w, op) && op.KillAll?
    ensures Inv(Do(w, op))
  {
    var w' := Do(w, op);
    if op.user in w.t.accounts { RowsOnlyKeeps(w, w'.t, AllRows(op.user), op.now, op.reason, w'); } else { IdleKeeps(w, w'); }
    KillAllTokens(w, op);
  }

  lemma KillSessionKeeps(w: World, op: Op)
    requires Inv(w) && Plausible(w, op) && op.KillSession?
    ensures Inv(Do(w, op))
  {
    var w' := Do(w, op);
    RowsOnlyKeeps(w, w'.t, OneRow(op.user, op.session), op.now, Some(SESSION_REVOKED), w');
    RevisionTokens(w, w');
  }

  lemma ChangeStatusKeeps(w: World, op: Op)
    requires Inv(w) && Plausible(w, op) && op.ChangeStatus?
    ensures Inv(Do(w, op))
  {
    var w' := Do(w, op);
    if op.user in w.t.accounts && !op.active {
      RowsOnlyKeeps(w, w'.t, AllRows(op.user), op.now, None, w');
    } else {
      IdleKeeps(w, w');
    }
    RevisionTokens(w, w');
  }

  /** Only the clock, or the standing of an account, moved. */
  lemma IdleKeeps(w: World, w': World)
    requires Inv(w) && w.now <= w'.now
    requires w'.t.rows == w.t.rows && w'.t.gens == w.t.gens && w'.t.accounts.Keys == w.t.accounts.Keys
    requires w'.killedRows == w.killedRows && w'.usedIds == w.usedIds && w'.usedFamilies == w.usedFamilies
    ensures Revision(w.t, w'.t) && Sane(w') && Families(w'.t) && OneLive(w'.t) && CleanLive(w') && DeadExpired(w') && Refines(w')
  {
    RevisionSane(w, w');
    RevisionFamilies(w.t, w'.t);
    RevisionClean(w, w', {});
    RevisionDead(w, w');
    forall id | id in w'.t.rows ensures id in w'.killedRows <==> RowRejected(w'.t, w'.t.rows[id]) {
      assert id in w.killedRows <==> RowRejected(w.t, w.t.rows[id]);
    }
  }

  // ----- Steps that add or drop a row

  lemma CreateKeeps(w: World, id: RowId, user: UserId, device: Option<string>, audience: Audience,
                    family: FamilyId, expiredAt: int) returns (w': World)
    requires Inv(w) && id !in w.usedIds && user in w.t.accounts
    requires forall a | a in w.t.rows && w.t.rows[a].family == family ::
        var r := w.t.rows[a];
        && r.user == user && r.audience == audience && r.revokedAt.Some? && a !in w.killedRows
        && (r.deviceKey.Some? ==> device == r.deviceKey)
    ensures w' == w.(t := Create(w.t, id, user, device, audience, family, expiredAt),
                     usedIds := w.usedIds + {id}, usedFamilies := w.usedFamilies + {family})
    ensures Inv(w')
  {
    w' := w.(t := Create(w.t, id, user, device, audience, family, expiredAt),
             usedIds := w.usedIds + {id}, usedFamilies := w.usedFamilies + {family});
    var r := w'.t.rows[id];
    assert !Stale(w'.t, r);
    CreateSane(w, w', id, r);
    CreateFamilies(w.t, w'.t, id, r);
    CreateClean(w, w', id, r);
    CreateTokens(w, w', id, r);
  }

  ghost predicate Added(t: Tables, t': Tables, id: RowId, r: Row) {
    id !in t.rows && t' == t.(rows := t.rows[id := r])
  }

  lemma CreateSane(w: World, w': World, id: RowId, r: Row)
    requires Sane(w) && Added(w.t, w'.t, id, r) && RowBounded(w.t, r) && r.reason.None? && r.user in w.t.accounts
    requires w'.killedRows == w.killedRows
    requires w'.usedIds == w.usedIds + {id} && w'.usedFamilies == w.usedFamilies + {r.family}
    ensures Sane(w')
  {
  }

  lemma CreateFamilies(t: Tables, t': Tables, id: RowId, r: Row)
    requires Families(t) && OneLive(t) && Added(t, t', id, r)
    requires forall a | a in t.rows && t.rows[a].family == r.family ::
        && t.rows[a].user == r.user && t.rows[a].audience == r.audience && t.rows[a].revokedAt.Some?
        && (t.rows[a].deviceKey.Some? ==> r.deviceKey == t.rows[a].deviceKey)
    ensures Families(t') && OneLive(t')
  {
  }

  lemma CreateClean(w: World, w': World, id: RowId, r: Row)
    requires CleanLive(w) && DeadExpired(w) && Refines(w) && Added(w.t, w'.t, id, r)
    requires id !in w.killedRows && w'.killedRows == w.killedRows && w'.now == w.now
    requires r.revokedAt.None? && !Stale(w.t, r)
    requires forall a | a in w.t.rows && w.t.rows[a].family == r.family :: a !in w.killedRows && w.t.rows[a].revokedAt.Some?
    ensures CleanLive(w') && DeadExpired(w') && Refines(w')
  {
  }

  lemma CreateTokens(w: World, w': World, id: RowId, r: Row)
    requires Tokens(w) && Added(w.t, w'.t, id, r) && r.accessTokenExpiresAt.None? && id !in w.usedIds
    requires w'.issued == w.issued && w'.killedTokens == w.killedTokens && w'.now == w.now
    requires w'.usedIds == w.usedIds + {id}
    ensures Tokens(w')
  {
  }

  lemma OpenKeeps(w: World, op: Op)
    requires Inv(w) && Plausible(w, op) && op.OpenSession?
    ensures Inv(Do(w, op))
  {
    var later := Later(w, op.now);
    var w' := CreateKeeps(later, op.id, op.user, op.device, op.audience, op.family, op.expiredAt);
    assert w' == Do(w, op);
  }

  lemma Later(w: World, now: int) returns (w': World)
    requires Inv(w) && w.now <= now
    ensures w' == w.(now := now) && Inv(w')
  {
    w' := w.(now := now);
    IdleKeeps(w, w');
    RevisionTokens(w, w');
  }

  lemma AudienceScoped(w: World, op: Op)
    requires Sane(w) && Families(w.t) && Plausible(w, op) && op.OpenSingleDevice?
    ensures var f := InAudience(op.user, op.audience);
            Scoped(w, op.user, AudienceScope(op.audience), Some(op.family), f, f, op.now)
  {
  }

  lemma OpenSingleKeeps(w: World, op: Op)
    requires Inv(w) && Plausible(w, op) && op.OpenSingleDevice?
    ensures Inv(Do(w, op))
  {
    var f := InAudience(op.user, op.audience);
    AudienceScoped(w, op);
    var cleared := ScopeKeeps(w, op.user, AudienceScope(op.audience), Some(op.family), f, f, op.now, SINGLE_DEVICE_REPLACED);
    var w' := CreateKeeps(cleared, op.id, op.user, op.device, op.audience, op.family, op.expiredAt);
    assert w' == Do(w, op);
  }

  /** The presented row becomes a rotated ancestor; no verdict changes. */
  lemma RetireKeeps(w: World, token: RowId, now: int) returns (w': World)
    requires Inv(w) && w.now <= now && token in w.t.rows && w.t.rows[token].revokedAt.None?
    ensures w' == w.(t := w.t.(rows := w.t.rows[token := w.t.rows[token].(revokedAt := Some(now), reason := Some(ROTATED))]), now := now)
    ensures Inv(w')
  {
    var r := w.t.rows[token];
    w' := w.(t := w.t.(rows := w.t.rows[token := r.(revokedAt := Some(now), reason := Some(ROTATED))]), now := now);
    RetireRevises(w, token, now);
    RevisionSane(w, w');
    RevisionFamilies(w.t, w'.t);
    RevisionTokens(w, w');
    RevisionClean(w, w', {});
    RevisionDead(w, w');
    RetireRefines(w, w', token, now);
  }

  lemma RetireRevises(w: World, token: RowId, now: int)
    requires Sane(w) && token in w.t.rows && w.t.rows[token].revokedAt.None?
    ensures var t' := w.t.(rows := w.t.rows[token := w.t.rows[token].(revokedAt := Some(now), reason := Some(ROTATED))]);
      Revision(w.t, t')
  {
  }

  lemma RetireRefines(w: World, w': World, token: RowId, now: int)
    requires Refines(w) && token in w.t.rows && w.t.rows[token].revokedAt.None?
    requires w'.t == w.t.(rows := w.t.rows[token := w.t.rows[token].(revokedAt := Some(now), reason := Some(ROTATED))])
    requires w'.killedRows == w.killedRows
    ensures Refines(w')
  {
  }

  /** A family whose unrevoked row may still be rotated has no killed row at all. */
  lemma RotatableFamilyIsClean(w: World, token: RowId)
    requires CleanLive(w) && DeadExpired(w) && token in w.t.rows
    requires w.t.rows[token].revokedAt.None? && w.t.rows[token].expiredAt > w.now
    ensures forall b | b in w.t.rows && w.t.rows[b].family == w.t.rows[token].family :: b !in w.killedRows
  {
  }

  lemma FamilyRetired(t: Tables, t': Tables, token: RowId, device: Option<string>)
    requires Families(t) && OneLive(t) && token in t.rows && t.rows[token].revokedAt.None?
    requires t'.rows.Keys == t.rows.Keys && token in t'.rows && t'.rows[token].revokedAt.Some?
    requires t'.rows[token] == t.rows[token].(revokedAt := t'.rows[token].revokedAt, reason := t'.rows[token].reason)
    requires forall a | a in t.rows && a != token :: t'.rows[a] == t.rows[a]
    ensures forall a | a in t'.rows && t'.rows[a].family == t.rows[token].family ::
        var r := t'.rows[a];
        && r.user == t.rows[token].user && r.audience == t.rows[token].audience && r.revokedAt.Some?
        && (r.deviceKey.Some? ==> Coalesce(t.rows[token].deviceKey, device) == r.deviceKey)
  {
  }

  lemma RefreshKeeps(w: World, op: Op)
    requires Inv(w) && Plausible(w, op) && op.Refresh?
    ensures Inv(Do(w, op))
  {
    match RotationBranch(w.t, op.token, op.owner, op.audience, op.now)
    case Invalid => RefusedKeeps(w, op);
    case Reuse => ReuseKeeps(w, op);
    case Rotated => RotatedKeeps(w, op);
  }

  lemma RefusedKeeps(w: World, op: Op)
    requires Inv(w) && op.now > w.now && op.Refresh?
    requires RotationBranch(w.t, op.token, op.owner, op.audience, op.now) == Invalid
    ensures Inv(Do(w, op))
  {
    var w' := Later(w, op.now);
    var w'' := ReserveIds(w', op);
    RefusedIs(w, op);
  }

  lemma RefusedIs(w: World, op: Op)
    requires op.Refresh? && RotationBranch(w.t, op.token, op.owner, op.audience, op.now) == Invalid
    ensures Do(w, op) == w.(now := op.now, usedIds := w.usedIds + NewIds(op))
  {
  }

  lemma ReuseKeeps(w: World, op: Op)
    requires Inv(w) && op.now > w.now && op.Refresh?
    requires RotationBranch(w.t, op.token, op.owner, op.audience, op.now) == Reuse
    ensures Inv(Do(w, op))
  {
    var r := w.t.rows[op.token];
    var f := InFamily(r.user, r.family);
    FamilyScoped(w, r.user, r.family, f, op.now);
    var w' := ScopeKeeps(w, r.user, FamilyScope(r.family), None, f, f, op.now, TOKEN_FAMILY_REUSE);
    var w'' := ReserveIds(w', op);
    ReuseIs(w, op);
  }

  lemma ReuseIs(w: World, op: Op)
    requires op.Refresh? && RotationBranch(w.t, op.token, op.owner, op.audience, op.now) == Reuse
    ensures var r := w.t.rows[op.token];
            var f := InFamily(r.user, r.family);
            Do(w, op) == w.(t := RevokeScope(w.t, r.user, FamilyScope(r.family), None, f, op.now, TOKEN_FAMILY_REUSE),
                            killedRows := w.killedRows + Selected(w.t.rows, f), now := op.now,
                            usedIds := w.usedIds + NewIds(op))
  {
  }

  lemma RotatedKeeps(w: World, op: Op)
    requires Inv(w) && Plausible(w, op) && op.Refresh?
    requires RotationBranch(w.t, op.token, op.owner, op.audience, op.now) == Rotated
    ensures Inv(Do(w, op))
  {
    var r := w.t.rows[op.token];
    RotatableFamilyIsClean(w, op.token);
    var retired := RetireKeeps(w, op.token, op.now);
    FamilyRetired(w.t, retired.t, op.token, op.device);
    var w' := CreateKeeps(retired, op.id, r.user, Coalesce(r.deviceKey, op.device), r.audience, r.family, op.expiredAt);
    RotatedIs(w, op);
  }

  lemma RotatedIs(w: World, op: Op)
    requires Sane(w) && op.Refresh?
    requires RotationBranch(w.t, op.token, op.owner, op.audience, op.now) == Rotated
    ensures var r := w.t.rows[op.token];
            var retired := w.t.(rows := w.t.rows[op.token := r.(revokedAt := Some(op.now), reason := Some(ROTATED))]);
            Do(w, op) == w.(t := Create(retired, op.id, r.user, Coalesce(r.deviceKey, op.device), r.audience, r.family, op.expiredAt),
                            now := op.now, usedIds := w.usedIds + {op.id}, usedFamilies := w.usedFamilies + {r.family})
  {
  }

  lemma ReserveIds(w: World, op: Op) returns (w': World)
    requires Inv(w)
    ensures w' == w.(usedIds := w.usedIds + NewIds(op)) && Inv(w')
  {
    w' := w.(usedIds := w.usedIds + NewIds(op));
    IdleReserve(w, w');
  }

  lemma IdleReserve(w: World, w': World)
    requires Inv(w) && w'.usedIds >= w.usedIds && w' == w.(usedIds := w'.usedIds)
    ensures Inv(w')
  {
  }

  lemma SignKeeps(w: World, op: Op)
    requires Inv(w) && Plausible(w, op) && op.SignAccess?
    ensures Inv(Do(w, op))
  {
    var w' := Do(w, op);
    SignTables(w, op);
    SignTokens(w, op);
  }

  /** Recording an access expiry changes nothing the verifier or a rotation reads. */
  lemma SignTables(w: World, op: Op)
    requires Sane(w) && Families(w.t) && OneLive(w.t) && CleanLive(w) && DeadExpired(w) && Refines(w)
    requires Plausible(w, op) && op.SignAccess?
    ensures var w' := Do(w, op); Sane(w') && Families(w'.t) && OneLive(w'.t) && CleanLive(w') && DeadExpired(w') && Refines(w')
  {
    var w' := Do(w, op);
    SignSame(w, op);
    SameSane(w, w');
    SameFamilies(w, w');
    SameClean(w, w');
  }

  ghost predicate SameButAccess(w: World, w': World) {
    && w'.t.rows.Keys == w.t.rows.Keys && w'.t.gens == w.t.gens && w'.t.accounts == w.t.accounts
    && (forall id | id in w.t.rows :: w'.t.rows[id] == w.t.rows[id].(accessTokenExpiresAt := w'.t.rows[id].accessTokenExpiresAt))
    && w'.killedRows == w.killedRows && w'.usedIds == w.usedIds && w'.usedFamilies == w.usedFamilies && w'.now >= w.now
  }

  lemma SignSame(w: World, op: Op)
    requires Plausible(w, op) && op.SignAccess?
    ensures SameButAccess(w, Do(w, op))
  {
  }

  lemma SameSane(w: World, w': World)
    requires Sane(w) && SameButAccess(w, w')
    ensures Sane(w')
  {
  }

  lemma SameFamilies(w: World, w': World)
    requires Families(w.t) && OneLive(w.t) && SameButAccess(w, w')
    ensures Families(w'.t) && OneLive(w'.t)
  {
  }

  lemma SameClean(w: World, w': World)
    requires CleanLive(w) && DeadExpired(w) && Refines(w) && SameButAccess(w, w')
    ensures CleanLive(w') && DeadExpired(w') && Refines(w')
  {
    forall a, b | a in w'.t.rows && b in w'.t.rows && w'.t.rows[a].family == w'.t.rows[b].family
                  && w'.t.rows[a].revokedAt.None? && b in w'.killedRows
      ensures FamilyStale(w'.t, w'.t.rows[a]) && FamilyStale(w'.t, w'.t.rows[b])
    {
      assert FamilyStale(w.t, w.t.rows[a]) && FamilyStale(w.t, w.t.rows[b]);
    }
    forall id | id in w'.t.rows ensures id in w'.killedRows <==> RowRejected(w'.t, w'.t.rows[id]) {
      assert id in w.killedRows <==> RowRejected(w.t, w.t.rows[id]);
    }
  }

  lemma SignTokens(w: World, op: Op)
    requires Sane(w) && Tokens(w) && Plausible(w, op) && op.SignAccess?
    ensures Tokens(Do(w, op))
  {
  }

  lemma SweepKeeps(w: World, op: Op)
    requires Inv(w) && Plausible(w, op) && op.Sweep?
    ensures Inv(Do(w, op))
  {
    SweepTables(w, op);
    SweepTokens(w, op);
  }

  lemma SweepTables(w: World, op: Op)
    requires Sane(w) && Families(w.t) && OneLive(w.t) && CleanLive(w) && DeadExpired(w) && Refines(w)
    requires Plausible(w, op) && op.Sweep?
    ensures var w' := Do(w, op); Sane(w') && Families(w'.t) && OneLive(w'.t) && CleanLive(w') && DeadExpired(w') && Refines(w')
  {
    var w' := Do(w, op);
    forall id | id in w'.t.rows ensures RowBounded(w'.t, w'.t.rows[id]) { assert RowBounded(w.t, w.t.rows[id]); }
    forall a, b | a in w'.t.rows && b in w'.t.rows ensures Kin(w'.t.rows[a], w'.t.rows[b]) {
      assert Kin(w.t.rows[a], w.t.rows[b]);
    }
    forall id | id in w'.t.rows ensures id in w'.killedRows <==> RowRejected(w'.t, w'.t.rows[id]) {
      assert id in w.killedRows <==> RowRejected(w.t, w.t.rows[id]);
    }
  }

  lemma SweepTokens(w: World, op: Op)
    requires Tokens(w) && Plausible(w, op) && op.Sweep?
    ensures Tokens(Do(w, op))
  {
  }

  lemma KillFamilyKeeps(w: World, op: Op)
    requires Inv(w) && Plausible(w, op) && op.KillFamily?
    ensures Inv(Do(w, op))
  {
    if OwnRow(w.t, op.user, op.session) {
      var family := w.t.rows[op.session].family;
      var write := if op.logout then InFamilyUnexpired(op.user, family, op.now) else InFamily(op.user, family);
      FamilyScoped(w, op.user, family, write, op.now);
      var w' := ScopeKeeps(w, op.user, FamilyScope(family), None, InFamily(op.user, family), write, op.now,
                           if op.logout then LOGOUT else SESSION_REVOKED);
    } else {
      var w' := Later(w, op.now);
    }
    KillFamilyIs(w, op);
  }

  lemma KillFamilyIs(w: World, op: Op)
    requires op.KillFamily?
    ensures !OwnRow(w.t, op.user, op.session) ==> Do(w, op) == w.(now := op.now)
    ensures OwnRow(w.t, op.user, op.session) ==>
      var family := w.t.rows[op.session].family;
      var write := if op.logout then InFamilyUnexpired(op.user, family, op.now) else InFamily(op.user, family);
      Do(w, op) == w.(t := RevokeScope(w.t, op.user, FamilyScope(family), None, write, op.now,
                                       if op.logout then LOGOUT else SESSION_REVOKED),
                      killedRows := w.killedRows + Selected(w.t.rows, InFamily(op.user, family)), now := op.now)
  {
  }

  lemma StepKeeps(w: World, op: Op)
    requires Inv(w) && Legal(w, op)
    ensures Inv(Do(w, op))
  {
    match op
    case OpenSession(_, _, _, _, _, _, _) => OpenKeeps(w, op);
    case OpenSingleDevice(_, _, _, _, _, _, _) => OpenSingleKeeps(w, op);
    case Refresh(_, _, _, _, _, _, _) => RefreshKeeps(w, op);
    case KillFamily(_, _, _, _) => KillFamilyKeeps(w, op);
    case KillDevice(_, _, _) => KillDeviceKeeps(w, op);
    case KillOthers(_, _, _) => KillOthersKeeps(w, op);
    case KillAll(_, _, _) => KillRowsKeeps(w, op);
    case KillSession(_, _, _) => KillRowsKeeps(w, op);
    case ChangeStatus(_, _, _) => KillRowsKeeps(w, op);
    case SignAccess(_, _, _, _) => SignKeeps(w, op);
    case Sweep(_, _) => SweepKeeps(w, op);
  }
}
