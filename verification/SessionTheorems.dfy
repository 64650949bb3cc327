/** What the session tables promise over whole runs. */
module SessionTheorems {
  import opened Common
  import opened SessionTables
  import opened SessionRuns
  import opened SessionRefinement

  function ClaimsOf(a: Access): Claims {
    Claims(Some(a.user), Some(a.session), Some(a.issuedAt))
  }

  lemma {:induction false} RunKeeps(w: World, ops: seq<Op>)
    requires Inv(w) && LegalRun(w, ops)
    ensures Inv(Run(w, ops))
    decreases |ops|
  {
    if ops != [] {
      StepKeeps(w, ops[0]);
      RunKeeps(Do(w, ops[0]), ops[1..]);
    }
  }

  lemma StartHolds(w: World)
    requires Start(w) && (forall u | u in w.t.accounts :: w.t.accounts[u].accessTokensRevokedAt.None?)
    ensures Inv(w)
  {
  }

  lemma VerdictFromInv(w: World, a: Access)
    requires Inv(w) && a in w.issued && a.expiresAt > w.now && Retained(a)
    ensures VerifyInDatabase(w.t, ClaimsOf(a)) == Active <==>
            w.t.accounts[a.user].active && a.session !in w.killedRows && a !in w.killedTokens
  {
  }

  /** In every run, the verifier accepts an unexpired access token of an active account exactly
      when no revocation has eagerly killed its session or the token itself. */
  lemma VerdictIsTheKilledSet(w0: World, ops: seq<Op>, a: Access)
    requires Start(w0) && (forall u | u in w0.t.accounts :: w0.t.accounts[u].accessTokensRevokedAt.None?)
    requires LegalRun(w0, ops)
    requires var w := Run(w0, ops); a in w.issued && a.expiresAt > w.now && Retained(a)
    ensures var w := Run(w0, ops);
            && a.user in w.t.accounts
            && (VerifyInDatabase(w.t, ClaimsOf(a)) == Active <==>
                  w.t.accounts[a.user].active && a.session !in w.killedRows && a !in w.killedTokens)
  {
    StartHolds(w0);
    RunKeeps(w0, ops);
    VerdictFromInv(Run(w0, ops), a);
    assert AccessFits(Run(w0, ops), a);
  }

  lemma {:induction false} SetsOnlyGrow(w: World, ops: seq<Op>)
    ensures w.killedRows <= Run(w, ops).killedRows && w.killedTokens <= Run(w, ops).killedTokens
    ensures w.issued <= Run(w, ops).issued
    decreases |ops|
  {
    if ops != [] {
      SetsOnlyGrow(Do(w, ops[0]), ops[1..]);
    }
  }

  /** A token the verifier refused while its account was active is never accepted again. */
  lemma RefusedStaysRefused(w: World, ops: seq<Op>, a: Access)
    requires Inv(w) && LegalRun(w, ops)
    requires a in w.issued && Retained(a) && a.expiresAt > w.now && a.expiresAt > Run(w, ops).now
    requires a.user in w.t.accounts && w.t.accounts[a.user].active
    requires VerifyInDatabase(w.t, ClaimsOf(a)) == Revoked
    ensures VerifyInDatabase(Run(w, ops).t, ClaimsOf(a)) == Revoked
  {
    VerdictFromInv(w, a);
    RunKeeps(w, ops);
    SetsOnlyGrow(w, ops);
    VerdictFromInv(Run(w, ops), a);
  }

  // ----- One unrevoked row per family; a replayed token ends its family

  /** In every run a family has at most one row that can still be rotated. */
  lemma OneUnrevokedRow(w0: World, ops: seq<Op>, a: RowId, b: RowId)
    requires Start(w0) && (forall u | u in w0.t.accounts :: w0.t.accounts[u].accessTokensRevokedAt.None?)
    requires LegalRun(w0, ops)
    requires var rows := Run(w0, ops).t.rows;
             && a in rows && b in rows && rows[a].family == rows[b].family
             && rows[a].revokedAt.None? && rows[b].revokedAt.None?
    ensures a == b
  {
    StartHolds(w0);
    RunKeeps(w0, ops);
  }

  /** No row of the family is unrevoked, and the family generation rejects them all. */
  ghost predicate Ended(w: World, family: FamilyId) {
    && family in w.usedFamilies
    && forall id | id in w.t.rows && w.t.rows[id].family == family ::
         w.t.rows[id].revokedAt.Some? && FamilyStale(w.t, w.t.rows[id])
  }

  lemma EndedStep(w: World, op: Op, family: FamilyId)
    requires Sane(w) && Plausible(w, op) && Ended(w, family)
    ensures Ended(Do(w, op), family)
  {
    var w' := Do(w, op);
    forall id | id in w'.t.rows && w'.t.rows[id].family == family
      ensures w'.t.rows[id].revokedAt.Some? && FamilyStale(w'.t, w'.t.rows[id])
    {
      EndedRow(w, op, family, id);
    }
  }

  /** Rows of the family are old, stay revoked, and lie behind a generation that only advances. */
  lemma EndedRow(w: World, op: Op, family: FamilyId, id: RowId)
    requires Sane(w) && Plausible(w, op) && Ended(w, family) && id in Do(w, op).t.rows && Do(w, op).t.rows[id].family == family
    ensures Do(w, op).t.rows[id].revokedAt.Some? && FamilyStale(Do(w, op).t, Do(w, op).t.rows[id])
  {
    EndedRowIsOld(w, op, family, id);
    assert RowBounded(w.t, w.t.rows[id]);
    EndedRowStays(w, op, id);
  }

  lemma EndedRowIsOld(w: World, op: Op, family: FamilyId, id: RowId)
    requires Sane(w) && Plausible(w, op) && Ended(w, family) && id in Do(w, op).t.rows && Do(w, op).t.rows[id].family == family
    ensures id in w.t.rows && w.t.rows[id].family == family
  {
  }

  lemma EndedRowStays(w: World, op: Op, id: RowId)
    requires Sane(w) && Plausible(w, op) && id in w.t.rows && id in Do(w, op).t.rows
    requires w.t.rows[id].revokedAt.Some? && FamilyStale(w.t, w.t.rows[id]) && RowBounded(w.t, w.t.rows[id])
    ensures Do(w, op).t.rows[id].revokedAt.Some? && FamilyStale(Do(w, op).t, Do(w, op).t.rows[id])
  {
  }

  lemma {:induction false} EndedForever(w: World, ops: seq<Op>, family: FamilyId)
    requires Inv(w) && LegalRun(w, ops) && Ended(w, family)
    ensures Ended(Run(w, ops), family)
    decreases |ops|
  {
    if ops != [] {
      EndedStep(w, ops[0], family);
      StepKeeps(w, ops[0]);
      EndedForever(Do(w, ops[0]), ops[1..], family);
    }
  }

  /** Presenting an unexpired rotated token ends its family for good: whatever follows, no
      token of the family rotates and no access token of any of its rows verifies. */
  lemma ReplayEndsFamily(w: World, op: Op, ops: seq<Op>)
    requires Inv(w) && Legal(w, op) && op.Refresh?
    requires RotationBranch(w.t, op.token, op.owner, op.audience, op.now) == Reuse
    requires LegalRun(Do(w, op), ops)
    ensures var family := w.t.rows[op.token].family;
            var t := Run(Do(w, op), ops).t;
            forall id | id in t.rows && t.rows[id].family == family ::
              && t.rows[id].revokedAt.Some?
              && (forall owner, audience, now :: RotationBranch(t, id, owner, audience, now) != Rotated)
              && (forall sub, issuedAt :: VerifyInDatabase(t, Claims(sub, Some(id), issuedAt)) == Revoked)
  {
    var family := w.t.rows[op.token].family;
    ReplayEnds(w, op);
    StepKeeps(w, op);
    EndedForever(Do(w, op), ops, family);
    EndedRefuses(Run(Do(w, op), ops), family);
  }

  lemma EndedRefuses(w: World, family: FamilyId)
    requires Ended(w, family)
    ensures forall id | id in w.t.rows && w.t.rows[id].family == family ::
              && w.t.rows[id].revokedAt.Some?
              && (forall owner, audience, now :: RotationBranch(w.t, id, owner, audience, now) != Rotated)
              && (forall sub, issuedAt :: VerifyInDatabase(w.t, Claims(sub, Some(id), issuedAt)) == Revoked)
  {
  }

  lemma ReplayEnds(w: World, op: Op)
    requires Sane(w) && Families(w.t) && op.Refresh?
    requires RotationBranch(w.t, op.token, op.owner, op.audience, op.now) == Reuse
    ensures Ended(Do(w, op), w.t.rows[op.token].family)
  {
    ReuseIs(w, op);
    var r := w.t.rows[op.token];
    forall id | id in w.t.rows && w.t.rows[id].family == r.family ensures w.t.rows[id].user == r.user {
      assert Kin(w.t.rows[id], r);
    }
    forall id | id in w.t.rows ensures RowBounded(w.t, w.t.rows[id]) {}
  }

  // ----- Sparing one family

  /** Sparing a family keeps the killed set exact if and only if the tables show no row of the
      family that the account generation alone rejects: sparing overwrites that rejection. */
  lemma SparingIsExact(w: World, op: Op)
    requires Inv(w) && Plausible(w, op) && op.KillOthers?
    requires SparedFamily(w.t, op.user, op.current).Some?
    ensures Refines(Do(w, op)) <==> !OnlyAccountRejects(w.t, SparedFamily(w.t, op.user, op.current).value)
  {
    var family := SparedFamily(w.t, op.user, op.current).value;
    var f := AllButFamily(op.user, family);
    KillOthersIs(w, op, family);
    if OnlyAccountRejects(w.t, family) {
      SparingResurrects(w, op, family);
    } else {
      SparingFits(w, op, family);
      ScopeKills(w, op.user, AccountScope, Some(family), f, f, op.now, OTHER_SESSIONS_REVOKED);
    }
  }

  lemma KillOthersIs(w: World, op: Op, family: FamilyId)
    requires op.KillOthers? && SparedFamily(w.t, op.user, op.current) == Some(family)
    ensures var f := AllButFamily(op.user, family);
            Do(w, op) == w.(t := RevokeScope(w.t, op.user, AccountScope, Some(family), f, op.now, OTHER_SESSIONS_REVOKED),
                            killedRows := w.killedRows + Selected(w.t.rows, f), now := op.now)
  {
  }

  lemma SparingFits(w: World, op: Op, family: FamilyId)
    requires Refines(w) && !OnlyAccountRejects(w.t, family)
    requires op.KillOthers? && SparedFamily(w.t, op.user, op.current) == Some(family)
    ensures ScopeFits(w, op.user, AccountScope, Some(family), AllButFamily(op.user, family))
  {
  }

  lemma SparingResurrects(w: World, op: Op, family: FamilyId)
    requires Refines(w) && Families(w.t) && OnlyAccountRejects(w.t, family)
    requires op.KillOthers? && SparedFamily(w.t, op.user, op.current) == Some(family)
    ensures !Refines(Do(w, op))
  {
  }

  /** The guard's intent suffices: a family with an unrevoked row has no such ancestor. */
  lemma LiveFamilyIsSpared(w: World, family: FamilyId)
    requires Inv(w) && FamilyLive(w.t, family)
    ensures !OnlyAccountRejects(w.t, family)
  {
  }

  /** So a caller whose own family is live makes a legal step. */
  lemma GuardSuffices(w: World, op: Op)
    requires Inv(w) && Plausible(w, op) && ExemptionGuard(w.t, op)
    ensures Legal(w, op)
  {
    if op.KillOthers? && SparedFamily(w.t, op.user, op.current).Some? {
      LiveFamilyIsSpared(w, SparedFamily(w.t, op.user, op.current).value);
    }
  }

  // The race, step by step: session 1 is opened and signs an access token, is refreshed into
  // session 2, session 3 opens and revokes all others; then a late call still names session 2.
  const ACCOUNTS := map[0 := Account(true, None)]
  const TOKEN := Access(0, 1, 2, 50, 100, true)
  const FIRST := Row(0, 1, APP, None, 0, 0, 0, 0, 100, None, None, None)
  const SIGNED := FIRST.(accessTokenExpiresAt := Some(50))
  const ROTATED_AWAY := SIGNED.(revokedAt := Some(3), reason := Some(ROTATED))
  const THIRD := FIRST.(family := 2)
  const ENDED := FIRST.(revokedAt := Some(5), reason := Some(OTHER_SESSIONS_REVOKED))
  const OTHERS_KILLED := map[ScopeId(0, AccountScope) := Generation(1, Some(2), true)]

  const OPEN_FIRST := OpenSession(0, None, APP, 1, 1, 1, 100)
  const SIGN := SignAccess(1, 2, 50, true)
  const REFRESH := Refresh(1, 0, None, APP, 2, 3, 100)
  const OPEN_THIRD := OpenSession(0, None, APP, 3, 2, 4, 100)
  const KILL_OTHERS := KillOthers(0, Some(3), 5)
  const LATE_SPARE := KillOthers(0, Some(2), 6)

  const RACE0 := World(Tables(map[], map[], ACCOUNTS), {}, {}, {}, {}, {}, 0)
  const RACE1 := World(Tables(map[1 := FIRST], map[], ACCOUNTS), {}, {}, {}, {1}, {1}, 1)
  const RACE2 := World(Tables(map[1 := SIGNED], map[], ACCOUNTS), {TOKEN}, {}, {}, {1}, {1}, 2)
  const RACE3 := World(Tables(map[1 := ROTATED_AWAY, 2 := FIRST], map[], ACCOUNTS), {TOKEN}, {}, {}, {1, 2}, {1}, 3)
  const RACE4 := World(Tables(map[1 := ROTATED_AWAY, 2 := FIRST, 3 := THIRD], map[], ACCOUNTS),
                       {TOKEN}, {}, {}, {1, 2, 3}, {1, 2}, 4)
  const RACE5 := World(Tables(map[1 := ROTATED_AWAY, 2 := ENDED, 3 := THIRD], OTHERS_KILLED, ACCOUNTS),
                       {TOKEN}, {1, 2}, {}, {1, 2, 3}, {1, 2}, 5)

  lemma RaceOpens()
    ensures Legal(RACE0, OPEN_FIRST) && Do(RACE0, OPEN_FIRST) == RACE1
    ensures Legal(RACE1, SIGN) && Do(RACE1, SIGN) == RACE2
  {
  }

  lemma RaceRefreshes()
    ensures Legal(RACE2, REFRESH) && Do(RACE2, REFRESH) == RACE3
    ensures Legal(RACE3, OPEN_THIRD) && Do(RACE3, OPEN_THIRD) == RACE4
  {
    assert RotationBranch(RACE2.t, 1, 0, APP, 3) == Rotated;
  }

  lemma RaceKills()
    ensures Legal(RACE4, KILL_OTHERS) && Do(RACE4, KILL_OTHERS) == RACE5
  {
    assert SparedFamily(RACE4.t, 0, Some(3)) == Some(2);
    assert RACE4.t.rows[3].revokedAt.None? && RACE4.t.rows[3].family == 2;
    var f := AllButFamily(0, 2);
    assert Selected(RACE4.t.rows, f) == {1, 2};
    assert RevokeRows(RACE4.t.rows, f, 5, Some(OTHER_SESSIONS_REVOKED)) == RACE5.t.rows;
  }

  /** Why the guard matters: sparing a family that is already dead makes the verifier accept the
      access token of its rotated row again, which it refused a moment before. */
  lemma SparingADeadFamily()
    ensures Inv(RACE5) && Plausible(RACE5, LATE_SPARE) && !SparesCleanly(RACE5.t, LATE_SPARE)
    ensures TOKEN in RACE5.issued && Retained(TOKEN) && TOKEN.expiresAt > LATE_SPARE.now
    ensures VerifyInDatabase(RACE5.t, ClaimsOf(TOKEN)) == Revoked
    ensures VerifyInDatabase(Do(RACE5, LATE_SPARE).t, ClaimsOf(TOKEN)) == Active
  {
    RaceIsReached();
    RaceResurrects();
  }

  lemma RaceIsReached()
    ensures Inv(RACE5)
  {
    StartHolds(RACE0);
    RaceOpens();
    StepKeeps(RACE0, OPEN_FIRST);
    StepKeeps(RACE1, SIGN);
    RaceRefreshes();
    StepKeeps(RACE2, REFRESH);
    StepKeeps(RACE3, OPEN_THIRD);
    RaceKills();
    StepKeeps(RACE4, KILL_OTHERS);
  }

  lemma RaceRejects()
    ensures OnlyAccountRejects(RACE5.t, 1)
  {
    assert 1 in RACE5.t.rows && RACE5.t.rows[1] == ROTATED_AWAY && ROTATED_AWAY.family == 1;
    assert StaleAt(RACE5.t, ROTATED_AWAY, AccountScope) && !StaleBesides(RACE5.t, ROTATED_AWAY, true) && !RevokedInRow(ROTATED_AWAY);
  }

  lemma RaceResurrects()
    ensures Plausible(RACE5, LATE_SPARE) && !SparesCleanly(RACE5.t, LATE_SPARE)
    ensures VerifyInDatabase(RACE5.t, ClaimsOf(TOKEN)) == Revoked
    ensures VerifyInDatabase(Do(RACE5, LATE_SPARE).t, ClaimsOf(TOKEN)) == Active
  {
    RaceRejects();
    assert SparedFamily(RACE5.t, 0, Some(2)) == Some(1);
  }

  // ----- Pruning

  predicate AccountPasses(t: Tables, a: Access) {
    && a.user in t.accounts && t.accounts[a.user].active && !Watermarked(t, a)
  }

  /** A sweep may delete the row of an unexpired token only if its expiry was not recorded and
      its refresh lifetime is over. */
  predicate Unprotected(t: Tables, a: Access, now: int) {
    && !a.recorded && a.rowExpiresAt <= now
    && (a.rowExpiresAt < now
        || (a.session in t.rows && t.rows[a.session].revokedAt.Some?
            && t.rows[a.session].revokedAt.value < now - REVOKED_RETENTION_MS))
  }

  /** When a sweep changes the verdict on an unexpired token: exactly when it deletes the row of
      a killed session whose token it could not know about. */
  lemma PruningChangesVerdict(w: World, ids: set<RowId>, now: int, a: Access)
    requires Inv(w) && now > w.now && a in w.issued && a.expiresAt > now
    ensures VerifyInDatabase(Prune(w.t, ids, now), ClaimsOf(a)) != VerifyInDatabase(w.t, ClaimsOf(a)) <==>
            && a.session in ids && a.session in w.t.rows && a.session in w.killedRows
            && AccountPasses(w.t, a) && Unprotected(w.t, a, now)
  {
    assert AccessFits(w, a);
    if a.session in w.t.rows {
      var r := w.t.rows[a.session];
      assert Prunable(r, now) <==> Unprotected(w.t, a, now);
      var t' := Prune(w.t, ids, now);
      assert a.session in t'.rows ==> t'.rows[a.session] == r;
    }
  }

  /** Pruning preserves the verdict on every token whose expiry was recorded or which its row
      outlives. */
  lemma PruningKeepsVerdict(w: World, ids: set<RowId>, now: int, a: Access)
    requires Inv(w) && now > w.now && a in w.issued && a.expiresAt > now && Retained(a)
    ensures VerifyInDatabase(Prune(w.t, ids, now), ClaimsOf(a)) == VerifyInDatabase(w.t, ClaimsOf(a))
  {
  }
}
