/**
 * The refresh-token service as it writes its tables, statement by statement. Each method is
 * one transaction under the account lock; its contract names the transaction of SessionTables
 * it performs, about which the theorems of SessionTheorems are stated.
 */
module RefreshTokenService {
  import opened Common
  import opened SessionTables

  datatype RotationOutcome =
    | Refused
    | Replayed(user: UserId, family: FamilyId, generation: nat)
    | RotatedTo(session: RowId, boundDevice: Option<string>)

  /** The row is in the family of the user's session, unrevoked, and unexpired if this is a logout. */
  predicate NewlyRevoked(rows: map<RowId, Row>, user: UserId, session: RowId, id: RowId, logout: bool, now: int) {
    && session in rows && rows[session].user == user
    && id in rows && rows[id].user == user && rows[id].family == rows[session].family
    && rows[id].revokedAt.None? && (logout ==> rows[id].expiredAt > now)
  }

  class RefreshTokens {
    var rows: map<RowId, Row>
    var gens: map<ScopeId, Generation>
    var accounts: map<UserId, Account>
    var singleDevice: set<UserId>

    function Db(): Tables
      reads this
    {
      Tables(rows, gens, accounts)
    }

    constructor (accounts: map<UserId, Account>)
      ensures Db() == Tables(map[], map[], accounts) && singleDevice == {}
    {
      this.rows, this.gens, this.accounts, this.singleDevice := map[], map[], accounts, {};
    }

    method UpdateMany(f: Filter, at: int, reason: Option<Reason>) returns (count: nat)
      modifies this`rows
      ensures rows == RevokeRows(old(rows), f, at, reason)
      ensures count == |Unrevoked(old(rows), f)|
    {
      var hit := Unrevoked(rows, f);
      rows := map id | id in rows ::
        if id in hit then rows[id].(revokedAt := Some(at), reason := reason) else rows[id];
      count := |hit|;
    }

    method AdvanceScopeGeneration(user: UserId, key: ScopeKey, exempt: Option<FamilyId>) returns (generation: nat)
      modifies this`gens
      ensures Db() == Advance(old(Db()), user, key, exempt)
      ensures generation == CurrentGeneration(old(Db()), user, key) + 1
    {
      var id := ScopeId(user, key);
      if id in gens {
        generation := gens[id].generation + 1;
        gens := gens[id := gens[id].(generation := generation, exempt := exempt, pending := true)];
      } else {
        generation := 1;
        gens := gens[id := Generation(1, exempt, true)];
      }
    }

    method CurrentScopeGenerations(user: UserId, audience: Audience, deviceKey: Option<string>, family: FamilyId)
      returns (account: nat, audienceGen: nat, device: nat, familyGen: nat)
      ensures account == CurrentGeneration(Db(), user, AccountScope)
      ensures audienceGen == CurrentGeneration(Db(), user, AudienceScope(audience))
      ensures device == if HasDevice(deviceKey) then CurrentGeneration(Db(), user, DeviceScope(deviceKey.value)) else 0
      ensures familyGen == CurrentGeneration(Db(), user, FamilyScope(family))
    {
      account, audienceGen, device, familyGen := 0, 0, 0, 0;
      if ScopeId(user, AccountScope) in gens {
        account := gens[ScopeId(user, AccountScope)].generation;
      }
      if ScopeId(user, AudienceScope(audience)) in gens {
        audienceGen := gens[ScopeId(user, AudienceScope(audience))].generation;
      }
      if HasDevice(deviceKey) && ScopeId(user, DeviceScope(deviceKey.value)) in gens {
        device := gens[ScopeId(user, DeviceScope(deviceKey.value))].generation;
      }
      if ScopeId(user, FamilyScope(family)) in gens {
        familyGen := gens[ScopeId(user, FamilyScope(family))].generation;
      }
    }

    /** `id` is the fresh primary key the database hands out. */
    method CreateWithClient(user: UserId, deviceKey: Option<string>, audience: Audience, family: FamilyId,
                            id: RowId, expiredAt: int)
      requires id !in rows
      modifies this`rows
      ensures Db() == Create(old(Db()), id, user, deviceKey, audience, family, expiredAt)
    {
      var account, aud, device, fam := CurrentScopeGenerations(user, audience, deviceKey, family);
      rows := rows[id := Row(user, family, audience, deviceKey, account, aud, device, fam, expiredAt, None, None, None)];
    }

    method ReplaceForSingleDevice(user: UserId, deviceKey: Option<string>, audience: Audience, family: FamilyId,
                                  id: RowId, now: int, expiredAt: int) returns (generation: nat)
      requires id !in rows
      modifies this`rows, this`gens, this`accounts
      ensures Db() == SessionTables.ReplaceForSingleDevice(old(Db()), user, deviceKey, audience, id, family, now, expiredAt)
      ensures generation == CurrentGeneration(old(Db()), user, AudienceScope(audience)) + 1
    {
      generation := AdvanceScopeGeneration(user, AudienceScope(audience), Some(family));
      var _ := UpdateMany(InAudience(user, audience), now, Some(SINGLE_DEVICE_REPLACED));
      CreateWithClient(user, deviceKey, audience, family, id, expiredAt);
    }

    /** Shared by `revokeOtherSessions` and by switching single-device login on. */
    method RevokeAllBut(user: UserId, current: Option<RowId>, now: int)
      modifies this`rows, this`gens, this`accounts
      ensures Db() == SessionTables.RevokeAllBut(old(Db()), user, current, now)
    {
      var spared: Option<FamilyId> := None;
      if current.Some? && current.value in rows && rows[current.value].user == user {
        spared := Some(rows[current.value].family);
      }
      var _ := AdvanceScopeGeneration(user, AccountScope, spared);
      if spared.Some? {
        var _ := UpdateMany(AllButFamily(user, spared.value), now, Some(OTHER_SESSIONS_REVOKED));
      } else {
        var _ := UpdateMany(AllRows(user), now, Some(OTHER_SESSIONS_REVOKED));
      }
    }

    method RevokeOtherSessions(user: UserId, current: Option<RowId>, now: int)
      modifies this`rows, this`gens, this`accounts
      ensures Db() == if current.None? then old(Db()) else SessionTables.RevokeAllBut(old(Db()), user, current, now)
    {
      if current.None? { return; }
      RevokeAllBut(user, current, now);
    }

    /** The setting of the account and, switching on, the end of the other sessions; no account, no change. */
    method SetSingleDeviceLogin(user: UserId, enabled: bool, current: Option<RowId>, now: int) returns (found: bool)
      modifies this
      ensures found <==> user in old(accounts)
      ensures singleDevice == if !found then old(singleDevice) else if enabled then old(singleDevice) + {user} else old(singleDevice) - {user}
      ensures Db() == if found && enabled then SessionTables.RevokeAllBut(old(Db()), user, current, now) else old(Db())
    {
      if user !in accounts { return false; }
      singleDevice := if enabled then singleDevice + {user} else singleDevice - {user};
      if enabled { RevokeAllBut(user, current, now); }
      found := true;
    }

    method RotateLocked(token: RowId, owner: UserId, deviceKey: Option<string>, audience: Audience,
                        id: RowId, now: int, expiredAt: int) returns (outcome: RotationOutcome)
      requires id !in rows
      modifies this`rows, this`gens, this`accounts
      ensures Db() == Rotate(old(Db()), token, owner, deviceKey, audience, id, now, expiredAt)
      ensures var branch := RotationBranch(old(Db()), token, owner, audience, now);
              && (outcome.Refused? <==> branch == Invalid)
              && (outcome.Replayed? <==> branch == Reuse)
              && (outcome.RotatedTo? <==> branch == Rotated)
      ensures outcome.RotatedTo? ==>
                && outcome.session == id && id in rows && token in rows
                && outcome.boundDevice == rows[id].deviceKey
                && rows[id].family == rows[token].family && rows[token].reason == Some(ROTATED)
      ensures outcome.Replayed? ==>
                && outcome.user == owner && outcome.family == old(rows)[token].family
                && outcome.generation == CurrentGeneration(Db(), outcome.user, FamilyScope(outcome.family))
    {
      if token !in rows { return Refused; }
      var record := rows[token];
      if record.audience != audience || record.user != owner { return Refused; }
      if record.expiredAt <= now { return Refused; }
      if record.revokedAt.Some? {
        if record.reason != Some(ROTATED) && record.reason != None { return Refused; }
        var generation := AdvanceScopeGeneration(record.user, FamilyScope(record.family), None);
        var _ := UpdateMany(InFamily(record.user, record.family), now, Some(TOKEN_FAMILY_REUSE));
        return Replayed(record.user, record.family, generation);
      }
      rows := rows[token := record.(revokedAt := Some(now), reason := Some(ROTATED))];
      var bound := if record.deviceKey.Some? then record.deviceKey else deviceKey;
      CreateWithClient(record.user, bound, record.audience, record.family, id, expiredAt);
      return RotatedTo(id, bound);
    }

    /** Returns whether the call newly revoked a row. */
    method RevokeSessionFamily(user: UserId, session: RowId, logout: bool, now: int) returns (revoked: bool)
      modifies this`rows, this`gens, this`accounts
      ensures Db() == RevokeFamily(old(Db()), user, session, logout, now)
      ensures revoked <==> exists id :: id in old(rows) && NewlyRevoked(old(rows), user, session, id, logout, now)
    {
      if session !in rows || rows[session].user != user { return false; }
      var family := rows[session].family;
      var _ := AdvanceScopeGeneration(user, FamilyScope(family), None);
      var f := if logout then InFamilyUnexpired(user, family, now) else InFamily(user, family);
      var count := UpdateMany(f, now, Some(if logout then LOGOUT else SESSION_REVOKED));
      revoked := count > 0;
      assert revoked ==> exists id :: id in Unrevoked(old(rows), f) by {
        if revoked { var id :| id in Unrevoked(old(rows), f); }
      }
      if id :| id in old(rows) && NewlyRevoked(old(rows), user, session, id, logout, now) {
        assert id in Unrevoked(old(rows), f);
      }
    }

    method RevokeDeviceSessions(user: UserId, deviceKey: string, now: int)
      modifies this`rows, this`gens, this`accounts
      ensures Db() == RevokeDevice(old(Db()), user, deviceKey, now)
    {
      var _ := AdvanceScopeGeneration(user, DeviceScope(deviceKey), None);
      var _ := UpdateMany(OnDevice(user, deviceKey), now, Some(SESSION_REVOKED));
    }

    method RevokeAll(user: UserId, now: int)
      requires user in accounts
      modifies this`rows, this`gens, this`accounts
      ensures Db() == SessionTables.RevokeAll(old(Db()), user, Some(LOGOUT_ALL), now)
    {
      var _ := UpdateMany(AllRows(user), now, Some(LOGOUT_ALL));
      accounts := accounts[user := accounts[user].(accessTokensRevokedAt := Some(now))];
    }

    method RevokeSession(user: UserId, session: RowId, now: int) returns (announced: bool)
      modifies this`rows
      ensures Db() == SessionTables.RevokeSession(old(Db()), user, session, now)
      ensures announced <==> OwnRow(old(Db()), user, session) && old(rows)[session].revokedAt.None?
    {
      var count := UpdateMany(OneRow(user, session), now, Some(SESSION_REVOKED));
      announced := count == 1;
      var hit := Unrevoked(old(rows), OneRow(user, session));
      assert hit == if session in hit then {session} else {};
    }

    /** False when no row was updated: the caller then signs without recording the expiry. */
    method RecordAccessTokenIssued(user: UserId, session: RowId, expiresAt: int) returns (recorded: bool)
      modifies this`rows
      ensures Db() == RecordAccess(old(Db()), user, session, expiresAt)
      ensures recorded <==> OwnRow(old(Db()), user, session)
    {
      recorded := session in rows && rows[session].user == user;
      if recorded {
        rows := rows[session := rows[session].(accessTokenExpiresAt := Some(expiresAt))];
      }
    }
  }
}
