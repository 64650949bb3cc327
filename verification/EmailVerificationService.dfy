/** Requesting and verifying a code as the service performs it, for one address and one purpose. */
module EmailVerificationService {
  import opened Common
  import opened EmailCodes
  import opened EmailCodeTheorems

  datatype Purpose = REGISTER | LOGIN | RESET_PASSWORD | CHANGE_EMAIL
  datatype Outcome = Sent | SilentlySkipped | RateLimited | Unavailable

  /** The rows after a delivery: the new code answers, and only older unconsumed ones may have gone. */
  lemma SentRows(rows: Rows, id: CodeId, now: int, cleaned: bool)
    requires Spaced(World(rows, now, map[], {}, map[], map[])) && id in rows
    requires rows[id].createdAt == now && rows[id].expiresAt > now && rows[id].attempts == 0 && rows[id].consumedAt.None?
    ensures var after := if cleaned then RemoveStale(rows, now) else rows;
      && Accepts(after, now, rows[id].secret) && id in after && Spaced(World(after, now, map[], {}, map[], map[]))
      && (forall k | k in after :: k in rows && after[k] == rows[k])
      && (cleaned ==> forall k | k in rows :: k in after <==> rows[k].consumedAt.Some? || rows[k].createdAt >= now)
  {
    var after := if cleaned then RemoveStale(rows, now) else rows;
    assert NewestOf(after, after.Keys, id) && id in Usable(after, now);
    assert Answers(after, now, id);
  }

  class EmailVerification {
    var rows: map<CodeId, Code>

    constructor ()
      ensures rows == map[]
    {
      rows := map[];
    }

    ghost predicate Valid(now: int)
      reads this
    {
      Spaced(World(rows, now, map[], {}, map[], map[]))
    }

    /** `orderBy: createdAt desc`, first of the given rows. */
    method FindNewest(ids: set<CodeId>) returns (newest: Option<CodeId>)
      requires ids <= rows.Keys
      ensures newest.None? <==> ids == {}
      ensures newest.Some? ==> NewestOf(rows, ids, newest.value)
    {
      newest := None;
      var todo := ids;
      while todo != {}
        invariant todo <= ids
        invariant newest.None? ==> todo == ids
        invariant newest.Some? ==> NewestOf(rows, ids - todo, newest.value)
        decreases todo
      {
        var k :| k in todo;
        if newest.None? || rows[newest.value].createdAt < rows[k].createdAt { newest := Some(k); }
        todo := todo - {k};
      }
      if newest.Some? { assert ids - todo == ids; }
    }

    method IsCoolingDown(now: int) returns (cooling: bool)
      requires Valid(now)
      ensures cooling <==> CoolingDown(rows, now)
    {
      var latest := FindNewest(rows.Keys);
      cooling := latest.Some? && now - rows[latest.value].createdAt < RESEND_COOLDOWN_MS;
    }

    /**
     * A delivered code replaces the older unconsumed ones, an undelivered one is taken back; both
     * clean-ups may fail on their own. Registering a known address, or logging in or resetting
     * with an unknown one, looks like success and does nothing.
     */
    method RequestCode(purpose: Purpose, userExists: bool, mailerAvailable: bool, id: CodeId, secret: Secret, now: int,
                       delivered: bool, cleanupWorks: bool) returns (outcome: Outcome)
      requires Valid(now) && id !in rows
      modifies this
      ensures Valid(now)
      ensures outcome == SilentlySkipped <==>
        (&& mailerAvailable && !CoolingDown(old(rows), now)
         && if purpose == REGISTER then userExists else (purpose == LOGIN || purpose == RESET_PASSWORD) && !userExists)
      ensures outcome == RateLimited <==> mailerAvailable && CoolingDown(old(rows), now)
      ensures outcome == Unavailable <==>
        !mailerAvailable || (!delivered && outcome != RateLimited && outcome != SilentlySkipped)
      ensures outcome == Unavailable && mailerAvailable && !cleanupWorks ==> id in rows
      ensures outcome == Sent ==>
        rows == (if cleanupWorks then RemoveStale(old(rows)[id := NewCode(secret, now)], now) else old(rows)[id := NewCode(secret, now)])
      ensures outcome == Sent ==> delivered && Accepts(rows, now, secret)
      ensures outcome == Sent ==> id in rows && rows[id] == Code(secret, now, now + 600_000, 0, None)
      ensures outcome == Sent && cleanupWorks ==> forall k | k in old(rows) :: k in rows <==> old(rows)[k].consumedAt.Some? || old(rows)[k].createdAt >= now
      ensures outcome == Sent ==> forall k | k in rows && k != id :: k in old(rows) && rows[k] == old(rows)[k]
      ensures outcome != Sent && (cleanupWorks || !(id in rows)) ==> rows == old(rows)
      ensures outcome == Unavailable ==> rows - {id} == old(rows)
    {
      if !mailerAvailable {
        assert rows - {id} == rows;
        return Unavailable;
      }
      var cooling := IsCoolingDown(now);
      if cooling { return RateLimited; }
      if purpose == REGISTER && userExists { return SilentlySkipped; }
      if purpose == LOGIN && !userExists { return SilentlySkipped; }
      if purpose == RESET_PASSWORD && !userExists { return SilentlySkipped; }
      cooling := IsCoolingDown(now);
      if cooling { return RateLimited; }
      SpacedStep(World(rows, now, map[], {}, map[], map[]), Create(id, secret));
      rows := rows[id := Code(secret, now, now + CODE_TTL_MS, 0, None)];
      assert old(rows) == rows - {id};
      if delivered {
        SentRows(rows, id, now, cleanupWorks);
        if cleanupWorks {
          var created := rows[id].createdAt;
          rows := map k | k in rows && !(rows[k].consumedAt.None? && rows[k].createdAt < created) :: rows[k];
        }
        outcome := Sent;
      } else {
        if cleanupWorks { rows := rows - {id}; }
        outcome := Unavailable;
      }
    }

    /**
     * Accepts a code exactly when it is the secret of the newest row, which is usable and has
     * attempts left. That row is then consumed; a wrong guess at it costs an attempt.
     */
    method VerifyCode(given: Secret, now: int) returns (accepted: bool, ghost touched: Option<CodeId>)
      requires Valid(now)
      modifies this
      ensures Valid(now)
      ensures accepted <==> Accepts(old(rows), now, given)
      ensures match touched
              case Some(k) => Answers(old(rows), now, k)
              case None => forall k :: !Answers(old(rows), now, k)
      ensures touched.Some? ==> (accepted <==> old(rows)[touched.value].secret == given)
      ensures touched.None? ==> !accepted && rows == old(rows)
      ensures touched.Some? ==> touched.value in old(rows) && rows == old(rows)[touched.value :=
        if accepted then old(rows)[touched.value].(consumedAt := Some(now))
        else old(rows)[touched.value].(attempts := old(rows)[touched.value].attempts + 1)]
    {
      touched := None;
      var usable := set k | k in rows && rows[k].consumedAt.None? && rows[k].expiresAt > now;
      assert usable == Usable(rows, now);
      var record := FindNewest(usable);
      var newest := FindNewest(rows.Keys);
      AnswersWhen(World(rows, now, map[], {}, map[], map[]), record, newest);
      if record.None? || rows[record.value].attempts >= MAX_ATTEMPTS { return false, None; }
      if newest.Some? && newest.value != record.value { return false, None; }
      var id := record.value;
      touched := record;
      accepted := rows[id].secret == given;
      Rewrite(id, if accepted then rows[id].(consumedAt := Some(now)) else rows[id].(attempts := rows[id].attempts + 1), now);
    }

    method Rewrite(id: CodeId, c: Code, now: int)
      requires Valid(now) && id in rows && c.createdAt == rows[id].createdAt && c.expiresAt == rows[id].expiresAt
      modifies this
      ensures Valid(now) && rows == old(rows)[id := c]
    {
      rows := rows[id := c];
    }
  }
}
