/** The administrator's change of status and the outbox processor as they write their rows. */
module RevocationOutboxService {
  import opened Common
  import opened RevocationOutbox

  datatype Outcome =
    | Changed(pending: bool)
    | InvalidReason | NotFound | Forbidden | LastSuperAdmin | SelfChange | InvalidTransition | ConfirmationMismatch

  /** What one pass leaves of a row: nothing once expired or announced, else a later attempt. */
  function AfterPass(j: Job, works: bool, now: int, clock: int): Option<Job> {
    if j.expiresAt <= now || works then None
    else Some(j.(attempts := j.attempts + 1, nextAttemptAt := clock + Backoff(j.attempts + 1)))
  }

  function Users(jobs: seq<UserId>): set<UserId> {
    set u | u in jobs
  }

  function Passed(o: Outbox, users: set<UserId>, works: set<UserId>, now: int, clock: int): Outbox
    requires users <= o.Keys
  {
    map u | u in o && (u in users ==> AfterPass(o[u], u in works, now, clock).Some?)
      :: if u in users then AfterPass(o[u], u in works, now, clock).value else o[u]
  }

  function AnnouncedIn(o: Outbox, users: set<UserId>, works: set<UserId>, now: int): set<Revocation>
    requires users <= o.Keys
  {
    set u | u in users && u in works && o[u].expiresAt > now :: Revocation(u, o[u].revokedAt)
  }

  class RevocationQueue {
    var outbox: map<UserId, Job>
    var status: map<UserId, Status>
    var announced: set<Revocation>
    var admins: set<UserId>
    var supers: set<UserId>

    constructor (status: map<UserId, Status>, admins: set<UserId>, supers: set<UserId>)
      ensures this.status == status && this.admins == admins && this.supers == supers && outbox == map[] && announced == {}
    {
      this.status, this.admins, this.supers, outbox, announced := status, admins, supers, map[], {};
    }

    /** The active administrators with the access of a super administrator. */
    function Available(): set<UserId>
      reads this`status, this`admins, this`supers
    {
      set u | u in admins && u in supers && u in status && status[u] == ACTIVE
    }

    /** Only a super administrator changes an administrator, and the last one available stays. */
    predicate MayChange(actor: UserId, user: UserId, to: Status)
      reads this`status, this`admins, this`supers
    {
      user in admins ==> actor in Available() && (user in Available() && to != ACTIVE ==> |Available()| > 1)
    }

    /** Status, revocation and outbox change together; announcing comes after, and may fail, as may the deletion after it. */
    method UpdateStatus(actor: UserId, user: UserId, to: Status, reason: string, confirmed: bool, now: int, expiresAt: int,
                        announces: bool, deletes: bool) returns (outcome: Outcome)
      modifies this`status, this`outbox, this`announced
      ensures outcome.Changed? <==>
        (3 <= |reason| <= 500 && user in old(status) && old(MayChange(actor, user, to)) && (actor == user ==> to == ACTIVE)
         && ((old(status)[user] == ACTIVE && (to == BANNED || to == DELETED)) || (old(status)[user] == BANNED && (to == ACTIVE || to == DELETED)))
         && (to == DELETED ==> confirmed))
      ensures !outcome.Changed? ==> status == old(status) && outbox == old(outbox) && announced == old(announced)
      ensures outcome.Changed? ==> status == old(status)[user := to]
      ensures outcome.Changed? && to == ACTIVE ==> outbox == old(outbox) - {user} && announced == old(announced)
      ensures outcome.Changed? && to != ACTIVE ==>
        && outbox == (if announces && deletes then old(outbox) - {user} else Upsert(old(outbox), user, now, expiresAt))
        && announced == (if announces then old(announced) + {Revocation(user, now)} else old(announced))
      ensures outcome.Changed? ==> (outcome.pending <==> to != ACTIVE && !announces)
      ensures old(Available()) != {} ==> Available() != {}
    {
      if |reason| < 3 || |reason| > 500 { return InvalidReason; }
      if user !in status { return NotFound; }
      if user in admins {
        if actor !in Available() { return Forbidden; }
        if user in Available() && to != ACTIVE && |Available()| <= 1 { return LastSuperAdmin; }
      }
      if actor == user && (to == BANNED || to == DELETED) { return SelfChange; }
      var allowed := (status[user] == ACTIVE && (to == BANNED || to == DELETED)) || (status[user] == BANNED && (to == ACTIVE || to == DELETED));
      if !allowed { return InvalidTransition; }
      if to == DELETED && !confirmed { return ConfirmationMismatch; }
      ghost var before := Available();
      status := status[user := to];
      OneStays(before, Available(), user);
      if to == ACTIVE {
        outbox := outbox - {user};
        return Changed(false);
      }
      outbox := outbox[user := Job(now, expiresAt, 0, now)];
      var completed := CompleteSessionRevocation(user, now, announces, deletes);
      outcome := Changed(!completed);
    }

    /** Reported as done once announced; a deletion that fails leaves the row to the processor. */
    method CompleteSessionRevocation(user: UserId, revokedAt: int, announces: bool, deletes: bool) returns (completed: bool)
      modifies this`outbox, this`announced
      ensures completed == announces
      ensures outbox == if announces && deletes then DeleteJob(old(outbox), user, revokedAt) else old(outbox)
      ensures announced == if announces then old(announced) + {Revocation(user, revokedAt)} else old(announced)
    {
      if !announces { return false; }
      announced := announced + {Revocation(user, revokedAt)};
      if deletes && user in outbox && outbox[user].revokedAt == revokedAt { outbox := outbox - {user}; }
      completed := true;
    }

    /** One row of the batch: dropped if expired, else claimed, announced, and deleted or put off. */
    method ProcessOne(user: UserId, works: bool, now: int, clock: int) returns (deleted: bool)
      requires user in outbox
      modifies this`outbox, this`announced
      ensures AfterPass(old(outbox)[user], works, now, clock).None? <==> deleted
      ensures deleted <==> old(outbox)[user].expiresAt <= now || works
      ensures !deleted ==> outbox == old(outbox)[user := old(outbox)[user].(
        attempts := old(outbox)[user].attempts + 1, nextAttemptAt := clock + Backoff(old(outbox)[user].attempts + 1))]
      ensures !deleted ==> |outbox| == |old(outbox)|
      ensures outbox == if deleted then old(outbox) - {user} else old(outbox)[user := AfterPass(old(outbox)[user], works, now, clock).value]
      ensures announced == old(announced) + if works && old(outbox)[user].expiresAt > now then {Revocation(user, old(outbox)[user].revokedAt)} else {}
    {
      var job := outbox[user];
      if job.expiresAt <= now {
        outbox := outbox - {user};
        return true;
      }
      var claimedUntil := now + CLAIM_LEASE_MS;
      outbox := outbox[user := job.(nextAttemptAt := claimedUntil)];
      if works {
        announced := announced + {Revocation(user, job.revokedAt)};
        outbox := outbox - {user};
        return true;
      }
      outbox := outbox[user := outbox[user].(attempts := outbox[user].attempts + 1, nextAttemptAt := clock + Backoff(job.attempts + 1))];
      deleted := false;
    }

    /** The `i`-th row of the batch, the ones before it being done. */
    method ProcessNext(jobs: seq<UserId>, i: nat, works: set<UserId>, now: int, clock: int,
                       ghost before: Outbox, ghost said: set<Revocation>) returns (deleted: bool)
      requires i < |jobs| && Users(jobs) <= before.Keys
      requires forall j, k | 0 <= j < k < |jobs| :: jobs[j] != jobs[k]
      requires Users(jobs[..i]) <= before.Keys && outbox == Passed(before, Users(jobs[..i]), works, now, clock)
      requires announced == said + AnnouncedIn(before, Users(jobs[..i]), works, now)
      modifies this`outbox, this`announced
      ensures Users(jobs[..i + 1]) <= before.Keys && outbox == Passed(before, Users(jobs[..i + 1]), works, now, clock)
      ensures announced == said + AnnouncedIn(before, Users(jobs[..i + 1]), works, now)
      ensures |outbox| == |old(outbox)| - if deleted then 1 else 0
    {
      assert forall k | 0 <= k < |jobs| :: jobs[k] in Users(jobs);
      PassedOneMore(before, jobs, i, works, now, clock);
      AnnouncedOneMore(before, jobs, i, works, now);
      RemovedOne(outbox, jobs[i]);
      deleted := ProcessOne(jobs[i], jobs[i] in works, now, clock);
    }

    /** `jobs` is the batch of due rows the query returned, each user once. */
    method ProcessPending(jobs: seq<UserId>, works: set<UserId>, now: int, clock: int) returns (completed: nat)
      requires forall i | 0 <= i < |jobs| :: jobs[i] in outbox && Due(outbox[jobs[i]], now)
      requires forall i, j | 0 <= i < j < |jobs| :: jobs[i] != jobs[j]
      modifies this`outbox, this`announced
      ensures outbox == Passed(old(outbox), Users(jobs), works, now, clock)
      ensures announced == old(announced) + AnnouncedIn(old(outbox), Users(jobs), works, now)
      ensures completed == |old(outbox)| - |outbox|
      ensures forall u | u in old(outbox) :: u !in outbox <==> u in jobs && (old(outbox)[u].expiresAt <= now || u in works)
      ensures outbox.Keys <= old(outbox).Keys
      ensures forall u | u in outbox :: var j := old(outbox)[u];
        outbox[u] == if u in jobs then j.(attempts := j.attempts + 1, nextAttemptAt := clock + Backoff(j.attempts + 1)) else j
      ensures forall r :: r in announced <==>
        r in old(announced)
        || (r.user in jobs && r.user in works && old(outbox)[r.user].expiresAt > now && r.at == old(outbox)[r.user].revokedAt)
    {
      completed := 0;
      var i := 0;
      while i < |jobs|
        invariant 0 <= i <= |jobs| && Users(jobs[..i]) <= old(outbox).Keys
        invariant outbox == Passed(old(outbox), Users(jobs[..i]), works, now, clock)
        invariant announced == old(announced) + AnnouncedIn(old(outbox), Users(jobs[..i]), works, now)
        invariant completed == |old(outbox)| - |outbox|
      {
        var deleted := ProcessNext(jobs, i, works, now, clock, old(outbox), old(announced));
        if deleted { completed := completed + 1; }
        i := i + 1;
      }
      assert jobs[..i] == jobs;
    }
  }

  lemma OneStays(before: set<UserId>, after: set<UserId>, user: UserId)
    requires before - {user} <= after
    ensures before != {} && (user in before ==> |before| > 1) ==> after != {}
  {
    if user in before { assert |before - {user}| == |before| - 1; }
  }

  lemma RemovedOne(o: Outbox, u: UserId)
    requires u in o
    ensures |o - {u}| == |o| - 1
  {
  }

  lemma PassedOneMore(o: Outbox, jobs: seq<UserId>, i: nat, works: set<UserId>, now: int, clock: int)
    requires i < |jobs| && forall k | 0 <= k < |jobs| :: jobs[k] in o
    requires forall j, k | 0 <= j < k < |jobs| :: jobs[j] != jobs[k]
    ensures var before := Passed(o, Users(jobs[..i]), works, now, clock);
      var after := AfterPass(o[jobs[i]], jobs[i] in works, now, clock);
      && jobs[i] in before && before[jobs[i]] == o[jobs[i]]
      && Passed(o, Users(jobs[..i + 1]), works, now, clock)
         == if after.None? then before - {jobs[i]} else before[jobs[i] := after.value]
  {
    assert jobs[..i + 1] == jobs[..i] + [jobs[i]];
    assert jobs[i] !in jobs[..i];
  }

  lemma AnnouncedOneMore(o: Outbox, jobs: seq<UserId>, i: nat, works: set<UserId>, now: int)
    requires i < |jobs| && forall k | 0 <= k < |jobs| :: jobs[k] in o
    ensures AnnouncedIn(o, Users(jobs[..i + 1]), works, now)
      == AnnouncedIn(o, Users(jobs[..i]), works, now)
         + if jobs[i] in works && o[jobs[i]].expiresAt > now then {Revocation(jobs[i], o[jobs[i]].revokedAt)} else {}
  {
    assert jobs[..i + 1] == jobs[..i] + [jobs[i]];
    assert Users(jobs[..i + 1]) == Users(jobs[..i]) + {jobs[i]};
  }
}
