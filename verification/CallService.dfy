/**
 * The call service as it writes its rows, statement by statement. A contract names the steps of
 * CallTables that the method takes when nothing comes in between; what happens when something
 * does is the subject of CallTheorems.
 */
module CallService {
  import opened Common
  import opened CallTables
  import LockOrder

  datatype Outcome = Done | Replayed(call: CallId) | Busy | NotFound | NotInvited | NotAllowed | Over | Expired | AlreadyActive

  /** A request left alone runs to its end: none has more than four statements. */
  function Complete(w: World, id: RequestId, statements: nat): World
    decreases statements
  {
    if statements == 0 || id !in w.requests then w
    else Complete(Advance(w, id, w.requests[id]), id, statements - 1)
  }

  function Alone(w: World, op: Op): World
    requires op.AcceptCall? || op.StartReject? || op.StartLeave? || op.CancelCall? || op.ExpireCall? || op.RoomFinished?
  {
    Complete(Do(w, op), op.id, 4)
  }

  /** No accept in flight holds a seat locked, so no statement has to wait. */
  lemma {:induction false} CompleteIsARun(w: World, id: RequestId, statements: nat) returns (ops: seq<Op>)
    requires forall k | k in w.requests && k != id :: !w.requests[k].AcceptRead?
    ensures Run(w, ops) == Complete(w, id, statements) && LegalRun(w, ops)
    decreases statements
  {
    if statements == 0 || id !in w.requests {
      ops := [];
    } else {
      var rest := CompleteIsARun(Advance(w, id, w.requests[id]), id, statements - 1);
      ops := [Next(id)] + rest;
      assert ops[1..] == rest;
    }
  }

  lemma AloneEnds(w: World, op: Op)
    requires op.AcceptCall? || op.StartReject? || op.StartLeave? || op.CancelCall? || op.ExpireCall? || op.RoomFinished?
    requires op.id !in w.requests
    ensures op.id !in Alone(w, op).requests
  {
    var w1 := Do(w, op);
    if op.id in w1.requests {
      var w2 := Advance(w1, op.id, w1.requests[op.id]);
      if op.id in w2.requests { SecondStatementOn(w2, op.id); }
    }
  }

  lemma SecondStatementOn(w: World, id: RequestId)
    requires id in w.requests
    requires w.requests[id].RejectClaimed? || w.requests[id].LeaveWritten?
    ensures id !in Complete(w, id, 3).requests
  {
    var w1 := Advance(w, id, w.requests[id]);
    if id in w1.requests {
      var w2 := Advance(w1, id, w1.requests[id]);
      if id in w2.requests { assert Complete(w2, id, 1) == Complete(Advance(w2, id, w2.requests[id]), id, 0); }
    }
  }

  /** A reject claims its seat and, if it read a ringing call and nobody is left to answer, ends it. */
  lemma RejectAlone(w: World, user: UserId, call: CallId)
    requires w.requests == map[] && call in w.t.calls
    requires Seat(call, user) in w.t.seats && w.t.seats[Seat(call, user)] == INVITED
    ensures var c := w.(t := w.t.(seats := w.t.seats[Seat(call, user) := REJECTED]));
      Alone(w, StartReject(0, call, user))
      == if w.t.calls[call].status == RINGING && In(c.t, call, INVITED) == {} then Alone(c, ExpireCall(0, call)) else c
  {
    var w1 := Do(w, StartReject(0, call, user));
    var w2 := Advance(w1, 0, w1.requests[0]);
    var c := w.(t := w.t.(seats := w.t.seats[Seat(call, user) := REJECTED]));
    assert Complete(w1, 0, 4) == Complete(w2, 0, 3);
    RejectTail(c, w2, user, call, w.t.calls[call].status);
  }

  lemma RejectTail(c: World, w: World, user: UserId, call: CallId, snapshot: CallStatus)
    requires c.requests == map[] && call in c.t.calls && c.t.calls[call].status == snapshot
    requires w == Continue(c, 0, RejectClaimed(call, user, snapshot))
    ensures Complete(w, 0, 3) == if snapshot == RINGING && In(c.t, call, INVITED) == {} then Alone(c, ExpireCall(0, call)) else c
  {
  }

  /** An accept left alone joins the seat and makes the call active, read or claimed. */
  lemma AcceptAlone(w: World, user: UserId, call: CallId)
    requires w.requests == map[] && CanAccept(w.t, call, user)
    ensures Alone(w, AcceptCall(0, call, user)) == w.(t := CallTables.Accept(w.t, call, user))
  {
    var w1 := Do(w, AcceptCall(0, call, user));
    if 0 in w1.requests {
      assert w1.requests - {0} == map[];
      assert Complete(w1, 0, 4) == Complete(Advance(w1, 0, w1.requests[0]), 0, 3);
      assert w.t.calls[call := w.t.calls[call].(status := ACTIVE)] == w.t.calls;
    }
  }

  /** A leave writes its seat, and then ends the call, or does not, in one conditional write. */
  lemma LeaveAlone(w: World, user: UserId, call: CallId)
    requires w.requests == map[] && call in w.t.calls
    requires Seat(call, user) in w.t.seats && w.t.seats[Seat(call, user)] == JOINED
    ensures var c := w.(t := w.t.(seats := w.t.seats[Seat(call, user) := LEFT]));
      Alone(w, StartLeave(0, call, user)) == Left(c, call)
  {
    var w1 := Do(w, StartLeave(0, call, user));
    var w2 := Advance(w1, 0, w1.requests[0]);
    var c := w.(t := w.t.(seats := w.t.seats[Seat(call, user) := LEFT]));
    assert Complete(w1, 0, 4) == Complete(w2, 0, 3);
    LeaveTail(c, w2, user, call);
  }

  function Left(c: World, call: CallId): World
    requires call in c.t.calls
  {
    if c.t.calls[call].single && c.t.calls[call].status == ACTIVE then
      var f := Finish(c, call, ENDED, ALL_LEFT);
      f.(t := MoveSeats(f.t, call, JOINED, LEFT))
    else if In(c.t, call, JOINED) == {} && Live(c.t.calls[call]) then Finish(c, call, ENDED, ALL_LEFT)
    else c
  }

  lemma LeaveTail(c: World, w: World, user: UserId, call: CallId)
    requires c.requests == map[] && call in c.t.calls
    requires w == Continue(c, 0, LeaveWritten(call, user, c.t.calls[call].status))
    ensures Complete(w, 0, 3) == Left(c, call)
  {
  }

  /** An ending that wins moves the seats it leaves behind, and is done. */
  lemma EndAlone(w: World, op: Op)
    requires w.requests == map[] && (op.CancelCall? || op.ExpireCall? || op.RoomFinished?) && op.id == 0
    ensures var f := Do(w, op);
      Alone(w, op) == if f == w then w else Drop(f.(t :=
        if op.RoomFinished? then MoveSeats(f.t, op.call, JOINED, LEFT) else MoveSeats(f.t, op.call, INVITED, UNANSWERED)), 0)
  {
    var f := Do(w, op);
    if 0 in f.requests {
      assert Complete(f, 0, 4) == Complete(Advance(f, 0, f.requests[0]), 0, 3);
    }
  }

  lemma Creation(w: World, call: CallId, single: bool, initiator: UserId, invitees: seq<UserId>)
    ensures var people := set u | u in invitees;
      Do(w, CreateCall(call, single, initiator, people)) ==
      if NotBusy(w.t, people + {initiator}) then w.(t := Tables(
        w.t.calls[call := Call(single, initiator, RINGING, None)],
        w.t.seats + (map u | u in invitees :: Seat(call, u) := INVITED) + map[Seat(call, initiator) := JOINED]))
      else w
  {
  }

  /** The live calls that the initiator created with the same key. */
  function Earlier(calls: map<CallId, Call>, keys: map<CallId, string>, initiator: UserId, key: Option<string>): set<CallId> {
    set c | c in keys && key == Some(keys[c])
      && c in calls && calls[c].initiator == initiator && (calls[c].status == RINGING || calls[c].status == ACTIVE)
  }

  lemma OneMoreSeat(seats: map<Seat, SeatStatus>, call: CallId, invitees: seq<UserId>, i: nat)
    requires i < |invitees|
    ensures (seats + map u | u in invitees[..i] :: Seat(call, u) := INVITED)[Seat(call, invitees[i]) := INVITED]
      == seats + map u | u in invitees[..i + 1] :: Seat(call, u) := INVITED
  {
    assert invitees[..i + 1] == invitees[..i] + [invitees[i]];
  }

  /** Nobody is busy who is in no call that rings or is active. */
  lemma FreeWhen(t: Tables, initiator: UserId, invitees: seq<UserId>)
    ensures NotBusy(t, (set u | u in invitees) + {initiator}) <==>
      forall s | s in t.seats && (s.user == initiator || s.user in invitees) && s.call in t.calls
                 && (t.calls[s.call].status == RINGING || t.calls[s.call].status == ACTIVE)
        :: t.seats[s] != INVITED && t.seats[s] != JOINED
  {
    var people := (set u | u in invitees) + {initiator};
    assert forall s: Seat :: s.user in people <==> s.user == initiator || s.user in invitees;
  }

  class Calls {
    var calls: map<CallId, Call>
    var seats: map<Seat, SeatStatus>
    var records: map<CallId, seq<EndReason>>
    var locked: seq<UserId>
    var keys: map<CallId, string>

    function Db(): World
      reads this
    {
      World(Tables(calls, seats), map[], records)
    }

    constructor ()
      ensures Start(Db()) && locked == [] && keys == map[]
    {
      calls, seats, records, locked, keys := map[], map[], map[], [], map[];
    }

    /** Advisory locks one by one, in the order that LockOrder shows free of deadlock. */
    method LockParticipantsForCall(users: seq<UserId>)
      modifies this`locked
      ensures locked == old(locked) + LockOrder.Sort(users)
      ensures LockOrder.Sorted(locked[|old(locked)|..]) && multiset(locked) == multiset(old(locked)) + multiset(users)
    {
      var order := LockOrder.Sort(users);
      LockOrder.SortSorts(users);
      var i := 0;
      while i < |order|
        invariant 0 <= i <= |order|
        invariant locked == old(locked) + order[..i]
      {
        locked := locked + [order[i]];
        i := i + 1;
      }
    }

    method AssertNotBusy(users: set<UserId>) returns (busy: bool)
      ensures busy <==> !NotBusy(Db().t, users)
      ensures !busy <==>
        forall s | s in seats && s.user in users && s.call in calls
                   && (calls[s.call].status == RINGING || calls[s.call].status == ACTIVE)
          :: seats[s] != INVITED && seats[s] != JOINED
    {
      var engaged := set s | s in seats && s.user in users && (seats[s] == INVITED || seats[s] == JOINED)
        && s.call in calls && (calls[s.call].status == RINGING || calls[s.call].status == ACTIVE);
      busy := engaged != {};
      if busy {
        var s :| s in engaged;
      } else {
        forall s | s in seats && s.user in users && s.call in calls && (calls[s.call].status == RINGING || calls[s.call].status == ACTIVE)
          ensures seats[s] != INVITED && seats[s] != JOINED
        {
          assert s !in engaged;
        }
      }
    }

    method SeatParticipants(call: CallId, initiator: UserId, invitees: seq<UserId>)
      modifies this`seats
      ensures seats == old(seats) + (map u | u in invitees :: Seat(call, u) := INVITED) + map[Seat(call, initiator) := JOINED]
    {
      var i := 0;
      while i < |invitees|
        invariant 0 <= i <= |invitees|
        invariant seats == old(seats) + map u | u in invitees[..i] :: Seat(call, u) := INVITED
      {
        OneMoreSeat(old(seats), call, invitees, i);
        seats := seats[Seat(call, invitees[i]) := INVITED];
        i := i + 1;
      }
      seats := seats[Seat(call, initiator) := JOINED];
      assert invitees[..i] == invitees;
    }

    method FindIdempotentCreateCall(initiator: UserId, key: Option<string>) returns (found: Option<CallId>)
      ensures match found
              case Some(c) => c in Earlier(calls, keys, initiator, key)
              case None => Earlier(calls, keys, initiator, key) == {}
      ensures found.Some? ==>
        && found.value in calls && calls[found.value].initiator == initiator
        && (calls[found.value].status == RINGING || calls[found.value].status == ACTIVE)
        && found.value in keys && key == Some(keys[found.value])
      ensures found.None? && key.Some? ==> forall c | c in calls && c in keys && keys[c] == key.value && calls[c].initiator == initiator ::
        calls[c].status != RINGING && calls[c].status != ACTIVE
    {
      var earlier := Earlier(calls, keys, initiator, key);
      if earlier == {} {
        forall c | c in calls && c in keys && key == Some(keys[c]) && calls[c].initiator == initiator
          ensures calls[c].status != RINGING && calls[c].status != ACTIVE
        {
          assert c !in earlier;
        }
        return None;
      }
      var c :| c in earlier;
      found := Some(c);
    }

    method InsertCall(call: CallId, single: bool, initiator: UserId, invitees: seq<UserId>, key: Option<string>)
      requires call !in calls
      modifies this`calls, this`seats, this`keys
      ensures calls == old(calls)[call := Call(single, initiator, RINGING, None)]
      ensures seats == old(seats) + (map u | u in invitees :: Seat(call, u) := INVITED) + map[Seat(call, initiator) := JOINED]
      ensures key.Some? ==> call in Earlier(calls, keys, initiator, key)
    {
      calls := calls[call := Call(single, initiator, RINGING, None)];
      SeatParticipants(call, initiator, invitees);
      if key.Some? { keys := keys[call := key.value]; }
    }

    /** A repeated request gets the call of the first; a new one is created exactly when nobody is busy. */
    method CreateCallSession(call: CallId, single: bool, initiator: UserId, invitees: seq<UserId>, key: Option<string>)
      returns (outcome: Outcome)
      requires call !in calls && invitees != [] && initiator !in invitees
      modifies this
      ensures outcome.Replayed? <==> Earlier(old(calls), old(keys), initiator, key) != {}
      ensures outcome.Replayed? ==> outcome.call in Earlier(old(calls), old(keys), initiator, key) && Db() == old(Db()) && keys == old(keys)
      ensures !outcome.Replayed? ==> Db() == Do(old(Db()), CreateCall(call, single, initiator, set u | u in invitees))
      ensures !outcome.Replayed? ==>
        (outcome.Done? <==>
          forall s | s in old(seats) && (s.user == initiator || s.user in invitees) && s.call in old(calls)
                     && (old(calls)[s.call].status == RINGING || old(calls)[s.call].status == ACTIVE)
            :: old(seats)[s] != INVITED && old(seats)[s] != JOINED)
      ensures outcome.Busy? ==> Db() == old(Db()) && keys == old(keys)
      ensures outcome.Busy? || outcome.Replayed? || outcome.Done?
      ensures outcome.Done? ==>
        && calls == old(calls)[call := Call(single, initiator, RINGING, None)]
        && seats == old(seats) + (map u | u in invitees :: Seat(call, u) := INVITED) + map[Seat(call, initiator) := JOINED]
      ensures outcome == Done && key.Some? ==> call in Earlier(calls, keys, initiator, key)
      ensures locked == []
    {
      Creation(Db(), call, single, initiator, invitees);
      FreeWhen(Db().t, initiator, invitees);
      var people := (set u | u in invitees) + {initiator};
      LockParticipantsForCall([initiator] + invitees);
      var earlier := FindIdempotentCreateCall(initiator, key);
      if earlier.Some? {
        locked := [];
        return Replayed(earlier.value);
      }
      var busy := AssertNotBusy(people);
      if busy {
        locked := [];
        return Busy;
      }
      InsertCall(call, single, initiator, invitees, key);
      locked := [];
      outcome := Done;
    }

    /** One conditional write on the call; the winner sends the record. */
    method EndIf(call: CallId, from: set<CallStatus>, status: CallStatus, reason: EndReason) returns (won: bool)
      modifies this`calls, this`records
      ensures won <==> call in old(calls) && old(calls)[call].status in from
      ensures Db() == if won then Finish(old(Db()), call, status, reason) else old(Db())
    {
      won := call in calls && calls[call].status in from;
      if won {
        calls := calls[call := calls[call].(status := status, endReason := Some(reason))];
        records := records[call := (if call in records then records[call] else []) + [reason]];
      }
    }

    /** `updateMany` on the participants of one call, row by row. */
    method UpdateSeats(call: CallId, from: SeatStatus, to: SeatStatus)
      requires from != to
      modifies this`seats
      ensures Db().t == CallTables.MoveSeats(old(Db()).t, call, from, to)
    {
      var todo := set s | s in seats && s.call == call && seats[s] == from;
      while todo != {}
        invariant seats.Keys == old(seats).Keys
        invariant forall s | s in seats ::
          seats[s] == (if s.call == call && old(seats)[s] == from && s !in todo then to else old(seats)[s])
        invariant forall s | s in todo :: s in seats && s.call == call
        decreases todo
      {
        var s :| s in todo;
        seats := seats[s := to];
        todo := todo - {s};
      }
    }

    method ExpireRingingCallAsMissed(call: CallId)
      modifies this`calls, this`seats, this`records
      ensures Db() == Alone(old(Db()), ExpireCall(0, call))
    {
      EndAlone(Db(), ExpireCall(0, call));
      var won := EndIf(call, {RINGING}, MISSED, NO_ANSWER);
      if won { UpdateSeats(call, INVITED, UNANSWERED); }
    }

    method FailRingingCallAsError(call: CallId)
      modifies this`calls, this`records
      ensures Db() == Do(old(Db()), FailCall(call))
    {
      var _ := EndIf(call, {RINGING}, FAILED, ERROR);
    }

    method EndLiveKitFinishedCall(call: CallId)
      modifies this`calls, this`seats, this`records
      ensures Db() == Alone(old(Db()), RoomFinished(0, call))
    {
      EndAlone(Db(), RoomFinished(0, call));
      var won := EndIf(call, {RINGING, ACTIVE}, ENDED, NORMAL);
      if won { UpdateSeats(call, JOINED, LEFT); }
    }

    method Cancel(user: UserId, call: CallId) returns (outcome: Outcome)
      modifies this`calls, this`seats, this`records
      ensures outcome == if call !in old(calls) then NotFound
                         else if old(calls)[call].initiator != user then NotAllowed
                         else if old(calls)[call].status == RINGING || old(calls)[call].status == CANCELED then Done else AlreadyActive
      ensures outcome == Done ==> StatusIs(Db().t, call, CANCELED)
      ensures Db() == if call in old(calls) && old(calls)[call].initiator == user
                      then Alone(old(Db()), CancelCall(0, call)) else old(Db())
    {
      EndAlone(Db(), CancelCall(0, call));
      if call !in calls { return NotFound; }
      if calls[call].initiator != user { return NotAllowed; }
      if calls[call].status == CANCELED { return Done; }
      if calls[call].status != RINGING { return AlreadyActive; }
      var won := EndIf(call, {RINGING}, CANCELED, BY_CALLER);
      if won { UpdateSeats(call, INVITED, UNANSWERED); }
      outcome := Done;
    }

    /** `permitted`: still a friend, or a member of the group. Participant and call change together or not at all. */
    method Accept(user: UserId, call: CallId, expired: bool, permitted: bool) returns (outcome: Outcome)
      modifies this`calls, this`seats, this`records, this`locked
      ensures call in old(calls) && Seat(call, user) in old(seats) ==>
        var live := old(calls)[call].status == RINGING || old(calls)[call].status == ACTIVE;
        var seat := old(seats)[Seat(call, user)];
        outcome == if seat != JOINED && seat != INVITED then NotInvited
                   else if !live then Over
                   else if seat == JOINED then Done
                   else if expired then Expired
                   else if !permitted then NotAllowed else Done
      ensures call !in old(calls) || Seat(call, user) !in old(seats) ==> outcome == NotFound
      ensures outcome == Done ==> Seat(call, user) in seats && seats[Seat(call, user)] == JOINED
      ensures outcome == Done && old(seats)[Seat(call, user)] == INVITED ==> Db() == Alone(old(Db()), AcceptCall(0, call, user))
      ensures outcome == Expired ==> Db() == Alone(old(Db()), ExpireCall(0, call))
      ensures outcome != Expired && !(outcome == Done && old(seats)[Seat(call, user)] == INVITED) ==> Db() == old(Db())
    {
      var seat := Seat(call, user);
      if seat !in seats || call !in calls { return NotFound; }
      if seats[seat] == JOINED {
        return if Live(calls[call]) then Done else Over;
      }
      if seats[seat] != INVITED { return NotInvited; }
      if !Live(calls[call]) { return Over; }
      if expired {
        ExpireRingingCallAsMissed(call);
        return Expired;
      }
      if !permitted { return NotAllowed; }
      AcceptAlone(Db(), user, call);
      if calls[call].single { LockParticipantsForCall([calls[call].initiator, user]); }
      seats := seats[seat := JOINED];
      calls := calls[call := calls[call].(status := ACTIVE)];
      locked := [];
      outcome := Done;
    }

    method EndRingingCallIfNoInviteesRemain(call: CallId, snapshot: CallStatus)
      requires call in calls
      modifies this`calls, this`seats, this`records
      ensures Db() == if snapshot == RINGING && In(old(Db()).t, call, INVITED) == {}
                      then Alone(old(Db()), ExpireCall(0, call)) else old(Db())
    {
      if snapshot != RINGING { return; }
      var remaining := set s | s in seats && s.call == call && seats[s] == INVITED :: s.user;
      if remaining == {} { ExpireRingingCallAsMissed(call); }
    }

    method Reject(user: UserId, call: CallId) returns (outcome: Outcome)
      modifies this`calls, this`seats, this`records
      ensures Db() == Alone(old(Db()), StartReject(0, call, user))
      ensures outcome == Done <==>
        (&& call in old(calls) && Seat(call, user) in old(seats)
         && (old(seats)[Seat(call, user)] == INVITED || old(seats)[Seat(call, user)] == REJECTED))
    {
      var seat := Seat(call, user);
      if seat !in seats || call !in calls { return NotFound; }
      if seats[seat] == REJECTED { return Done; }
      if seats[seat] != INVITED { return NotInvited; }
      var snapshot := calls[call].status;
      seats := seats[seat := REJECTED];
      EndRingingCallIfNoInviteesRemain(call, snapshot);
      outcome := Done;
      RejectAlone(old(Db()), user, call);
    }

    method Leave(user: UserId, call: CallId)
      modifies this`calls, this`seats, this`records
      ensures Db() == Alone(old(Db()), StartLeave(0, call, user))
      ensures Seat(call, user) in old(seats) && old(seats)[Seat(call, user)] == JOINED && call in old(calls) ==>
        Seat(call, user) in seats && seats[Seat(call, user)] == LEFT
    {
      var seat := Seat(call, user);
      if seat !in seats || call !in calls || seats[seat] != JOINED { return; }
      var snapshot := calls[call].status;
      seats := seats[seat := LEFT];
      LeaveAlone(old(Db()), user, call);
      if calls[call].single && snapshot == ACTIVE {
        var won := EndIf(call, {ACTIVE}, ENDED, ALL_LEFT);
        if won { UpdateSeats(call, JOINED, LEFT); }
        return;
      }
      var joined := set s | s in seats && s.call == call && seats[s] == JOINED :: s.user;
      if joined != {} { return; }
      var _ := EndIf(call, {RINGING, ACTIVE}, ENDED, ALL_LEFT);
    }
  }
}
