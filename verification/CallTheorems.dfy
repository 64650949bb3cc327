/** What the invariant of CallInvariant and the shape of the steps give over every run. */
module CallTheorems {
  import opened Common
  import opened CallTables
  import opened CallInvariant

  lemma StartHolds(w: World)
    requires Start(w)
    ensures Inv(w)
  {
  }

  // ----- Quiescence

  /** No reject or leave stands between its write and the ending it may owe. */
  ghost predicate Quiescent(w: World) {
    forall id | id in w.requests ::
      var r := w.requests[id];
      !(r.RejectClaimed? || r.RejectEnding? || r.LeaveWritten? || r.LeaveEnding?)
  }

  /** Whatever the races, a quiet ringing call can be answered and a quiet live call has somebody in it. */
  lemma QuietCallsAreAttended(start: World, ops: seq<Op>, call: CallId)
    requires Start(start) && LegalRun(start, ops) && Quiescent(Run(start, ops))
    requires LiveCall(Run(start, ops).t, call)
    ensures In(Run(start, ops).t, call, JOINED) != {}
    ensures Run(start, ops).t.calls[call].status == RINGING ==> In(Run(start, ops).t, call, INVITED) != {}
  {
    StartHolds(start);
    RunKeeps(start, ops);
    var w := Run(start, ops);
    assert forall id | id in w.requests :: !LeavePending(w.requests[id], call) && !RejectPending(w.requests[id], call);
  }

  predicate InLiveCall(t: Tables, call: CallId, user: UserId) {
    && Seat(call, user) in t.seats && (t.seats[Seat(call, user)] == INVITED || t.seats[Seat(call, user)] == JOINED)
    && call in t.calls && (t.calls[call].status == RINGING || t.calls[call].status == ACTIVE)
  }

  lemma OneLiveCall(t: Tables, a: CallId, b: CallId, user: UserId)
    requires OneCallEach(t) && InLiveCall(t, a, user) && InLiveCall(t, b, user)
    ensures a == b
  {
    assert Engaged(t, Seat(a, user)) && Engaged(t, Seat(b, user));
    assert Seat(a, user) == Seat(b, user);
  }

  /** A user is invited to or joined in at most one live call, in flight requests or not. */
  lemma NobodyIsInTwoCalls(start: World, ops: seq<Op>, a: CallId, b: CallId, user: UserId)
    requires Start(start) && LegalRun(start, ops)
    requires InLiveCall(Run(start, ops).t, a, user) && InLiveCall(Run(start, ops).t, b, user)
    ensures a == b
  {
    StartHolds(start);
    RunKeeps(start, ops);
    OneLiveCall(Run(start, ops).t, a, b, user);
  }

  /** A call is created exactly when none of its participants is invited to, or joined in, a call that rings or is active. */
  lemma CreatedExactlyWhen(w: World, op: Op)
    requires op.CreateCall? && op.call !in w.t.calls
    ensures op.call in Do(w, op).t.calls <==>
      forall s | s in w.t.seats && (s.user == op.initiator || s.user in op.invitees)
                 && s.call in w.t.calls && (w.t.calls[s.call].status == RINGING || w.t.calls[s.call].status == ACTIVE)
        :: w.t.seats[s] != INVITED && w.t.seats[s] != JOINED
  {
  }

  /** Whose calls are all over is not busy, however they ended and whatever the seats were left at. */
  lemma OverCallsKeepNobodyBusy(start: World, ops: seq<Op>, op: Op)
    requires Start(start) && LegalRun(start, ops) && Legal(Run(start, ops), op) && op.CreateCall?
    requires forall s | s in Run(start, ops).t.seats && (s.user == op.initiator || s.user in op.invitees) ::
      s.call in Run(start, ops).t.calls && Run(start, ops).t.calls[s.call].endReason.Some?
    ensures var t := Do(Run(start, ops), op).t;
      && op.call in t.calls && t.calls[op.call].status == RINGING
      && In(t, op.call, JOINED) == {op.initiator} && In(t, op.call, INVITED) == op.invitees
  {
    StartHolds(start);
    RunKeeps(start, ops);
    var w := Run(start, ops);
    CreatedExactlyWhen(w, op);
    var t := Do(w, op).t;
    forall u ensures u in In(t, op.call, JOINED) <==> u == op.initiator {
      assert u == op.initiator ==> Seat(op.call, u) in t.seats && t.seats[Seat(op.call, u)] == JOINED;
    }
    forall u ensures u in In(t, op.call, INVITED) <==> u in op.invitees {
      assert u in op.invitees ==> Seat(op.call, u) in t.seats && t.seats[Seat(op.call, u)] == INVITED;
    }
  }

  // ----- A call is over once

  lemma OverStays(w: World, op: Op, call: CallId)
    requires Requests(w) && Legal(w, op) && call in w.t.calls && !Live(w.t.calls[call])
    ensures var w' := Do(w, op); call in w'.t.calls && w'.t.calls[call] == w.t.calls[call] && Records(w', call) == Records(w, call)
  {
    if op.Next? && op.id in w.requests { OverStaysNext(w, op.id, call); }
  }

  lemma OverStaysNext(w: World, id: RequestId, call: CallId)
    requires Requests(w) && id in w.requests && call in w.t.calls && !Live(w.t.calls[call])
    ensures var w' := Advance(w, id, w.requests[id]);
      call in w'.t.calls && w'.t.calls[call] == w.t.calls[call] && Records(w', call) == Records(w, call)
  {
    FitsNow(w, id);
  }

  /** Once over, a call keeps its status, its reason and its one record for ever. */
  lemma {:induction false} OverForEver(w: World, ops: seq<Op>, call: CallId)
    requires Inv(w) && LegalRun(w, ops) && call in w.t.calls && !Live(w.t.calls[call])
    ensures var w' := Run(w, ops);
      call in w'.t.calls && w'.t.calls[call] == w.t.calls[call] && Records(w', call) == Records(w, call)
    decreases |ops|
  {
    if ops != [] {
      StepKeeps(w, ops[0]);
      OverStays(w, ops[0], call);
      OverForEver(Do(w, ops[0]), ops[1..], call);
    }
  }

  /** Six writers compete, and exactly one record bears the reason of the one that won. */
  lemma OneRecordPerEnding(start: World, ops: seq<Op>, call: CallId)
    requires Start(start) && LegalRun(start, ops) && call in Run(start, ops).t.calls
    ensures var w := Run(start, ops);
      && (Live(w.t.calls[call]) ==> Records(w, call) == [] && w.t.calls[call].endReason == None)
      && (!Live(w.t.calls[call]) ==> w.t.calls[call].endReason.Some? && Records(w, call) == [w.t.calls[call].endReason.value])
  {
    StartHolds(start);
    RunKeeps(start, ops);
  }

  // ----- Seats move forward only

  /** INVITED may become anything; JOINED may only become LEFT; the others are final. */
  predicate Onward(before: SeatStatus, after: SeatStatus) {
    before == after || before == INVITED || (before == JOINED && after == LEFT)
  }

  /** The commit of an accept that read the call ACTIVE. */
  predicate Commits(w: World, op: Op, s: Seat) {
    op.Next? && op.id in w.requests && w.requests[op.id] == AcceptRead(s.call, s.user)
  }

  predicate OnwardIn(live: bool, before: SeatStatus, after: SeatStatus) {
    Onward(before, after) && (after == JOINED && before != JOINED ==> live)
  }

  lemma SeatStep(w: World, op: Op, s: Seat)
    requires Requests(w) && Legal(w, op) && s in w.t.seats
    ensures var w' := Do(w, op); s in w'.t.seats && OnwardIn(LiveCall(w.t, s.call) || Commits(w, op, s), w.t.seats[s], w'.t.seats[s])
  {
    match op
    case CreateCall(_, _, _, _) => CreateSeats(w, op, s);
    case AcceptCall(_, _, _) =>
    case StartReject(_, _, _) =>
    case StartLeave(_, _, _) =>
    case CancelCall(_, _) =>
    case ExpireCall(_, _) =>
    case FailCall(_) =>
    case RoomFinished(_, _) =>
    case Next(id) => if id in w.requests { SeatNext(w, id, s); }
  }

  lemma CreateSeats(w: World, op: Op, s: Seat)
    requires Requests(w) && Legal(w, op) && op.CreateCall? && s in w.t.seats
    ensures var w' := Do(w, op); s in w'.t.seats && w'.t.seats[s] == w.t.seats[s]
  {
  }

  lemma SeatNext(w: World, id: RequestId, s: Seat)
    requires Requests(w) && id in w.requests && s in w.t.seats
    ensures var w' := Advance(w, id, w.requests[id]);
      s in w'.t.seats && OnwardIn(LiveCall(w.t, s.call) || Commits(w, Next(id), s), w.t.seats[s], w'.t.seats[s])
  {
    FitsNow(w, id);
    var r := w.requests[id];
    match r
    case RejectRead(_, _, _) =>
    case RejectClaimed(_, _, _) =>
    case RejectEnding(_) =>
    case LeaveRead(_, _, _) =>
    case LeaveWritten(_, _, _) =>
    case LeaveEnding(_) =>
    case MissingInvited(_) =>
    case LeavingJoined(_) =>
    case AcceptRead(_, _) =>
  }

  lemma {:induction false} SeatsMoveForward(w: World, ops: seq<Op>, s: Seat)
    requires Inv(w) && LegalRun(w, ops) && s in w.t.seats
    ensures s in Run(w, ops).t.seats && Onward(w.t.seats[s], Run(w, ops).t.seats[s])
    decreases |ops|
  {
    if ops != [] {
      StepKeeps(w, ops[0]);
      SeatStep(w, ops[0], s);
      SeatsMoveForward(Do(w, ops[0]), ops[1..], s);
    }
  }

  /** A step lets somebody join a call that is over exactly when it commits an accept that had read it ACTIVE. */
  lemma JoinsEndedCallExactlyWhen(w: World, op: Op, s: Seat)
    requires Requests(w) && Legal(w, op) && s in w.t.seats && !LiveCall(w.t, s.call) && w.t.seats[s] != JOINED
    ensures s in Do(w, op).t.seats && (Do(w, op).t.seats[s] == JOINED <==> Commits(w, op, s))
  {
    SeatStep(w, op, s);
  }

  lemma NoneStarts(w: World, op: Op, s: Seat)
    requires Legal(w, op) && !LiveCall(w.t, s.call) && !Accepting(w, s)
    ensures !Accepting(Do(w, op), s)
  {
    if op.Next? && op.id in w.requests { NoneNext(w, op.id, s); }
  }

  lemma NoneNext(w: World, id: RequestId, s: Seat)
    requires id in w.requests && !Accepting(w, s)
    ensures !Accepting(Advance(w, id, w.requests[id]), s)
  {
  }

  /** With no such accept in flight when a call is over, nobody becomes JOINED in it. */
  lemma {:induction false} NobodyJoinsAnEndedCall(w: World, ops: seq<Op>, s: Seat)
    requires Inv(w) && LegalRun(w, ops) && s in w.t.seats && !Accepting(w, s)
    requires !LiveCall(w.t, s.call) && w.t.seats[s] != JOINED
    ensures s in Run(w, ops).t.seats && Run(w, ops).t.seats[s] != JOINED && !LiveCall(Run(w, ops).t, s.call)
    decreases |ops|
  {
    if ops != [] {
      StepKeeps(w, ops[0]);
      JoinsEndedCallExactlyWhen(w, ops[0], s);
      OverStays(w, ops[0], s.call);
      NoneStarts(w, ops[0], s);
      NobodyJoinsAnEndedCall(Do(w, ops[0]), ops[1..], s);
    }
  }

  const GROUP_CALL: Call := Call(false, 0, ACTIVE, None)
  const TWO_IN: map<Seat, SeatStatus> := map[Seat(0, 0) := JOINED, Seat(0, 1) := JOINED, Seat(0, 2) := INVITED]
  const ONE_TO_COME: World := World(Tables(map[0 := GROUP_CALL], TWO_IN), map[6 := AcceptRead(0, 2)], map[])
  const FINISHING: World := World(
    Tables(map[0 := GROUP_CALL.(status := ENDED, endReason := Some(NORMAL))], TWO_IN),
    map[6 := AcceptRead(0, 2), 7 := LeavingJoined(0)], map[0 := [NORMAL]])
  const CLOSED: World := World(
    Tables(map[0 := GROUP_CALL.(status := ENDED, endReason := Some(NORMAL))], map[Seat(0, 0) := LEFT, Seat(0, 1) := LEFT, Seat(0, 2) := INVITED]),
    map[6 := AcceptRead(0, 2)], map[0 := [NORMAL]])
  const TOO_LATE: World := CLOSED.(
    t := CLOSED.t.(seats := map[Seat(0, 0) := LEFT, Seat(0, 1) := LEFT, Seat(0, 2) := JOINED]), requests := map[])

  lemma GroupStarts(start: World)
    requires Start(start)
    ensures var create := CreateCall(0, false, 0, {1, 2});
      Legal(start, create) && Do(start, create) == World(
        Tables(map[0 := Call(false, 0, RINGING, None)], map[Seat(0, 0) := JOINED, Seat(0, 1) := INVITED, Seat(0, 2) := INVITED]), map[], map[])
  {
    assert NotBusy(start.t, {1, 2} + {0});
    assert 1 in {1, 2};
    assert (map u | u in {1, 2} :: Seat(0, u) := INVITED) == map[Seat(0, 1) := INVITED, Seat(0, 2) := INVITED];
  }

  lemma GroupFills()
    ensures var rung := World(
        Tables(map[0 := Call(false, 0, RINGING, None)], map[Seat(0, 0) := JOINED, Seat(0, 1) := INVITED, Seat(0, 2) := INVITED]), map[], map[]);
      Run(rung, [AcceptCall(5, 0, 1), AcceptCall(6, 0, 2)]) == ONE_TO_COME && LegalRun(rung, [AcceptCall(5, 0, 1), AcceptCall(6, 0, 2)])
  {
    var rung := World(
      Tables(map[0 := Call(false, 0, RINGING, None)], map[Seat(0, 0) := JOINED, Seat(0, 1) := INVITED, Seat(0, 2) := INVITED]), map[], map[]);
    TwoSteps(rung, AcceptCall(5, 0, 1), AcceptCall(6, 0, 2));
    assert Do(rung, AcceptCall(5, 0, 1)) == World(Tables(map[0 := GROUP_CALL], TWO_IN), map[], map[]);
  }

  lemma RoomFinishes()
    ensures Do(ONE_TO_COME, RoomFinished(7, 0)) == FINISHING && Legal(ONE_TO_COME, RoomFinished(7, 0))
  {
    assert ONE_TO_COME.requests[7 := LeavingJoined(0)] == FINISHING.requests;
    assert Records(ONE_TO_COME, 0) + [NORMAL] == [NORMAL];
    assert Finish(ONE_TO_COME, 0, ENDED, NORMAL).records == FINISHING.records;
  }

  lemma EverybodyLeaves()
    ensures Do(FINISHING, Next(7)) == CLOSED && Legal(FINISHING, Next(7))
  {
    assert FINISHING.requests - {7} == CLOSED.requests;
    assert MoveSeats(FINISHING.t, 0, JOINED, LEFT).seats == CLOSED.t.seats;
  }

  lemma GroupCloses()
    ensures Run(ONE_TO_COME, [RoomFinished(7, 0), Next(7)]) == CLOSED && LegalRun(ONE_TO_COME, [RoomFinished(7, 0), Next(7)])
  {
    TwoSteps(ONE_TO_COME, RoomFinished(7, 0), Next(7));
    RoomFinishes();
    EverybodyLeaves();
  }

  lemma CommitIsTooLate()
    ensures Do(CLOSED, Next(6)) == TOO_LATE && Legal(CLOSED, Next(6))
  {
    assert CLOSED.requests - {6} == map[];
    assert CLOSED.t.seats[Seat(0, 2) := JOINED] == TOO_LATE.t.seats;
  }

  /** A run from nothing: the room closes between the read and the commit of an accept. */
  lemma JoinedAfterTheEnd(start: World)
    requires Start(start)
    ensures var ops := [CreateCall(0, false, 0, {1, 2})] + ([AcceptCall(5, 0, 1), AcceptCall(6, 0, 2)] + ([RoomFinished(7, 0), Next(7)] + [Next(6)]));
      LegalRun(start, ops) && Run(start, ops) == TOO_LATE
  {
    GroupStarts(start);
    GroupFills();
    GroupCloses();
    CommitIsTooLate();
    OneStep(CLOSED, Next(6), []);
    assert [Next(6)] + [] == [Next(6)];
    RunJoins(ONE_TO_COME, [RoomFinished(7, 0), Next(7)], [Next(6)]);
    var rung := Do(start, CreateCall(0, false, 0, {1, 2}));
    RunJoins(rung, [AcceptCall(5, 0, 1), AcceptCall(6, 0, 2)], [RoomFinished(7, 0), Next(7)] + [Next(6)]);
    OneStep(start, CreateCall(0, false, 0, {1, 2}), [AcceptCall(5, 0, 1), AcceptCall(6, 0, 2)] + ([RoomFinished(7, 0), Next(7)] + [Next(6)]));
  }

  // ----- Does the first leave end a one-to-one call?

  /**
   * A leave that has written its seat ends the live call exactly when the status it read before
   * that write was ACTIVE in a one-to-one call, or nobody is left joined now.
   */
  lemma LeaveEndsCallExactlyWhen(w: World, id: RequestId)
    requires Inv(w) && id in w.requests && w.requests[id].LeaveWritten? && LiveCall(w.t, w.requests[id].call)
    ensures var r := w.requests[id];
      !LiveCall(Run(w, [Next(id), Next(id)]).t, r.call)
      <==> (w.t.calls[r.call].single && r.snapshot == ACTIVE) || In(w.t, r.call, JOINED) == {}
  {
    TwoSteps(w, Next(id), Next(id));
    WrittenStep(w, id);
  }

  lemma WrittenStep(w: World, id: RequestId)
    requires Requests(w) && Recorded(w) && id in w.requests && w.requests[id].LeaveWritten? && LiveCall(w.t, w.requests[id].call)
    ensures var r := w.requests[id];
      !LiveCall(Do(Do(w, Next(id)), Next(id)).t, r.call)
      <==> (w.t.calls[r.call].single && r.snapshot == ACTIVE) || In(w.t, r.call, JOINED) == {}
  {
    FitsNow(w, id);
  }

  lemma OneStep(w: World, op: Op, rest: seq<Op>)
    ensures Run(w, [op] + rest) == Run(Do(w, op), rest)
    ensures LegalRun(w, [op] + rest) <==> Legal(w, op) && LegalRun(Do(w, op), rest)
  {
  }

  lemma {:induction false} RunJoins(w: World, a: seq<Op>, b: seq<Op>)
    ensures Run(w, a + b) == Run(Run(w, a), b)
    ensures LegalRun(w, a + b) <==> LegalRun(w, a) && LegalRun(Run(w, a), b)
    decreases |a|
  {
    if a == [] {
      assert a + b == b;
    } else {
      assert (a + b)[1..] == a[1..] + b;
      RunJoins(Do(w, a[0]), a[1..], b);
    }
  }

  lemma TwoSteps(w: World, first: Op, second: Op)
    ensures Run(w, [first, second]) == Do(Do(w, first), second)
    ensures LegalRun(w, [first, second]) <==> Legal(w, first) && Legal(Do(w, first), second)
  {
    OneStep(Do(w, first), second, []);
    OneStep(w, first, [second]);
    assert [first] + [second] == [first, second] && [second] + [] == [second];
  }

  const NEW_CALL: World := World(
    Tables(map[0 := Call(true, 0, RINGING, None)], map[Seat(0, 0) := JOINED, Seat(0, 1) := INVITED]), map[], map[])
  const READ: World := NEW_CALL.(requests := map[7 := LeaveRead(0, 0, RINGING)])
  const ANSWERED: World := READ.(t := Tables(map[0 := Call(true, 0, ACTIVE, None)], map[Seat(0, 0) := JOINED, Seat(0, 1) := JOINED]))
  const ALONE: World := ANSWERED.(
    t := ANSWERED.t.(seats := map[Seat(0, 0) := LEFT, Seat(0, 1) := JOINED]),
    requests := map[7 := LeaveWritten(0, 0, RINGING)])

  const LEFT_OPEN: World := ALONE.(requests := map[])

  lemma Created(start: World)
    requires Start(start)
    ensures Do(start, CreateCall(0, true, 0, {1})) == NEW_CALL
  {
  }

  lemma HangupStarts()
    ensures Do(NEW_CALL, StartLeave(7, 0, 0)) == READ
    ensures Do(READ, AcceptCall(8, 0, 1)) == ANSWERED
  {
    assert Do(READ, AcceptCall(8, 0, 1)).t.seats == ANSWERED.t.seats;
  }

  lemma Hangup()
    ensures Do(ANSWERED, Next(7)) == ALONE
    ensures Do(ALONE, Next(7)) == LEFT_OPEN
  {
    assert 1 in In(ALONE.t, 0, JOINED) by { assert ALONE.t.seats[Seat(0, 1)] == JOINED; }
    assert Do(ANSWERED, Next(7)).t.seats == ALONE.t.seats;
    assert ALONE.requests - {7} == map[];
  }

  lemma AfterTheRead()
    ensures Run(READ, [AcceptCall(8, 0, 1), Next(7), Next(7)]) == LEFT_OPEN
    ensures LegalRun(READ, [AcceptCall(8, 0, 1), Next(7), Next(7)])
  {
    HangupStarts();
    Hangup();
    TwoSteps(ANSWERED, Next(7), Next(7));
    OneStep(READ, AcceptCall(8, 0, 1), [Next(7), Next(7)]);
    assert [AcceptCall(8, 0, 1)] + [Next(7), Next(7)] == [AcceptCall(8, 0, 1), Next(7), Next(7)];
  }

  const HANGUP: seq<Op> := [StartLeave(7, 0, 0)] + [AcceptCall(8, 0, 1), Next(7), Next(7)]

  lemma HangupRun(start: World)
    requires Start(start)
    ensures var ops := [CreateCall(0, true, 0, {1})] + HANGUP; Run(start, ops) == LEFT_OPEN && LegalRun(start, ops)
  {
    Created(start);
    AfterTheRead();
    OneStep(NEW_CALL, StartLeave(7, 0, 0), [AcceptCall(8, 0, 1), Next(7), Next(7)]);
    HangupLegal(start);
    OneStep(start, CreateCall(0, true, 0, {1}), HANGUP);
  }

  lemma HangupLegal(start: World)
    requires Start(start)
    ensures Legal(start, CreateCall(0, true, 0, {1})) && Legal(NEW_CALL, StartLeave(7, 0, 0))
    ensures Do(NEW_CALL, StartLeave(7, 0, 0)) == READ
  {
  }

  /**
   * The initiator hangs up while it still rings, the callee answers between the read and the
   * write: the call stays ACTIVE with the callee alone in it, and no request is left to end it.
   */
  lemma OneToOneCallLeftOpen(start: World)
    requires Start(start)
    ensures var ops := [CreateCall(0, true, 0, {1})] + HANGUP;
      var w := Run(start, ops);
      && LegalRun(start, ops)
      && StatusIs(w.t, 0, ACTIVE) && w.t.calls[0].single
      && w.t.seats == map[Seat(0, 0) := LEFT, Seat(0, 1) := JOINED] && w.requests == map[]
  {
    HangupRun(start);
  }

  // ----- Six ways to end

  /** Cancelling, expiry and failure end a ringing call, a finished room a live one, and nothing else, each with its status and reason. */
  lemma EndedFromOutside(w: World, op: Op, call: CallId)
    requires call in w.t.calls && (op.CancelCall? || op.ExpireCall? || op.FailCall? || op.RoomFinished?)
    ensures var c := w.t.calls[call];
      call in Do(w, op).t.calls && Do(w, op).t.calls[call] ==
        if op.call != call then c
        else if op.RoomFinished? && (c.status == RINGING || c.status == ACTIVE) then c.(status := ENDED, endReason := Some(NORMAL))
        else if c.status != RINGING then c
        else if op.CancelCall? then c.(status := CANCELED, endReason := Some(BY_CALLER))
        else if op.ExpireCall? then c.(status := MISSED, endReason := Some(NO_ANSWER))
        else c.(status := FAILED, endReason := Some(ERROR))
  {
  }

  /** The last reject ends a ringing call as missed, the last leave a live one as left by all; no other statement in flight changes a call. */
  lemma EndedFromInside(w: World, id: RequestId, call: CallId)
    requires id in w.requests && call in w.t.calls
    ensures var c := w.t.calls[call]; var r := w.requests[id];
      call in Do(w, Next(id)).t.calls && Do(w, Next(id)).t.calls[call] ==
        if r.RejectEnding? && r.call == call && c.status == RINGING then c.(status := MISSED, endReason := Some(NO_ANSWER))
        else if r.LeaveEnding? && r.call == call && (c.status == RINGING || c.status == ACTIVE) then c.(status := ENDED, endReason := Some(ALL_LEFT))
        else if r.LeaveWritten? && r.call == call && c.single && r.snapshot == ACTIVE && c.status == ACTIVE then c.(status := ENDED, endReason := Some(ALL_LEFT))
        else c
  {
  }

  /** Accepting makes a ringing call active, and leaves every call that has ended as it is. */
  lemma AcceptingActivates(w: World, op: Op, call: CallId)
    requires Requests(w) && call in w.t.calls && op.AcceptCall?
    ensures var c := w.t.calls[call];
      call in Do(w, op).t.calls && Do(w, op).t.calls[call] ==
        if op.call == call && c.status == RINGING && Seat(call, op.user) in w.t.seats
           && (w.t.seats[Seat(call, op.user)] == INVITED || w.t.seats[Seat(call, op.user)] == JOINED)
        then c.(status := ACTIVE) else c
  {
  }
}
