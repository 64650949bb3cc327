/** Every statement of every request keeps the invariant of CallTables. */
module CallInvariant {
  import opened Common
  import opened CallTables

  // ----- A step touches one call, and one request at most

  ghost predicate Touches(w: World, w': World, id: RequestId, call: CallId) {
    && (forall c | c != call :: (c in w'.t.calls <==> c in w.t.calls) && (c in w.t.calls ==> w'.t.calls[c] == w.t.calls[c]))
    && (forall s: Seat | s.call != call :: (s in w'.t.seats <==> s in w.t.seats) && (s in w.t.seats ==> w'.t.seats[s] == w.t.seats[s]))
    && (forall k | k != id :: (k in w'.requests <==> k in w.requests) && (k in w.requests ==> w'.requests[k] == w.requests[k]))
    && (id in w.requests ==> w.requests[id].call == call)
  }

  ghost predicate AnswerableAt(w: World, call: CallId) {
    call in w.t.calls && w.t.calls[call].status == RINGING && In(w.t, call, INVITED) == {}
    ==> exists id :: id in w.requests && RejectPending(w.requests[id], call)
  }

  ghost predicate AttendedAt(w: World, call: CallId) {
    call in w.t.calls && Live(w.t.calls[call]) && In(w.t, call, JOINED) == {}
    ==> exists id :: id in w.requests && LeavePending(w.requests[id], call)
  }

  lemma SameIn(t: Tables, t': Tables, call: CallId, status: SeatStatus)
    requires forall s: Seat | s.call == call ::
        (s in t'.seats && t'.seats[s] == status) <==> (s in t.seats && t.seats[s] == status)
    ensures In(t', call, status) == In(t, call, status)
  {
  }

  lemma OthersAnswerable(w: World, w': World, id: RequestId, call: CallId)
    requires Answerable(w) && Touches(w, w', id, call) && AnswerableAt(w', call)
    ensures Answerable(w')
  {
  }

  lemma OthersAttended(w: World, w': World, id: RequestId, call: CallId)
    requires Attended(w) && Touches(w, w', id, call) && AttendedAt(w', call)
    ensures Attended(w')
  {
  }

  /** Seats only stop being engaged, or keep their user in the same call. */
  lemma FewerEngaged(t: Tables, t': Tables)
    requires OneCallEach(t)
    requires forall s | s in t'.seats && Engaged(t', s) :: Engaged(t, s)
    ensures OneCallEach(t')
  {
  }

  // ----- Ending a call

  lemma FinishKeeps(w: World, call: CallId, status: CallStatus, reason: EndReason, w': World)
    requires Inv(w) && LiveCall(w.t, call) && status != RINGING && status != ACTIVE
    requires w' == Finish(w, call, status, reason)
    ensures Inv(w')
  {
    FinishAnswers(w, call, status, reason, w');
    FewerEngaged(w.t, w'.t);
    FinishRecords(w, call, status, reason, w');
    FinishRequests(w, call, status, reason, w');
  }

  lemma FinishAnswers(w: World, call: CallId, status: CallStatus, reason: EndReason, w': World)
    requires Answerable(w) && Attended(w) && LiveCall(w.t, call) && status != RINGING && status != ACTIVE
    requires w' == Finish(w, call, status, reason)
    ensures Answerable(w') && Attended(w')
  {
  }

  lemma FinishRecords(w: World, call: CallId, status: CallStatus, reason: EndReason, w': World)
    requires Recorded(w) && LiveCall(w.t, call) && status != RINGING && status != ACTIVE
    requires w' == Finish(w, call, status, reason)
    ensures Recorded(w')
  {
  }

  lemma FinishRequests(w: World, call: CallId, status: CallStatus, reason: EndReason, w': World)
    requires Requests(w) && LiveCall(w.t, call) && status != RINGING && status != ACTIVE
    requires w' == Finish(w, call, status, reason)
    ensures Requests(w')
  {
  }

  /** A request that no ringing or unattended call waits for may stop or move on. */
  lemma RequestMoves(w: World, id: RequestId, next: Option<Request>, w': World)
    requires Inv(w)
    requires w' == (if next.Some? then Continue(w, id, next.value) else Drop(w, id))
    requires next.Some? ==> RequestFits(w.t, next.value) && (next.value.AcceptRead? ==> !Accepting(w, Seat(next.value.call, next.value.user)))
    requires id in w.requests ==>
        var call := w.requests[id].call;
        && (RejectPending(w.requests[id], call) ==> (next.Some? && RejectPending(next.value, call)) || !StatusIs(w.t, call, RINGING) || In(w.t, call, INVITED) != {})
        && (LeavePending(w.requests[id], call) ==> (next.Some? && LeavePending(next.value, call)) || !LiveCall(w.t, call) || In(w.t, call, JOINED) != {})
    ensures Inv(w')
  {
    RequestMovesPending(w, id, next, w');
    assert Requests(w') && Recorded(w') && OneCallEach(w'.t);
  }

  lemma RequestMovesPending(w: World, id: RequestId, next: Option<Request>, w': World)
    requires Answerable(w) && Attended(w)
    requires w' == (if next.Some? then Continue(w, id, next.value) else Drop(w, id))
    requires id in w.requests ==>
        var call := w.requests[id].call;
        && (RejectPending(w.requests[id], call) ==> (next.Some? && RejectPending(next.value, call)) || !StatusIs(w.t, call, RINGING) || In(w.t, call, INVITED) != {})
        && (LeavePending(w.requests[id], call) ==> (next.Some? && LeavePending(next.value, call)) || !LiveCall(w.t, call) || In(w.t, call, JOINED) != {})
    ensures Answerable(w') && Attended(w')
  {
    forall c | c in w'.t.calls && w'.t.calls[c].status == RINGING && In(w'.t, c, INVITED) == {}
      ensures exists k :: k in w'.requests && RejectPending(w'.requests[k], c)
    {
      var k :| k in w.requests && RejectPending(w.requests[k], c);
      assert k in w'.requests && RejectPending(w'.requests[k], c);
    }
    forall c | c in w'.t.calls && Live(w'.t.calls[c]) && In(w'.t, c, JOINED) == {}
      ensures exists k :: k in w'.requests && LeavePending(w'.requests[k], c)
    {
      var k :| k in w.requests && LeavePending(w.requests[k], c);
      assert k in w'.requests && LeavePending(w'.requests[k], c);
    }
  }

  /** A new request takes over where the winner of an ending stands. */
  lemma EndingKeeps(w: World, call: CallId, status: CallStatus, reason: EndReason, id: RequestId, next: Option<Request>, w': World)
    requires Inv(w) && LiveCall(w.t, call) && status != RINGING && status != ACTIVE
    requires id in w.requests ==> w.requests[id].call == call
    requires next.Some? ==> next.value == MissingInvited(call) || next.value == LeavingJoined(call)
    requires var f := Finish(w, call, status, reason); w' == (if next.Some? then Continue(f, id, next.value) else Drop(f, id))
    ensures Inv(w')
  {
    var f := Finish(w, call, status, reason);
    FinishKeeps(w, call, status, reason, f);
    RequestMoves(f, id, next, w');
  }

  // ----- Creating and accepting

  lemma CreateKeeps(w: World, op: Op)
    requires Inv(w) && Legal(w, op) && op.CreateCall?
    ensures Inv(Do(w, op))
  {
    if NotBusy(w.t, op.invitees + {op.initiator}) {
      CreateAnswers(w, op);
      CreateEngages(w, op);
      CreateRest(w, op);
    }
  }

  lemma CreateAnswers(w: World, op: Op)
    requires Answerable(w) && Attended(w) && Requests(w) && Legal(w, op) && op.CreateCall? && NotBusy(w.t, op.invitees + {op.initiator})
    ensures var w' := Do(w, op); Answerable(w') && Attended(w')
  {
    var w' := Do(w, op);
    var someone :| someone in op.invitees;
    assert w'.t.seats[Seat(op.call, someone)] == INVITED;
    assert someone in In(w'.t, op.call, INVITED);
    assert w'.t.seats[Seat(op.call, op.initiator)] == JOINED;
    assert op.initiator in In(w'.t, op.call, JOINED);
    forall c | c in w.t.calls ensures In(w'.t, c, INVITED) == In(w.t, c, INVITED) && In(w'.t, c, JOINED) == In(w.t, c, JOINED) {
      SameIn(w.t, w'.t, c, INVITED);
      SameIn(w.t, w'.t, c, JOINED);
    }
  }

  lemma CreateEngages(w: World, op: Op)
    requires OneCallEach(w.t) && Requests(w) && Legal(w, op) && op.CreateCall? && NotBusy(w.t, op.invitees + {op.initiator})
    ensures OneCallEach(Do(w, op).t)
  {
    var t, t' := w.t, Do(w, op).t;
    forall a, b | a in t'.seats && b in t'.seats && a.user == b.user && Engaged(t', a) && Engaged(t', b) ensures a == b {
      if a.call != op.call { assert a in t.seats && Engaged(t, a); }
      if b.call != op.call { assert b in t.seats && Engaged(t, b); }
    }
  }

  lemma CreateRest(w: World, op: Op)
    requires Recorded(w) && Requests(w) && Legal(w, op) && op.CreateCall? && NotBusy(w.t, op.invitees + {op.initiator})
    ensures var w' := Do(w, op); Recorded(w') && Requests(w')
  {
    var w' := Do(w, op);
    forall id | id in w'.requests ensures RequestFits(w'.t, w'.requests[id]) { assert RequestFits(w.t, w.requests[id]); }
  }

  /** An active call is read here, and joined at the commit. */
  predicate ReadsActive(w: World, op: Op)
    requires op.AcceptCall?
  {
    StatusIs(w.t, op.call, ACTIVE) && Seat(op.call, op.user) in w.t.seats && w.t.seats[Seat(op.call, op.user)] == INVITED
  }

  lemma AcceptKeeps(w: World, op: Op)
    requires Inv(w) && Legal(w, op) && op.AcceptCall?
    ensures Inv(Do(w, op))
  {
    if ReadsActive(w, op) {
      RequestMoves(w, op.id, Some(AcceptRead(op.call, op.user)), Do(w, op));
    } else if CanAccept(w.t, op.call, op.user) {
      AcceptAnswers(w, op);
      FewerEngaged(w.t, Do(w, op).t);
      AcceptRest(w, op);
    }
  }

  lemma AcceptAnswers(w: World, op: Op)
    requires Answerable(w) && Attended(w) && op.AcceptCall? && CanAccept(w.t, op.call, op.user) && !ReadsActive(w, op)
    ensures var w' := Do(w, op); Answerable(w') && Attended(w')
  {
    var w' := Do(w, op);
    assert w'.t.seats[Seat(op.call, op.user)] == JOINED;
    assert op.user in In(w'.t, op.call, JOINED);
    forall c | c in w.t.calls && c != op.call
      ensures In(w'.t, c, INVITED) == In(w.t, c, INVITED) && In(w'.t, c, JOINED) == In(w.t, c, JOINED)
    {
      SameIn(w.t, w'.t, c, INVITED);
      SameIn(w.t, w'.t, c, JOINED);
    }
  }

  lemma AcceptRest(w: World, op: Op)
    requires Recorded(w) && Requests(w) && op.AcceptCall? && CanAccept(w.t, op.call, op.user) && !ReadsActive(w, op)
    ensures var w' := Do(w, op); Recorded(w') && Requests(w')
  {
    var w' := Do(w, op);
    forall id | id in w'.requests ensures RequestFits(w'.t, w'.requests[id]) { assert RequestFits(w.t, w.requests[id]); }
  }

  lemma CommitKeeps(w: World, id: RequestId, r: Request)
    requires Inv(w) && id in w.requests && w.requests[id] == r && r.AcceptRead?
    ensures Inv(Advance(w, id, r))
  {
    FitsNow(w, id);
    CommitAnswers(w, id, r);
    CommitRest(w, id, r);
  }

  lemma CommitAnswers(w: World, id: RequestId, r: Request)
    requires Answerable(w) && Attended(w) && id in w.requests && w.requests[id] == r && r.AcceptRead? && RequestFits(w.t, r)
    ensures var w' := Advance(w, id, r); Answerable(w') && Attended(w')
  {
    var w' := Advance(w, id, r);
    assert w'.t.seats[Seat(r.call, r.user)] == JOINED;
    assert r.user in In(w'.t, r.call, JOINED);
    OthersAnswerable(w, w', id, r.call);
    OthersAttended(w, w', id, r.call);
  }

  lemma CommitRest(w: World, id: RequestId, r: Request)
    requires OneCallEach(w.t) && Recorded(w) && Requests(w)
    requires id in w.requests && w.requests[id] == r && r.AcceptRead? && RequestFits(w.t, r)
    ensures var w' := Advance(w, id, r); OneCallEach(w'.t) && Recorded(w') && Requests(w')
  {
    var w' := Advance(w, id, r);
    FewerEngaged(w.t, w'.t);
    forall k | k in w'.requests ensures RequestFits(w'.t, w'.requests[k]) { assert RequestFits(w.t, w.requests[k]); }
  }

  // ----- Rejecting and leaving, statement by statement

  lemma RejectReadKeeps(w: World, id: RequestId, r: Request)
    requires Inv(w) && id in w.requests && w.requests[id] == r && r.RejectRead? && !Accepting(w, Seat(r.call, r.user))
    ensures Inv(Advance(w, id, r))
  {
    var s := Seat(r.call, r.user);
    if s in w.t.seats && w.t.seats[s] == INVITED {
      FitsNow(w, id);
      RejectReadAnswers(w, id, r);
      RejectReadRest(w, id, r);
    } else {
      RequestMoves(w, id, None, Drop(w, id));
    }
  }

  lemma RejectReadRest(w: World, id: RequestId, r: Request)
    requires OneCallEach(w.t) && Recorded(w) && Requests(w)
    requires id in w.requests && w.requests[id] == r && r.RejectRead? && RequestFits(w.t, r) && !Accepting(w, Seat(r.call, r.user))
    requires var s := Seat(r.call, r.user); s in w.t.seats && w.t.seats[s] == INVITED
    ensures var w' := Advance(w, id, r); OneCallEach(w'.t) && Recorded(w') && Requests(w')
  {
    var w' := Advance(w, id, r);
    FewerEngaged(w.t, w'.t);
    SeatRest(w, id, r, w', Seat(r.call, r.user), REJECTED);
  }

  lemma FitsNow(w: World, id: RequestId)
    requires Requests(w) && id in w.requests
    ensures RequestFits(w.t, w.requests[id])
  {
  }

  lemma RejectReadAnswers(w: World, id: RequestId, r: Request)
    requires Answerable(w) && Attended(w) && id in w.requests && w.requests[id] == r && r.RejectRead? && RequestFits(w.t, r)
    requires var s := Seat(r.call, r.user); s in w.t.seats && w.t.seats[s] == INVITED
    ensures var w' := Advance(w, id, r); Answerable(w') && Attended(w')
  {
    var w' := Advance(w, id, r);
    if r.snapshot == RINGING { assert RejectPending(w'.requests[id], r.call); }
    OthersAnswerable(w, w', id, r.call);
    SameIn(w.t, w'.t, r.call, JOINED);
    if LiveCall(w.t, r.call) && In(w.t, r.call, JOINED) == {} {
      var k :| k in w.requests && LeavePending(w.requests[k], r.call);
      assert k in w'.requests && LeavePending(w'.requests[k], r.call);
    }
    OthersAttended(w, w', id, r.call);
  }

  /** A seat write and the move of its request keep records and requests in order. */
  lemma SeatRest(w: World, id: RequestId, r: Request, w': World, s: Seat, to: SeatStatus)
    requires Recorded(w) && Requests(w) && id in w.requests && w.requests[id] == r && s in w.t.seats
    requires w'.t == w.t.(seats := w.t.seats[s := to]) && w'.records == w.records
    requires w'.requests.Keys == w.requests.Keys && (forall k | k in w.requests && k != id :: w'.requests[k] == w.requests[k])
    requires RequestFits(w.t, w'.requests[id]) && !w'.requests[id].LeaveRead?
    requires !w'.requests[id].AcceptRead? && !Accepting(w, s)
    requires to == LEFT || (to == REJECTED && w.t.seats[s] == INVITED)
    ensures Recorded(w') && Requests(w')
  {
  }

  lemma LeaveReadKeeps(w: World, id: RequestId, r: Request)
    requires Inv(w) && id in w.requests && w.requests[id] == r && r.LeaveRead?
    ensures Inv(Advance(w, id, r))
  {
    FitsNow(w, id);
    LeaveReadAnswers(w, id, r);
    LeaveReadRest(w, id, r);
  }

  lemma LeaveReadRest(w: World, id: RequestId, r: Request)
    requires OneCallEach(w.t) && Recorded(w) && Requests(w)
    requires id in w.requests && w.requests[id] == r && r.LeaveRead? && RequestFits(w.t, r)
    ensures var w' := Advance(w, id, r); OneCallEach(w'.t) && Recorded(w') && Requests(w')
  {
    var w' := Advance(w, id, r);
    FewerEngaged(w.t, w'.t);
    SeatRest(w, id, r, w', Seat(r.call, r.user), LEFT);
  }

  lemma LeaveReadAnswers(w: World, id: RequestId, r: Request)
    requires Answerable(w) && Attended(w) && id in w.requests && w.requests[id] == r && r.LeaveRead? && RequestFits(w.t, r)
    ensures var w' := Advance(w, id, r); Answerable(w') && Attended(w')
  {
    var w' := Advance(w, id, r);
    assert LeavePending(w'.requests[id], r.call);
    OthersAttended(w, w', id, r.call);
    SameIn(w.t, w'.t, r.call, INVITED);
    if StatusIs(w.t, r.call, RINGING) && In(w.t, r.call, INVITED) == {} {
      var k :| k in w.requests && RejectPending(w.requests[k], r.call);
      assert k in w'.requests && RejectPending(w'.requests[k], r.call);
    }
    OthersAnswerable(w, w', id, r.call);
  }

  lemma LeaveWrittenKeeps(w: World, id: RequestId, r: Request)
    requires Inv(w) && id in w.requests && w.requests[id] == r && r.LeaveWritten?
    ensures Inv(Advance(w, id, r))
  {
    FitsNow(w, id);
    if w.t.calls[r.call].single && r.snapshot == ACTIVE {
      if StatusIs(w.t, r.call, ACTIVE) {
        EndingKeeps(w, r.call, ENDED, ALL_LEFT, id, Some(LeavingJoined(r.call)), Advance(w, id, r));
      } else {
        RequestMoves(w, id, None, Drop(w, id));
      }
    } else if In(w.t, r.call, JOINED) != {} {
      RequestMoves(w, id, None, Drop(w, id));
    } else {
      RequestMoves(w, id, Some(LeaveEnding(r.call)), Advance(w, id, r));
    }
  }

  lemma RejectClaimedKeeps(w: World, id: RequestId, r: Request)
    requires Inv(w) && id in w.requests && w.requests[id] == r && (r.RejectClaimed? || r.RejectEnding? || r.LeaveEnding?)
    ensures Inv(Advance(w, id, r))
  {
    FitsNow(w, id);
    match r
    case RejectClaimed(call, _, snapshot) =>
      if snapshot != RINGING || In(w.t, call, INVITED) != {} {
        RequestMoves(w, id, None, Drop(w, id));
      } else {
        RequestMoves(w, id, Some(RejectEnding(call)), Advance(w, id, r));
      }
    case RejectEnding(call) =>
      if StatusIs(w.t, call, RINGING) {
        EndingKeeps(w, call, MISSED, NO_ANSWER, id, Some(MissingInvited(call)), Advance(w, id, r));
      } else {
        RequestMoves(w, id, None, Drop(w, id));
      }
    case LeaveEnding(call) =>
      if LiveCall(w.t, call) {
        EndingKeeps(w, call, ENDED, ALL_LEFT, id, None, Advance(w, id, r));
      } else {
        RequestMoves(w, id, None, Drop(w, id));
      }
  }

  lemma MoveSeatsKeeps(w: World, id: RequestId, r: Request)
    requires Inv(w) && id in w.requests && w.requests[id] == r && (r.MissingInvited? || r.LeavingJoined?)
    requires r.MissingInvited? ==> forall s | s in w.t.seats && s.call == r.call :: !Accepting(w, s)
    ensures Inv(Advance(w, id, r))
  {
    FitsNow(w, id);
    var from, to := if r.MissingInvited? then INVITED else JOINED, if r.MissingInvited? then UNANSWERED else LEFT;
    var w' := w.(t := MoveSeats(w.t, r.call, from, to));
    MoveAnswers(w, w', r.call, from, to);
    FewerEngaged(w.t, w'.t);
    MoveRest(w, w', r.call, from, to);
    RequestMoves(w', id, None, Advance(w, id, r));
  }

  lemma MoveAnswers(w: World, w': World, call: CallId, from: SeatStatus, to: SeatStatus)
    requires Answerable(w) && Attended(w) && call in w.t.calls && !Live(w.t.calls[call])
    requires w' == w.(t := MoveSeats(w.t, call, from, to))
    ensures Answerable(w') && Attended(w')
  {
  }

  lemma MoveRest(w: World, w': World, call: CallId, from: SeatStatus, to: SeatStatus)
    requires Recorded(w) && Requests(w) && call in w.t.calls
    requires (from == INVITED && to == UNANSWERED) || (from == JOINED && to == LEFT)
    requires from == INVITED ==> forall s | s in w.t.seats && s.call == call :: !Accepting(w, s)
    requires w' == w.(t := MoveSeats(w.t, call, from, to))
    ensures Recorded(w') && Requests(w')
  {
  }

  lemma NextKeeps(w: World, id: RequestId)
    requires Inv(w) && id in w.requests && Legal(w, Next(id))
    ensures Inv(Advance(w, id, w.requests[id]))
  {
    var r := w.requests[id];
    match r
    case RejectRead(_, _, _) => RejectReadKeeps(w, id, r);
    case RejectClaimed(_, _, _) => RejectClaimedKeeps(w, id, r);
    case RejectEnding(_) => RejectClaimedKeeps(w, id, r);
    case LeaveRead(_, _, _) => LeaveReadKeeps(w, id, r);
    case LeaveWritten(_, _, _) => LeaveWrittenKeeps(w, id, r);
    case LeaveEnding(_) => RejectClaimedKeeps(w, id, r);
    case MissingInvited(_) => MoveSeatsKeeps(w, id, r);
    case LeavingJoined(_) => MoveSeatsKeeps(w, id, r);
    case AcceptRead(_, _) => CommitKeeps(w, id, r);
  }

  lemma StartsKeep(w: World, op: Op)
    requires Inv(w) && Legal(w, op) && (op.StartReject? || op.StartLeave?)
    ensures Inv(Do(w, op))
  {
    var s := Seat(op.call, op.user);
    if s in w.t.seats && op.call in w.t.calls {
      var status := w.t.calls[op.call].status;
      if op.StartReject? && w.t.seats[s] == INVITED {
        RequestMoves(w, op.id, Some(RejectRead(op.call, op.user, status)), Do(w, op));
      } else if op.StartLeave? && w.t.seats[s] == JOINED {
        RequestMoves(w, op.id, Some(LeaveRead(op.call, op.user, status)), Do(w, op));
      }
    }
  }

  lemma EndsKeep(w: World, op: Op)
    requires Inv(w) && Legal(w, op) && (op.CancelCall? || op.ExpireCall? || op.FailCall? || op.RoomFinished?)
    ensures Inv(Do(w, op))
  {
    match op
    case CancelCall(id, call) =>
      if StatusIs(w.t, call, RINGING) { EndingKeeps(w, call, CANCELED, BY_CALLER, id, Some(MissingInvited(call)), Do(w, op)); }
    case ExpireCall(id, call) =>
      if StatusIs(w.t, call, RINGING) { EndingKeeps(w, call, MISSED, NO_ANSWER, id, Some(MissingInvited(call)), Do(w, op)); }
    case FailCall(call) =>
      if StatusIs(w.t, call, RINGING) { FinishKeeps(w, call, FAILED, ERROR, Do(w, op)); }
    case RoomFinished(id, call) =>
      if LiveCall(w.t, call) { EndingKeeps(w, call, ENDED, NORMAL, id, Some(LeavingJoined(call)), Do(w, op)); }
  }

  lemma StepKeeps(w: World, op: Op)
    requires Inv(w) && Legal(w, op)
    ensures Inv(Do(w, op))
  {
    match op
    case CreateCall(_, _, _, _) => CreateKeeps(w, op);
    case AcceptCall(_, _, _) => AcceptKeeps(w, op);
    case StartReject(_, _, _) => StartsKeep(w, op);
    case StartLeave(_, _, _) => StartsKeep(w, op);
    case CancelCall(_, _) => EndsKeep(w, op);
    case ExpireCall(_, _) => EndsKeep(w, op);
    case FailCall(_) => EndsKeep(w, op);
    case RoomFinished(_, _) => EndsKeep(w, op);
    case Next(id) => if id in w.requests { NextKeeps(w, id); }
  }

  lemma {:induction false} RunKeeps(w: World, ops: seq<Op>)
    requires Inv(w) && LegalRun(w, ops)
    ensures Inv(Run(w, ops))
    decreases |ops|
  {
    if ops != [] {
      StepKeeps(w, ops[0]);
      RunKeeps(Do(w, ops[0]), ops[1..]);
    }
  }
}
