/**
 * Calls, their participants, and the requests in flight between two statements. Creating is a
 * transaction, and so is accepting a ringing call; accepting an active one, rejecting, leaving and every ending are sequences of conditional
 * writes, so their intermediate points are states of the model.
 */
module CallTables {
  import opened Common

  type CallId = nat
  type UserId = nat
  type RequestId = nat

  datatype CallStatus = RINGING | ACTIVE | ENDED | CANCELED | MISSED | FAILED
  datatype EndReason = ALL_LEFT | NORMAL | BY_CALLER | NO_ANSWER | ERROR
  datatype SeatStatus = INVITED | JOINED | REJECTED | LEFT | UNANSWERED

  datatype Call = Call(single: bool, initiator: UserId, status: CallStatus, endReason: Option<EndReason>)
  datatype Seat = Seat(call: CallId, user: UserId)
  datatype Tables = Tables(calls: map<CallId, Call>, seats: map<Seat, SeatStatus>)

  predicate Live(c: Call) {
    c.status == RINGING || c.status == ACTIVE
  }

  predicate LiveCall(t: Tables, call: CallId) {
    call in t.calls && Live(t.calls[call])
  }

  /** The users whose seat in the call has this status. */
  function In(t: Tables, call: CallId, status: SeatStatus): set<UserId> {
    set s | s in t.seats && s.call == call && t.seats[s] == status :: s.user
  }

  /** Busy: invited to, or joined in, a call that is ringing or active. */
  predicate Engaged(t: Tables, s: Seat) {
    s in t.seats && (t.seats[s] == INVITED || t.seats[s] == JOINED) && LiveCall(t, s.call)
  }

  predicate NotBusy(t: Tables, users: set<UserId>) {
    forall s | s in t.seats && s.user in users :: !Engaged(t, s)
  }

  // ----- Transactions and conditional writes

  /** One seat a participant: the initiator has joined, the others are invited. */
  function Create(t: Tables, call: CallId, single: bool, initiator: UserId, invitees: set<UserId>): Tables {
    Tables(
      t.calls[call := Call(single, initiator, RINGING, None)],
      t.seats
      + (map u | u in invitees :: Seat(call, u) := INVITED)
      + map[Seat(call, initiator) := JOINED])
  }

  predicate CanAccept(t: Tables, call: CallId, user: UserId) {
    && LiveCall(t, call)
    && Seat(call, user) in t.seats
    && (t.seats[Seat(call, user)] == INVITED || t.seats[Seat(call, user)] == JOINED)
  }

  /** Both writes or none: an ended call rolls the participant back. */
  function Accept(t: Tables, call: CallId, user: UserId): Tables {
    if CanAccept(t, call, user)
    then Tables(t.calls[call := t.calls[call].(status := ACTIVE)], t.seats[Seat(call, user) := JOINED])
    else t
  }

  function End(t: Tables, call: CallId, status: CallStatus, reason: EndReason): Tables
    requires call in t.calls
  {
    t.(calls := t.calls[call := t.calls[call].(status := status, endReason := Some(reason))])
  }

  /** `updateMany` on the participants of one call. */
  function MoveSeats(t: Tables, call: CallId, from: SeatStatus, to: SeatStatus): Tables {
    t.(seats := map s | s in t.seats :: if s.call == call && t.seats[s] == from then to else t.seats[s])
  }

  // ----- Requests between two statements

  datatype Request =
    | RejectRead(call: CallId, user: UserId, snapshot: CallStatus)
    | RejectClaimed(call: CallId, user: UserId, snapshot: CallStatus)
    | RejectEnding(call: CallId)
    | LeaveRead(call: CallId, user: UserId, snapshot: CallStatus)
    | LeaveWritten(call: CallId, user: UserId, snapshot: CallStatus)
    | LeaveEnding(call: CallId)
    | MissingInvited(call: CallId)
    | LeavingJoined(call: CallId)
    | AcceptRead(call: CallId, user: UserId)

  datatype World = World(t: Tables, requests: map<RequestId, Request>, records: map<CallId, seq<EndReason>>)

  datatype Op =
    | CreateCall(call: CallId, single: bool, initiator: UserId, invitees: set<UserId>)
    | AcceptCall(id: RequestId, call: CallId, user: UserId)
    | StartReject(id: RequestId, call: CallId, user: UserId)
    | StartLeave(id: RequestId, call: CallId, user: UserId)
    | CancelCall(id: RequestId, call: CallId)
    | ExpireCall(id: RequestId, call: CallId)
    | FailCall(call: CallId)
    | RoomFinished(id: RequestId, call: CallId)
    | Next(id: RequestId)

  function Records(w: World, call: CallId): seq<EndReason> {
    if call in w.records then w.records[call] else []
  }

  /** Winning the conditional write that ends a call: the only place a call record is sent. */
  function Finish(w: World, call: CallId, status: CallStatus, reason: EndReason): World
    requires call in w.t.calls
  {
    w.(t := End(w.t, call, status, reason), records := w.records[call := Records(w, call) + [reason]])
  }

  function Continue(w: World, id: RequestId, r: Request): World {
    w.(requests := w.requests[id := r])
  }

  function Drop(w: World, id: RequestId): World {
    w.(requests := w.requests - {id})
  }

  predicate StatusIs(t: Tables, call: CallId, status: CallStatus) {
    call in t.calls && t.calls[call].status == status
  }

  /** The next statement of a request. */
  function Advance(w: World, id: RequestId, r: Request): World {
    match r
    case RejectRead(call, user, snapshot) =>
      var s := Seat(call, user);
      if s in w.t.seats && w.t.seats[s] == INVITED
      then Continue(w.(t := w.t.(seats := w.t.seats[s := REJECTED])), id, RejectClaimed(call, user, snapshot))
      else Drop(w, id)
    case RejectClaimed(call, _, snapshot) =>
      if snapshot != RINGING || In(w.t, call, INVITED) != {} then Drop(w, id) else Continue(w, id, RejectEnding(call))
    case RejectEnding(call) =>
      if StatusIs(w.t, call, RINGING)
      then Continue(Finish(w, call, MISSED, NO_ANSWER), id, MissingInvited(call)) else Drop(w, id)
    case LeaveRead(call, user, snapshot) =>
      Continue(w.(t := w.t.(seats := w.t.seats[Seat(call, user) := LEFT])), id, LeaveWritten(call, user, snapshot))
    case LeaveWritten(call, _, snapshot) =>
      if call in w.t.calls && w.t.calls[call].single && snapshot == ACTIVE then
        if StatusIs(w.t, call, ACTIVE)
        then Continue(Finish(w, call, ENDED, ALL_LEFT), id, LeavingJoined(call)) else Drop(w, id)
      else if In(w.t, call, JOINED) != {} then Drop(w, id)
      else Continue(w, id, LeaveEnding(call))
    case LeaveEnding(call) =>
      if LiveCall(w.t, call) then Drop(Finish(w, call, ENDED, ALL_LEFT), id) else Drop(w, id)
    case MissingInvited(call) => Drop(w.(t := MoveSeats(w.t, call, INVITED, UNANSWERED)), id)
    case LeavingJoined(call) => Drop(w.(t := MoveSeats(w.t, call, JOINED, LEFT)), id)
    case AcceptRead(call, user) => Drop(w.(t := w.t.(seats := w.t.seats[Seat(call, user) := JOINED])), id)
  }

  function Do(w: World, op: Op): World {
    match op
    case CreateCall(call, single, initiator, invitees) =>
      if NotBusy(w.t, invitees + {initiator}) then w.(t := Create(w.t, call, single, initiator, invitees)) else w
    case AcceptCall(id, call, user) =>
      // a ringing call is claimed and held until the commit; an active one is only read
      if StatusIs(w.t, call, ACTIVE) && Seat(call, user) in w.t.seats && w.t.seats[Seat(call, user)] == INVITED
      then Continue(w, id, AcceptRead(call, user)) else w.(t := Accept(w.t, call, user))
    case StartReject(id, call, user) =>
      if Seat(call, user) in w.t.seats && w.t.seats[Seat(call, user)] == INVITED && call in w.t.calls
      then Continue(w, id, RejectRead(call, user, w.t.calls[call].status)) else w
    case StartLeave(id, call, user) =>
      if Seat(call, user) in w.t.seats && w.t.seats[Seat(call, user)] == JOINED && call in w.t.calls
      then Continue(w, id, LeaveRead(call, user, w.t.calls[call].status)) else w
    case CancelCall(id, call) =>
      if StatusIs(w.t, call, RINGING)
      then Continue(Finish(w, call, CANCELED, BY_CALLER), id, MissingInvited(call)) else w
    case ExpireCall(id, call) =>
      if StatusIs(w.t, call, RINGING)
      then Continue(Finish(w, call, MISSED, NO_ANSWER), id, MissingInvited(call)) else w
    case FailCall(call) =>
      if StatusIs(w.t, call, RINGING) then Finish(w, call, FAILED, ERROR) else w
    case RoomFinished(id, call) =>
      if LiveCall(w.t, call)
      then Continue(Finish(w, call, ENDED, NORMAL), id, LeavingJoined(call)) else w
    case Next(id) => if id in w.requests then Advance(w, id, w.requests[id]) else w
  }

  /** An accept between its read of the call and its commit: its seat is locked, and still INVITED to others. */
  predicate Accepting(w: World, s: Seat) {
    exists id | id in w.requests :: w.requests[id] == AcceptRead(s.call, s.user)
  }

  /** Statements that would write a locked seat wait. */
  predicate Unblocked(w: World, op: Op) {
    && (op.AcceptCall? ==> !Accepting(w, Seat(op.call, op.user)))
    && (op.Next? && op.id in w.requests ==>
          var r := w.requests[op.id];
          && (r.RejectRead? ==> !Accepting(w, Seat(r.call, r.user)))
          && (r.MissingInvited? ==> forall s | s in w.t.seats && s.call == r.call :: !Accepting(w, s)))
  }

  /** Fresh identifiers; a call invites somebody else than its initiator. */
  predicate Legal(w: World, op: Op) {
    && Unblocked(w, op)
    && (op.CreateCall? ==> op.call !in w.t.calls && op.invitees != {} && op.initiator !in op.invitees)
    && (op.AcceptCall? || op.StartReject? || op.StartLeave? || op.CancelCall? || op.ExpireCall? || op.RoomFinished? ==> op.id !in w.requests)
  }

  function Run(w: World, ops: seq<Op>): World
    decreases |ops|
  {
    if ops == [] then w else Run(Do(w, ops[0]), ops[1..])
  }

  predicate LegalRun(w: World, ops: seq<Op>)
    decreases |ops|
  {
    ops == [] || (Legal(w, ops[0]) && LegalRun(Do(w, ops[0]), ops[1..]))
  }

  predicate Start(w: World) {
    w.t == Tables(map[], map[]) && w.requests == map[] && w.records == map[]
  }

  // ----- The inductive invariant

  predicate RejectPending(r: Request, call: CallId) {
    (r.RejectClaimed? && r.call == call && r.snapshot == RINGING) || (r.RejectEnding? && r.call == call)
  }

  predicate LeavePending(r: Request, call: CallId) {
    (r.LeaveWritten? || r.LeaveEnding?) && r.call == call
  }

  /** Nobody left to answer a ringing call: a reject is about to end it. */
  ghost predicate Answerable(w: World) {
    forall call | call in w.t.calls && w.t.calls[call].status == RINGING && In(w.t, call, INVITED) == {}
      :: exists id :: id in w.requests && RejectPending(w.requests[id], call)
  }

  /** Nobody left in a live call: a leave is about to end it. */
  ghost predicate Attended(w: World) {
    forall call | call in w.t.calls && Live(w.t.calls[call]) && In(w.t, call, JOINED) == {}
      :: exists id :: id in w.requests && LeavePending(w.requests[id], call)
  }

  /** Nobody is busy in two calls. */
  ghost predicate OneCallEach(t: Tables) {
    forall a, b | a in t.seats && b in t.seats && a.user == b.user && Engaged(t, a) && Engaged(t, b) :: a == b
  }

  /** A live call has no end; an over one has the reason of its single record. */
  ghost predicate Recorded(w: World) {
    && (forall call | call in w.t.calls ::
          Records(w, call) == (if w.t.calls[call].endReason.Some? then [w.t.calls[call].endReason.value] else []))
    && (forall call | call in w.t.calls :: Live(w.t.calls[call]) <==> w.t.calls[call].endReason.None?)
    && (forall call | call in w.records :: call in w.t.calls)
  }

  predicate RequestFits(t: Tables, r: Request) {
    && r.call in t.calls
    && (r.RejectRead? || r.RejectClaimed? ==> r.snapshot != RINGING ==> t.calls[r.call].status != RINGING)
    && (r.LeaveRead? || r.LeaveWritten? ==>
          && Seat(r.call, r.user) in t.seats
          && (r.snapshot != RINGING ==> t.calls[r.call].status != RINGING))
    && (r.LeaveRead? ==> t.seats[Seat(r.call, r.user)] == JOINED || t.seats[Seat(r.call, r.user)] == LEFT)
    && (r.MissingInvited? || r.LeavingJoined? ==> !Live(t.calls[r.call]))
    && (r.AcceptRead? ==>
          && Seat(r.call, r.user) in t.seats && t.seats[Seat(r.call, r.user)] == INVITED
          && t.calls[r.call].status != RINGING)
  }

  ghost predicate Requests(w: World) {
    && (forall id | id in w.requests :: RequestFits(w.t, w.requests[id]))
    && (forall s | s in w.t.seats :: s.call in w.t.calls)
    && (forall a, b | a in w.requests && b in w.requests && w.requests[a].AcceptRead? && w.requests[a] == w.requests[b] :: a == b)
  }

  ghost predicate Inv(w: World) {
    Answerable(w) && Attended(w) && OneCallEach(w.t) && Recorded(w) && Requests(w)
  }
}
