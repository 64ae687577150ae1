/** Check-in statement by statement: any number of transactions interleave, each holding a share lock on its event's
    row and exclusive locks on its order's and its ticket's rows until it commits, with reads that see committed rows
    only.  A crash or an error drops a transaction with all that it wrote. */
module CheckInProtocol {
  import opened Options
  import opened Text
  import opened EventState
  import opened Admission

  /** The last statement that went through. */
  datatype Stage = Opened | EventLocked | OrderLocked | EventChecked | TicketLocked | UseRead | RowInserted | Finished

  datatype Tx = Tx(
    p: Principal,
    submitted: Request,
    request: Request,
    stage: Stage,
    located: bool,
    ticketId: string,
    orderId: string,
    eventId: string,
    event: EventRow,
    checkedAt: int,
    row: Option<CheckInRow>,
    attempt: Option<Attempt>)

  datatype World = World(db: Db, txs: map<nat, Tx>, orderLocks: map<string, nat>, ticketLocks: map<string, nat>)

  datatype Statement =
    | Begin(x: nat, p: Principal, submitted: Request)
    | LockEvent(x: nat)
    | LockOrder(x: nat)
    | CheckDay(x: nat, now: int)
    | LockTicket(x: nat)
    | ReadUse(x: nat)
    | InsertRow(x: nat, at: int)
    | InsertAttempt(x: nat)
    | Commit(x: nat)
    | Abort(x: nat)
    | OrderMoves(orderId: string, status: OrderStatus)
    | RefundAsked(orderId: string)
    | EventMoves(eventId: string, move: Move)
    | StaffAssigned(staffId: string, given: seq<Post>, sold: set<Post>)
    | TicketIssued(ticketId: string, row: TicketRow)

  predicate At(w: World, x: nat, stage: Stage) {
    x in w.txs && w.txs[x].stage == stage
  }

  function Put(w: World, x: nat, tx: Tx): World {
    w.(txs := w.txs[x := tx])
  }

  /** The transaction wrote its attempt; only the commit is left. */
  function Finish(tx: Tx, attempt: Attempt): Tx {
    tx.(stage := Finished, attempt := Some(attempt))
  }

  function StopWith(tx: Tx, outcome: Outcome, at: Option<int>): Tx {
    Finish(tx, AttemptRow(tx.p, tx.request, outcome, None, at))
  }

  function Release(locks: map<string, nat>, x: nat): map<string, nat> {
    map key | key in locks && locks[key] != x :: locks[key]
  }

  function Drop(w: World, x: nat): World {
    w.(txs := w.txs - {x}, orderLocks := Release(w.orderLocks, x), ticketLocks := Release(w.ticketLocks, x))
  }

  /** Does an unfinished transaction share-lock the event? */
  predicate EventShared(w: World, eventId: string) {
    exists x :: x in w.txs && w.txs[x].located && w.txs[x].stage != Opened && w.txs[x].eventId == eventId
  }

  function Next(w: World, s: Statement): World
    requires Sound(w.db)
  {
    match s
    case Begin(x, p, submitted) => BeginStep(w, x, p, submitted)
    case LockEvent(x) => LockEventStep(w, x)
    case LockOrder(x) => LockOrderStep(w, x)
    case CheckDay(x, now) => CheckDayStep(w, x, now)
    case LockTicket(x) => LockTicketStep(w, x)
    case ReadUse(x) => ReadUseStep(w, x)
    case InsertRow(x, at) => InsertRowStep(w, x, at)
    case InsertAttempt(x) => InsertAttemptStep(w, x)
    case Commit(x) => CommitStep(w, x)
    case Abort(x) => Drop(w, x)
    case OrderMoves(orderId, status) =>
      if orderId in w.db.orders && orderId !in w.orderLocks
      then w.(db := w.db.(orders := w.db.orders[orderId := w.db.orders[orderId].(status := status)])) else w
    case RefundAsked(orderId) =>
      if orderId !in w.orderLocks then w.(db := w.db.(held := w.db.held + {orderId})) else w
    case EventMoves(eventId, move) =>
      if eventId in w.db.events && !EventShared(w, eventId)
      then w.(db := w.db.(events := w.db.events[eventId := Moved(w.db.events[eventId], move)])) else w
    case StaffAssigned(staffId, given, sold) => w.(db := AssignStep(w.db, staffId, given, sold).0)
    case TicketIssued(ticketId, row) =>
      if ticketId !in w.db.tickets && row.orderId in w.db.orders then w.(db := w.db.(tickets := w.db.tickets[ticketId := row])) else w
  }

  /** Normalisation, authorisation, and the unlocked look-up of the ticket's order. */
  function BeginStep(w: World, x: nat, p: Principal, submitted: Request): (next: World)
    ensures next.db == w.db
  {
    if x in w.txs || p.role != Staff then w
    else
      var tx := Tx(p, submitted, submitted, Opened, false, "", "", "", EventRow(Scheduled, 0, None), 0, None, None);
      var normal := Normalize(submitted);
      if normal.None? then Put(w, x, StopWith(tx, InvalidRequest, None))
      else
        var started := tx.(request := normal.value);
        if !Authorized(w.db, p, normal.value.eventId, normal.value.gate) then Put(w, x, StopWith(started, Forbidden, None))
        else
          var ticketId := TicketOf(normal.value.code);
          if ticketId !in w.db.tickets then Put(w, x, StopWith(started, TicketNotFound, None))
          else Put(w, x, started.(located := true, ticketId := ticketId, orderId := w.db.tickets[ticketId].orderId))
  }

  function LockOrderStep(w: World, x: nat): (next: World)
    requires Sound(w.db)
    ensures next.db == w.db
  {
    if At(w, x, EventLocked) && w.txs[x].orderId !in w.orderLocks && w.txs[x].orderId in w.db.orders then
      var tx := w.txs[x];
      var locked := w.(orderLocks := w.orderLocks[tx.orderId := x]);
      var check := CheckOrder(w.db.orders[tx.orderId], tx.request.eventId);
      if check.Stop? then Put(locked, x, StopWith(tx, check.outcome, None)) else Put(locked, x, tx.(stage := OrderLocked))
    else w
  }

  function CheckDayStep(w: World, x: nat, now: int): (next: World)
    ensures next.db == w.db
  {
    if At(w, x, OrderLocked) then
      var tx := w.txs[x].(checkedAt := now);
      if tx.orderId in w.db.held || !CanCheckIn(tx.event, now) then Put(w, x, StopWith(tx, EventChanged, None))
      else Put(w, x, tx.(stage := EventChecked))
    else w
  }

  function LockTicketStep(w: World, x: nat): (next: World)
    ensures next.db == w.db
  {
    if At(w, x, EventChecked) && w.txs[x].ticketId !in w.ticketLocks && w.txs[x].ticketId in w.db.tickets then
      var tx := w.txs[x];
      var locked := w.(ticketLocks := w.ticketLocks[tx.ticketId := x]);
      match CheckTicket(w.db.tickets[tx.ticketId].snapshot, tx.ticketId, tx.eventId, tx.request.gate)
      case Broken => Drop(w, x)
      case Stop(outcome) => Put(locked, x, StopWith(tx, outcome, None))
      case Pass => Put(locked, x, tx.(stage := TicketLocked))
    else w
  }

  function LockEventStep(w: World, x: nat): (next: World)
    requires Sound(w.db)
    ensures next.db == w.db
  {
    if At(w, x, Opened) && w.txs[x].orderId in w.db.orders then
      var eventId := w.db.orders[w.txs[x].orderId].eventId;
      Put(w, x, w.txs[x].(stage := EventLocked, eventId := eventId, event := Read(w.db.events[eventId])))
    else w
  }

  function ReadUseStep(w: World, x: nat): (next: World)
    ensures next.db == w.db
  {
    if At(w, x, TicketLocked) then
      var tx := w.txs[x];
      if tx.ticketId in w.db.checkins then Put(w, x, StopWith(tx, TicketAlreadyUsed, Some(w.db.checkins[tx.ticketId].at)))
      else Put(w, x, tx.(stage := UseRead))
    else w
  }

  /** A duplicate key ends the transaction with an error. */
  function InsertRowStep(w: World, x: nat, at: int): (next: World)
    ensures next.db == w.db
  {
    if At(w, x, UseRead) then
      var tx := w.txs[x];
      if tx.ticketId in w.db.checkins then Drop(w, x)
      else Put(w, x, tx.(stage := RowInserted, row := Some(CheckInRow(tx.p.id, tx.eventId, tx.request.gate, at))))
    else w
  }

  function InsertAttemptStep(w: World, x: nat): (next: World)
    ensures next.db == w.db
  {
    if At(w, x, RowInserted) && w.txs[x].row.Some? then
      var tx := w.txs[x];
      Put(w, x, Finish(tx, AttemptRow(tx.p, tx.request, CheckedIn, Some(tx.ticketId), Some(tx.row.value.at))))
    else w
  }

  function CommitStep(w: World, x: nat): World {
    if At(w, x, Finished) && w.txs[x].attempt.Some? then
      var tx := w.txs[x];
      var logged := Log(w.db, tx.attempt.value);
      Drop(w.(db := if tx.row.Some? then logged.(checkins := w.db.checkins[tx.ticketId := tx.row.value]) else logged), x)
    else w
  }

  // ---------------------------------------------------------------- what a transaction knows

  predicate HoldsOrder(tx: Tx) {
    tx.located && tx.stage != Opened && tx.stage != EventLocked
  }

  predicate HoldsTicket(tx: Tx) {
    tx.located && (tx.stage == TicketLocked || tx.stage == UseRead || tx.stage == RowInserted || tx.row.Some?)
  }

  /** The transaction found its ticket, and its order and event are the ticket's. */
  predicate Knows(db: Db, tx: Tx)
    requires Sound(db)
  {
    && |tx.request.code| == 35 && NormalizeTicketCode(tx.request.code) == Some(tx.request.code) && tx.request.gate != ""
    && tx.ticketId == TicketOf(tx.request.code) && tx.ticketId in db.tickets && tx.orderId == db.tickets[tx.ticketId].orderId
    && (tx.stage != Opened ==> tx.eventId == db.orders[tx.orderId].eventId && tx.event == Read(db.events[tx.eventId]))
  }

  /** The checks that it passed would still be passed, and the attempt that it wrote, if any, is the one that an
      undisturbed check-in would write now. */
  predicate TxOk(db: Db, tx: Tx)
    requires Sound(db)
  {
    && (tx.stage == Finished <==> tx.attempt.Some?)
    && (tx.row.Some? ==> tx.located && (tx.stage == RowInserted || tx.stage == Finished))
    && (if tx.located then Knows(db, tx) && Passed(db, tx) && Holding(db, tx)
        else tx.stage == Finished && tx.attempt.value.ticketId.None? && tx.attempt.value.outcome in {InvalidRequest, Forbidden, TicketNotFound})
  }

  predicate Passed(db: Db, tx: Tx)
    requires Sound(db) && Knows(db, tx) && (tx.stage == Finished <==> tx.attempt.Some?)
  {
    && (tx.stage == OrderLocked || tx.stage == EventChecked ==> CheckOrder(db.orders[tx.orderId], tx.request.eventId) == Pass)
    && (tx.stage == EventChecked ==> CheckEvent(tx.orderId in db.held, db.events[tx.eventId], tx.checkedAt) == Pass)
    && (HoldsTicket(tx) ==> Judge(db, tx.request, tx.checkedAt) == Pass)
    && (tx.stage == Finished && tx.row.None? ==> Stopped(db, tx))
  }

  predicate Stopped(db: Db, tx: Tx)
    requires Sound(db) && |tx.request.code| >= 3 && tx.attempt.Some?
  {
    match Judge(db, tx.request, tx.checkedAt)
    case Broken => false
    case Stop(outcome) => tx.attempt.value == AttemptRow(tx.p, tx.request, outcome, None, None)
    case Pass =>
      && tx.ticketId in db.checkins
      && tx.attempt.value == AttemptRow(tx.p, tx.request, TicketAlreadyUsed, None, Some(db.checkins[tx.ticketId].at))
  }

  predicate Holding(db: Db, tx: Tx)
    requires tx.stage == Finished <==> tx.attempt.Some?
  {
    && (tx.stage == RowInserted ==> tx.row.Some?)
    && (tx.stage == UseRead || tx.row.Some? ==> tx.ticketId !in db.checkins)
    && (tx.row.Some? ==> tx.row.value == CheckInRow(tx.p.id, tx.request.eventId, tx.request.gate, tx.row.value.at))
    && (tx.row.Some? && tx.attempt.Some? ==>
          tx.attempt.value == AttemptRow(tx.p, tx.request, CheckedIn, Some(tx.ticketId), Some(tx.row.value.at)))
  }

  predicate LocksOk(w: World, x: nat)
    requires x in w.txs
  {
    var tx := w.txs[x];
    && (HoldsOrder(tx) ==> tx.orderId in w.orderLocks && w.orderLocks[tx.orderId] == x)
    && (HoldsTicket(tx) ==> tx.ticketId in w.ticketLocks && w.ticketLocks[tx.ticketId] == x)
  }

  /** Every first use in the log is a stored check-in, with its time, and no ticket has two. */
  predicate FirstUsesOk(db: Db) {
    && (forall k :: 0 <= k < |db.attempts| && db.attempts[k].outcome == CheckedIn ==>
          var a := db.attempts[k];
          a.ticketId.Some? && a.ticketId.value in db.checkins && a.checkedInAt == Some(db.checkins[a.ticketId.value].at))
    && (forall i, j :: 0 <= i < j < |db.attempts| && db.attempts[i].outcome == CheckedIn && db.attempts[j].outcome == CheckedIn ==>
          db.attempts[i].ticketId != db.attempts[j].ticketId)
  }

  /** The log: every check-in is logged once as a first use, and every later use bears the time of the first. */
  predicate LogOk(db: Db) {
    && FirstUsesOk(db)
    && (forall id :: id in db.checkins ==> Logged(db, id))
    && (forall k :: 0 <= k < |db.attempts| && db.attempts[k].outcome == TicketAlreadyUsed ==> UsedOk(db, db.attempts[k]))
  }

  predicate Logged(db: Db, id: string) {
    exists k :: 0 <= k < |db.attempts| && db.attempts[k].outcome == CheckedIn && db.attempts[k].ticketId == Some(id)
  }

  predicate UsedOk(db: Db, a: Attempt) {
    a.code.Some? && |a.code.value| >= 3
    && TicketOf(a.code.value) in db.checkins && a.checkedInAt == Some(db.checkins[TicketOf(a.code.value)].at)
  }

  ghost predicate Inv(w: World) {
    && Sound(w.db) && LogOk(w.db)
    && forall x :: x in w.txs ==> TxOk(w.db, w.txs[x]) && LocksOk(w, x)
  }

  // ---------------------------------------------------------------- frames

  /** What the locks of a transaction keep from changing under it. */
  predicate SameSight(db: Db, next: Db, tx: Tx) {
    tx.located ==>
      && (tx.ticketId in db.tickets ==> tx.ticketId in next.tickets && next.tickets[tx.ticketId] == db.tickets[tx.ticketId])
      && (tx.orderId in db.orders ==> tx.orderId in next.orders && next.orders[tx.orderId].eventId == db.orders[tx.orderId].eventId)
      && (tx.stage != Opened && tx.eventId in db.events ==> tx.eventId in next.events && next.events[tx.eventId] == db.events[tx.eventId])
      && (HoldsOrder(tx) && tx.orderId in db.orders ==>
            next.orders[tx.orderId] == db.orders[tx.orderId] && (tx.orderId in next.held <==> tx.orderId in db.held))
      && (tx.ticketId in db.checkins ==> tx.ticketId in next.checkins && next.checkins[tx.ticketId] == db.checkins[tx.ticketId])
      && (tx.stage == UseRead || tx.row.Some? ==> tx.ticketId in next.checkins ==> tx.ticketId in db.checkins)
  }

  lemma SameSightSameJudge(db: Db, next: Db, tx: Tx)
    requires Sound(db) && Sound(next) && SameSight(db, next, tx) && tx.located && HoldsOrder(tx) && Knows(db, tx)
    ensures Judge(next, tx.request, tx.checkedAt) == Judge(db, tx.request, tx.checkedAt)
  {
  }

  lemma SightKeepsTx(db: Db, next: Db, tx: Tx)
    requires Sound(db) && Sound(next) && SameSight(db, next, tx) && TxOk(db, tx)
    ensures TxOk(next, tx)
  {
    if tx.located && HoldsOrder(tx) { SameSightSameJudge(db, next, tx); }
  }

  /** A transaction moves on by itself: the tables stay, the others stay, and so do their locks. */
  lemma AloneKeepsInv(w: World, x: nat, tx: Tx, orderLocks: map<string, nat>, ticketLocks: map<string, nat>)
    requires Inv(w) && TxOk(w.db, tx)
    requires forall key :: key in w.orderLocks ==> key in orderLocks && orderLocks[key] == w.orderLocks[key]
    requires forall key :: key in w.ticketLocks ==> key in ticketLocks && ticketLocks[key] == w.ticketLocks[key]
    requires HoldsOrder(tx) ==> tx.orderId in orderLocks && orderLocks[tx.orderId] == x
    requires HoldsTicket(tx) ==> tx.ticketId in ticketLocks && ticketLocks[tx.ticketId] == x
    ensures Inv(World(w.db, w.txs[x := tx], orderLocks, ticketLocks))
  {
    var next := World(w.db, w.txs[x := tx], orderLocks, ticketLocks);
    forall y | y in next.txs ensures TxOk(next.db, next.txs[y]) && LocksOk(next, y) {
      if y != x { assert TxOk(w.db, w.txs[y]) && LocksOk(w, y); }
    }
  }

  lemma DropKeepsInv(w: World, x: nat)
    requires Inv(w)
    ensures Inv(Drop(w, x))
  {
    var next := Drop(w, x);
    forall y | y in next.txs ensures TxOk(next.db, next.txs[y]) && LocksOk(next, y) {
      assert TxOk(w.db, w.txs[y]) && LocksOk(w, y);
    }
  }

  /** Someone else writes what no lock forbids. */
  lemma OutsideKeepsInv(w: World, db: Db)
    requires Inv(w) && Sound(db) && db.checkins == w.db.checkins && db.attempts == w.db.attempts
    requires forall x :: x in w.txs ==> SameSight(w.db, db, w.txs[x])
    ensures Inv(w.(db := db))
  {
    var next := w.(db := db);
    forall x | x in next.txs ensures TxOk(db, next.txs[x]) && LocksOk(next, x) {
      assert TxOk(w.db, w.txs[x]) && LocksOk(w, x);
      SightKeepsTx(w.db, db, w.txs[x]);
    }
    SameLogOk(w.db, db);
  }

  lemma SameLogOk(db: Db, next: Db)
    requires LogOk(db) && next.checkins == db.checkins && next.attempts == db.attempts
    ensures LogOk(next)
  {
    forall id | id in next.checkins ensures Logged(next, id) { assert Logged(db, id); }
    forall k | 0 <= k < |next.attempts| && next.attempts[k].outcome == TicketAlreadyUsed ensures UsedOk(next, next.attempts[k]) {
      assert UsedOk(db, db.attempts[k]);
    }
  }

  // ---------------------------------------------------------------- each statement keeps the invariant

  predicate Admissible(db: Db, p: Principal, submitted: Request) {
    var normal := Normalize(submitted);
    normal.Some? && Authorized(db, p, normal.value.eventId, normal.value.gate) && TicketOf(normal.value.code) in db.tickets
  }

  lemma BegunLocated(w: World, x: nat, p: Principal, submitted: Request) returns (tx: Tx)
    requires Sound(w.db) && x !in w.txs && p.role == Staff && Admissible(w.db, p, submitted)
    ensures BeginStep(w, x, p, submitted) == Put(w, x, tx)
    ensures TxOk(w.db, tx) && tx.located && tx.stage == Opened && tx.p == p && tx.request == Normalize(submitted).value
    ensures tx.row.None? && tx.checkedAt == 0
  {
    tx := BeginStep(w, x, p, submitted).txs[x];
    AcceptedCodeIsPrinted(submitted.code);
    NormalizeIsIdempotent(submitted);
  }

  lemma BegunStopped(w: World, x: nat, p: Principal, submitted: Request, now: int, at: int) returns (tx: Tx)
    requires Sound(w.db) && x !in w.txs && p.role == Staff && !Admissible(w.db, p, submitted)
    ensures BeginStep(w, x, p, submitted) == Put(w, x, tx)
    ensures TxOk(w.db, tx) && !tx.located && tx.stage == Finished && tx.attempt.Some? && tx.row.None?
    ensures CheckIn(w.db, p, submitted, now, at).0 == Log(w.db, tx.attempt.value)
  {
    tx := BeginStep(w, x, p, submitted).txs[x];
    StoppedCheckIn(w.db, p, submitted, now, at, tx.attempt.value);
  }

  /** What a check-in logs that never gets to its ticket. */
  lemma StoppedCheckIn(db: Db, p: Principal, submitted: Request, now: int, at: int, attempt: Attempt)
    requires Sound(db) && p.role == Staff && !Admissible(db, p, submitted)
    requires var normal := Normalize(submitted);
      attempt == if normal.None? then AttemptRow(p, submitted, InvalidRequest, None, None)
                 else if !Authorized(db, p, normal.value.eventId, normal.value.gate) then AttemptRow(p, normal.value, Forbidden, None, None)
                 else AttemptRow(p, normal.value, TicketNotFound, None, None)
    ensures CheckIn(db, p, submitted, now, at).0 == Log(db, attempt)
  {
  }

  lemma BeginKeepsInv(w: World, x: nat, p: Principal, submitted: Request)
    requires Inv(w)
    ensures Inv(BeginStep(w, x, p, submitted))
  {
    if x !in w.txs && p.role == Staff {
      var tx;
      if Admissible(w.db, p, submitted) { tx := BegunLocated(w, x, p, submitted); } else { tx := BegunStopped(w, x, p, submitted, 0, 0); }
      AloneKeepsInv(w, x, tx, w.orderLocks, w.ticketLocks);
    }
  }

  lemma LockEventKeepsInv(w: World, x: nat)
    requires Inv(w)
    ensures Inv(LockEventStep(w, x))
  {
    var next := LockEventStep(w, x);
    if next != w {
      assert TxOk(w.db, w.txs[x]) && LocksOk(w, x);
      AloneKeepsInv(w, x, next.txs[x], w.orderLocks, w.ticketLocks);
    }
  }

  lemma OrderedTx(w: World, x: nat) returns (tx: Tx)
    requires Sound(w.db) && At(w, x, EventLocked) && w.txs[x].orderId !in w.orderLocks && TxOk(w.db, w.txs[x])
    ensures LockOrderStep(w, x) == World(w.db, w.txs[x := tx], w.orderLocks[tx.orderId := x], w.ticketLocks)
    ensures TxOk(w.db, tx) && tx.orderId == w.txs[x].orderId && !HoldsTicket(tx)
    ensures tx == w.txs[x].(stage := tx.stage, attempt := tx.attempt) && tx.row.None?
    ensures tx.located && |tx.request.code| >= 3 && (tx.stage == OrderLocked || tx.stage == Finished)
    ensures forall now :: tx.stage == Finished ==> Judge(w.db, tx.request, tx.checkedAt) == Judge(w.db, tx.request, now)
  {
    tx := LockOrderStep(w, x).txs[x];
  }

  lemma LockOrderKeepsInv(w: World, x: nat)
    requires Inv(w)
    ensures Inv(LockOrderStep(w, x))
  {
    if At(w, x, EventLocked) && w.txs[x].orderId !in w.orderLocks {
      assert TxOk(w.db, w.txs[x]);
      var tx := OrderedTx(w, x);
      AloneKeepsInv(w, x, tx, w.orderLocks[tx.orderId := x], w.ticketLocks);
    }
  }

  lemma DatedTx(w: World, x: nat, now: int) returns (tx: Tx)
    requires Sound(w.db) && At(w, x, OrderLocked) && TxOk(w.db, w.txs[x])
    ensures CheckDayStep(w, x, now) == Put(w, x, tx)
    ensures TxOk(w.db, tx) && tx.orderId == w.txs[x].orderId && !HoldsTicket(tx)
  {
    tx := CheckDayStep(w, x, now).txs[x];
  }

  lemma CheckDayKeepsInv(w: World, x: nat, now: int)
    requires Inv(w)
    ensures Inv(CheckDayStep(w, x, now))
  {
    if At(w, x, OrderLocked) {
      assert TxOk(w.db, w.txs[x]) && LocksOk(w, x);
      var tx := DatedTx(w, x, now);
      AloneKeepsInv(w, x, tx, w.orderLocks, w.ticketLocks);
    }
  }

  lemma TicketedTx(w: World, x: nat) returns (tx: Tx)
    requires Sound(w.db) && At(w, x, EventChecked) && w.txs[x].ticketId !in w.ticketLocks && TxOk(w.db, w.txs[x])
    ensures x !in LockTicketStep(w, x).txs ==> LockTicketStep(w, x) == Drop(w, x)
    ensures x in LockTicketStep(w, x).txs ==>
              && LockTicketStep(w, x) == World(w.db, w.txs[x := tx], w.orderLocks, w.ticketLocks[tx.ticketId := x])
              && TxOk(w.db, tx) && tx.orderId == w.txs[x].orderId && tx.ticketId == w.txs[x].ticketId
  {
    tx := if x in LockTicketStep(w, x).txs then LockTicketStep(w, x).txs[x] else w.txs[x];
  }

  lemma LockTicketKeepsInv(w: World, x: nat)
    requires Inv(w)
    ensures Inv(LockTicketStep(w, x))
  {
    if At(w, x, EventChecked) && w.txs[x].ticketId !in w.ticketLocks {
      assert TxOk(w.db, w.txs[x]) && LocksOk(w, x);
      var tx := TicketedTx(w, x);
      if x in LockTicketStep(w, x).txs {
        AloneKeepsInv(w, x, tx, w.orderLocks, w.ticketLocks[tx.ticketId := x]);
      } else {
        DropKeepsInv(w, x);
      }
    }
  }

  lemma ReadUseKeepsInv(w: World, x: nat)
    requires Inv(w)
    ensures Inv(ReadUseStep(w, x))
  {
    var next := ReadUseStep(w, x);
    if next != w {
      assert TxOk(w.db, w.txs[x]) && LocksOk(w, x);
      AloneKeepsInv(w, x, next.txs[x], w.orderLocks, w.ticketLocks);
    }
  }

  lemma InsertRowKeepsInv(w: World, x: nat, at: int)
    requires Inv(w)
    ensures Inv(InsertRowStep(w, x, at))
  {
    var next := InsertRowStep(w, x, at);
    if next != w {
      assert TxOk(w.db, w.txs[x]) && LocksOk(w, x);
      AloneKeepsInv(w, x, next.txs[x], w.orderLocks, w.ticketLocks);
    }
  }

  lemma InsertAttemptKeepsInv(w: World, x: nat)
    requires Inv(w)
    ensures Inv(InsertAttemptStep(w, x))
  {
    var next := InsertAttemptStep(w, x);
    if next != w {
      assert TxOk(w.db, w.txs[x]) && LocksOk(w, x);
      AloneKeepsInv(w, x, next.txs[x], w.orderLocks, w.ticketLocks);
    }
  }

  /** The tables after the commit of a transaction. */
  function Committed(w: World, x: nat): Db
    requires x in w.txs && w.txs[x].attempt.Some?
  {
    var tx := w.txs[x];
    var logged := Log(w.db, tx.attempt.value);
    if tx.row.Some? then logged.(checkins := w.db.checkins[tx.ticketId := tx.row.value]) else logged
  }

  /** The commit is the atomic check-in, carried out at that moment. */
  lemma CommitIsAtomic(w: World, x: nat)
    requires Inv(w) && At(w, x, Finished) && w.txs[x].located
    ensures var tx := w.txs[x];
      && tx.attempt.Some? && |tx.request.code| >= 3
      && CommitStep(w, x).db == Admit(w.db, tx.p, tx.request, tx.checkedAt, if tx.row.Some? then tx.row.value.at else 0).0
      && tx.attempt.value.outcome == Admit(w.db, tx.p, tx.request, tx.checkedAt, if tx.row.Some? then tx.row.value.at else 0).1.outcome
  {
    assert TxOk(w.db, w.txs[x]) && LocksOk(w, x);
  }

  lemma CommitKeepsLog(w: World, x: nat)
    requires Inv(w) && x in w.txs && w.txs[x].attempt.Some?
    ensures LogOk(Committed(w, x)) && Sound(Committed(w, x))
  {
    var tx := w.txs[x];
    assert TxOk(w.db, tx);
    if tx.row.Some? { LogFirstUse(w.db, tx.ticketId, tx.row.value, tx.attempt.value); } else { LogOther(w.db, tx); }
  }

  lemma LoggedStays(db: Db, next: Db, id: string)
    requires Logged(db, id) && db.attempts <= next.attempts
    ensures Logged(next, id)
  {
    var k :| 0 <= k < |db.attempts| && db.attempts[k].outcome == CheckedIn && db.attempts[k].ticketId == Some(id);
    assert next.attempts[k] == db.attempts[k];
  }

  lemma LogFirstUse(db: Db, id: string, row: CheckInRow, a: Attempt)
    requires LogOk(db) && id !in db.checkins
    requires a.outcome == CheckedIn && a.ticketId == Some(id) && a.checkedInAt == Some(row.at)
    ensures LogOk(Log(db, a).(checkins := db.checkins[id := row]))
  {
    var next := Log(db, a).(checkins := db.checkins[id := row]);
    assert next.attempts[|db.attempts|] == a;
    forall other | other in next.checkins ensures Logged(next, other) {
      if other != id {
        assert Logged(db, other);
        LoggedStays(db, next, other);
      }
    }
    assert FirstUsesOk(next) by { FirstUse(db, id, row, a); }
    forall k | 0 <= k < |next.attempts| && next.attempts[k].outcome == TicketAlreadyUsed ensures UsedOk(next, next.attempts[k]) {
      assert UsedOk(db, db.attempts[k]);
    }
  }

  lemma FirstUse(db: Db, id: string, row: CheckInRow, a: Attempt)
    requires FirstUsesOk(db) && id !in db.checkins
    requires a.outcome == CheckedIn && a.ticketId == Some(id) && a.checkedInAt == Some(row.at)
    ensures FirstUsesOk(Log(db, a).(checkins := db.checkins[id := row]))
  {
  }

  lemma LogAnother(db: Db, a: Attempt)
    requires LogOk(db) && a.outcome != CheckedIn && (a.outcome == TicketAlreadyUsed ==> UsedOk(db, a))
    ensures LogOk(Log(db, a))
  {
    var next := Log(db, a);
    assert next.attempts[|db.attempts|] == a;
    forall other | other in next.checkins ensures Logged(next, other) {
      assert Logged(db, other);
      LoggedStays(db, next, other);
    }
    forall k | 0 <= k < |next.attempts| && next.attempts[k].outcome == TicketAlreadyUsed ensures UsedOk(next, next.attempts[k]) {
      if k < |db.attempts| { assert UsedOk(db, db.attempts[k]); }
    }
  }

  lemma LogOther(db: Db, tx: Tx)
    requires Sound(db) && LogOk(db) && TxOk(db, tx) && tx.attempt.Some? && tx.row.None?
    ensures LogOk(Log(db, tx.attempt.value))
  {
    if tx.located {
      JudgeNeverUses(db, tx.request, tx.checkedAt);
      StoppedCode(db, tx);
    }
    LogAnother(db, tx.attempt.value);
  }

  lemma StoppedCode(db: Db, tx: Tx)
    requires Sound(db) && TxOk(db, tx) && tx.attempt.Some? && tx.row.None? && tx.located
    ensures tx.attempt.value.outcome == TicketAlreadyUsed ==> UsedOk(db, tx.attempt.value)
  {
    JudgeNeverUses(db, tx.request, tx.checkedAt);
  }

  /** A transaction with a row to commit is the first to use its ticket, and no other is about to use that one. */
  lemma WriterIsAlone(w: World, x: nat, y: nat)
    requires Inv(w) && x in w.txs && w.txs[x].row.Some? && y in w.txs && y != x
    ensures w.txs[x].ticketId !in w.db.checkins
    ensures w.txs[y].located && (w.txs[y].stage == UseRead || w.txs[y].row.Some?) ==> w.txs[y].ticketId != w.txs[x].ticketId
  {
    assert TxOk(w.db, w.txs[x]) && LocksOk(w, x) && LocksOk(w, y);
  }

  lemma CommittedSight(w: World, x: nat, y: nat)
    requires Inv(w) && x in w.txs && w.txs[x].attempt.Some? && y in w.txs && y != x
    ensures SameSight(w.db, Committed(w, x), w.txs[y])
  {
    if w.txs[x].row.Some? { WriterIsAlone(w, x, y); }
    RecordIsUnseen(w.db, Committed(w, x), w.txs[x].ticketId, w.txs[y]);
  }

  /** A record of a ticket that was not used hides nothing from a transaction that is not about to use the same. */
  lemma RecordIsUnseen(db: Db, next: Db, id: string, tx: Tx)
    requires next == db.(checkins := next.checkins, attempts := next.attempts)
    requires next.checkins == db.checkins || (id !in db.checkins && id in next.checkins && next.checkins == db.checkins[id := next.checkins[id]])
    requires next.checkins != db.checkins && tx.located && (tx.stage == UseRead || tx.row.Some?) ==> tx.ticketId != id
    ensures SameSight(db, next, tx)
  {
  }

  lemma CommitKeepsInv(w: World, x: nat)
    requires Inv(w)
    ensures Inv(CommitStep(w, x))
  {
    if At(w, x, Finished) && w.txs[x].attempt.Some? {
      var db := Committed(w, x);
      CommitKeepsLog(w, x);
      var next := Drop(w.(db := db), x);
      forall y | y in next.txs ensures TxOk(next.db, next.txs[y]) && LocksOk(next, y) {
        assert TxOk(w.db, w.txs[y]) && LocksOk(w, y);
        CommittedSight(w, x, y);
        SightKeepsTx(w.db, db, w.txs[y]);
      }
    }
  }

  lemma OrderMovesKeepsInv(w: World, orderId: string, status: OrderStatus)
    requires Inv(w) && orderId in w.db.orders && orderId !in w.orderLocks
    ensures Inv(w.(db := w.db.(orders := w.db.orders[orderId := w.db.orders[orderId].(status := status)])))
  {
    var db := w.db.(orders := w.db.orders[orderId := w.db.orders[orderId].(status := status)]);
    forall x | x in w.txs ensures SameSight(w.db, db, w.txs[x]) { assert LocksOk(w, x); }
    OutsideKeepsInv(w, db);
  }

  lemma RefundKeepsInv(w: World, orderId: string)
    requires Inv(w) && orderId !in w.orderLocks
    ensures Inv(w.(db := w.db.(held := w.db.held + {orderId})))
  {
    var db := w.db.(held := w.db.held + {orderId});
    forall x | x in w.txs ensures SameSight(w.db, db, w.txs[x]) { assert LocksOk(w, x); }
    OutsideKeepsInv(w, db);
  }

  lemma EventMovesKeepsInv(w: World, eventId: string, event: EventRow)
    requires Inv(w) && eventId in w.db.events && !EventShared(w, eventId)
    ensures Inv(w.(db := w.db.(events := w.db.events[eventId := event])))
  {
    OutsideKeepsInv(w, w.db.(events := w.db.events[eventId := event]));
  }

  lemma TicketIssuedKeepsInv(w: World, ticketId: string, row: TicketRow)
    requires Inv(w) && ticketId !in w.db.tickets && row.orderId in w.db.orders
    ensures Inv(w.(db := w.db.(tickets := w.db.tickets[ticketId := row])))
  {
    OutsideKeepsInv(w, w.db.(tickets := w.db.tickets[ticketId := row]));
  }

  lemma AssignmentsKeepInv(w: World, assignments: set<(string, string, string)>)
    requires Inv(w)
    ensures Inv(w.(db := w.db.(assignments := assignments)))
  {
    OutsideKeepsInv(w, w.db.(assignments := assignments));
  }

  lemma AssignKeepsInv(w: World, staffId: string, given: seq<Post>, sold: set<Post>)
    requires Inv(w)
    ensures Inv(w.(db := AssignStep(w.db, staffId, given, sold).0))
  {
    AssignChangesAssignments(w.db, staffId, given, sold);
    AssignmentsKeepInv(w, AssignStep(w.db, staffId, given, sold).0.assignments);
  }

  predicate Outside(s: Statement) {
    s.OrderMoves? || s.RefundAsked? || s.EventMoves? || s.StaffAssigned? || s.TicketIssued?
  }

  lemma OutsideNextKeepsInv(w: World, s: Statement)
    requires Inv(w) && Outside(s)
    ensures Inv(Next(w, s))
  {
    match s
    case OrderMoves(orderId, status) =>
      if orderId in w.db.orders && orderId !in w.orderLocks { OrderMovesKeepsInv(w, orderId, status); }
    case RefundAsked(orderId) => if orderId !in w.orderLocks { RefundKeepsInv(w, orderId); }
    case EventMoves(eventId, move) =>
      if eventId in w.db.events && !EventShared(w, eventId) { EventMovesKeepsInv(w, eventId, Moved(w.db.events[eventId], move)); }
    case StaffAssigned(staffId, given, sold) => AssignKeepsInv(w, staffId, given, sold);
    case TicketIssued(ticketId, row) =>
      if ticketId !in w.db.tickets && row.orderId in w.db.orders { TicketIssuedKeepsInv(w, ticketId, row); }
  }

  lemma NextKeepsInv(w: World, s: Statement)
    requires Inv(w)
    ensures Inv(Next(w, s))
  {
    match s
    case Begin(x, p, submitted) => BeginKeepsInv(w, x, p, submitted);
    case LockEvent(x) => LockEventKeepsInv(w, x);
    case LockOrder(x) => LockOrderKeepsInv(w, x);
    case CheckDay(x, now) => CheckDayKeepsInv(w, x, now);
    case LockTicket(x) => LockTicketKeepsInv(w, x);
    case ReadUse(x) => ReadUseKeepsInv(w, x);
    case InsertRow(x, at) => InsertRowKeepsInv(w, x, at);
    case InsertAttempt(x) => InsertAttemptKeepsInv(w, x);
    case Commit(x) => CommitKeepsInv(w, x);
    case Abort(x) => DropKeepsInv(w, x);
    case _ => OutsideNextKeepsInv(w, s);
  }

  // ---------------------------------------------------------------- runs

  ghost function Run(w: World, statements: seq<Statement>): World
    requires Inv(w)
    decreases |statements|
  {
    if statements == [] then w
    else
      NextKeepsInv(w, statements[0]);
      Run(Next(w, statements[0]), statements[1..])
  }

  /** In every interleaving each ticket has at most one check-in, one CHECKED_IN attempt exactly when it has that
      check-in, and every later use is logged with the time of the first. */
  lemma {:induction false} RunKeepsInv(w: World, statements: seq<Statement>)
    requires Inv(w)
    ensures Inv(Run(w, statements))
    decreases |statements|
  {
    if statements != [] {
      NextKeepsInv(w, statements[0]);
      RunKeepsInv(Next(w, statements[0]), statements[1..]);
    }
  }

  lemma OthersLeaveRules(w: World, s: Statement)
    requires Sound(w.db) && !s.EventMoves? && !s.StaffAssigned?
    ensures Next(w, s).db.events == w.db.events && Next(w, s).db.assignments == w.db.assignments
  {
  }

  lemma EventMovesKeepLawful(db: Db, eventId: string, move: Move)
    requires Lawful(db) && eventId in db.events
    ensures Lawful(db.(events := db.events[eventId := Moved(db.events[eventId], move)]))
  {
    MovesKeepSettled(db.events[eventId], [move]);
  }

  lemma NextKeepsLawful(w: World, s: Statement)
    requires Inv(w) && Lawful(w.db)
    ensures Lawful(Next(w, s).db)
  {
    if s.StaffAssigned? {
      AssignKeepsLawful(w.db, s.staffId, s.given, s.sold);
    } else if s.EventMoves? {
      if s.eventId in w.db.events { EventMovesKeepLawful(w.db, s.eventId, s.move); }
    } else {
      NextKeepsInv(w, s);
      OthersLeaveRules(w, s);
    }
  }

  /** In every run events stay settled and assignments name normal gates, so that eligible tickets have their day and the
      status page keeps what it promises. */
  lemma {:induction false} RunKeepsLawful(w: World, statements: seq<Statement>)
    requires Inv(w) && Lawful(w.db)
    ensures Lawful(Run(w, statements).db)
    decreases |statements|
  {
    if statements != [] {
      NextKeepsInv(w, statements[0]);
      NextKeepsLawful(w, statements[0]);
      RunKeepsLawful(Next(w, statements[0]), statements[1..]);
    }
  }

  function FirstUses(attempts: seq<Attempt>, id: string): nat {
    if attempts == [] then 0
    else
      var last := attempts[|attempts| - 1];
      FirstUses(attempts[..|attempts| - 1], id) + (if last.outcome == CheckedIn && last.ticketId == Some(id) then 1 else 0)
  }

  lemma {:induction false} FirstUsesCounts(attempts: seq<Attempt>, id: string)
    requires forall i, j :: 0 <= i < j < |attempts| && attempts[i].outcome == CheckedIn && attempts[j].outcome == CheckedIn ==>
               attempts[i].ticketId != attempts[j].ticketId
    ensures FirstUses(attempts, id)
         == if exists k :: 0 <= k < |attempts| && attempts[k].outcome == CheckedIn && attempts[k].ticketId == Some(id) then 1 else 0
    decreases |attempts|
  {
    if attempts != [] {
      var rest := attempts[..|attempts| - 1];
      FirstUsesCounts(rest, id);
      if k :| 0 <= k < |attempts| && attempts[k].outcome == CheckedIn && attempts[k].ticketId == Some(id) {
        if k < |rest| { assert rest[k] == attempts[k]; }
      }
      if k :| 0 <= k < |rest| && rest[k].outcome == CheckedIn && rest[k].ticketId == Some(id) {
        assert attempts[k] == rest[k];
      }
    }
  }

  /** However check-ins, payments, refunds and event changes interleave, crash and retry, the log holds exactly one
      CHECKED_IN attempt for a ticket with a check-in, and none for a ticket without. */
  lemma {:induction false} TicketsEnterOnce(db: Db, statements: seq<Statement>, id: string)
    requires Sound(db) && LogOk(db)
    ensures var start := World(db, map[], map[], map[]);
      Inv(start) && var end := Run(start, statements);
      FirstUses(end.db.attempts, id) == if id in end.db.checkins then 1 else 0
  {
    var start := World(db, map[], map[], map[]);
    RunKeepsInv(start, statements);
    var end := Run(start, statements);
    FirstUsesCounts(end.db.attempts, id);
    if id in end.db.checkins { assert Logged(end.db, id); }
  }

  predicate Grows(db: Db, next: Db) {
    && (forall id :: id in db.checkins ==> id in next.checkins && next.checkins[id] == db.checkins[id])
    && db.attempts <= next.attempts
  }

  lemma CommitGrows(w: World, x: nat)
    requires Inv(w)
    ensures Grows(w.db, CommitStep(w, x).db)
  {
    if At(w, x, Finished) && w.txs[x].attempt.Some? { assert TxOk(w.db, w.txs[x]); }
  }

  lemma OutsideWritesNoRecords(w: World, s: Statement)
    requires Sound(w.db) && Outside(s)
    ensures Next(w, s).db.checkins == w.db.checkins && Next(w, s).db.attempts == w.db.attempts
  {
  }

  lemma OnlyCommitsWrite(w: World, s: Statement)
    requires Inv(w) && !s.Commit?
    ensures Next(w, s).db.checkins == w.db.checkins && Next(w, s).db.attempts == w.db.attempts
  {
    if Outside(s) { OutsideWritesNoRecords(w, s); }
  }

  /** A stored check-in and a logged attempt never change. */
  lemma {:induction false} RecordsNeverChange(w: World, statements: seq<Statement>)
    requires Inv(w)
    ensures Grows(w.db, Run(w, statements).db)
    decreases |statements|
  {
    if statements != [] {
      var next := Next(w, statements[0]);
      NextKeepsInv(w, statements[0]);
      if statements[0].Commit? { CommitGrows(w, statements[0].x); } else { OnlyCommitsWrite(w, statements[0]); }
      RecordsNeverChange(next, statements[1..]);
    }
  }

  /** No two transactions are about to record the same ticket, and none that is about to finds it recorded: the unique
      keys of the two tables are never hit. */
  lemma OneWriterPerTicket(w: World, x: nat, y: nat)
    requires Inv(w) && x in w.txs && y in w.txs
    requires (w.txs[x].stage == UseRead || w.txs[x].row.Some?) && (w.txs[y].stage == UseRead || w.txs[y].row.Some?)
    requires w.txs[x].ticketId == w.txs[y].ticketId
    ensures x == y && w.txs[x].ticketId !in w.db.checkins
    ensures forall k :: 0 <= k < |w.db.attempts| && w.db.attempts[k].outcome == CheckedIn ==>
              w.db.attempts[k].ticketId != Some(w.txs[x].ticketId)
  {
    assert TxOk(w.db, w.txs[x]) && TxOk(w.db, w.txs[y]) && LocksOk(w, x) && LocksOk(w, y);
  }

  // ---------------------------------------------------------------- undisturbed

  /** The world after a statement of transaction x that no other one disturbed: x is at the given stage, or it already
      wrote the attempt that the whole check-in would write, or an unreadable snapshot ended it. */
  ghost predicate Solo(db: Db, w: World, x: nat, p: Principal, request: Request, now: int, at: int, stage: Stage)
    requires Sound(db) && |request.code| >= 3
  {
    && Inv(w) && w.db == db
    && (forall key :: key in w.orderLocks ==> w.orderLocks[key] == x)
    && (forall key :: key in w.ticketLocks ==> w.ticketLocks[key] == x)
    && (x !in w.txs ==> Judge(db, request, now) == Broken)
    && (x in w.txs ==> SoloTx(db, w.txs[x], p, request, now, at, stage))
  }

  predicate SoloTx(db: Db, tx: Tx, p: Principal, request: Request, now: int, at: int, stage: Stage)
    requires Sound(db) && |request.code| >= 3
  {
    && tx.located && tx.p == p && tx.request == request && (tx.stage == stage || tx.stage == Finished)
    && (tx.row.Some? ==> tx.row.value.at == at)
    && (if tx.stage == Finished then Judge(db, request, tx.checkedAt) == Judge(db, request, now)
        else (tx.stage == Opened || tx.stage == EventLocked || tx.stage == OrderLocked || tx.checkedAt == now))
  }

  lemma SoloEvent(w: World, x: nat, p: Principal, request: Request, now: int, at: int)
    requires Sound(w.db) && |request.code| >= 3 && Solo(w.db, w, x, p, request, now, at, Opened)
    requires forall key :: key !in w.orderLocks && key !in w.ticketLocks
    ensures Solo(w.db, LockEventStep(w, x), x, p, request, now, at, EventLocked)
    ensures forall key :: key !in LockEventStep(w, x).orderLocks && key !in LockEventStep(w, x).ticketLocks
  {
    LockEventKeepsInv(w, x);
    if x in w.txs { assert TxOk(w.db, w.txs[x]); }
  }

  lemma SoloOrder(w: World, x: nat, p: Principal, request: Request, now: int, at: int)
    requires Sound(w.db) && |request.code| >= 3 && Solo(w.db, w, x, p, request, now, at, EventLocked)
    requires forall key :: key !in w.orderLocks && key !in w.ticketLocks
    ensures Solo(w.db, LockOrderStep(w, x), x, p, request, now, at, OrderLocked)
    ensures forall key :: key !in LockOrderStep(w, x).ticketLocks
  {
    LockOrderKeepsInv(w, x);
    if At(w, x, EventLocked) {
      assert TxOk(w.db, w.txs[x]);
      var tx := OrderedTx(w, x);
      assert tx.stage == Finished ==> Judge(w.db, tx.request, tx.checkedAt) == Judge(w.db, tx.request, now);
    }
  }

  lemma SoloDay(w: World, x: nat, p: Principal, request: Request, now: int, at: int)
    requires Sound(w.db) && |request.code| >= 3 && Solo(w.db, w, x, p, request, now, at, OrderLocked)
    requires forall key :: key !in w.ticketLocks
    ensures Solo(w.db, CheckDayStep(w, x, now), x, p, request, now, at, EventChecked)
    ensures forall key :: key !in CheckDayStep(w, x, now).ticketLocks
  {
    CheckDayKeepsInv(w, x, now);
    if x in w.txs { assert TxOk(w.db, w.txs[x]); }
  }

  lemma CheckedIsJudged(db: Db, tx: Tx)
    requires Sound(db) && TxOk(db, tx) && tx.located && tx.stage == EventChecked
    ensures tx.ticketId in db.tickets && |tx.request.code| >= 3
    ensures Judge(db, tx.request, tx.checkedAt) == CheckTicket(db.tickets[tx.ticketId].snapshot, tx.ticketId, tx.eventId, tx.request.gate)
  {
  }

  lemma SoloTicket(w: World, x: nat, p: Principal, request: Request, now: int, at: int)
    requires Sound(w.db) && |request.code| >= 3 && Solo(w.db, w, x, p, request, now, at, EventChecked)
    requires forall key :: key !in w.ticketLocks
    ensures Solo(w.db, LockTicketStep(w, x), x, p, request, now, at, TicketLocked)
  {
    LockTicketKeepsInv(w, x);
    if At(w, x, EventChecked) {
      assert TxOk(w.db, w.txs[x]);
      CheckedIsJudged(w.db, w.txs[x]);
      LockTicketIs(w, x);
    }
  }

  lemma LockTicketIs(w: World, x: nat)
    requires At(w, x, EventChecked) && w.txs[x].ticketId !in w.ticketLocks && w.txs[x].ticketId in w.db.tickets
    ensures var next, tx := LockTicketStep(w, x), w.txs[x];
      var check := CheckTicket(w.db.tickets[tx.ticketId].snapshot, tx.ticketId, tx.eventId, tx.request.gate);
      && next.db == w.db && next.orderLocks.Keys <= w.orderLocks.Keys
      && (forall key :: key in next.orderLocks ==> next.orderLocks[key] == w.orderLocks[key])
      && (forall key :: key in next.ticketLocks ==> next.ticketLocks[key] == x || (key in w.ticketLocks && next.ticketLocks[key] == w.ticketLocks[key]))
      && (x !in next.txs <==> check == Broken)
      && (x in next.txs ==> next.txs[x] == tx.(stage := next.txs[x].stage, attempt := next.txs[x].attempt))
      && (x in next.txs ==> next.txs[x].stage == TicketLocked || next.txs[x].stage == Finished)
  {
  }

  lemma UsedTx(w: World, x: nat)
    requires At(w, x, TicketLocked)
    ensures var next := ReadUseStep(w, x);
      && next == Put(w, x, next.txs[x])
      && next.txs[x] == w.txs[x].(stage := next.txs[x].stage, attempt := next.txs[x].attempt)
      && (next.txs[x].stage == UseRead || next.txs[x].stage == Finished)
  {
  }

  lemma SoloUse(w: World, x: nat, p: Principal, request: Request, now: int, at: int)
    requires Sound(w.db) && |request.code| >= 3 && Solo(w.db, w, x, p, request, now, at, TicketLocked)
    ensures Solo(w.db, ReadUseStep(w, x), x, p, request, now, at, UseRead)
  {
    ReadUseKeepsInv(w, x);
    if At(w, x, TicketLocked) { UsedTx(w, x); }
  }

  lemma SoloRow(w: World, x: nat, p: Principal, request: Request, now: int, at: int)
    requires Sound(w.db) && |request.code| >= 3 && Solo(w.db, w, x, p, request, now, at, UseRead)
    ensures Solo(w.db, InsertRowStep(w, x, at), x, p, request, now, at, RowInserted)
  {
    InsertRowKeepsInv(w, x, at);
    if x in w.txs { assert TxOk(w.db, w.txs[x]); }
  }

  lemma SoloAttempt(w: World, x: nat, p: Principal, request: Request, now: int, at: int)
    requires Sound(w.db) && |request.code| >= 3 && Solo(w.db, w, x, p, request, now, at, RowInserted)
    ensures Solo(w.db, InsertAttemptStep(w, x), x, p, request, now, at, Finished)
  {
    InsertAttemptKeepsInv(w, x);
    if x in w.txs { assert TxOk(w.db, w.txs[x]); }
  }

  lemma SoloCommit(w: World, x: nat, p: Principal, request: Request, now: int, at: int)
    requires Sound(w.db) && |request.code| >= 3 && Solo(w.db, w, x, p, request, now, at, Finished)
    ensures CommitStep(w, x).db == Admit(w.db, p, request, now, at).0 && x !in CommitStep(w, x).txs
  {
    if x in w.txs {
      assert TxOk(w.db, w.txs[x]);
      CommitIsAtomic(w, x);
    }
  }

  /** The nine statements in a row. */
  function Undisturbed(w: World, x: nat, p: Principal, submitted: Request, now: int, at: int): World
    requires Sound(w.db)
  {
    AfterBegin(BeginStep(w, x, p, submitted), x, now, at)
  }

  function Locked(w1: World, x: nat, now: int): (w5: World)
    requires Sound(w1.db)
    ensures Sound(w5.db)
  {
    var w2 := LockEventStep(w1, x);
    var w3 := LockOrderStep(w2, x);
    var w4 := CheckDayStep(w3, x, now);
    LockTicketStep(w4, x)
  }

  function Recorded(w5: World, x: nat, at: int): World {
    var w6 := ReadUseStep(w5, x);
    var w7 := InsertRowStep(w6, x, at);
    CommitStep(InsertAttemptStep(w7, x), x)
  }

  lemma LockedIsSolo(w1: World, x: nat, p: Principal, request: Request, now: int, at: int)
    requires Sound(w1.db) && |request.code| >= 3 && Solo(w1.db, w1, x, p, request, now, at, Opened)
    requires forall key :: key !in w1.orderLocks && key !in w1.ticketLocks
    ensures Solo(w1.db, Locked(w1, x, now), x, p, request, now, at, TicketLocked)
  {
    SoloEvent(w1, x, p, request, now, at);
    var w2 := LockEventStep(w1, x);
    SoloOrder(w2, x, p, request, now, at);
    var w3 := LockOrderStep(w2, x);
    SoloDay(w3, x, p, request, now, at);
    SoloTicket(CheckDayStep(w3, x, now), x, p, request, now, at);
  }

  lemma RecordedIsAdmitted(w5: World, x: nat, p: Principal, request: Request, now: int, at: int)
    requires Sound(w5.db) && |request.code| >= 3 && Solo(w5.db, w5, x, p, request, now, at, TicketLocked)
    ensures Recorded(w5, x, at).db == Admit(w5.db, p, request, now, at).0 && x !in Recorded(w5, x, at).txs
  {
    SoloUse(w5, x, p, request, now, at);
    var w6 := ReadUseStep(w5, x);
    SoloRow(w6, x, p, request, now, at);
    var w7 := InsertRowStep(w6, x, at);
    SoloAttempt(w7, x, p, request, now, at);
    SoloCommit(InsertAttemptStep(w7, x), x, p, request, now, at);
  }

  /** Undisturbed, the statements finish, and what they leave is the one-step check-in of the service. */
  lemma UndisturbedIsCheckIn(w: World, x: nat, p: Principal, submitted: Request, now: int, at: int)
    requires Inv(w) && x !in w.txs && p.role == Staff && w.orderLocks == map[] && w.ticketLocks == map[]
    ensures var after := Undisturbed(w, x, p, submitted, now, at);
      after.db == CheckIn(w.db, p, submitted, now, at).0 && x !in after.txs
  {
    var w1 := BeginStep(w, x, p, submitted);
    BeginKeepsInv(w, x, p, submitted);
    if Admissible(w.db, p, submitted) {
      var tx := BegunLocated(w, x, p, submitted);
      AcceptedCodeIsPrinted(submitted.code);
      LockedIsSolo(w1, x, p, tx.request, now, at);
      RecordedIsAdmitted(Locked(w1, x, now), x, p, tx.request, now, at);
    } else {
      var tx := BegunStopped(w, x, p, submitted, now, at);
      StoppedIsLeftAlone(w1, x, now, at);
    }
  }

  lemma StoppedIsLeftAlone(w1: World, x: nat, now: int, at: int)
    requires Sound(w1.db) && At(w1, x, Finished) && w1.txs[x].attempt.Some? && w1.txs[x].row.None?
    ensures AfterBegin(w1, x, now, at).db == Log(w1.db, w1.txs[x].attempt.value) && x !in AfterBegin(w1, x, now, at).txs
  {
    assert Locked(w1, x, now) == w1;
  }

  function AfterBegin(w1: World, x: nat, now: int, at: int): World
    requires Sound(w1.db)
  {
    Recorded(Locked(w1, x, now), x, at)
  }
}
