/** What a scan answers and writes, told from the rows of the ticket, its order and its event alone. */
module AdmissionEffects {
  import opened Options
  import opened Text
  import opened Wib
  import opened EventState
  import opened Admission
  import opened CheckInProtocol

  // ---------------------------------------------------------------- how far a scan gets

  /** The request as it is read: trimmed, with the code in capitals. */
  function AsRead(submitted: Request): Request {
    Request(Trim(submitted.eventId), Trim(submitted.gate), Upper(Trim(submitted.code)))
  }

  predicate IsCode(code: string) {
    |code| == 35 && code[0] == 'E' && code[1] == 'T' && code[2] == '-'
    && forall i :: 3 <= i < 35 ==> '0' <= code[i] <= '9' || 'A' <= code[i] <= 'F' || 'a' <= code[i] <= 'f'
  }

  /** A text for the event of at most 64 bytes, one for the gate of at most 100, and a ticket code. */
  predicate Readable(submitted: Request) {
    var r := AsRead(submitted);
    1 <= Bytes(r.eventId) <= 64 && 1 <= Bytes(r.gate) <= 100 && IsCode(r.code)
  }

  /** The caller is a member of staff posted at the event and gate of the request. */
  predicate Heard(db: Db, p: Principal, submitted: Request) {
    p.role == Staff && Readable(submitted) && (p.id, AsRead(submitted).eventId, AsRead(submitted).gate) in db.assignments
  }

  function TicketId(submitted: Request): string {
    var code := AsRead(submitted).code;
    if |code| >= 3 then Lower(code[3..]) else ""
  }

  predicate Found(db: Db, p: Principal, submitted: Request) {
    Heard(db, p, submitted) && TicketId(submitted) in db.tickets
  }

  function OrderIdOf(db: Db, submitted: Request): string
    requires TicketId(submitted) in db.tickets
  {
    db.tickets[TicketId(submitted)].orderId
  }

  predicate IsPaid(db: Db, p: Principal, submitted: Request)
    requires Sound(db)
  {
    Found(db, p, submitted) && db.orders[OrderIdOf(db, submitted)].status == Paid
  }

  predicate OfEvent(db: Db, p: Principal, submitted: Request)
    requires Sound(db)
  {
    IsPaid(db, p, submitted) && db.orders[OrderIdOf(db, submitted)].eventId == AsRead(submitted).eventId
  }

  /** An unchanged event lets people in on any day, a rescheduled one on its new day in Jakarta. */
  predicate OpenNow(e: EventRow, now: int) {
    (e.status == Scheduled && e.version == 0)
    || ((e.status == Scheduled || e.status == Rescheduled)
        && (e.version == 0 || (e.startsAt.Some? && StartOf(WibDay(e.startsAt.value)) <= now < StartOf(WibDay(e.startsAt.value) + 1))))
  }

  predicate IsOpen(db: Db, p: Principal, submitted: Request, now: int)
    requires Sound(db)
  {
    OfEvent(db, p, submitted)
    && OrderIdOf(db, submitted) !in db.held
    && OpenNow(db.events[db.orders[OrderIdOf(db, submitted)].eventId], now)
  }

  function SnapshotOf(db: Db, submitted: Request): Snapshot
    requires TicketId(submitted) in db.tickets
  {
    db.tickets[TicketId(submitted)].snapshot
  }

  /** A JSON object whose six members, where present, are texts or null. */
  predicate IsTicketJson(s: Snapshot) {
    s.Snapshot? && s.id != NotText && s.code != NotText && s.attendeeName != NotText && s.tierName != NotText && s.eventId != NotText && s.gate != NotText
  }

  /** The snapshot names this ticket and this event. */
  predicate IsGenuine(db: Db, p: Principal, submitted: Request, now: int)
    requires Sound(db)
  {
    IsOpen(db, p, submitted, now)
    && var s := SnapshotOf(db, submitted);
       IsTicketJson(s) && s.id == Str(TicketId(submitted)) && s.eventId == Str(AsRead(submitted).eventId)
  }

  /** It also names the gate of the request, and no other. */
  predicate AtItsGate(db: Db, p: Principal, submitted: Request, now: int)
    requires Sound(db)
  {
    IsGenuine(db, p, submitted, now) && SnapshotOf(db, submitted).gate == Str(AsRead(submitted).gate)
  }

  // ---------------------------------------------------------------- the parts of the model mean this

  lemma NormalizeReads(submitted: Request)
    ensures Normalize(submitted).Some? <==> Readable(submitted)
    ensures Normalize(submitted).Some? ==> Normalize(submitted).value == AsRead(submitted)
  {
  }

  lemma OpenMeans(e: EventRow, now: int)
    ensures CanCheckIn(Read(e), now) <==> OpenNow(e, now)
  {
    if e.startsAt.Some? {
      var day := WibDay(e.startsAt.value);
      DaysOfRange(now, day, day);
    }
  }

  lemma DecodeReads(s: Snapshot)
    ensures Decode(s).Some? <==> IsTicketJson(s)
    ensures Decode(s).Some? ==>
              Decode(s).value.id == TextOf(s.id) && Decode(s).value.eventId == TextOf(s.eventId) && Decode(s).value.gate == TextOf(s.gate)
  {
  }

  // ---------------------------------------------------------------- answers

  function Answer(db: Db, p: Principal, submitted: Request, now: int, at: int): Result
    requires Sound(db)
  {
    CheckIn(db, p, submitted, now, at).1
  }

  predicate Says(r: Result, outcome: Outcome) {
    r.Recorded? && r.outcome == outcome
  }

  /** Requests that never get to a ticket. */
  lemma EarlyAnswers(db: Db, p: Principal, submitted: Request, now: int, at: int)
    requires Sound(db)
    ensures var r := Answer(db, p, submitted, now, at);
      && (r == NotStaff <==> p.role != Staff)
      && (Says(r, InvalidRequest) <==> p.role == Staff && !Readable(submitted))
      && (Says(r, Forbidden) <==> p.role == Staff && Readable(submitted) && !Heard(db, p, submitted))
  {
    NormalizeReads(submitted);
    if Heard(db, p, submitted) { LateIsJudged(db, p, submitted, now, at); }
  }

  lemma LateIsJudged(db: Db, p: Principal, submitted: Request, now: int, at: int)
    requires Sound(db) && Heard(db, p, submitted)
    ensures |AsRead(submitted).code| == 35 && CheckIn(db, p, submitted, now, at) == Admit(db, p, AsRead(submitted), now, at)
    ensures var r := Answer(db, p, submitted, now, at);
      r != NotStaff && !Says(r, InvalidRequest) && !Says(r, Forbidden)
  {
    NormalizeReads(submitted);
    JudgeNeverUses(db, AsRead(submitted), now);
  }

  /** What the checks say of a request that was heard, check by check. */
  lemma JudgeSays(db: Db, p: Principal, submitted: Request, now: int)
    requires Sound(db) && Heard(db, p, submitted) && |AsRead(submitted).code| == 35
    ensures var j := Judge(db, AsRead(submitted), now);
      && (j == Pass <==> AtItsGate(db, p, submitted, now))
      && (j == Stop(WrongGate) <==> IsGenuine(db, p, submitted, now) && !AtItsGate(db, p, submitted, now))
      && (j == Broken <==> IsOpen(db, p, submitted, now) && !IsTicketJson(SnapshotOf(db, submitted)))
      && (j == Stop(EventChanged) <==> OfEvent(db, p, submitted) && !IsOpen(db, p, submitted, now))
      && (j == Stop(OrderNotPaid) <==> Found(db, p, submitted) && !IsPaid(db, p, submitted))
      && (j == Stop(TicketNotFound) <==>
            || !Found(db, p, submitted)
            || (IsPaid(db, p, submitted) && !OfEvent(db, p, submitted))
            || (IsOpen(db, p, submitted, now) && IsTicketJson(SnapshotOf(db, submitted)) && !IsGenuine(db, p, submitted, now)))
  {
    var id := TicketId(submitted);
    assert TicketOf(AsRead(submitted).code) == id && id != "" by { assert |Lower(AsRead(submitted).code[3..])| == 32; }
    assert AsRead(submitted).gate != "" && AsRead(submitted).eventId != "";
    if id in db.tickets {
      var order := db.orders[db.tickets[id].orderId];
      OpenMeans(db.events[order.eventId], now);
      DecodeReads(db.tickets[id].snapshot);
    }
  }

  /** Staff at its gate let a ticket in, or find it used, exactly if every condition holds; each condition that fails
      first has its own answer. */
  lemma LateAnswers(db: Db, p: Principal, submitted: Request, now: int, at: int)
    requires Sound(db)
    ensures var r := Answer(db, p, submitted, now, at);
      && (Says(r, CheckedIn) <==> AtItsGate(db, p, submitted, now) && TicketId(submitted) !in db.checkins)
      && (Says(r, TicketAlreadyUsed) <==> AtItsGate(db, p, submitted, now) && TicketId(submitted) in db.checkins)
      && (Says(r, WrongGate) <==> IsGenuine(db, p, submitted, now) && !AtItsGate(db, p, submitted, now))
      && (r == Failed <==> IsOpen(db, p, submitted, now) && !IsTicketJson(SnapshotOf(db, submitted)))
      && (Says(r, EventChanged) <==> OfEvent(db, p, submitted) && !IsOpen(db, p, submitted, now))
      && (Says(r, OrderNotPaid) <==> Found(db, p, submitted) && !IsPaid(db, p, submitted))
  {
    NormalizeReads(submitted);
    if Heard(db, p, submitted) {
      LateIsJudged(db, p, submitted, now, at);
      JudgeSays(db, p, submitted, now);
      JudgeNeverUses(db, AsRead(submitted), now);
    }
  }

  lemma NotFoundAnswers(db: Db, p: Principal, submitted: Request, now: int, at: int)
    requires Sound(db)
    ensures Says(Answer(db, p, submitted, now, at), TicketNotFound) <==>
              && Heard(db, p, submitted)
              && (|| !Found(db, p, submitted)
                  || (IsPaid(db, p, submitted) && !OfEvent(db, p, submitted))
                  || (IsOpen(db, p, submitted, now) && IsTicketJson(SnapshotOf(db, submitted)) && !IsGenuine(db, p, submitted, now)))
  {
    NormalizeReads(submitted);
    if Heard(db, p, submitted) {
      LateIsJudged(db, p, submitted, now, at);
      JudgeSays(db, p, submitted, now);
    }
  }

  // ---------------------------------------------------------------- what is written

  function TextOrNull(text: string, limit: nat): Option<string> {
    if 1 <= Bytes(text) <= limit then Some(text) else None
  }

  /** The row of the log that an answer leaves: who scanned what, in normal form where it has one, the ticket for a first
      use only, and the time of the use for first and later ones. */
  predicate LogsScan(a: Attempt, p: Principal, submitted: Request, r: Result) {
    && r.Recorded? && a.outcome == r.outcome && a.staffId == p.id && a.checkedInAt == r.at
    && a.code == (if IsCode(AsRead(submitted).code) then Some(AsRead(submitted).code) else None)
    && a.eventId == TextOrNull(AsRead(submitted).eventId, 64) && a.gate == TextOrNull(AsRead(submitted).gate, 100)
    && a.ticketId == (if r.outcome == CheckedIn then Some(TicketId(submitted)) else None)
  }

  lemma LogReads(p: Principal, submitted: Request, outcome: Outcome, ticketId: Option<string>, at: Option<int>)
    requires ticketId == if outcome == CheckedIn then Some(TicketId(submitted)) else None
    ensures LogsScan(AttemptRow(p, submitted, outcome, ticketId, at), p, submitted, Recorded(outcome, at))
    ensures Readable(submitted) ==> AttemptRow(p, AsRead(submitted), outcome, ticketId, at) == AttemptRow(p, submitted, outcome, ticketId, at)
  {
    if Readable(submitted) {
      NormalizeReads(submitted);
      NormalizeIsIdempotent(submitted);
    }
  }

  /** A first use writes the ticket's row with the staff, event, gate and time of the scan, and its time is answered; a
      later use answers the recorded time; nothing else has a time or touches a row. */
  lemma ScanWrites(db: Db, p: Principal, submitted: Request, now: int, at: int)
    requires Sound(db)
    ensures var (next, r) := CheckIn(db, p, submitted, now, at);
      && next == db.(checkins := next.checkins, attempts := next.attempts)
      && (r.Recorded? ==>
            && |next.attempts| == |db.attempts| + 1 && next.attempts[..|db.attempts|] == db.attempts
            && LogsScan(next.attempts[|db.attempts|], p, submitted, r))
      && (!r.Recorded? ==> next == db)
      && next.checkins == (if Says(r, CheckedIn)
                           then db.checkins[TicketId(submitted) := CheckInRow(p.id, AsRead(submitted).eventId, AsRead(submitted).gate, at)]
                           else db.checkins)
      && (r.Recorded? ==> r.at == if r.outcome == CheckedIn then Some(at)
                                  else if r.outcome == TicketAlreadyUsed && TicketId(submitted) in db.checkins
                                  then Some(db.checkins[TicketId(submitted)].at) else None)
  {
    NormalizeReads(submitted);
    var (next, r) := CheckIn(db, p, submitted, now, at);
    if r.Recorded? {
      LogReads(p, submitted, r.outcome, if r.outcome == CheckedIn then Some(TicketId(submitted)) else None, r.at);
      if Heard(db, p, submitted) {
        LateIsJudged(db, p, submitted, now, at);
        JudgeNeverUses(db, AsRead(submitted), now);
      }
    }
  }

  // ---------------------------------------------------------------- the status page

  /** The code names a ticket whose snapshot names that ticket and its order's event. */
  predicate Names(db: Db, code: string)
    requires Sound(db)
  {
    var c := Upper(Trim(code));
    IsCode(c) && Lower(c[3..]) in db.tickets
    && var row := db.tickets[Lower(c[3..])];
       IsTicketJson(row.snapshot) && TextOf(row.snapshot.id) == Lower(c[3..])
       && TextOf(row.snapshot.eventId) == db.orders[row.orderId].eventId
  }

  /** Administrators, and staff posted at the gate that the snapshot names, see the time of an earlier use, or else
      whether the ticket could enter now; everyone else is denied. */
  lemma {:induction false} StatusAnswers(db: Db, p: Principal, code: string, now: int)
    requires Sound(db)
    ensures var r, c := TicketStatus(db, p, code, now), Upper(Trim(code));
      && (r == Unreadable <==> IsCode(c) && Lower(c[3..]) in db.tickets && !IsTicketJson(db.tickets[Lower(c[3..])].snapshot))
      && (r.Shown? || r == Denied <==> Names(db, code))
      && (Names(db, code) ==>
            var id := Lower(c[3..]);
            var row := db.tickets[id];
            var order := db.orders[row.orderId];
            && (r.Shown? <==> p.role == Admin || (p.id, order.eventId, TextOf(row.snapshot.gate)) in db.assignments)
            && (r.Shown? ==>
                  && r.status.used == (if id in db.checkins then Some(db.checkins[id].at) else None)
                  && (r.status.canCheckIn <==>
                        id !in db.checkins && order.status == Paid && row.orderId !in db.held && OpenNow(db.events[order.eventId], now))))
  {
    var c := Upper(Trim(code));
    if IsCode(c) && Lower(c[3..]) in db.tickets {
      var row := db.tickets[Lower(c[3..])];
      DecodeReads(row.snapshot);
      OpenMeans(db.events[db.orders[row.orderId].eventId], now);
    }
  }

  // ---------------------------------------------------------------- posts

  predicate GoodPost(post: Post, sold: set<Post>) {
    1 <= Bytes(Trim(post.eventId)) <= 64 && 1 <= Bytes(Trim(post.gate)) <= 100 && Post(Trim(post.eventId), Trim(post.gate)) in sold
  }

  /** A member of staff gets exactly the given posts, trimmed, if each is good and none comes twice; everybody else keeps
      theirs, and nothing else changes. */
  lemma AssignEffects(db: Db, staffId: string, given: seq<Post>, sold: set<Post>)
    ensures var (next, ok) := AssignStep(db, staffId, given, sold);
      && (ok <==>
            && (forall i :: 0 <= i < |given| ==> GoodPost(given[i], sold))
            && (forall i, j :: 0 <= i < j < |given| ==>
                  Trim(given[i].eventId) != Trim(given[j].eventId) || Trim(given[i].gate) != Trim(given[j].gate)))
      && next == db.(assignments := next.assignments) && (!ok ==> next == db)
      && (forall id, event, gate :: id != staffId ==> ((id, event, gate) in next.assignments <==> (id, event, gate) in db.assignments))
      && (ok ==> forall event, gate :: (staffId, event, gate) in next.assignments <==>
            exists i :: 0 <= i < |given| && Trim(given[i].eventId) == event && Trim(given[i].gate) == gate)
  {
    var posts := TrimPosts(given);
    assert forall i :: 0 <= i < |given| ==> posts[i] == Post(Trim(given[i].eventId), Trim(given[i].gate));
    forall i | 0 <= i < |given| ensures PostOk(posts[i], sold) <==> GoodPost(given[i], sold) {}
    if PostsOk(posts, sold) {
      forall event, gate
        ensures (staffId, event, gate) in PostsOf(staffId, posts) <==>
          exists i :: 0 <= i < |given| && Trim(given[i].eventId) == event && Trim(given[i].gate) == gate
      {
        if i :| 0 <= i < |given| && Trim(given[i].eventId) == event && Trim(given[i].gate) == gate {
          assert (staffId, posts[i].eventId, posts[i].gate) in PostsOf(staffId, posts);
        }
      }
    }
  }

  // ---------------------------------------------------------------- the rows of a whole run

  /** The row of a used ticket bears the event of its order and the gate of its snapshot. */
  predicate RowFits(db: Db, id: string)
    requires Sound(db) && id in db.checkins
  {
    && db.checkins[id].eventId == db.orders[db.tickets[id].orderId].eventId
    && db.tickets[id].snapshot.Snapshot? && db.tickets[id].snapshot.gate == Str(db.checkins[id].gate)
  }

  predicate NewRowsFit(before: set<string>, db: Db)
    requires Sound(db)
  {
    forall id :: id in db.checkins && id !in before ==> RowFits(db, id)
  }

  /** Tickets, and the events of orders, never change. */
  predicate KeepsTickets(db: Db, next: Db) {
    && (forall id :: id in db.tickets ==> id in next.tickets && next.tickets[id] == db.tickets[id])
    && (forall id :: id in db.orders ==> id in next.orders && next.orders[id].eventId == db.orders[id].eventId)
  }

  lemma PostsKeepTickets(w: World, s: Statement)
    requires Sound(w.db) && s.StaffAssigned?
    ensures KeepsTickets(w.db, Next(w, s).db)
  {
    AssignChangesAssignments(w.db, s.staffId, s.given, s.sold);
    assert Next(w, s).db == AssignStep(w.db, s.staffId, s.given, s.sold).0;
  }

  lemma OrdersKeepTickets(w: World, s: Statement)
    requires Sound(w.db) && s.OrderMoves?
    ensures KeepsTickets(w.db, Next(w, s).db)
  {
  }

  lemma NewOnesKeepTickets(w: World, s: Statement)
    requires Sound(w.db) && s.TicketIssued?
    ensures KeepsTickets(w.db, Next(w, s).db)
  {
  }

  lemma OutsideKeepsTickets(w: World, s: Statement)
    requires Sound(w.db) && Outside(s)
    ensures KeepsTickets(w.db, Next(w, s).db)
  {
    if s.StaffAssigned? {
      PostsKeepTickets(w, s);
    } else if s.OrderMoves? {
      OrdersKeepTickets(w, s);
    } else if s.TicketIssued? {
      NewOnesKeepTickets(w, s);
    } else {
      assert Next(w, s).db.tickets == w.db.tickets && Next(w, s).db.orders == w.db.orders;
    }
  }

  lemma InsideKeepsTickets(w: World, s: Statement)
    requires Sound(w.db) && !Outside(s)
    ensures KeepsTickets(w.db, Next(w, s).db)
  {
  }

  lemma FitAgain(before: set<string>, db: Db, next: Db)
    requires Sound(db) && Sound(next) && NewRowsFit(before, db) && KeepsTickets(db, next) && next.checkins == db.checkins
    ensures NewRowsFit(before, next)
  {
    forall id | id in next.checkins && id !in before ensures RowFits(next, id) { assert RowFits(db, id); }
  }

  /** What a transaction that is about to write its row has checked. */
  lemma WriterFits(w: World, x: nat)
    requires Inv(w) && x in w.txs && w.txs[x].row.Some?
    ensures var tx := w.txs[x];
      && tx.ticketId in w.db.tickets && w.db.tickets[tx.ticketId].orderId in w.db.orders
      && tx.row.value.eventId == w.db.orders[w.db.tickets[tx.ticketId].orderId].eventId
      && w.db.tickets[tx.ticketId].snapshot.Snapshot? && w.db.tickets[tx.ticketId].snapshot.gate == Str(tx.row.value.gate)
  {
    var tx := w.txs[x];
    assert TxOk(w.db, tx);
    assert Judge(w.db, tx.request, tx.checkedAt) == Pass;
    DecodeReads(w.db.tickets[tx.ticketId].snapshot);
  }

  lemma CommitFits(before: set<string>, w: World, x: nat)
    requires Inv(w) && NewRowsFit(before, w.db)
    ensures Sound(CommitStep(w, x).db) && NewRowsFit(before, CommitStep(w, x).db)
  {
    CommitKeepsInv(w, x);
    var next := CommitStep(w, x).db;
    if At(w, x, Finished) && w.txs[x].row.Some? { WriterFits(w, x); }
    forall id | id in next.checkins && id !in before ensures RowFits(next, id) {
      if id in w.db.checkins && next.checkins[id] == w.db.checkins[id] { assert RowFits(w.db, id); }
    }
  }

  /** However the statements of all transactions interleave, every check-in row that a run adds bears the event of the
      ticket's order and the gate of the ticket's own snapshot. */
  lemma {:induction false} AddedRowsFit(before: set<string>, w: World, statements: seq<Statement>)
    requires Inv(w) && NewRowsFit(before, w.db)
    ensures Inv(Run(w, statements)) && NewRowsFit(before, Run(w, statements).db)
    decreases |statements|
  {
    if statements != [] {
      var s, next := statements[0], Next(w, statements[0]);
      NextKeepsInv(w, s);
      if s.Commit? {
        CommitFits(before, w, s.x);
      } else {
        OnlyCommitsWrite(w, s);
        if Outside(s) { OutsideKeepsTickets(w, s); } else { InsideKeepsTickets(w, s); }
        FitAgain(before, w.db, next.db);
      }
      AddedRowsFit(before, next, statements[1..]);
    }
  }

  lemma {:induction false} RunsAddFittingRows(w: World, statements: seq<Statement>)
    requires Inv(w)
    ensures Inv(Run(w, statements)) && NewRowsFit(w.db.checkins.Keys, Run(w, statements).db)
  {
    AddedRowsFit(w.db.checkins.Keys, w, statements);
  }
}
