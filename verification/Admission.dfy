/** Who may enter: the decision of a check-in, the capability that a ticket's status shows, and the eligibility that the
    attendance report counts.  Three pieces of code decide it over the same rows. */
module Admission {
  import opened Options
  import opened Text
  import opened EventState

  // ---------------------------------------------------------------- snapshots

  /** A member of a JSON object. */
  datatype Field = Absent | Null | Str(text: string) | NotText

  datatype Snapshot = NotObject | Snapshot(id: Field, code: Field, attendeeName: Field, tierName: Field, eventId: Field, gate: Field)

  datatype Ticket = Ticket(id: string, code: string, attendeeName: string, tierName: string, eventId: string, gate: string)

  function TextOf(f: Field): string {
    if f.Str? then f.text else ""
  }

  /** json.Unmarshal into a struct of strings. */
  function Decode(s: Snapshot): Option<Ticket> {
    if s.NotObject? || s.id.NotText? || s.code.NotText? || s.attendeeName.NotText? || s.tierName.NotText?
       || s.eventId.NotText? || s.gate.NotText?
    then None
    else Some(Ticket(TextOf(s.id), TextOf(s.code), TextOf(s.attendeeName), TextOf(s.tierName), TextOf(s.eventId), TextOf(s.gate)))
  }

  // ---------------------------------------------------------------- requests

  datatype Request = Request(eventId: string, gate: string, code: string)

  predicate HexDigit(c: char) {
    '0' <= c <= '9' || 'A' <= c <= 'F' || 'a' <= c <= 'f'
  }

  function NormalizeTicketCode(code: string): Option<string> {
    var c := Upper(Trim(code));
    if |c| != 35 || c[..3] != "ET-" || !(forall i :: 3 <= i < 35 ==> HexDigit(c[i])) then None else Some(c)
  }

  predicate PlaceOk(place: string, limit: nat) {
    place != "" && Bytes(place) <= limit
  }

  function Normalize(r: Request): Option<Request> {
    var eventId, gate := Trim(r.eventId), Trim(r.gate);
    var code := NormalizeTicketCode(r.code);
    if !PlaceOk(eventId, 64) || !PlaceOk(gate, 100) || code.None? then None else Some(Request(eventId, gate, code.value))
  }

  function TicketOf(code: string): string
    requires |code| >= 3
  {
    Lower(code[3..])
  }

  /** Ticket ids are 16 random bytes in lower-case hexadecimal. */
  predicate IsTicketId(id: string) {
    |id| == 32 && forall i :: 0 <= i < 32 ==> '0' <= id[i] <= '9' || 'a' <= id[i] <= 'f'
  }

  function CodeOf(id: string): string {
    "ET-" + Upper(id)
  }

  /** Codes and tickets are one to one: the code printed for a ticket is accepted as it is and leads back to it, and an
      accepted code in any spelling is the one printed for its ticket. */
  lemma CodeRoundTrip(id: string)
    requires IsTicketId(id)
    ensures NormalizeTicketCode(CodeOf(id)) == Some(CodeOf(id)) && TicketOf(CodeOf(id)) == id
  {
    var code := CodeOf(id);
    forall i | 0 <= i < 32 ensures HexDigit(code[3 + i]) && Upper(code)[3 + i] == code[3 + i] && Lower(code[3..])[i] == id[i] {
      assert code[3 + i] == Upper(id)[i] == UpperChar(id[i]);
    }
    assert Trimmed(code);
    assert Upper(code) == code;
    assert Lower(code[3..]) == id;
  }

  lemma AcceptedCodeIsPrinted(code: string)
    requires NormalizeTicketCode(code).Some?
    ensures var c := NormalizeTicketCode(code).value; |c| == 35 && IsTicketId(TicketOf(c)) && CodeOf(TicketOf(c)) == c
  {
    var c := NormalizeTicketCode(code).value;
    var t := Trim(code);
    var id := TicketOf(c);
    forall i | 0 <= i < 32 ensures ('0' <= id[i] <= '9' || 'a' <= id[i] <= 'f') && Upper(id)[i] == c[3 + i] {
      assert c[3 + i] == UpperChar(t[3 + i]) && HexDigit(c[3 + i]);
      assert id[i] == LowerChar(c[3..][i]);
    }
    assert Upper(id) == c[3..];
    assert c == c[..3] + c[3..];
  }

  lemma NormalizeIsIdempotent(r: Request)
    requires Normalize(r).Some?
    ensures Normalize(Normalize(r).value) == Normalize(r)
  {
    AcceptedCodeIsPrinted(r.code);
    CodeRoundTrip(TicketOf(Normalize(r).value.code));
  }

  // ---------------------------------------------------------------- tables

  datatype Role = Admin | Staff
  datatype Principal = Principal(id: string, name: string, role: Role)

  datatype Outcome = CheckedIn | TicketAlreadyUsed | InvalidRequest | TicketNotFound | OrderNotPaid | WrongGate | Forbidden | EventChanged

  datatype OrderStatus = Pending | Paid | RefundPending | Refunded | Lapsed
  datatype TicketRow = TicketRow(orderId: string, snapshot: Snapshot)
  datatype OrderRow = OrderRow(status: OrderStatus, eventId: string)
  datatype CheckInRow = CheckInRow(staffId: string, eventId: string, gate: string, at: int)

  datatype Attempt = Attempt(
    ticketId: Option<string>,
    code: Option<string>,
    eventId: Option<string>,
    gate: Option<string>,
    staffId: string,
    outcome: Outcome,
    checkedInAt: Option<int>)

  datatype Db = Db(
    tickets: map<string, TicketRow>,
    orders: map<string, OrderRow>,
    events: map<string, EventRow>,
    held: set<string>,
    assignments: set<(string, string, string)>,
    checkins: map<string, CheckInRow>,
    attempts: seq<Attempt>)

  /** Foreign keys. */
  predicate Sound(db: Db) {
    && (forall id :: id in db.tickets ==> db.tickets[id].orderId in db.orders)
    && (forall id :: id in db.orders ==> db.orders[id].eventId in db.events)
    && (forall id :: id in db.checkins ==> id in db.tickets)
  }

  /** What the services of events and of staff keep: every event is settled, and assignments name normal gates. */
  predicate Lawful(db: Db) {
    && Sound(db)
    && (forall id :: id in db.events ==> Settled(db.events[id]))
    && (forall a :: a in db.assignments ==> GateOk(a.2))
  }

  predicate GateOk(gate: string) {
    Trimmed(gate) && 1 <= Bytes(gate) <= 100
  }

  predicate Assigned(db: Db, p: Principal, eventId: string, gate: string) {
    (p.id, eventId, gate) in db.assignments
  }

  /** staffauth.AuthorizeTicketStatusTx. */
  predicate Authorized(db: Db, p: Principal, eventId: string, gate: string) {
    p.role == Admin || Assigned(db, p, eventId, gate)
  }

  // ---------------------------------------------------------------- assignments of staff

  /** An event and one of its gates. */
  datatype Post = Post(eventId: string, gate: string)

  function TrimPosts(given: seq<Post>): (posts: seq<Post>)
    ensures |posts| == |given|
  {
    seq(|given|, i requires 0 <= i < |given| => Post(Trim(given[i].eventId), Trim(given[i].gate)))
  }

  predicate PostOk(post: Post, sold: set<Post>) {
    PlaceOk(post.eventId, 64) && PlaceOk(post.gate, 100) && post in sold
  }

  /** validateAssignments; `sold` are the gates of the tiers of all events. */
  predicate PostsOk(posts: seq<Post>, sold: set<Post>) {
    && (forall i :: 0 <= i < |posts| ==> PostOk(posts[i], sold))
    && (forall i, j :: 0 <= i < j < |posts| ==> posts[i] != posts[j])
  }

  function PostsOf(staffId: string, posts: seq<Post>): set<(string, string, string)> {
    set i | 0 <= i < |posts| :: (staffId, posts[i].eventId, posts[i].gate)
  }

  /** A member of staff gets these posts instead of all earlier ones, or an error changes nothing. */
  function AssignStep(db: Db, staffId: string, given: seq<Post>, sold: set<Post>): (Db, bool) {
    var posts := TrimPosts(given);
    if !PostsOk(posts, sold) then (db, false)
    else (db.(assignments := (set a | a in db.assignments && a.0 != staffId) + PostsOf(staffId, posts)), true)
  }

  /** Assignments name normal gates only. */
  lemma AssignKeepsLawful(db: Db, staffId: string, given: seq<Post>, sold: set<Post>)
    requires Lawful(db)
    ensures Lawful(AssignStep(db, staffId, given, sold).0)
  {
    var posts := TrimPosts(given);
    if PostsOk(posts, sold) {
      forall a | a in PostsOf(staffId, posts) ensures GateOk(a.2) {
        var i :| 0 <= i < |posts| && a == (staffId, posts[i].eventId, posts[i].gate);
        assert PostOk(posts[i], sold);
      }
    }
  }

  lemma AssignChangesAssignments(db: Db, staffId: string, given: seq<Post>, sold: set<Post>)
    ensures var next := AssignStep(db, staffId, given, sold).0; next == db.(assignments := next.assignments)
  {
  }

  // ---------------------------------------------------------------- the decision of a check-in, check by check

  datatype Check = Pass | Stop(outcome: Outcome) | Broken

  function CheckOrder(order: OrderRow, eventId: string): Check {
    if order.status != Paid then Stop(OrderNotPaid) else if order.eventId != eventId then Stop(TicketNotFound) else Pass
  }

  function CheckEvent(held: bool, event: EventRow, now: int): Check {
    if held || !CanCheckIn(Read(event), now) then Stop(EventChanged) else Pass
  }

  function CheckTicket(snapshot: Snapshot, ticketId: string, eventId: string, gate: string): Check {
    var ticket := Decode(snapshot);
    if ticket.None? then Broken
    else if ticket.value.id != ticketId || ticket.value.eventId != eventId then Stop(TicketNotFound)
    else if ticket.value.gate != gate then Stop(WrongGate)
    else Pass
  }

  /** Every check of a normal request of an assigned member of staff, up to the question whether the ticket was used. */
  function Judge(db: Db, request: Request, now: int): Check
    requires Sound(db) && |request.code| >= 3
  {
    var id := TicketOf(request.code);
    if id !in db.tickets then Stop(TicketNotFound)
    else
      var row := db.tickets[id];
      var order := db.orders[row.orderId];
      var paid := CheckOrder(order, request.eventId);
      if !paid.Pass? then paid
      else
        var open := CheckEvent(row.orderId in db.held, db.events[order.eventId], now);
        if !open.Pass? then open else CheckTicket(row.snapshot, id, order.eventId, request.gate)
  }

  /** The row that insertAttempt writes for a request as submitted. */
  function AttemptRow(p: Principal, request: Request, outcome: Outcome, ticketId: Option<string>, at: Option<int>): Attempt {
    Attempt(ticketId, NormalizeTicketCode(request.code), PlaceOrNull(request.eventId, 64), PlaceOrNull(request.gate, 100), p.id, outcome, at)
  }

  function PlaceOrNull(place: string, limit: nat): Option<string> {
    if PlaceOk(Trim(place), limit) then Some(Trim(place)) else None
  }

  datatype Result = Recorded(outcome: Outcome, at: Option<int>) | NotStaff | Failed

  function Log(db: Db, attempt: Attempt): Db {
    db.(attempts := db.attempts + [attempt])
  }

  /** One whole check-in; the clock is read at `now` for the day of the event and at `at` for the record. */
  function CheckIn(db: Db, p: Principal, submitted: Request, now: int, at: int): (Db, Result)
    requires Sound(db)
  {
    if p.role != Staff then (db, NotStaff)
    else
      var normal := Normalize(submitted);
      if normal.None? then (Log(db, AttemptRow(p, submitted, InvalidRequest, None, None)), Recorded(InvalidRequest, None))
      else
        var request := normal.value;
        if !Authorized(db, p, request.eventId, request.gate) then
          (Log(db, AttemptRow(p, request, Forbidden, None, None)), Recorded(Forbidden, None))
        else Admit(db, p, request, now, at)
  }

  function Admit(db: Db, p: Principal, request: Request, now: int, at: int): (Db, Result)
    requires Sound(db) && |request.code| >= 3
  {
    match Judge(db, request, now)
    case Broken => (db, Failed)
    case Stop(outcome) => (Log(db, AttemptRow(p, request, outcome, None, None)), Recorded(outcome, None))
    case Pass =>
      var id := TicketOf(request.code);
      if id in db.checkins then
        var used := Some(db.checkins[id].at);
        (Log(db, AttemptRow(p, request, TicketAlreadyUsed, None, used)), Recorded(TicketAlreadyUsed, used))
      else
        (Log(db, AttemptRow(p, request, CheckedIn, Some(id), Some(at)))
           .(checkins := db.checkins[id := CheckInRow(p.id, request.eventId, request.gate, at)]),
         Recorded(CheckedIn, Some(at)))
  }

  // ---------------------------------------------------------------- the status page

  datatype Status = Status(used: Option<int>, canCheckIn: bool)
  datatype StatusResult = Shown(status: Status) | Unknown | Denied | Unreadable

  /** GetTicketStatus of a code. */
  function TicketStatus(db: Db, p: Principal, code: string, now: int): StatusResult
    requires Sound(db)
  {
    var normal := NormalizeTicketCode(code);
    if normal.None? then Unknown
    else
      var id := TicketOf(normal.value);
      if id !in db.tickets then Unknown
      else
        var row := db.tickets[id];
        var order := db.orders[row.orderId];
        var ticket := Decode(row.snapshot);
        if ticket.None? then Unreadable
        else if ticket.value.id != id || ticket.value.eventId != order.eventId then Unknown
        else if !Authorized(db, p, order.eventId, ticket.value.gate) then Denied
        else if id in db.checkins then Shown(Status(Some(db.checkins[id].at), false))
        else Shown(Status(None, order.status == Paid && row.orderId !in db.held && CanCheckIn(Read(db.events[order.eventId]), now)))
  }

  // ---------------------------------------------------------------- the attendance report's predicate

  predicate IsText(f: Field, text: string) {
    f == Str(text)
  }

  /** validTicketSnapshot. */
  predicate ValidSnapshot(s: Snapshot, ticketId: string, eventId: string) {
    && s.Snapshot?
    && IsText(s.id, Lower(ticketId)) && IsText(s.eventId, eventId)
    && s.gate.Str? && GateOk(s.gate.text)
    && !s.code.NotText? && !s.attendeeName.NotText? && !s.tierName.NotText?
  }

  /** eligibleTicket. */
  predicate Eligible(db: Db, ticketId: string)
    requires Sound(db) && ticketId in db.tickets
  {
    var row := db.tickets[ticketId];
    var order := db.orders[row.orderId];
    var event := db.events[order.eventId];
    && order.status == Paid && (event.status == Scheduled || event.status == Rescheduled)
    && row.orderId !in db.held && ValidSnapshot(row.snapshot, ticketId, order.eventId)
  }

  // ---------------------------------------------------------------- they agree

  function GateOf(s: Snapshot): string {
    if s.Snapshot? then TextOf(s.gate) else ""
  }

  /** What is scanned when the ticket is shown at its own gate. */
  function OwnRequest(db: Db, ticketId: string): Request
    requires Sound(db) && ticketId in db.tickets
  {
    Request(db.orders[db.tickets[ticketId].orderId].eventId, GateOf(db.tickets[ticketId].snapshot), CodeOf(ticketId))
  }

  /** The check-in, aside from an earlier use, succeeds. */
  predicate Enters(db: Db, p: Principal, request: Request, now: int)
    requires Sound(db)
  {
    var r := CheckIn(db, p, request, now, now).1;
    r.Recorded? && (r.outcome == CheckedIn || r.outcome == TicketAlreadyUsed)
  }

  /** The same tables with the time window of every event left aside. */
  function AnyDay(db: Db): (d: Db)
    ensures Sound(db) ==> Sound(d)
  {
    db.(events := map id | id in db.events :: db.events[id].(version := 0))
  }

  /** Ids of events are not blank, as catalog requires, and the member of staff works at the ticket's gate. */
  predicate AtOwnGate(db: Db, p: Principal, ticketId: string)
    requires Sound(db) && ticketId in db.tickets
  {
    var own := OwnRequest(db, ticketId);
    IsTicketId(ticketId) && Trimmed(own.eventId) && PlaceOk(own.eventId, 64) && p.role == Staff && Assigned(db, p, own.eventId, own.gate)
  }

  lemma LowerTicketId(id: string)
    requires IsTicketId(id)
    ensures Lower(id) == id
  {
    forall i | 0 <= i < 32 ensures Lower(id)[i] == id[i] { assert Lower(id)[i] == LowerChar(id[i]); }
  }

  /** Shown at its own gate a ticket enters exactly when that gate is a normal text and every check passes. */
  lemma OwnRequestIsJudged(db: Db, p: Principal, ticketId: string, now: int)
    requires Sound(db) && ticketId in db.tickets && AtOwnGate(db, p, ticketId)
    ensures var own := OwnRequest(db, ticketId);
      Enters(db, p, own, now) <==> GateOk(own.gate) && Judge(db, own, now).Pass?
  {
    var own := OwnRequest(db, ticketId);
    CodeRoundTrip(ticketId);
    if GateOk(own.gate) {
      assert Normalize(own) == Some(own);
    } else if Normalize(own).Some? {
      var request := Normalize(own).value;
      assert request.eventId == own.eventId && request.code == own.code && request.gate != own.gate;
      assert !Judge(db, request, now).Pass?;
    }
  }

  /** What the checks ask of a ticket at its own normal gate. */
  lemma JudgeMeans(db: Db, ticketId: string, now: int)
    requires Sound(db) && ticketId in db.tickets && IsTicketId(ticketId)
    requires var own := OwnRequest(db, ticketId); GateOk(own.gate) && own.eventId != ""
    ensures var row := db.tickets[ticketId];
      var order := db.orders[row.orderId];
      Judge(db, OwnRequest(db, ticketId), now).Pass? <==>
        && order.status == Paid && row.orderId !in db.held && CanCheckIn(Read(db.events[order.eventId]), now)
        && ValidSnapshot(row.snapshot, ticketId, order.eventId)
  {
    CodeRoundTrip(ticketId);
    LowerTicketId(ticketId);
  }

  /** The report counts a ticket as eligible exactly when a check-in at its own gate passes every check, the time window
      and an earlier use aside. */
  lemma EligibleIffEntersAnyDay(db: Db, p: Principal, ticketId: string, now: int)
    requires Sound(db) && ticketId in db.tickets && AtOwnGate(db, p, ticketId)
    ensures Eligible(db, ticketId) <==> Enters(AnyDay(db), p, OwnRequest(db, ticketId), now)
  {
    var any := AnyDay(db);
    assert OwnRequest(any, ticketId) == OwnRequest(db, ticketId) && AtOwnGate(any, p, ticketId);
    OwnRequestIsJudged(any, p, ticketId, now);
    if GateOk(GateOf(db.tickets[ticketId].snapshot)) {
      JudgeMeans(any, ticketId, now);
    }
  }

  /** Every eligible ticket, and no other, has a moment at which it enters. */
  lemma EligibleEntersSomeDay(db: Db, p: Principal, ticketId: string)
    requires Lawful(db) && ticketId in db.tickets && AtOwnGate(db, p, ticketId)
    ensures Eligible(db, ticketId) <==> (exists now :: Enters(db, p, OwnRequest(db, ticketId), now))
  {
    var own := OwnRequest(db, ticketId);
    OpensSomeDay(db.events[own.eventId]);
    if Eligible(db, ticketId) {
      var now :| CanCheckIn(Read(db.events[own.eventId]), now);
      JudgeMeans(db, ticketId, now);
      OwnRequestIsJudged(db, p, ticketId, now);
      assert Enters(db, p, own, now);
    }
    if now :| Enters(db, p, own, now) {
      OwnRequestIsJudged(db, p, ticketId, now);
      JudgeMeans(db, ticketId, now);
    }
  }

  /** The status page promises a check-in exactly when scanning the ticket at its gate now would record one. */
  lemma StatusPromisesCheckIn(db: Db, p: Principal, ticketId: string, now: int)
    requires Lawful(db) && ticketId in db.tickets && AtOwnGate(db, p, ticketId)
    ensures var status := TicketStatus(db, p, CodeOf(ticketId), now);
      (status.Shown? && status.status.canCheckIn) <==> CheckIn(db, p, OwnRequest(db, ticketId), now, now).1 == Recorded(CheckedIn, Some(now))
  {
    var own := OwnRequest(db, ticketId);
    assert (p.id, own.eventId, own.gate) in db.assignments;
    assert GateOk(own.gate) && Normalize(own) == Some(own) by { CodeRoundTrip(ticketId); }
    CodeRoundTrip(ticketId);
    OwnRequestIsJudged(db, p, ticketId, now);
    JudgeMeans(db, ticketId, now);
    LowerTicketId(ticketId);
  }

  /** Recorded check-ins stay, the log grows by at most one row, and nothing else moves. */
  predicate OnlyRecords(db: Db, next: Db) {
    && next == db.(checkins := next.checkins, attempts := next.attempts)
    && (forall id :: id in db.checkins ==> id in next.checkins && next.checkins[id] == db.checkins[id])
    && db.attempts <= next.attempts && |next.attempts| <= |db.attempts| + 1
  }

  lemma LogOnlyRecords(db: Db, attempt: Attempt)
    ensures OnlyRecords(db, Log(db, attempt))
  {
  }

  lemma AdmitOnlyRecords(db: Db, p: Principal, request: Request, now: int, at: int)
    requires Sound(db) && |request.code| >= 3
    ensures var (next, r) := Admit(db, p, request, now, at);
      OnlyRecords(db, next) && (next.checkins != db.checkins <==> r == Recorded(CheckedIn, Some(at)))
  {
    var id := TicketOf(request.code);
    assert id !in db.checkins ==> db.checkins[id := CheckInRow(p.id, request.eventId, request.gate, at)] != db.checkins;
    JudgeNeverUses(db, request, now);
  }

  lemma JudgeNeverUses(db: Db, request: Request, now: int)
    requires Sound(db) && |request.code| >= 3
    ensures Judge(db, request, now).Stop? ==> Judge(db, request, now).outcome in {TicketNotFound, OrderNotPaid, EventChanged, WrongGate}
  {
  }

  /** A scan changes nothing but the log, unless it records the first use of a ticket; recorded uses never change. */
  lemma UsedStaysUsed(db: Db, p: Principal, request: Request, now: int, at: int)
    requires Sound(db)
    ensures var (next, r) := CheckIn(db, p, request, now, at);
      OnlyRecords(db, next) && (next.checkins != db.checkins <==> r == Recorded(CheckedIn, Some(at)))
  {
    var normal := Normalize(request);
    if p.role == Staff {
      if normal.None? {
        LogOnlyRecords(db, AttemptRow(p, request, InvalidRequest, None, None));
      } else if Authorized(db, p, normal.value.eventId, normal.value.gate) {
        AdmitOnlyRecords(db, p, normal.value, now, at);
      } else {
        LogOnlyRecords(db, AttemptRow(p, normal.value, Forbidden, None, None));
      }
    }
  }

  // ---------------------------------------------------------------- the service

  class Service {
    var tickets: map<string, TicketRow>
    var orders: map<string, OrderRow>
    var events: map<string, EventRow>
    var held: set<string>
    var assignments: set<(string, string, string)>
    var checkins: map<string, CheckInRow>
    var attempts: seq<Attempt>

    ghost function State(): Db
      reads this
    {
      Db(tickets, orders, events, held, assignments, checkins, attempts)
    }

    method AuthorizeTicketStatus(p: Principal, eventId: string, gate: string) returns (ok: bool)
      ensures ok == Authorized(State(), p, eventId, gate)
    {
      return p.role == Admin || (p.id, eventId, gate) in assignments;
    }

    /** ReplaceAssignments: trims, validates one by one, then deletes and inserts. */
    method ReplaceAssignments(staffId: string, given: seq<Post>, sold: set<Post>) returns (ok: bool)
      modifies this`assignments
      ensures (State(), ok) == AssignStep(old(State()), staffId, given, sold)
    {
      var posts := TrimPosts(given);
      ok := ValidateAssignments(posts, sold);
      if ok {
        assignments := set a | a in assignments && a.0 != staffId;
        InsertAssignments(staffId, posts);
      }
    }

    method ValidateAssignments(posts: seq<Post>, sold: set<Post>) returns (ok: bool)
      ensures ok == PostsOk(posts, sold)
    {
      var seen := {};
      for i := 0 to |posts|
        invariant seen == set k | 0 <= k < i :: posts[k]
        invariant PostsOk(posts[..i], sold)
      {
        if !PostOk(posts[i], sold) || posts[i] in seen {
          return false;
        }
        seen := seen + {posts[i]};
      }
      assert posts[..|posts|] == posts;
      return true;
    }

    method InsertAssignments(staffId: string, posts: seq<Post>)
      modifies this`assignments
      ensures assignments == old(assignments) + PostsOf(staffId, posts)
    {
      for i := 0 to |posts|
        invariant assignments == old(assignments) + PostsOf(staffId, posts[..i])
      {
        assignments := assignments + {(staffId, posts[i].eventId, posts[i].gate)};
        assert PostsOf(staffId, posts[..i + 1]) == PostsOf(staffId, posts[..i]) + {(staffId, posts[i].eventId, posts[i].gate)};
      }
      assert posts[..|posts|] == posts;
    }

    method InsertAttempt(p: Principal, request: Request, outcome: Outcome, ticketId: string, at: Option<int>)
      modifies this`attempts
      ensures State() == Log(old(State()), AttemptRow(p, request, outcome, if ticketId == "" then None else Some(ticketId), at))
    {
      var code, eventId, gate := None, None, None;
      var normal := NormalizeTicketCode(request.code);
      if normal.Some? { code := normal; }
      var value := Trim(request.eventId);
      if value != "" && Bytes(value) <= 64 { eventId := Some(value); }
      value := Trim(request.gate);
      if value != "" && Bytes(value) <= 100 { gate := Some(value); }
      attempts := attempts + [Attempt(if ticketId != "" then Some(ticketId) else None, code, eventId, gate, p.id, outcome, at)];
    }

    method FinishAttempt(p: Principal, request: Request, outcome: Outcome, at: Option<int>) returns (r: Result)
      modifies this`attempts
      ensures State() == Log(old(State()), AttemptRow(p, request, outcome, None, at))
      ensures r == Recorded(outcome, at)
    {
      InsertAttempt(p, request, outcome, "", at);
      return Recorded(outcome, at);
    }

    method CheckInTicket(p: Principal, submitted: Request, now: int, at: int) returns (r: Result)
      requires Sound(State())
      modifies this`attempts, this`checkins
      ensures (State(), r) == CheckIn(old(State()), p, submitted, now, at)
    {
      if p.role != Staff { return NotStaff; }
      var normal := Normalize(submitted);
      if normal.None? {
        r := FinishAttempt(p, submitted, InvalidRequest, None);
        return;
      }
      var request := normal.value;
      var authorized := AuthorizeTicketStatus(p, request.eventId, request.gate);
      if !authorized {
        r := FinishAttempt(p, request, Forbidden, None);
        return;
      }
      r := AdmitTicket(p, request, now, at);
    }

    method AdmitTicket(p: Principal, request: Request, now: int, at: int) returns (r: Result)
      requires Sound(State()) && |request.code| == 35
      modifies this`attempts, this`checkins
      ensures (State(), r) == Admit(old(State()), p, request, now, at)
    {
      var ticketId := Lower(request.code[3..]);
      if ticketId !in tickets {
        r := FinishAttempt(p, request, TicketNotFound, None);
        return;
      }
      var row := tickets[ticketId];
      var order := orders[row.orderId];
      if order.status != Paid {
        r := FinishAttempt(p, request, OrderNotPaid, None);
        return;
      }
      if order.eventId != request.eventId {
        r := FinishAttempt(p, request, TicketNotFound, None);
        return;
      }
      if row.orderId in held || !CanCheckIn(Read(events[order.eventId]), now) {
        r := FinishAttempt(p, request, EventChanged, None);
        return;
      }
      var ticket := Decode(row.snapshot);
      if ticket.None? { return Failed; }
      if ticket.value.id != ticketId || ticket.value.eventId != order.eventId {
        r := FinishAttempt(p, request, TicketNotFound, None);
        return;
      }
      if ticket.value.gate != request.gate {
        r := FinishAttempt(p, request, WrongGate, None);
        return;
      }
      if ticketId in checkins {
        r := FinishAttempt(p, request, TicketAlreadyUsed, Some(checkins[ticketId].at));
        return;
      }
      checkins := checkins[ticketId := CheckInRow(p.id, order.eventId, request.gate, at)];
      InsertAttempt(p, request, CheckedIn, ticketId, Some(at));
      return Recorded(CheckedIn, Some(at));
    }
  }
}
