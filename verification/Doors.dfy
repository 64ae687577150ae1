/** The way of a gate from the catalogue to the door.  The catalogue counts the characters of a gate, the ticket in the
    attendance report, the assignments of staff and the door count its bytes. */
module Doors {
  import opened Options
  import opened Text
  import opened EventState
  import opened Admission
  import Catalog

  // ---------------------------------------------------------------- what is sold

  /** A gate as the catalogue stores it. */
  predicate Sold(gate: string) {
    Trimmed(gate) && Catalog.SizeOk(gate, 1, 100)
  }

  predicate AllSold(w: Catalog.World) {
    forall place :: place in w.tiers ==> Sold(w.tiers[place].gate)
  }

  lemma StepKeepsSold(w: Catalog.World, c: Catalog.Change)
    requires AllSold(w)
    ensures AllSold(Catalog.Step(w, c).0)
  {
  }

  /** Over all runs of the catalogue a tier's gate is a trimmed text of 1 to 100 characters. */
  lemma {:induction false} RunKeepsSold(w: Catalog.World, changes: seq<Catalog.Change>)
    requires AllSold(w)
    ensures AllSold(Catalog.Run(w, changes))
    decreases |changes|
  {
    if changes != [] {
      StepKeepsSold(w, changes[0]);
      RunKeepsSold(Catalog.Step(w, changes[0]).0, changes[1..]);
    }
  }

  lemma {:induction false} NormalIffShort(gate: string)
    requires Sold(gate)
    ensures GateOk(gate) <==> Bytes(gate) <= 100
    ensures PlaceOk(gate, 100) <==> Bytes(gate) <= 100
  {
  }

  /** A member of staff can be posted at a sold gate exactly if it has at most 100 bytes. */
  lemma PostedIffShort(db: Db, staffId: string, post: Post, sold: set<Post>)
    requires post in sold && Trimmed(post.eventId) && PlaceOk(post.eventId, 64) && Sold(post.gate)
    ensures AssignStep(db, staffId, [post], sold).1 <==> Bytes(post.gate) <= 100
    ensures AssignStep(db, staffId, [post], sold).1 ==> (staffId, post.eventId, post.gate) in AssignStep(db, staffId, [post], sold).0.assignments
  {
    assert TrimPosts([post]) == [post];
    NormalIffShort(post.gate);
    assert PostsOk([post], sold) <==> PostOk([post][0], sold);
    assert [post][0] == post;
  }

  // ---------------------------------------------------------------- tickets of a sold gate

  /** The snapshot that is stored with a ticket when it is issued. */
  function Issued(ticketId: string, attendee: string, tier: string, eventId: string, gate: string): Snapshot {
    Snapshot(Str(ticketId), Str(CodeOf(ticketId)), Str(attendee), Str(tier), Str(eventId), Str(gate))
  }

  /** The ticket was issued for its order's event and a gate of the catalogue. */
  predicate IssuedAt(db: Db, ticketId: string, gate: string)
    requires Sound(db)
  {
    && IsTicketId(ticketId) && ticketId in db.tickets && Sold(gate)
    && var row := db.tickets[ticketId];
       row.snapshot.Snapshot? && row.snapshot.attendeeName.Str? && row.snapshot.tierName.Str?
       && row.snapshot == Issued(ticketId, row.snapshot.attendeeName.text, row.snapshot.tierName.text, db.orders[row.orderId].eventId, gate)
  }

  /** Paid, not held, and its event neither postponed nor cancelled. */
  predicate Valid(db: Db, ticketId: string)
    requires Sound(db) && ticketId in db.tickets
  {
    var row := db.tickets[ticketId];
    var order := db.orders[row.orderId];
    order.status == Paid && row.orderId !in db.held && db.events[order.eventId].status in {Scheduled, Rescheduled}
  }

  /** The report counts a valid ticket of a sold gate exactly if that gate has at most 100 bytes. */
  lemma {:induction false} EligibleIffShort(db: Db, ticketId: string, gate: string)
    requires Sound(db) && IssuedAt(db, ticketId, gate) && Valid(db, ticketId)
    ensures Eligible(db, ticketId) <==> Bytes(gate) <= 100
  {
    LowerTicketId(ticketId);
    NormalIffShort(gate);
  }

  /** Whoever scans it with whatever request: a ticket whose gate is not a normal text never enters. */
  lemma LongGateIsShut(db: Db, ticketId: string, p: Principal, request: Request, now: int)
    requires Sound(db) && IsTicketId(ticketId) && ticketId in db.tickets
    requires NormalizeTicketCode(request.code) == Some(CodeOf(ticketId)) && !GateOk(GateOf(db.tickets[ticketId].snapshot))
    ensures !Enters(db, p, request, now)
  {
    CodeRoundTrip(ticketId);
    if Normalize(request).Some? {
      var normal := Normalize(request).value;
      assert GateOk(normal.gate) by { assert normal.gate != "" && Bytes(normal.gate) >= 1; }
      assert !Judge(db, normal, now).Pass?;
      JudgeNeverUses(db, normal, now);
    }
  }

  lemma AdminSees(db: Db, admin: Principal, ticketId: string, gate: string, now: int)
    requires Sound(db) && admin.role == Admin && IssuedAt(db, ticketId, gate)
    ensures var status := TicketStatus(db, admin, CodeOf(ticketId), now);
      var row := db.tickets[ticketId];
      && status.Shown?
      && (status.status.canCheckIn <==>
            && ticketId !in db.checkins && db.orders[row.orderId].status == Paid && row.orderId !in db.held
            && CanCheckIn(Read(db.events[db.orders[row.orderId].eventId]), now))
  {
    CodeRoundTrip(ticketId);
  }

  /** The posted member of staff sees what the administrator sees. */
  lemma PostedSees(db: Db, posted: Db, admin: Principal, staff: Principal, ticketId: string, gate: string, now: int)
    requires Sound(db) && Sound(posted) && posted == db.(assignments := posted.assignments)
    requires admin.role == Admin && IssuedAt(db, ticketId, gate)
    requires (staff.id, db.orders[db.tickets[ticketId].orderId].eventId, gate) in posted.assignments
    ensures TicketStatus(posted, staff, CodeOf(ticketId), now) == TicketStatus(db, admin, CodeOf(ticketId), now)
  {
    CodeRoundTrip(ticketId);
  }

  /** An administrator's page that promises a check-in can be taken at its word by posting someone at the ticket's gate
      exactly if that gate has at most 100 bytes. */
  lemma {:induction false} PromiseIsKeptIffShort(db: Db, admin: Principal, staff: Principal, ticketId: string, gate: string, sold: set<Post>, now: int)
    requires Lawful(db) && admin.role == Admin && staff.role == Staff && IssuedAt(db, ticketId, gate)
    requires var eventId := db.orders[db.tickets[ticketId].orderId].eventId;
      Trimmed(eventId) && PlaceOk(eventId, 64) && Post(eventId, gate) in sold
    requires var status := TicketStatus(db, admin, CodeOf(ticketId), now); status.Shown? && status.status.canCheckIn
    ensures var own := OwnRequest(db, ticketId);
      var (posted, accepted) := AssignStep(db, staff.id, [Post(own.eventId, gate)], sold);
      && Sound(posted)
      && (accepted && CheckIn(posted, staff, own, now, now).1 == Recorded(CheckedIn, Some(now)) <==> Bytes(gate) <= 100)
  {
    var own := OwnRequest(db, ticketId);
    var post := Post(own.eventId, gate);
    PostedIffShort(db, staff.id, post, sold);
    AssignKeepsLawful(db, staff.id, [post], sold);
    AssignChangesAssignments(db, staff.id, [post], sold);
    var (posted, accepted) := AssignStep(db, staff.id, [post], sold);
    if accepted {
      PostedSees(db, posted, admin, staff, ticketId, gate, now);
      StatusPromisesCheckIn(posted, staff, ticketId, now);
    }
  }

  // ---------------------------------------------------------------- a gate of two-byte letters

  function Copies(c: char, n: nat): string {
    seq(n, _ => c)
  }

  lemma {:induction false} BytesOfCopies(c: char, n: nat)
    requires 0x80 <= c as int < 0x800
    ensures Bytes(Copies(c, n)) == 2 * n
    decreases n
  {
    if n > 0 {
      BytesOfCopies(c, n - 1);
      assert Copies(c, n)[1..] == Copies(c, n - 1);
    }
  }

  /** 51 times the letter e with an acute accent. */
  const LongGate: string := Copies('\U{E9}', 51)

  /** The catalogue accepts it for any new tier that is otherwise in order, and it has 102 bytes. */
  lemma LongGateIsSold(w: Catalog.World, place: Catalog.Place, given: Catalog.TierInput)
    requires place.event in w.events && place !in w.tiers && given.gate == LongGate
    requires Catalog.Place(place.event, Trim(given.zone)) in w.zones && Catalog.SizeOk(Trim(given.name), 1, 100) && given.capacity <= 4294967295
    ensures var (next, r) := Catalog.SaveTierStep(w, place, given, true);
      r == Catalog.Ok && place in next.tiers && next.tiers[place].gate == LongGate
    ensures Sold(LongGate) && Bytes(LongGate) == 102
  {
    BytesOfCopies('\U{E9}', 51);
    assert LongGate[0] == '\U{E9}' && LongGate[50] == '\U{E9}';
  }

  const Show := Catalog.EventInput("AB", "", "", "", None, Catalog.Draft, "", "", [])
  const Hall := Catalog.Place("e", "z")
  const Floor := Catalog.Place("e", "t")

  /** Three requests to an empty catalogue put it on sale. */
  lemma LongGateOnSale()
    ensures var w := Catalog.Run(Catalog.Empty, [
        Catalog.CreateEvent("e", Show), Catalog.SaveZone(Hall, "Z", true),
        Catalog.SaveTier(Floor, Catalog.TierInput("T", "z", LongGate, 1), true)]);
      Floor in w.tiers && w.tiers[Floor].gate == LongGate
  {
    var tier := Catalog.TierInput("T", "z", LongGate, 1);
    var first, second, third := Catalog.CreateEvent("e", Show), Catalog.SaveZone(Hall, "Z", true), Catalog.SaveTier(Floor, tier, true);
    var w1 := Created();
    var w2 := Zoned(w1);
    var w3 := Priced(w2, tier);
    RunThree(Catalog.Empty, first, second, third);
  }

  lemma Created() returns (w: Catalog.World)
    ensures w == Catalog.Step(Catalog.Empty, Catalog.CreateEvent("e", Show)).0
    ensures "e" in w.events && w.zones == map[] && w.tiers == map[]
  {
    w := Catalog.Step(Catalog.Empty, Catalog.CreateEvent("e", Show)).0;
    assert Catalog.CleanEvent(Show) == Show by { assert Catalog.TrimAll([]) == []; }
  }

  lemma Zoned(w1: Catalog.World) returns (w: Catalog.World)
    requires "e" in w1.events && w1.zones == map[] && w1.tiers == map[]
    ensures w == Catalog.Step(w1, Catalog.SaveZone(Hall, "Z", true)).0
    ensures "e" in w.events && Hall in w.zones && w.tiers == map[]
  {
    w := Catalog.Step(w1, Catalog.SaveZone(Hall, "Z", true)).0;
    ShortTexts();
  }

  lemma Priced(w2: Catalog.World, tier: Catalog.TierInput) returns (w: Catalog.World)
    requires "e" in w2.events && Hall in w2.zones && w2.tiers == map[] && tier == Catalog.TierInput("T", "z", LongGate, 1)
    ensures w == Catalog.Step(w2, Catalog.SaveTier(Floor, tier, true)).0
    ensures Floor in w.tiers && w.tiers[Floor].gate == LongGate
  {
    ShortTexts();
    LongGateIsSold(w2, Floor, tier);
    w := Catalog.SaveTierStep(w2, Floor, tier, true).0;
  }

  lemma ShortTexts()
    ensures Trim("T") == "T" && Trim("z") == "z" && Trim("Z") == "Z"
  {
  }

  lemma {:induction false} RunThree(w: Catalog.World, a: Catalog.Change, b: Catalog.Change, c: Catalog.Change)
    ensures Catalog.Run(w, [a, b, c]) == Catalog.Step(Catalog.Step(Catalog.Step(w, a).0, b).0, c).0
  {
    var w1 := Catalog.Step(w, a).0;
    var w2 := Catalog.Step(w1, b).0;
    assert [a, b, c][1..] == [b, c] && [b, c][1..] == [c] && [c][1..] == [];
    assert Catalog.Run(w2, [c]) == Catalog.Run(Catalog.Step(w2, c).0, []);
    assert Catalog.Run(w1, [b, c]) == Catalog.Run(w2, [c]);
  }
}
