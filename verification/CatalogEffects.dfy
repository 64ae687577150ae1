/** What each request to the catalogue answers and stores, told from the rows alone. */
module CatalogEffects {
  import opened Options
  import opened Text
  import opened Words
  import opened EventState
  import opened Catalog

  // ---------------------------------------------------------------- texts

  predicate Length(s: string, least: nat, most: nat) {
    least <= |Trim(s)| <= most
  }

  predicate NotOnlySpaces(s: string) {
    exists i :: 0 <= i < |s| && s[i] != ' '
  }

  lemma {:induction false} FilledMeans(s: string)
    ensures SqlFilled(s) <==> NotOnlySpaces(s)
    decreases |s|
  {
    if s != "" {
      var head, tail := s[..|s| - 1], s[1..];
      if s[0] == ' ' {
        FilledMeans(tail);
        if i :| 0 <= i < |tail| && tail[i] != ' ' { assert s[i + 1] != ' '; }
        if i :| 0 <= i < |s| && s[i] != ' ' { assert tail[i - 1] != ' '; }
      } else if s[|s| - 1] == ' ' {
        FilledMeans(head);
        assert s[0] != ' ' && head[0] != ' ';
      }
    }
  }

  /** The texts of an event are within their limits. */
  predicate EventFits(e: EventInput) {
    && Length(e.artist, 2, 160) && Length(e.city, 0, 100) && Length(e.venue, 0, 160) && Length(e.address, 0, 255)
    && Length(e.description, 0, 16000) && Bytes(Trim(e.image)) <= 500
    && |e.lineup| <= 100 && forall i :: 0 <= i < |e.lineup| ==> Length(e.lineup[i], 1, 160)
  }

  /** Everything that an event on sale must show: a start, its texts, an act, a zone, a tier, and names on them. */
  predicate Shows(w: World, id: string, e: EventInput, start: Option<int>) {
    && start.Some?
    && Trim(e.artist) != "" && Trim(e.city) != "" && Trim(e.venue) != "" && Trim(e.address) != ""
    && Trim(e.description) != "" && Trim(e.image) != "" && |e.lineup| > 0
    && (exists place :: place in w.zones && place.event == id) && (exists place :: place in w.tiers && place.event == id)
    && (forall place :: place in w.zones && place.event == id ==> NotOnlySpaces(w.zones[place].name))
    && (forall place :: place in w.tiers && place.event == id ==>
          NotOnlySpaces(w.tiers[place].name) && NotOnlySpaces(w.tiers[place].gate))
  }

  /** What is stored of the texts: what was sent, trimmed. */
  predicate Stores(event: Event, e: EventInput, start: Option<int>) {
    && event.artist == Trim(e.artist) && event.city == Trim(e.city) && event.venue == Trim(e.venue) && event.address == Trim(e.address)
    && event.image == Trim(e.image) && event.description == Trim(e.description) && event.startsAt == start
    && event.publication == e.publication
    && |event.lineup| == |e.lineup| && forall i :: 0 <= i < |e.lineup| ==> event.lineup[i] == Trim(e.lineup[i])
  }

  /** No row differs but this event's. */
  predicate OnlyEvent(w: World, next: World, id: string) {
    && next == w.(events := next.events)
    && next.events.Keys - {id} == w.events.Keys - {id}
    && (forall other :: other in w.events && other != id ==> other in next.events && next.events[other] == w.events[other])
  }

  lemma {:induction false} TrimTwice(s: string)
    ensures Trim(Trim(s)) == Trim(s)
  {
  }

  lemma InputMeans(e: EventInput)
    ensures EventInputOk(CleanEvent(e)) <==> EventFits(e)
  {
    var clean := CleanEvent(e);
    assert forall i :: 0 <= i < |e.lineup| ==> clean.lineup[i] == Trim(e.lineup[i]);
  }

  lemma {:induction false} CompleteMeans(w: World, id: string, e: EventInput, start: Option<int>)
    ensures Complete(w, id, CleanEvent(e).(startsAt := start)) <==> Shows(w, id, e, start)
  {
    TrimTwice(e.artist); TrimTwice(e.city); TrimTwice(e.venue); TrimTwice(e.address); TrimTwice(e.description); TrimTwice(e.image);
    NamesMean(w, id);
  }

  lemma {:induction false} NamesMean(w: World, id: string)
    ensures NamesFilled(w, id) <==>
      && (forall place :: place in w.zones && place.event == id ==> NotOnlySpaces(w.zones[place].name))
      && (forall place :: place in w.tiers && place.event == id ==> NotOnlySpaces(w.tiers[place].name) && NotOnlySpaces(w.tiers[place].gate))
  {
    forall place | place in w.zones ensures SqlFilled(w.zones[place].name) <==> NotOnlySpaces(w.zones[place].name) {
      FilledMeans(w.zones[place].name);
    }
    forall place | place in w.tiers
      ensures SqlFilled(w.tiers[place].name) <==> NotOnlySpaces(w.tiers[place].name)
      ensures SqlFilled(w.tiers[place].gate) <==> NotOnlySpaces(w.tiers[place].gate)
    {
      FilledMeans(w.tiers[place].name);
      FilledMeans(w.tiers[place].gate);
    }
  }

  // ---------------------------------------------------------------- events

  /** A new event is refused if its texts do not fit, if it should be on sale at once and cannot, or if its id is taken;
      else it is stored as it was sent, scheduled and undecided. */
  lemma {:induction false} CreateEffects(w: World, id: string, e: EventInput)
    ensures var (next, r) := Step(w, CreateEvent(id, e));
      var hidden := e.publication != Published || Shows(w, id, e, e.startsAt);
      && (r == Invalid <==> !EventFits(e))
      && (r == PublicationIncomplete <==> EventFits(e) && !hidden)
      && (r == Duplicate <==> EventFits(e) && hidden && id in w.events)
      && (r == Ok <==> EventFits(e) && hidden && id !in w.events)
      && (r == Ok ==>
            && OnlyEvent(w, next, id) && id in next.events && Stores(next.events[id], e, e.startsAt)
            && next.events[id].version == 0 && next.events[id].lifecycle == Scheduled)
      && (r != Ok ==> next == w)
  {
    InputMeans(e);
    CompleteMeans(w, id, e, e.startsAt);
    assert CleanEvent(e).(startsAt := e.startsAt) == CleanEvent(e);
  }

  predicate Reserved(w: World, id: string) {
    exists k :: 0 <= k < |w.holds| && w.holds[k].event == id
  }

  /** A postponed or cancelled event holds on to its start, which reads as the zero time if there is none. */
  predicate HoldsStart(event: Event) {
    event.version > 0 && (event.lifecycle == Postponed || event.lifecycle == Cancelled)
  }

  function StartAfter(event: Event, e: EventInput): Option<int> {
    if !HoldsStart(event) then e.startsAt else if event.startsAt.Some? then event.startsAt else Some(0)
  }

  predicate MovesStart(w: World, id: string, e: EventInput)
    requires id in w.events
  {
    w.events[id].startsAt != StartAfter(w.events[id], e)
  }

  predicate MovesPlace(w: World, id: string, e: EventInput)
    requires id in w.events
  {
    w.events[id].city != Trim(e.city) || w.events[id].venue != Trim(e.venue) || w.events[id].address != Trim(e.address)
  }

  /** Something that a reservation was made for would be gone. */
  predicate Empties(w: World, id: string, e: EventInput)
    requires id in w.events
  {
    Trim(e.city) == "" || Trim(e.venue) == "" || Trim(e.address) == "" || StartAfter(w.events[id], e).None?
  }

  /** The four locks of an edit, in their order. */
  predicate StartLocked(w: World, id: string, e: EventInput)
    requires id in w.events
  {
    MovesStart(w, id, e) && (w.events[id].version > 0 || Reserved(w, id))
  }

  predicate Locked(w: World, id: string, e: EventInput)
    requires id in w.events
  {
    StartLocked(w, id, e) || (Reserved(w, id) && (MovesPlace(w, id, e) || Empties(w, id, e)))
  }

  /** An edit has exactly one answer: texts that do not fit, no such event, a locked start, a locked place, a reservation
      that would lose something, an incomplete publication, or Ok. */
  lemma {:induction false} UpdateAnswers(w: World, id: string, e: EventInput)
    ensures var r := Step(w, UpdateEvent(id, e)).1;
      && (r == Invalid <==> !EventFits(e))
      && (r == NotFound <==> EventFits(e) && id !in w.events)
      && (EventFits(e) && id in w.events ==>
            var incomplete := e.publication == Published && !Shows(w, id, e, StartAfter(w.events[id], e));
            && (r == ScheduleLocked <==> StartLocked(w, id, e))
            && (r == LocationLocked <==> !StartLocked(w, id, e) && Reserved(w, id) && MovesPlace(w, id, e))
            && (r == HasReservations <==>
                  !StartLocked(w, id, e) && Reserved(w, id) && !MovesPlace(w, id, e) && Empties(w, id, e))
            && (r == PublicationIncomplete <==> !Locked(w, id, e) && incomplete)
            && (r == Ok <==> !Locked(w, id, e) && !incomplete))
      && (r != Ok ==> Step(w, UpdateEvent(id, e)).0 == w)
  {
    InputMeans(e);
    if id in w.events {
      CompleteMeans(w, id, e, StartAfter(w.events[id], e));
      assert KeptStart(w.events[id], CleanEvent(e)) == StartAfter(w.events[id], e);
    }
  }

  /** An accepted edit stores every text, the lineup and the publication as they were sent, and the start that was sent or
      that the event holds on to; version, lifecycle and all other rows are as they were. */
  lemma {:induction false} UpdateEffects(w: World, id: string, e: EventInput)
    requires Step(w, UpdateEvent(id, e)).1 == Ok
    ensures var next := Step(w, UpdateEvent(id, e)).0;
      && id in w.events && id in next.events && OnlyEvent(w, next, id)
      && Stores(next.events[id], e, StartAfter(w.events[id], e))
      && next.events[id].version == w.events[id].version && next.events[id].lifecycle == w.events[id].lifecycle
      && (w.events[id].version > 0 || Reserved(w, id) ==> next.events[id].startsAt == w.events[id].startsAt)
  {
    UpdateAnswers(w, id, e);
  }

  /** A decision is taken exactly on an event that is not cancelled, for the version that its author saw, with a start
      behind a deadline ahead for a new date and with neither otherwise; nothing but its state changes. */
  lemma DecideEffects(w: World, id: string, d: Decision, now: int, unfinished: bool)
    ensures var (next, r) := Step(w, DecideEvent(id, d, now, unfinished));
      var formed :=
        (d.action == Rescheduled && d.startsAt.Some? && d.deadline.Some? && now < d.deadline.value && d.deadline.value < d.startsAt.value)
        || ((d.action == Postponed || d.action == Cancelled) && d.startsAt.None? && d.deadline.None?);
      && (r == NotFound <==> id !in w.events)
      && (r == Invalid <==> id in w.events && !formed)
      && (id in w.events ==>
            var event := w.events[id];
            var apt := event.version == d.expected && event.lifecycle != Cancelled && (d.action == Cancelled || !unfinished);
            && (r == Refused <==> formed && !apt)
            && (r == Ok <==> formed && apt)
            && (r == Ok ==>
                  && OnlyEvent(w, next, id) && id in next.events
                  && next.events[id] == event.(lifecycle := d.action, version := event.version + 1,
                                               startsAt := if d.action == Rescheduled then d.startsAt else event.startsAt)))
      && (r != Ok ==> next == w)
  {
  }

  // ---------------------------------------------------------------- zones and tiers

  /** A zone needs a name of 1 to 100 characters and an event; a new one a free place, an edit a taken one. */
  lemma {:induction false} ZoneEffects(w: World, place: Place, name: string, create: bool)
    ensures var (next, r) := Step(w, SaveZone(place, name, create));
      && (r == Invalid <==> !Length(name, 1, 100))
      && (r == NotFound <==> Length(name, 1, 100) && (place.event !in w.events || (!create && place !in w.zones)))
      && (r == Duplicate <==> Length(name, 1, 100) && place.event in w.events && create && place in w.zones)
      && (r == Ok <==> Length(name, 1, 100) && place.event in w.events && (create <==> place !in w.zones))
      && next == (if r == Ok then w.(zones := w.zones[place := Zone(Trim(name))]) else w)
  {
  }

  predicate TierFits(t: TierInput) {
    Length(t.name, 1, 100) && Length(t.gate, 1, 100) && t.capacity as int <= 4294967295
  }

  predicate EverReserved(w: World, place: Place) {
    exists k, i :: 0 <= k < |w.holds| && 0 <= i < |w.holds[k].items| && w.holds[k].event == place.event && w.holds[k].items[i].slug == place.slug
  }

  lemma ReservedMeans(w: World, place: Place)
    ensures TierReserved(w, place) <==> EverReserved(w, place)
  {
    if k, i :| 0 <= k < |w.holds| && 0 <= i < |w.holds[k].items| && w.holds[k].event == place.event && w.holds[k].items[i].slug == place.slug {
      assert HasItem(w.holds[k].items, place.slug);
    }
    if TierReserved(w, place) {
      var k :| 0 <= k < |w.holds| && w.holds[k].event == place.event && HasItem(w.holds[k].items, place.slug);
      var i :| 0 <= i < |w.holds[k].items| && w.holds[k].items[i].slug == place.slug;
    }
  }

  /** The place is there or not as it must be, and so is the zone. */
  predicate TierHasPlace(w: World, place: Place, t: TierInput, create: bool) {
    place.event in w.events && (create || place in w.tiers) && Place(place.event, Trim(t.zone)) in w.zones
  }

  /** A new tier starts with its whole capacity available. */
  lemma NewTierEffects(w: World, place: Place, t: TierInput)
    ensures var (next, r) := Step(w, SaveTier(place, t, true));
      && (r == Invalid <==> !TierFits(t))
      && (r == NotFound <==> TierFits(t) && place.event !in w.events)
      && (r == InvalidZone <==> TierFits(t) && place.event in w.events && Place(place.event, Trim(t.zone)) !in w.zones)
      && (r == Duplicate <==> TierFits(t) && TierHasPlace(w, place, t, true) && place in w.tiers)
      && (r == Ok <==> TierFits(t) && TierHasPlace(w, place, t, true) && place !in w.tiers)
      && next == (if r == Ok then w.(tiers := w.tiers[place := Tier(Trim(t.name), Trim(t.zone), Trim(t.gate), t.capacity, t.capacity)]) else w)
  {
  }

  /** An edited tier keeps the number of tickets that are taken: it is refused if the gate would change after a first
      reservation or the capacity would not hold them, else stored with the rest available. */
  lemma {:induction false} EditTierEffects(w: World, place: Place, t: TierInput)
    requires StockOk(w)
    ensures var (next, r) := Step(w, SaveTier(place, t, false));
      && (r == Invalid <==> !TierFits(t))
      && (r == NotFound <==> TierFits(t) && (place.event !in w.events || place !in w.tiers))
      && (r == InvalidZone <==> TierFits(t) && place.event in w.events && place in w.tiers && Place(place.event, Trim(t.zone)) !in w.zones)
      && (TierFits(t) && TierHasPlace(w, place, t, false) ==>
            var before := w.tiers[place];
            var taken := before.capacity as int - before.available as int;
            var moved := EverReserved(w, place) && Trim(t.gate) != before.gate;
            && (r == GateLocked <==> moved)
            && (r == CapacityBelowBound <==> !moved && t.capacity as int < taken)
            && (r == Ok <==> !moved && taken <= t.capacity as int)
            && (r == Ok ==>
                  && next == w.(tiers := w.tiers[place := next.tiers[place]])
                  && next.tiers[place] == Tier(Trim(t.name), Trim(t.zone), Trim(t.gate), t.capacity, next.tiers[place].available)
                  && next.tiers[place].available as int == t.capacity as int - taken))
      && (r != Ok ==> next == w)
  {
    ReservedMeans(w, place);
    if place in w.tiers {
      BoundIsHeld(w, place);
      assert TierStockOk(w, place);
    }
  }

  // ---------------------------------------------------------------- stock

  predicate Available(w: World, event: string, items: seq<Item>) {
    && (forall i, j :: 0 <= i < j < |items| ==> items[i].slug != items[j].slug)
    && forall i :: 0 <= i < |items| ==>
         0 < items[i].quantity && Place(event, items[i].slug) in w.tiers
         && items[i].quantity <= w.tiers[Place(event, items[i].slug)].available
  }

  predicate OnSale(w: World, event: string) {
    event in w.events && w.events[event].publication == Published
    && (w.events[event].lifecycle == Scheduled || w.events[event].lifecycle == Rescheduled)
  }

  /** A reservation is granted exactly for an event on sale whose tiers have the tickets. */
  lemma ReserveAnswers(w: World, event: string, items: seq<Item>)
    ensures var (next, r) := Step(w, Reserve(event, items));
      && (r == Ok <==> OnSale(w, event) && Available(w, event, items))
      && (r == NotFound <==> event !in w.events || w.events[event].publication != Published)
      && (r == Ok || r == NotFound || r == Refused)
      && (r != Ok ==> next == w)
  {
  }

  /** Tiers are the same in all but what is available. */
  predicate OnlyAvailability(w: World, next: World) {
    && next == w.(tiers := next.tiers, holds := next.holds) && next.tiers.Keys == w.tiers.Keys
    && forall p :: p in w.tiers ==> next.tiers[p] == w.tiers[p].(available := next.tiers[p].available)
  }

  /** Every reserved tier has so many tickets fewer, every other tier as many as before; the reservation is kept open. */
  lemma {:induction false} ReserveEffects(w: World, event: string, items: seq<Item>)
    requires Step(w, Reserve(event, items)).1 == Ok
    ensures var next := Step(w, Reserve(event, items)).0;
      && OnlyAvailability(w, next) && next.holds == w.holds + [Hold(event, items, true)]
      && (forall i :: 0 <= i < |items| ==>
            var p := Place(event, items[i].slug);
            p in w.tiers && next.tiers[p].available as int == w.tiers[p].available as int - items[i].quantity as int)
      && (forall p :: p in w.tiers && (forall i :: 0 <= i < |items| ==> p != Place(event, items[i].slug)) ==> next.tiers[p] == w.tiers[p])
  {
    var next := Step(w, Reserve(event, items)).0;
    forall i | 0 <= i < |items|
      ensures var p := Place(event, items[i].slug);
        p in w.tiers && next.tiers[p].available as int == w.tiers[p].available as int - items[i].quantity as int
    {
      QuantityOfItem(items, i);
    }
    forall p | p in w.tiers && forall i :: 0 <= i < |items| ==> p != Place(event, items[i].slug)
      ensures next.tiers[p] == w.tiers[p]
    {
      if p.event == event {
        forall i | 0 <= i < |items| ensures items[i].slug != p.slug { assert p != Place(event, items[i].slug); }
        QuantityOfOther(items, p.slug);
      }
    }
  }

  /** What was reserved comes back tier by tier, once. */
  lemma {:induction false} GiveBackEffects(w: World, k: nat, clipped: bool)
    requires StockOk(w)
    ensures var (next, r) := Step(w, GiveBack(k, clipped));
      && (r == Ok <==> k < |w.holds| && w.holds[k].open)
      && (r != Ok ==> r == NotFound && next == w)
      && (r == Ok ==>
            && OnlyAvailability(w, next) && next.holds == w.holds[k := w.holds[k].(open := false)]
            && (forall i :: 0 <= i < |w.holds[k].items| ==>
                  var p := Place(w.holds[k].event, w.holds[k].items[i].slug);
                  p in w.tiers && next.tiers[p].available as int == w.tiers[p].available as int + w.holds[k].items[i].quantity as int)
            && (forall p :: p in w.tiers && (forall i :: 0 <= i < |w.holds[k].items| ==> p != Place(w.holds[k].event, w.holds[k].items[i].slug)) ==>
                  next.tiers[p] == w.tiers[p]))
  {
    if k < |w.holds| && w.holds[k].open {
      var hold, next := w.holds[k], Step(w, GiveBack(k, clipped)).0;
      GiveBackIsExact(w, k, clipped);
      assert HoldOk(w, hold);
      forall i | 0 <= i < |hold.items|
        ensures var p := Place(hold.event, hold.items[i].slug);
          p in w.tiers && next.tiers[p].available as int == w.tiers[p].available as int + hold.items[i].quantity as int
      {
        QuantityOfItem(hold.items, i);
        assert Place(hold.event, hold.items[i].slug) in w.tiers;
      }
      forall p | p in w.tiers && forall i :: 0 <= i < |hold.items| ==> p != Place(hold.event, hold.items[i].slug)
        ensures next.tiers[p] == w.tiers[p]
      {
        if p.event == hold.event {
          forall i | 0 <= i < |hold.items| ensures hold.items[i].slug != p.slug { assert p != Place(hold.event, hold.items[i].slug); }
          QuantityOfOther(hold.items, p.slug);
        }
        assert next.tiers[p].available == w.tiers[p].available;
      }
    }
  }

  // ---------------------------------------------------------------- from nothing to a sale

  const Show := EventInput("AB", "CD", "EF", "GH", Some(1000), Draft, "I", "J", ["K"])
  const Hall := Place("e", "z")
  const Floor := Place("e", "t")
  const Entry := TierInput("T", "z", "G", 2)

  lemma ShowFits()
    ensures EventFits(Show) && EventFits(Show.(publication := Published))
    ensures Trim("AB") == "AB" && Trim("CD") == "CD" && Trim("EF") == "EF" && Trim("GH") == "GH" && Trim("I") == "I" && Trim("J") == "J" && Trim("K") == "K"
  {
    ShortTexts();
  }

  lemma ShortTexts()
    ensures Trim("AB") == "AB" && Trim("CD") == "CD" && Trim("EF") == "EF" && Trim("GH") == "GH" && Trim("I") == "I" && Trim("J") == "J" && Trim("K") == "K"
    ensures Trim("T") == "T" && Trim("z") == "z" && Trim("Z") == "Z" && Trim("G") == "G" && Bytes("I") == 1
  {
  }

  lemma Drafted() returns (w: World)
    ensures Step(Empty, CreateEvent("e", Show)) == (w, Ok)
    ensures "e" in w.events && w.zones == map[] && w.tiers == map[] && w.holds == []
    ensures w.events["e"].version == 0 && w.events["e"].lifecycle == Scheduled
  {
    ShowFits();
    CreateEffects(Empty, "e", Show);
    w := Step(Empty, CreateEvent("e", Show)).0;
  }

  lemma Furnished(w1: World) returns (w: World)
    requires "e" in w1.events && w1.zones == map[] && w1.tiers == map[]
    ensures Step(w1, SaveZone(Hall, "Z", true)).1 == Ok
    ensures Step(Step(w1, SaveZone(Hall, "Z", true)).0, SaveTier(Floor, Entry, true)) == (w, Ok)
    ensures w == w1.(zones := map[Hall := Zone("Z")], tiers := map[Floor := Tier("T", "z", "G", 2, 2)])
  {
    ShortTexts();
    ZoneEffects(w1, Hall, "Z", true);
    var w2 := Step(w1, SaveZone(Hall, "Z", true)).0;
    assert w2.zones == map[Hall := Zone("Z")];
    NewTierEffects(w2, Floor, Entry);
    w := Step(w2, SaveTier(Floor, Entry, true)).0;
    assert w.tiers == map[Floor := Tier("T", "z", "G", 2, 2)];
  }

  lemma {:induction false} Launched(w3: World) returns (w: World)
    requires "e" in w3.events && w3.events["e"].version == 0 && w3.events["e"].lifecycle == Scheduled && w3.holds == []
    requires w3.zones == map[Hall := Zone("Z")] && w3.tiers == map[Floor := Tier("T", "z", "G", 2, 2)]
    ensures Step(w3, UpdateEvent("e", Show.(publication := Published))) == (w, Ok)
    ensures "e" in w.events && w.events["e"].publication == Published && w.events["e"].lifecycle == Scheduled
    ensures w.tiers == w3.tiers
  {
    var e := Show.(publication := Published);
    ShowFits();
    assert Hall in w3.zones && Floor in w3.tiers;
    assert NotOnlySpaces("Z") && NotOnlySpaces("T") && NotOnlySpaces("G") by { assert "Z"[0] != ' ' && "T"[0] != ' ' && "G"[0] != ' '; }
    assert Shows(w3, "e", e, Some(1000));
    UpdateAnswers(w3, "e", e);
    UpdateEffects(w3, "e", e);
    w := Step(w3, UpdateEvent("e", e)).0;
  }

  lemma {:induction false} RunFour(w: World, a: Change, b: Change, c: Change, d: Change)
    ensures Run(w, [a, b, c, d]) == Step(Step(Step(Step(w, a).0, b).0, c).0, d).0
  {
    var w1 := Step(w, a).0;
    var w2 := Step(w1, b).0;
    var w3 := Step(w2, c).0;
    assert [a, b, c, d][1..] == [b, c, d] && [b, c, d][1..] == [c, d] && [c, d][1..] == [d] && [d][1..] == [];
    assert Run(w3, [d]) == Run(Step(w3, d).0, []);
    assert Run(w2, [c, d]) == Run(w3, [d]);
    assert Run(w1, [b, c, d]) == Run(w2, [c, d]);
  }

  /** Four requests to an empty catalogue put an event on sale, and then a ticket can be reserved. */
  lemma {:induction false} EventsCanBeSold()
    ensures var w := Run(Empty, [CreateEvent("e", Show), SaveZone(Hall, "Z", true), SaveTier(Floor, Entry, true),
                                 UpdateEvent("e", Show.(publication := Published))]);
      && "e" in w.events && w.events["e"].publication == Published
      && var (after, r) := Step(w, Reserve("e", [Item("t", 1)]));
         r == Ok && Floor in after.tiers && after.tiers[Floor].available == 1
  {
    var w1 := Drafted();
    var w3 := Furnished(w1);
    var w4 := Launched(w3);
    RunFour(Empty, CreateEvent("e", Show), SaveZone(Hall, "Z", true), SaveTier(Floor, Entry, true),
            UpdateEvent("e", Show.(publication := Published)));
    SoldOnce(w4);
  }

  lemma SoldOnce(w: World)
    requires "e" in w.events && w.events["e"].publication == Published && w.events["e"].lifecycle == Scheduled
    requires w.tiers == map[Floor := Tier("T", "z", "G", 2, 2)]
    ensures var (after, r) := Step(w, Reserve("e", [Item("t", 1)]));
      r == Ok && Floor in after.tiers && after.tiers[Floor].available == 1
  {
    var items := [Item("t", 1)];
    assert w.tiers[Place("e", items[0].slug)] == Tier("T", "z", "G", 2, 2);
    ReserveAnswers(w, "e", items);
    ReserveEffects(w, "e", items);
    assert Floor == Place("e", items[0].slug);
  }
}
