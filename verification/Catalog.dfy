/** The catalogue under administrators' edits: events, their zones and ticket tiers, beside the reservations that take
    tickets and give them back.  Row locks on the event make each request one step. */
module Catalog {
  import opened Options
  import opened Text
  import opened Words
  import opened EventState

  datatype Publication = Draft | Published | Archived
  datatype Event = Event(
    artist: string, city: string, venue: string, address: string,
    startsAt: Option<int>,
    publication: Publication,
    image: string, description: string,
    lineup: seq<string>,
    version: nat,
    lifecycle: Lifecycle)

  /** The key of a zone or a tier: its event and its slug there. */
  datatype Place = Place(event: string, slug: string)

  datatype Zone = Zone(name: string)
  datatype Tier = Tier(name: string, zone: string, gate: string, capacity: uint64, available: uint64)

  datatype Item = Item(slug: string, quantity: uint64)

  /** A reservation; `open` until its tickets are given back. */
  datatype Hold = Hold(event: string, items: seq<Item>, open: bool)

  datatype World = World(events: map<string, Event>, zones: map<Place, Zone>, tiers: map<Place, Tier>, holds: seq<Hold>)

  datatype EventInput = EventInput(
    artist: string, city: string, venue: string, address: string,
    startsAt: Option<int>, publication: Publication, image: string, description: string, lineup: seq<string>)

  datatype TierInput = TierInput(name: string, zone: string, gate: string, capacity: uint64)

  datatype Change =
    | CreateEvent(id: string, input: EventInput)
    | UpdateEvent(id: string, input: EventInput)
    | SaveZone(place: Place, name: string, create: bool)
    | SaveTier(place: Place, tier: TierInput, create: bool)
    | Reserve(event: string, items: seq<Item>)
    | GiveBack(k: nat, clipped: bool)
    | DecideEvent(id: string, decision: Decision, now: int, unfinished: bool)

  datatype Result =
    | Ok | Invalid | NotFound | Duplicate | ScheduleLocked | LocationLocked | HasReservations | PublicationIncomplete
    | InvalidZone | GateLocked | CapacityBelowBound | Refused | Failed

  // ---------------------------------------------------------------- input checks

  predicate SizeOk(s: string, least: nat, most: nat) {
    least <= |s| <= most
  }

  predicate LineupOk(lineup: seq<string>) {
    |lineup| <= 100 && forall i :: 0 <= i < |lineup| ==> SizeOk(lineup[i], 1, 160)
  }

  function TrimAll(lineup: seq<string>): seq<string> {
    seq(|lineup|, i requires 0 <= i < |lineup| => Trim(lineup[i]))
  }

  function CleanEvent(e: EventInput): EventInput {
    e.(artist := Trim(e.artist), city := Trim(e.city), venue := Trim(e.venue), address := Trim(e.address),
       image := Trim(e.image), description := Trim(e.description), lineup := TrimAll(e.lineup))
  }

  /** adminEventInput.valid, of the trimmed input. */
  predicate EventInputOk(e: EventInput) {
    && SizeOk(e.artist, 2, 160) && SizeOk(e.city, 0, 100) && SizeOk(e.venue, 0, 160) && SizeOk(e.address, 0, 255)
    && SizeOk(e.description, 0, 16000) && LineupOk(e.lineup) && Bytes(e.image) <= 500
  }

  function CleanTier(t: TierInput): TierInput {
    t.(name := Trim(t.name), zone := Trim(t.zone), gate := Trim(t.gate))
  }

  predicate TierInputOk(t: TierInput) {
    SizeOk(t.name, 1, 100) && SizeOk(t.gate, 1, 100) && t.capacity <= 4294967295
  }

  /** The loop over the lineup, overwriting it in place. */
  method CheckLineup(given: seq<string>) returns (ok: bool, lineup: seq<string>)
    ensures ok <==> forall i :: 0 <= i < |given| ==> SizeOk(TrimAll(given)[i], 1, 160)
    ensures ok ==> lineup == TrimAll(given)
  {
    lineup := given;
    for i := 0 to |lineup|
      invariant |lineup| == |given|
      invariant forall k :: 0 <= k < |given| ==> lineup[k] == if k < i then Trim(given[k]) else given[k]
      invariant forall k :: 0 <= k < i ==> SizeOk(lineup[k], 1, 160)
    {
      lineup := lineup[i := Trim(lineup[i])];
      if lineup[i] == "" || |lineup[i]| > 160 {
        assert TrimAll(given)[i] == lineup[i];
        return false, lineup;
      }
    }
    return true, lineup;
  }

  // ---------------------------------------------------------------- what is there

  predicate IsReserved(w: World, event: string) {
    exists k :: 0 <= k < |w.holds| && w.holds[k].event == event
  }

  /** Was the tier ever reserved? */
  predicate TierReserved(w: World, place: Place) {
    exists k :: 0 <= k < |w.holds| && w.holds[k].event == place.event && HasItem(w.holds[k].items, place.slug)
  }

  predicate HasItem(items: seq<Item>, slug: string) {
    exists i :: 0 <= i < |items| && items[i].slug == slug
  }

  predicate HasZone(w: World, event: string) {
    exists place :: place in w.zones && place.event == event
  }

  predicate HasTier(w: World, event: string) {
    exists place :: place in w.tiers && place.event == event
  }

  predicate Blank(s: string) {
    Trim(s) == ""
  }

  /** CHAR_LENGTH(TRIM(s)) > 0. */
  predicate SqlFilled(s: string) {
    SqlTrim(s) != ""
  }

  predicate NamesFilled(w: World, event: string) {
    && (forall place :: place in w.zones && place.event == event ==> SqlFilled(w.zones[place].name))
    && (forall place :: place in w.tiers && place.event == event ==> SqlFilled(w.tiers[place].name) && SqlFilled(w.tiers[place].gate))
  }

  /** validatePublication. */
  predicate Complete(w: World, id: string, e: EventInput) {
    && e.startsAt.Some?
    && !Blank(e.artist) && !Blank(e.city) && !Blank(e.venue) && !Blank(e.address) && !Blank(e.description) && !Blank(e.image)
    && e.lineup != [] && HasZone(w, id) && HasTier(w, id) && NamesFilled(w, id)
  }

  // ---------------------------------------------------------------- steps

  function NewEvent(e: EventInput, version: nat, lifecycle: Lifecycle): Event {
    Event(e.artist, e.city, e.venue, e.address, e.startsAt, e.publication, e.image, e.description, e.lineup, version, lifecycle)
  }

  function CreateEventStep(w: World, id: string, given: EventInput): (World, Result) {
    var e := CleanEvent(given);
    if !EventInputOk(e) then (w, Invalid)
    else if e.publication == Published && !Complete(w, id, e) then (w, PublicationIncomplete)
    else if id in w.events then (w, Duplicate)
    else (w.(events := w.events[id := NewEvent(e, 0, Scheduled)]), Ok)
  }

  /** A postponed or cancelled event keeps the start that it has; a missing one reads as the zero time. */
  function KeptStart(event: Event, e: EventInput): Option<int> {
    if event.version > 0 && (event.lifecycle == Postponed || event.lifecycle == Cancelled)
    then Some(if event.startsAt.Some? then event.startsAt.value else 0) else e.startsAt
  }

  function UpdateEventStep(w: World, id: string, given: EventInput): (World, Result) {
    var clean := CleanEvent(given);
    if !EventInputOk(clean) then (w, Invalid)
    else if id !in w.events then (w, NotFound)
    else
      var event := w.events[id];
      var e := clean.(startsAt := KeptStart(event, clean));
      if event.startsAt != e.startsAt && (event.version > 0 || IsReserved(w, id)) then (w, ScheduleLocked)
      else if (event.city != e.city || event.venue != e.venue || event.address != e.address) && IsReserved(w, id) then (w, LocationLocked)
      else if (e.artist == "" || e.city == "" || e.venue == "" || e.address == "" || e.startsAt.None?) && IsReserved(w, id)
      then (w, HasReservations)
      else if e.publication == Published && !Complete(w, id, e) then (w, PublicationIncomplete)
      else (w.(events := w.events[id := NewEvent(e, event.version, event.lifecycle)]), Ok)
  }

  function SaveZoneStep(w: World, place: Place, given: string, create: bool): (World, Result) {
    var name := Trim(given);
    if !SizeOk(name, 1, 100) then (w, Invalid)
    else if place.event !in w.events then (w, NotFound)
    else if create && place in w.zones then (w, Duplicate)
    else if !create && place !in w.zones then (w, NotFound)
    else (w.(zones := w.zones[place := Zone(name)]), Ok)
  }

  function SaveTierStep(w: World, place: Place, given: TierInput, create: bool): (World, Result) {
    var t := CleanTier(given);
    if !TierInputOk(t) then (w, Invalid)
    else if place.event !in w.events then (w, NotFound)
    else if !create && place !in w.tiers then (w, NotFound)
    else if Place(place.event, t.zone) !in w.zones then (w, InvalidZone)
    else if create then
      if place in w.tiers then (w, Duplicate)
      else (w.(tiers := w.tiers[place := Tier(t.name, t.zone, t.gate, t.capacity, t.capacity)]), Ok)
    else
      var old_ := w.tiers[place];
      var bound := Minus(old_.capacity, old_.available);
      if TierReserved(w, place) && t.gate != old_.gate then (w, GateLocked)
      else if t.capacity < bound then (w, CapacityBelowBound)
      else (w.(tiers := w.tiers[place := Tier(t.name, t.zone, t.gate, t.capacity, t.capacity - bound)]), Ok)
  }

  /** How many tickets of a tier the items are. */
  function QuantityOf(items: seq<Item>, slug: string): nat {
    if items == [] then 0
    else QuantityOf(items[..|items| - 1], slug) + (if items[|items| - 1].slug == slug then items[|items| - 1].quantity as int else 0)
  }

  function QuantityAt(event: string, items: seq<Item>, place: Place): nat {
    if place.event == event then QuantityOf(items, place.slug) else 0
  }

  predicate DistinctItems(items: seq<Item>) {
    forall i, j :: 0 <= i < j < |items| ==> items[i].slug != items[j].slug
  }

  /** The tiers exist and have as many tickets left. */
  predicate InStock(w: World, event: string, items: seq<Item>) {
    forall i :: 0 <= i < |items| ==>
      && items[i].quantity > 0 && Place(event, items[i].slug) in w.tiers
      && items[i].quantity <= w.tiers[Place(event, items[i].slug)].available
  }

  predicate ItemsKnown(w: World, event: string, items: seq<Item>) {
    forall i :: 0 <= i < |items| ==> Place(event, items[i].slug) in w.tiers
  }

  function Clamp(n: int): uint64 {
    if n < 0 then 0 else if n > MaxUint64 as int then MaxUint64 else n as uint64
  }

  function Taken(tiers: map<Place, Tier>, event: string, items: seq<Item>): map<Place, Tier> {
    map p | p in tiers :: tiers[p].(available := Clamp(tiers[p].available as int - QuantityAt(event, items, p)))
  }

  function ReserveStep(w: World, event: string, items: seq<Item>): (World, Result) {
    if event !in w.events || w.events[event].publication != Published then (w, NotFound)
    else if w.events[event].lifecycle == Postponed || w.events[event].lifecycle == Cancelled then (w, Refused)
    else if !DistinctItems(items) || !InStock(w, event, items) then (w, Refused)
    else (w.(tiers := Taken(w.tiers, event, items), holds := w.holds + [Hold(event, items, true)]), Ok)
  }

  /** Reservations give back at most up to the capacity, orders without that care (a CHECK would stop the excess). */
  function Returned(tiers: map<Place, Tier>, event: string, items: seq<Item>, clipped: bool): map<Place, Tier> {
    map p | p in tiers :: tiers[p].(available :=
      Clamp(if clipped && tiers[p].available as int + QuantityAt(event, items, p) > tiers[p].capacity as int then tiers[p].capacity as int
            else tiers[p].available as int + QuantityAt(event, items, p)))
  }

  predicate Fits(w: World, event: string, items: seq<Item>) {
    forall p :: p in w.tiers ==> w.tiers[p].available as int + QuantityAt(event, items, p) <= w.tiers[p].capacity as int
  }

  function GiveBackStep(w: World, k: nat, clipped: bool): (World, Result) {
    if k >= |w.holds| || !w.holds[k].open then (w, NotFound)
    else
      var hold := w.holds[k];
      if !clipped && !Fits(w, hold.event, hold.items) then (w, Failed)
      else (w.(tiers := Returned(w.tiers, hold.event, hold.items, clipped), holds := w.holds[k := hold.(open := false)]), Ok)
  }

  function StateOf(event: Event): EventRow {
    EventRow(event.lifecycle, event.version, event.startsAt)
  }

  /** eventchange's commit, as far as it concerns the event's row. */
  function DecideStep(w: World, id: string, d: Decision, now: int, unfinished: bool): (World, Result) {
    if id !in w.events then (w, NotFound)
    else if !DecisionOk(d, now) then (w, Invalid)
    else if Conflicts(StateOf(w.events[id]), d, unfinished) then (w, Refused)
    else
      var state := Decided(StateOf(w.events[id]), d);
      (w.(events := w.events[id := w.events[id].(lifecycle := state.status, version := state.version, startsAt := state.startsAt)]), Ok)
  }

  function Step(w: World, c: Change): (World, Result) {
    match c
    case CreateEvent(id, input) => CreateEventStep(w, id, input)
    case UpdateEvent(id, input) => UpdateEventStep(w, id, input)
    case SaveZone(place, name, create) => SaveZoneStep(w, place, name, create)
    case SaveTier(place, tier, create) => SaveTierStep(w, place, tier, create)
    case Reserve(event, items) => ReserveStep(w, event, items)
    case GiveBack(k, clipped) => GiveBackStep(w, k, clipped)
    case DecideEvent(id, decision, now, unfinished) => DecideStep(w, id, decision, now, unfinished)
  }

  function Run(w: World, changes: seq<Change>): World
    decreases |changes|
  {
    if changes == [] then w else Run(Step(w, changes[0]).0, changes[1..])
  }

  const Empty := World(map[], map[], map[], [])

  // ---------------------------------------------------------------- stock

  /** The tickets of a tier in open holds. */
  function HeldAt(holds: seq<Hold>, place: Place): nat {
    if holds == [] then 0
    else
      var last := holds[|holds| - 1];
      HeldAt(holds[..|holds| - 1], place) + (if last.open then QuantityAt(last.event, last.items, place) else 0)
  }

  predicate TierStockOk(w: World, place: Place)
    requires place in w.tiers
  {
    var t := w.tiers[place];
    t.available <= t.capacity && t.capacity as int - t.available as int == HeldAt(w.holds, place)
  }

  predicate HoldOk(w: World, h: Hold) {
    DistinctItems(h.items) && ItemsKnown(w, h.event, h.items)
  }

  /** Every tier's capacity is what is available and what is held. */
  predicate StockOk(w: World) {
    && (forall place :: place in w.tiers ==> TierStockOk(w, place))
    && (forall k :: 0 <= k < |w.holds| ==> HoldOk(w, w.holds[k]))
  }

  lemma {:induction false} QuantityOfItem(items: seq<Item>, i: nat)
    requires DistinctItems(items) && i < |items|
    ensures QuantityOf(items, items[i].slug) == items[i].quantity as int
    decreases |items|
  {
    if i < |items| - 1 {
      QuantityOfItem(items[..|items| - 1], i);
    } else {
      QuantityOfOther(items[..i], items[i].slug);
    }
  }

  lemma {:induction false} QuantityOfOther(items: seq<Item>, slug: string)
    requires !HasItem(items, slug)
    ensures QuantityOf(items, slug) == 0
    decreases |items|
  {
    if items != [] {
      var rest := items[..|items| - 1];
      forall i | 0 <= i < |rest| ensures rest[i].slug != slug { assert items[i] == rest[i]; }
      assert items[|items| - 1].slug != slug;
      QuantityOfOther(rest, slug);
    }
  }

  lemma {:induction false} HeldAtClose(holds: seq<Hold>, k: nat, place: Place)
    requires k < |holds| && holds[k].open
    ensures HeldAt(holds[k := holds[k].(open := false)], place)
         == HeldAt(holds, place) - QuantityAt(holds[k].event, holds[k].items, place)
    decreases |holds|
  {
    var closed := holds[k := holds[k].(open := false)];
    var n := |holds| - 1;
    if k < n {
      HeldAtClose(holds[..n], k, place);
      assert closed[..n] == holds[..n][k := holds[..n][k].(open := false)];
    } else {
      assert closed[..n] == holds[..n];
    }
  }

  lemma {:induction false} HeldAtLeastOne(holds: seq<Hold>, k: nat, place: Place)
    requires k < |holds| && holds[k].open
    ensures QuantityAt(holds[k].event, holds[k].items, place) <= HeldAt(holds, place)
    decreases |holds|
  {
    if k < |holds| - 1 { HeldAtLeastOne(holds[..|holds| - 1], k, place); }
  }

  /** Nothing is held of a tier that is not there. */
  lemma {:induction false} NothingHeld(w: World, holds: seq<Hold>, place: Place)
    requires place !in w.tiers && forall k :: 0 <= k < |holds| ==> HoldOk(w, holds[k])
    ensures HeldAt(holds, place) == 0
    decreases |holds|
  {
    if holds != [] {
      var last := holds[|holds| - 1];
      NothingHeld(w, holds[..|holds| - 1], place);
      assert HoldOk(w, last);
      if place.event == last.event {
        forall i | 0 <= i < |last.items| ensures last.items[i].slug != place.slug {
          assert Place(last.event, last.items[i].slug) in w.tiers;
        }
        QuantityOfOther(last.items, place.slug);
      }
    }
  }

  lemma SameStock(w: World, next: World)
    requires StockOk(w) && next.tiers == w.tiers && next.holds == w.holds
    ensures StockOk(next)
  {
    forall place | place in next.tiers ensures TierStockOk(next, place) { assert TierStockOk(w, place); }
    forall k | 0 <= k < |next.holds| ensures HoldOk(next, next.holds[k]) { assert HoldOk(w, w.holds[k]); }
  }

  /** With its stock in order the subtraction of an edit never wraps: it is the number of tickets sold or held. */
  lemma {:induction false} BoundIsHeld(w: World, place: Place)
    requires StockOk(w) && place in w.tiers
    ensures Minus(w.tiers[place].capacity, w.tiers[place].available) as int == HeldAt(w.holds, place)
  {
    assert TierStockOk(w, place);
  }

  lemma SaveTierKeepsStock(w: World, place: Place, given: TierInput, create: bool)
    requires StockOk(w)
    ensures StockOk(SaveTierStep(w, place, given, create).0)
  {
    var (next, r) := SaveTierStep(w, place, given, create);
    if r == Ok {
      if place in w.tiers { BoundIsHeld(w, place); } else { NothingHeld(w, w.holds, place); }
      forall other | other in next.tiers ensures TierStockOk(next, other) {
        if other != place { assert TierStockOk(w, other); }
      }
      forall k | 0 <= k < |next.holds| ensures HoldOk(next, next.holds[k]) { assert HoldOk(w, w.holds[k]); }
    }
  }

  lemma TakenIsExact(w: World, event: string, items: seq<Item>, place: Place)
    requires DistinctItems(items) && InStock(w, event, items) && place in w.tiers
    ensures QuantityAt(event, items, place) <= w.tiers[place].available as int
  {
    if place.event == event {
      if i :| 0 <= i < |items| && items[i].slug == place.slug {
        QuantityOfItem(items, i);
        assert Place(event, items[i].slug) == place;
      } else {
        QuantityOfOther(items, place.slug);
      }
    }
  }

  lemma ReserveKeepsStock(w: World, event: string, items: seq<Item>)
    requires StockOk(w)
    ensures StockOk(ReserveStep(w, event, items).0)
  {
    var (next, r) := ReserveStep(w, event, items);
    if r == Ok {
      forall place | place in next.tiers ensures TierStockOk(next, place) {
        assert TierStockOk(w, place);
        TakenIsExact(w, event, items, place);
        assert next.holds[..|w.holds|] == w.holds;
      }
      forall k | 0 <= k < |next.holds| ensures HoldOk(next, next.holds[k]) {
        if k < |w.holds| { assert HoldOk(w, w.holds[k]); }
      }
    }
  }

  /** What a hold gives back always fits: clipping at the capacity never cuts anything off, and not clipping never fails. */
  lemma GiveBackFits(w: World, k: nat)
    requires StockOk(w) && k < |w.holds| && w.holds[k].open
    ensures Fits(w, w.holds[k].event, w.holds[k].items)
  {
    forall p | p in w.tiers ensures w.tiers[p].available as int + QuantityAt(w.holds[k].event, w.holds[k].items, p) <= w.tiers[p].capacity as int {
      assert TierStockOk(w, p);
      HeldAtLeastOne(w.holds, k, p);
    }
  }

  lemma GiveBackIsExact(w: World, k: nat, clipped: bool)
    requires StockOk(w) && k < |w.holds| && w.holds[k].open
    ensures var (next, r) := GiveBackStep(w, k, clipped);
      && r == Ok && next == GiveBackStep(w, k, !clipped).0
      && next.tiers.Keys == w.tiers.Keys
      && (forall p :: p in w.tiers ==>
            next.tiers[p].available as int == w.tiers[p].available as int + QuantityAt(w.holds[k].event, w.holds[k].items, p))
  {
    GiveBackFits(w, k);
    assert Returned(w.tiers, w.holds[k].event, w.holds[k].items, true) == Returned(w.tiers, w.holds[k].event, w.holds[k].items, false);
  }

  lemma GiveBackKeepsStock(w: World, k: nat, clipped: bool)
    requires StockOk(w)
    ensures StockOk(GiveBackStep(w, k, clipped).0)
  {
    if k < |w.holds| && w.holds[k].open {
      var next := GiveBackStep(w, k, clipped).0;
      GiveBackFits(w, k);
      forall p | p in next.tiers ensures TierStockOk(next, p) {
        assert TierStockOk(w, p);
        HeldAtClose(w.holds, k, p);
      }
      forall i | 0 <= i < |next.holds| ensures HoldOk(next, next.holds[i]) { assert HoldOk(w, w.holds[i]); }
    }
  }

  lemma EditsKeepStock(w: World, c: Change)
    requires StockOk(w) && (c.CreateEvent? || c.UpdateEvent? || c.SaveZone? || c.DecideEvent?)
    ensures StockOk(Step(w, c).0)
  {
    SameStock(w, Step(w, c).0);
  }

  lemma StepKeepsStock(w: World, c: Change)
    requires StockOk(w)
    ensures StockOk(Step(w, c).0)
  {
    match c
    case CreateEvent(id, input) => EditsKeepStock(w, c);
    case UpdateEvent(id, input) => EditsKeepStock(w, c);
    case SaveZone(place, name, create) => EditsKeepStock(w, c);
    case SaveTier(place, tier, create) => SaveTierKeepsStock(w, place, tier, create);
    case Reserve(event, items) => ReserveKeepsStock(w, event, items);
    case GiveBack(k, clipped) => GiveBackKeepsStock(w, k, clipped);
    case DecideEvent(id, decision, now, unfinished) => EditsKeepStock(w, c);
  }

  /** Over any interleaving of edits, reservations and returns, available stock stays between 0 and the capacity, and what
      is missing from it is exactly what open reservations hold. */
  lemma {:induction false} RunKeepsStock(w: World, changes: seq<Change>)
    requires StockOk(w)
    ensures StockOk(Run(w, changes))
    decreases |changes|
  {
    if changes != [] {
      StepKeepsStock(w, changes[0]);
      RunKeepsStock(Step(w, changes[0]).0, changes[1..]);
    }
  }

  /** An edit that is otherwise in order is refused exactly when the new capacity is less than what is sold or held, and
      one that is accepted leaves that number as it is. */
  lemma {:induction false} EditRespectsHolds(w: World, place: Place, given: TierInput)
    requires StockOk(w) && place in w.tiers && place.event in w.events
    requires var t := CleanTier(given);
      TierInputOk(t) && Place(place.event, t.zone) in w.zones && (TierReserved(w, place) ==> t.gate == w.tiers[place].gate)
    ensures var (next, r) := SaveTierStep(w, place, given, false);
      && (r == CapacityBelowBound <==> given.capacity as int < HeldAt(w.holds, place))
      && (r == CapacityBelowBound ==> next == w)
      && (r != CapacityBelowBound ==>
            && r == Ok && place in next.tiers && next.tiers[place].capacity == given.capacity
            && next.tiers[place].available as int == given.capacity as int - HeldAt(w.holds, place))
  {
    BoundIsHeld(w, place);
  }

  // ---------------------------------------------------------------- gates

  lemma StepKeepsHolds(w: World, c: Change, k: nat)
    requires k < |w.holds|
    ensures var next := Step(w, c).0;
      k < |next.holds| && next.holds[k].event == w.holds[k].event && next.holds[k].items == w.holds[k].items
  {
  }

  lemma ReservedStaysReserved(w: World, c: Change, place: Place)
    requires TierReserved(w, place)
    ensures TierReserved(Step(w, c).0, place)
  {
    var k :| 0 <= k < |w.holds| && w.holds[k].event == place.event && HasItem(w.holds[k].items, place.slug);
    StepKeepsHolds(w, c, k);
  }

  lemma SaveTierKeepsGate(w: World, edited: Place, tier: TierInput, create: bool, place: Place)
    requires place in w.tiers && TierReserved(w, place)
    ensures var next := SaveTierStep(w, edited, tier, create).0; place in next.tiers && next.tiers[place].gate == w.tiers[place].gate
  {
  }

  lemma OthersKeepGate(w: World, c: Change, place: Place)
    requires place in w.tiers && !c.SaveTier?
    ensures place in Step(w, c).0.tiers && Step(w, c).0.tiers[place].gate == w.tiers[place].gate
  {
  }

  lemma StepKeepsGate(w: World, c: Change, place: Place)
    requires place in w.tiers && TierReserved(w, place)
    ensures place in Step(w, c).0.tiers && Step(w, c).0.tiers[place].gate == w.tiers[place].gate
  {
    if c.SaveTier? { SaveTierKeepsGate(w, c.place, c.tier, c.create, place); } else { OthersKeepGate(w, c, place); }
  }

  /** From its first reservation on, a tier's gate never changes. */
  lemma {:induction false} GateIsLocked(w: World, changes: seq<Change>, place: Place)
    requires place in w.tiers && TierReserved(w, place)
    ensures place in Run(w, changes).tiers && Run(w, changes).tiers[place].gate == w.tiers[place].gate
    decreases |changes|
  {
    if changes != [] {
      StepKeepsGate(w, changes[0], place);
      ReservedStaysReserved(w, changes[0], place);
      GateIsLocked(Step(w, changes[0]).0, changes[1..], place);
    }
  }

  // ---------------------------------------------------------------- publication

  /** Zones and tiers belong to events and have names, and every published event is complete. */
  predicate EventOk(w: World, id: string)
    requires id in w.events
  {
    var e := w.events[id];
    e.publication == Published ==>
      && e.startsAt.Some?
      && !Blank(e.artist) && !Blank(e.city) && !Blank(e.venue) && !Blank(e.address) && !Blank(e.description) && !Blank(e.image)
      && e.lineup != [] && (forall i :: 0 <= i < |e.lineup| ==> !Blank(e.lineup[i]))
      && HasZone(w, id) && HasTier(w, id)
  }

  predicate CatalogOk(w: World) {
    && (forall place :: place in w.zones ==> place.event in w.events && !Blank(w.zones[place].name))
    && (forall place :: place in w.tiers ==> place.event in w.events && !Blank(w.tiers[place].name) && !Blank(w.tiers[place].gate))
    && (forall id :: id in w.events ==> EventOk(w, id))
  }

  /** The step touches one event at most, removes nothing, and leaves what it adds named. */
  predicate Extends(w: World, next: World) {
    && w.zones.Keys <= next.zones.Keys && w.tiers.Keys <= next.tiers.Keys && w.events.Keys <= next.events.Keys
    && (forall place :: place in next.zones ==> place.event in next.events && !Blank(next.zones[place].name))
    && (forall place :: place in next.tiers ==> place.event in next.events && !Blank(next.tiers[place].name) && !Blank(next.tiers[place].gate))
  }

  lemma OtherEventOk(w: World, next: World, id: string)
    requires id in w.events && EventOk(w, id) && Extends(w, next) && id in next.events && next.events[id] == w.events[id]
    ensures EventOk(next, id)
  {
    if w.events[id].publication == Published {
      var z :| z in w.zones && z.event == id;
      assert z in next.zones;
      var t :| t in w.tiers && t.event == id;
      assert t in next.tiers;
    }
  }

  lemma OneEventChanges(w: World, next: World, id: string)
    requires CatalogOk(w) && Extends(w, next) && id in next.events && EventOk(next, id)
    requires next.events == w.events[id := next.events[id]]
    ensures CatalogOk(next)
  {
    forall other | other in next.events ensures EventOk(next, other) {
      if other != id { OtherEventOk(w, next, other); }
    }
  }

  lemma NoEventChanges(w: World, next: World)
    requires CatalogOk(w) && Extends(w, next) && next.events == w.events
    ensures CatalogOk(next)
  {
    forall other | other in next.events ensures EventOk(next, other) { OtherEventOk(w, next, other); }
  }

  lemma CreateKeepsCatalog(w: World, id: string, input: EventInput)
    requires CatalogOk(w)
    ensures CatalogOk(CreateEventStep(w, id, input).0)
  {
    var (next, r) := CreateEventStep(w, id, input);
    if r == Ok { OneEventChanges(w, next, id); }
  }

  lemma UpdateKeepsCatalog(w: World, id: string, input: EventInput)
    requires CatalogOk(w)
    ensures CatalogOk(UpdateEventStep(w, id, input).0)
  {
    var (next, r) := UpdateEventStep(w, id, input);
    if r == Ok { OneEventChanges(w, next, id); }
  }

  lemma DecideKeepsCatalog(w: World, id: string, d: Decision, now: int, unfinished: bool)
    requires CatalogOk(w)
    ensures CatalogOk(DecideStep(w, id, d, now, unfinished).0)
  {
    var (next, r) := DecideStep(w, id, d, now, unfinished);
    if r == Ok {
      assert EventOk(w, id);
      OneEventChanges(w, next, id);
    }
  }

  lemma SaveZoneKeepsCatalog(w: World, place: Place, name: string, create: bool)
    requires CatalogOk(w)
    ensures CatalogOk(SaveZoneStep(w, place, name, create).0)
  {
    NoEventChanges(w, SaveZoneStep(w, place, name, create).0);
  }

  lemma SavedTierIsNamed(w: World, place: Place, given: TierInput, create: bool) returns (t: Tier)
    requires SaveTierStep(w, place, given, create).1 == Ok
    ensures place.event in w.events && !Blank(t.name) && !Blank(t.gate)
    ensures SaveTierStep(w, place, given, create).0 == w.(tiers := w.tiers[place := t])
  {
    t := SaveTierStep(w, place, given, create).0.tiers[place];
  }

  lemma SaveTierKeepsCatalog(w: World, place: Place, tier: TierInput, create: bool)
    requires CatalogOk(w)
    ensures CatalogOk(SaveTierStep(w, place, tier, create).0)
  {
    if SaveTierStep(w, place, tier, create).1 == Ok {
      var t := SavedTierIsNamed(w, place, tier, create);
      NoEventChanges(w, w.(tiers := w.tiers[place := t]));
    }
  }

  /** Stock moves, names stay. */
  lemma StockKeepsCatalog(w: World, next: World)
    requires CatalogOk(w) && next.events == w.events && next.zones == w.zones && next.tiers.Keys == w.tiers.Keys
    requires forall p :: p in w.tiers ==> next.tiers[p] == w.tiers[p].(available := next.tiers[p].available)
    ensures CatalogOk(next)
  {
    forall p | p in next.tiers ensures p.event in next.events && !Blank(next.tiers[p].name) && !Blank(next.tiers[p].gate) {
      assert p in w.tiers;
    }
    NoEventChanges(w, next);
  }

  lemma ReserveKeepsCatalog(w: World, event: string, items: seq<Item>)
    requires CatalogOk(w)
    ensures CatalogOk(ReserveStep(w, event, items).0)
  {
    StockKeepsCatalog(w, ReserveStep(w, event, items).0);
  }

  lemma GiveBackKeepsCatalog(w: World, k: nat, clipped: bool)
    requires CatalogOk(w)
    ensures CatalogOk(GiveBackStep(w, k, clipped).0)
  {
    StockKeepsCatalog(w, GiveBackStep(w, k, clipped).0);
  }

  lemma StepKeepsCatalog(w: World, c: Change)
    requires CatalogOk(w)
    ensures CatalogOk(Step(w, c).0)
  {
    match c
    case CreateEvent(id, input) => CreateKeepsCatalog(w, id, input);
    case UpdateEvent(id, input) => UpdateKeepsCatalog(w, id, input);
    case DecideEvent(id, decision, now, unfinished) => DecideKeepsCatalog(w, id, decision, now, unfinished);
    case SaveZone(place, name, create) => SaveZoneKeepsCatalog(w, place, name, create);
    case SaveTier(place, tier, create) => SaveTierKeepsCatalog(w, place, tier, create);
    case Reserve(event, items) => ReserveKeepsCatalog(w, event, items);
    case GiveBack(k, clipped) => GiveBackKeepsCatalog(w, k, clipped);
  }

  /** Over all runs of edits every PUBLISHED event keeps a schedule, its texts, a lineup, a zone and a tier, and all zones
      and tiers keep their names and gates. */
  lemma {:induction false} RunKeepsCatalog(w: World, changes: seq<Change>)
    requires CatalogOk(w)
    ensures CatalogOk(Run(w, changes))
    decreases |changes|
  {
    if changes != [] {
      StepKeepsCatalog(w, changes[0]);
      RunKeepsCatalog(Step(w, changes[0]).0, changes[1..]);
    }
  }

  lemma {:induction false} FromNothing(changes: seq<Change>)
    ensures CatalogOk(Run(Empty, changes)) && StockOk(Run(Empty, changes))
  {
    RunKeepsCatalog(Empty, changes);
    RunKeepsStock(Empty, changes);
  }

  /** An event cannot be created as PUBLISHED: its zones and tiers can only be added once it exists. */
  lemma NothingIsBornPublished(w: World, id: string, input: EventInput)
    requires CatalogOk(w) && input.publication == Published
    ensures CreateEventStep(w, id, input).0 == w && CreateEventStep(w, id, input).1 != Ok
  {
  }

  // ---------------------------------------------------------------- decisions

  predicate AllSettled(w: World) {
    forall id :: id in w.events ==> Settled(StateOf(w.events[id]))
  }

  lemma UpdateKeepsSettled(w: World, id: string, input: EventInput)
    requires AllSettled(w)
    ensures AllSettled(UpdateEventStep(w, id, input).0)
  {
    var (next, r) := UpdateEventStep(w, id, input);
    if r == Ok {
      var event, after := w.events[id], next.events[id];
      assert StateOf(after) == Moved(StateOf(event), Edit(after.startsAt));
      MovesKeepSettled(StateOf(event), [Edit(after.startsAt)]);
    }
  }

  lemma DecideKeepsSettled(w: World, id: string, d: Decision, now: int, unfinished: bool)
    requires AllSettled(w)
    ensures AllSettled(DecideStep(w, id, d, now, unfinished).0)
  {
    var (next, r) := DecideStep(w, id, d, now, unfinished);
    if r == Ok {
      assert StateOf(next.events[id]) == Moved(StateOf(w.events[id]), Decide(d, now, unfinished));
      MovesKeepSettled(StateOf(w.events[id]), [Decide(d, now, unfinished)]);
    }
  }

  lemma StepKeepsSettled(w: World, c: Change)
    requires AllSettled(w)
    ensures AllSettled(Step(w, c).0)
  {
    match c
    case UpdateEvent(id, input) => UpdateKeepsSettled(w, id, input);
    case DecideEvent(id, decision, now, unfinished) => DecideKeepsSettled(w, id, decision, now, unfinished);
    case CreateEvent(_, _) =>
    case _ => StockLeavesEvents(w, c);
  }

  /** Over all runs of edits and decisions an event is SCHEDULED exactly while none was taken, and a RESCHEDULED one has
      a start. */
  lemma {:induction false} RunKeepsSettled(w: World, changes: seq<Change>)
    requires AllSettled(w)
    ensures AllSettled(Run(w, changes))
    decreases |changes|
  {
    if changes != [] {
      StepKeepsSettled(w, changes[0]);
      RunKeepsSettled(Step(w, changes[0]).0, changes[1..]);
    }
  }

  // ---------------------------------------------------------------- schedule and location

  predicate SameLocation(a: Event, b: Event) {
    a.city == b.city && a.venue == b.venue && a.address == b.address
  }

  lemma StepKeepsReserved(w: World, c: Change, id: string)
    requires IsReserved(w, id)
    ensures IsReserved(Step(w, c).0, id)
  {
    var k :| 0 <= k < |w.holds| && w.holds[k].event == id;
    StepKeepsHolds(w, c, k);
  }

  lemma UpdateKeepsLocation(w: World, id: string, input: EventInput)
    requires id in w.events && IsReserved(w, id)
    ensures var next := UpdateEventStep(w, id, input).0;
      id in next.events && SameLocation(w.events[id], next.events[id]) && next.events[id].startsAt == w.events[id].startsAt
  {
  }

  lemma StockLeavesEvents(w: World, c: Change)
    requires c.SaveZone? || c.SaveTier? || c.Reserve? || c.GiveBack?
    ensures Step(w, c).0.events == w.events
  {
  }

  lemma CreateKeepsLocation(w: World, created: string, input: EventInput, id: string)
    requires id in w.events
    ensures var next := CreateEventStep(w, created, input).0; id in next.events && next.events[id] == w.events[id]
  {
  }

  lemma DecideKeepsLocation(w: World, decided: string, d: Decision, now: int, unfinished: bool, id: string)
    requires id in w.events
    ensures var next := DecideStep(w, decided, d, now, unfinished).0;
      id in next.events && SameLocation(w.events[id], next.events[id]) && (decided != id ==> next.events[id] == w.events[id])
  {
  }

  lemma UpdateKeepsOthers(w: World, updated: string, input: EventInput, id: string)
    requires id in w.events && updated != id
    ensures var next := UpdateEventStep(w, updated, input).0; id in next.events && next.events[id] == w.events[id]
  {
  }

  lemma OthersKeepLocation(w: World, c: Change, id: string)
    requires id in w.events && !(c.UpdateEvent? && c.id == id)
    ensures id in Step(w, c).0.events && SameLocation(w.events[id], Step(w, c).0.events[id])
    ensures !(c.DecideEvent? && c.id == id) ==> Step(w, c).0.events[id].startsAt == w.events[id].startsAt
  {
    match c
    case CreateEvent(created, input) => CreateKeepsLocation(w, created, input, id);
    case UpdateEvent(updated, input) => UpdateKeepsOthers(w, updated, input, id);
    case DecideEvent(decided, decision, now, unfinished) => DecideKeepsLocation(w, decided, decision, now, unfinished, id);
    case _ => StockLeavesEvents(w, c);
  }

  lemma StepKeepsLocation(w: World, c: Change, id: string)
    requires id in w.events && IsReserved(w, id)
    ensures id in Step(w, c).0.events && SameLocation(w.events[id], Step(w, c).0.events[id])
    ensures !(c.DecideEvent? && c.id == id) ==> Step(w, c).0.events[id].startsAt == w.events[id].startsAt
  {
    if c.UpdateEvent? && c.id == id { UpdateKeepsLocation(w, id, c.input); } else { OthersKeepLocation(w, c, id); }
  }

  /** Once a reservation exists, city, venue and address never change, and the schedule only by a decision on the event,
      never by an edit. */
  lemma {:induction false} ReservedEventStaysPut(w: World, changes: seq<Change>, id: string)
    requires id in w.events && IsReserved(w, id)
    ensures id in Run(w, changes).events && SameLocation(w.events[id], Run(w, changes).events[id])
    ensures (forall k :: 0 <= k < |changes| && changes[k].DecideEvent? ==> changes[k].id != id) ==>
              Run(w, changes).events[id].startsAt == w.events[id].startsAt
    decreases |changes|
  {
    if changes != [] {
      StepKeepsLocation(w, changes[0], id);
      StepKeepsReserved(w, changes[0], id);
      ReservedEventStaysPut(Step(w, changes[0]).0, changes[1..], id);
    }
  }

  // ---------------------------------------------------------------- the repository

  class Repository {
    var events: map<string, Event>
    var zones: map<Place, Zone>
    var tiers: map<Place, Tier>
    var holds: seq<Hold>

    ghost function State(): World
      reads this
    {
      World(events, zones, tiers, holds)
    }

    constructor ()
      ensures State() == Empty && CatalogOk(State()) && StockOk(State())
    {
      events, zones, tiers, holds := map[], map[], map[], [];
    }

    /** SELECT EXISTS(... FROM reservations WHERE event_id = ?). */
    method EventHasReservations(id: string) returns (r: bool)
      ensures r == IsReserved(State(), id)
    {
      r := exists k :: 0 <= k < |holds| && holds[k].event == id;
    }

    /** SELECT EXISTS(... FROM reservation_items WHERE ticket_tier_id = ?). */
    method GateIsFixed(place: Place) returns (r: bool)
      ensures r == TierReserved(State(), place)
    {
      r := exists k :: 0 <= k < |holds| && holds[k].event == place.event && HasItem(holds[k].items, place.slug);
    }

    method ValidatePublication(id: string, e: EventInput) returns (ok: bool)
      ensures ok == Complete(State(), id, e)
    {
      if e.startsAt.None? || Trim(e.artist) == "" || Trim(e.city) == "" || Trim(e.venue) == "" || Trim(e.address) == ""
         || Trim(e.description) == "" || Trim(e.image) == "" || |e.lineup| == 0 {
        return false;
      }
      var hasZone := exists place :: place in zones && place.event == id;
      var hasTier := exists place :: place in tiers && place.event == id;
      var invalidZone := exists place :: place in zones && place.event == id && SqlTrim(zones[place].name) == "";
      var invalidTier := exists place :: place in tiers && place.event == id && (SqlTrim(tiers[place].name) == "" || SqlTrim(tiers[place].gate) == "");
      if !hasZone || !hasTier || invalidZone || invalidTier {
        return false;
      }
      return true;
    }

    /** adminEventInput.valid: trims in place and checks. */
    method CheckEventInput(given: EventInput) returns (ok: bool, e: EventInput)
      ensures ok == EventInputOk(CleanEvent(given)) && (ok ==> e == CleanEvent(given))
    {
      e := given.(artist := Trim(given.artist), city := Trim(given.city), venue := Trim(given.venue), address := Trim(given.address),
                  image := Trim(given.image), description := Trim(given.description));
      if |e.artist| < 2 || |e.artist| > 160 || |e.city| > 100 || |e.venue| > 160 || |e.address| > 255 || |e.description| > 16000
         || |e.lineup| > 100 || Bytes(e.image) > 500 {
        return false, e;
      }
      var named, lineup := CheckLineup(e.lineup);
      if !named { return false, e; }
      return true, e.(lineup := lineup);
    }

    method CreateEvent(id: string, given: EventInput) returns (r: Result)
      modifies this
      ensures (State(), r) == CreateEventStep(old(State()), id, given)
    {
      var valid, e := CheckEventInput(given);
      if !valid { return Invalid; }
      if e.publication == Published {
        var complete := ValidatePublication(id, e);
        if !complete { return PublicationIncomplete; }
      }
      if id in events { return Duplicate; }
      events := events[id := Event(e.artist, e.city, e.venue, e.address, e.startsAt, e.publication, e.image, e.description, e.lineup, 0, Scheduled)];
      return Ok;
    }

    method UpdateEvent(id: string, given: EventInput) returns (r: Result)
      modifies this
      ensures (State(), r) == UpdateEventStep(old(State()), id, given)
    {
      var valid, e := CheckEventInput(given);
      if !valid { return Invalid; }
      if id !in events { return NotFound; }
      var event := events[id];
      if event.version > 0 && (event.lifecycle == Postponed || event.lifecycle == Cancelled) {
        e := e.(startsAt := Some(if event.startsAt.Some? then event.startsAt.value else 0));
      }
      var reserved := EventHasReservations(id);
      if event.startsAt != e.startsAt {
        if event.version > 0 { return ScheduleLocked; }
        if reserved { return ScheduleLocked; }
      }
      if event.city != e.city || event.venue != e.venue || event.address != e.address {
        if reserved { return LocationLocked; }
      }
      if e.artist == "" || e.city == "" || e.venue == "" || e.address == "" || e.startsAt.None? {
        if reserved { return HasReservations; }
      }
      if e.publication == Published {
        var complete := ValidatePublication(id, e);
        if !complete { return PublicationIncomplete; }
      }
      WriteEvent(id, e);
      return Ok;
    }

    /** The UPDATE of the event's row, then its lineup. */
    method WriteEvent(id: string, e: EventInput)
      requires id in events
      modifies this`events
      ensures events == old(events)[id := NewEvent(e, old(events[id]).version, old(events[id]).lifecycle)]
    {
      events := events[id := events[id].(artist := e.artist, city := e.city, venue := e.venue, address := e.address, startsAt := e.startsAt,
                                         publication := e.publication, image := e.image, description := e.description)];
      ReplaceLineup(id, e.lineup);
    }

    /** DELETE FROM event_lineups, then one INSERT per name. */
    method ReplaceLineup(id: string, lineup: seq<string>)
      requires id in events
      modifies this`events
      ensures events == old(events)[id := old(events)[id].(lineup := lineup)]
    {
      events := events[id := events[id].(lineup := [])];
      for i := 0 to |lineup|
        invariant events == old(events)[id := old(events)[id].(lineup := lineup[..i])]
      {
        assert lineup[..i + 1] == lineup[..i] + [lineup[i]];
        events := events[id := events[id].(lineup := events[id].lineup + [lineup[i]])];
      }
      assert lineup[..|lineup|] == lineup;
    }

    /** The UPDATE of a decision: without a new start the old one is kept. */
    method DecideEvent(id: string, d: Decision, now: int, unfinished: bool) returns (r: Result)
      modifies this`events
      ensures (State(), r) == DecideStep(old(State()), id, d, now, unfinished)
    {
      if id !in events { return NotFound; }
      if !DecisionOk(d, now) { return Invalid; }
      var event := events[id];
      if event.version != d.expected || event.lifecycle == Cancelled { return Refused; }
      if unfinished && d.action != Cancelled { return Refused; }
      var startsAt := event.startsAt;
      if d.startsAt.Some? { startsAt := d.startsAt; }
      events := events[id := event.(lifecycle := d.action, version := event.version + 1, startsAt := startsAt)];
      return Ok;
    }

    method SaveZone(place: Place, given: string, create: bool) returns (r: Result)
      modifies this
      ensures (State(), r) == SaveZoneStep(old(State()), place, given, create)
    {
      var name := Trim(given);
      if |name| < 1 || |name| > 100 { return Invalid; }
      if place.event !in events { return NotFound; }
      if !create && place !in zones { return NotFound; }
      if create && place in zones { return Duplicate; }
      zones := zones[place := Zone(name)];
      return Ok;
    }

    method SaveTier(place: Place, given: TierInput, create: bool) returns (r: Result)
      requires StockOk(State())
      modifies this
      ensures (State(), r) == SaveTierStep(old(State()), place, given, create)
    {
      var t := given.(name := Trim(given.name), zone := Trim(given.zone), gate := Trim(given.gate));
      if |t.name| < 1 || |t.name| > 100 || t.capacity > 4294967295 || |t.gate| < 1 || |t.gate| > 100 { return Invalid; }
      if place.event !in events { return NotFound; }
      if !create && place !in tiers { return NotFound; }
      if Place(place.event, t.zone) !in zones { return InvalidZone; }
      if create {
        if place in tiers { return Duplicate; }
        tiers := tiers[place := Tier(t.name, t.zone, t.gate, t.capacity, t.capacity)];
        return Ok;
      }
      var gateLocked := GateIsFixed(place);
      if gateLocked && t.gate != tiers[place].gate { return GateLocked; }
      assert TierStockOk(State(), place);
      var bound := tiers[place].capacity - tiers[place].available;
      if t.capacity < bound { return CapacityBelowBound; }
      tiers := tiers[place := Tier(t.name, t.zone, t.gate, t.capacity, t.capacity - bound)];
      return Ok;
    }
  }
}
