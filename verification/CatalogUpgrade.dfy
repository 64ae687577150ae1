/** Versions 15 and 16 of the migrations: events get a publication status, and those that would not pass as
    published become drafts.  As in the other resumable versions a connection may be lost after any statement. */
module CatalogUpgrade {
  import opened Options
  import opened Text
  import opened EventState
  import opened Catalog
  import opened CatalogEffects

  /** The texts that chk_ticket_tiers_capacity has over time: capacity > 0, and capacity >= 0. */
  datatype CapacityCheck = Positive | NonNegative

  /** Until `hasStatus`, the publication of an event in `world` is not stored and means nothing. */
  datatype Database = Database(
    hasStatus: bool,
    draftIsDefault: bool,
    startRequired: bool,
    capacity: Option<CapacityCheck>,
    world: World)

  datatype Statement = AddStatus | PublishAll | DraftByDefault | AllowNoStart | DropCapacity | AddCapacity | DemoteIncomplete

  datatype Version = V15 | V16
  datatype Outcome = Done | Interrupted | Rejected
  datatype Progress = Progress(db: Database, budget: nat, outcome: Outcome)

  // ---------------------------------------------------------------- the statements

  /** image_url REGEXP '^https?://[^/ ]+', without regard to case. */
  predicate LooksLikeUrl(s: string) {
    HasHost(s, "http://") || HasHost(s, "https://")
  }

  predicate HasHost(s: string, scheme: string) {
    |scheme| < |s| && Lower(s[..|scheme|]) == scheme && s[|scheme|] != '/' && s[|scheme|] != ' '
  }

  predicate HasNamedAct(lineup: seq<string>) {
    exists i :: 0 <= i < |lineup| && SqlFilled(lineup[i])
  }

  /** What the condition of the UPDATE of version 16 spares. */
  predicate Presentable(w: World, id: string)
    requires id in w.events
  {
    var e := w.events[id];
    && e.startsAt.Some?
    && |SqlTrim(e.artist)| >= 2 && |SqlTrim(e.city)| >= 2 && |SqlTrim(e.venue)| >= 2 && |SqlTrim(e.address)| >= 2
    && |SqlTrim(e.description)| > 0 && LooksLikeUrl(e.image)
    && HasNamedAct(e.lineup) && HasZone(w, id) && HasTier(w, id) && NamesFilled(w, id)
  }

  function Demoted(w: World): World {
    w.(events := map id | id in w.events :: if w.events[id].publication == Published && !Presentable(w, id)
                                            then w.events[id].(publication := Draft) else w.events[id])
  }

  /** The UPDATE of version 16 touches published events that lack something, and of these the publication alone. */
  lemma DemotionSparesOthers(w: World, id: string)
    requires id in w.events
    ensures var before, after := w.events[id], Demoted(w).events[id];
      && after == before.(publication := after.publication)
      && (before.publication != Published ==> after == before)
      && (before.publication == Published ==> after.publication == if Presentable(w, id) then Published else Draft)
    ensures Demoted(w) == w.(events := Demoted(w).events) && Demoted(w).events.Keys == w.events.Keys
  {
  }

  function AllPublished(w: World): World {
    w.(events := map id | id in w.events :: w.events[id].(publication := Published))
  }

  predicate TwoMarks(s: string) {
    exists i, j :: 0 <= i < j < |s| && s[i] != ' ' && s[j] != ' '
  }

  lemma {:induction false} TrimmedLength(s: string)
    ensures |SqlTrim(s)| >= 2 <==> TwoMarks(s)
    decreases |s|
  {
    if s != "" {
      var head, tail := s[..|s| - 1], s[1..];
      if s[0] == ' ' {
        TrimmedLength(tail);
        if i, j :| 0 <= i < j < |tail| && tail[i] != ' ' && tail[j] != ' ' { assert s[i + 1] != ' ' && s[j + 1] != ' '; }
        if i, j :| 0 <= i < j < |s| && s[i] != ' ' && s[j] != ' ' { assert tail[i - 1] != ' ' && tail[j - 1] != ' '; }
      } else if s[|s| - 1] == ' ' {
        TrimmedLength(head);
        if i, j :| 0 <= i < j < |head| && head[i] != ' ' && head[j] != ' ' { assert s[i] != ' ' && s[j] != ' '; }
        if i, j :| 0 <= i < j < |s| && s[i] != ' ' && s[j] != ' ' { assert head[i] != ' ' && head[j] != ' '; }
      } else if |s| >= 2 {
        assert s[0] != ' ' && s[|s| - 1] != ' ';
      }
    }
  }

  /** A scheme of the web in any case, and behind it at least one character of a host. */
  ghost predicate IsAddress(s: string) {
    exists scheme, rest :: IsSplit(s, scheme, rest)
  }

  predicate IsSplit(s: string, scheme: string, rest: string) {
    s == scheme + rest && (Lower(scheme) == "http://" || Lower(scheme) == "https://")
    && rest != "" && rest[0] != '/' && rest[0] != ' '
  }

  lemma HostMeans(s: string, scheme: string)
    requires scheme == "http://" || scheme == "https://"
    ensures HasHost(s, scheme) ==> IsAddress(s)
    ensures forall given, rest :: IsSplit(s, given, rest) && Lower(given) == scheme ==> HasHost(s, scheme)
  {
    if HasHost(s, scheme) { assert IsSplit(s, s[..|scheme|], s[|scheme|..]); }
    forall given, rest | IsSplit(s, given, rest) && Lower(given) == scheme ensures HasHost(s, scheme) {
      assert s[..|scheme|] == given && s[|scheme|] == rest[0];
    }
  }

  lemma AddressMeans(s: string)
    ensures LooksLikeUrl(s) <==> IsAddress(s)
  {
    HostMeans(s, "http://");
    HostMeans(s, "https://");
  }

  /** The update spares an event that has a start, two characters other than spaces in artist, city, venue and address, one
      in the description, a web address as image, a named act, a zone, a tier, and names on all of these. */
  lemma {:induction false} PresentableMeans(w: World, id: string)
    requires id in w.events
    ensures var e := w.events[id];
      Presentable(w, id) <==>
        && e.startsAt.Some? && TwoMarks(e.artist) && TwoMarks(e.city) && TwoMarks(e.venue) && TwoMarks(e.address)
        && NotOnlySpaces(e.description) && IsAddress(e.image)
        && (exists i :: 0 <= i < |e.lineup| && NotOnlySpaces(e.lineup[i]))
        && (exists place :: place in w.zones && place.event == id) && (exists place :: place in w.tiers && place.event == id)
        && (forall place :: place in w.zones && place.event == id ==> NotOnlySpaces(w.zones[place].name))
        && (forall place :: place in w.tiers && place.event == id ==> NotOnlySpaces(w.tiers[place].name) && NotOnlySpaces(w.tiers[place].gate))
  {
    var e := w.events[id];
    TrimmedLength(e.artist); TrimmedLength(e.city); TrimmedLength(e.venue); TrimmedLength(e.address);
    AddressMeans(e.image);
    FilledMeans(e.description);
    forall i | 0 <= i < |e.lineup| ensures SqlFilled(e.lineup[i]) <==> NotOnlySpaces(e.lineup[i]) { FilledMeans(e.lineup[i]); }
    CatalogEffects.NamesMean(w, id);
  }

  /** MySQL's precondition.  Every capacity is unsigned, so rows never stand against the new check. */
  predicate Accepts(st: Statement, db: Database) {
    match st
    case AddStatus => !db.hasStatus
    case PublishAll => db.hasStatus
    case DraftByDefault => db.hasStatus
    case AllowNoStart => true
    case DropCapacity => db.capacity.Some?
    case AddCapacity => db.capacity.None?
    case DemoteIncomplete => db.hasStatus
  }

  function Execute(st: Statement, db: Database): Database {
    match st
    case AddStatus => db.(hasStatus := true, draftIsDefault := false, world := AllPublished(db.world))
    case PublishAll => db.(world := AllPublished(db.world))
    case DraftByDefault => db.(draftIsDefault := true)
    case AllowNoStart => db.(startRequired := false)
    case DropCapacity => db.(capacity := None)
    case AddCapacity => db.(capacity := Some(NonNegative))
    case DemoteIncomplete => db.(world := Demoted(db.world))
  }

  function Length(v: Version): nat {
    match v
    case V15 => 3
    case V16 => 4
  }

  /** The statement that the program sends at its i-th place, if what it reads there asks for one. */
  function Slot(v: Version, i: nat, db: Database): Option<Statement>
    requires i < Length(v)
  {
    match v
    case V15 =>
      if i == 0 then (if db.hasStatus then None else Some(AddStatus))
      else if i == 1 then Some(PublishAll) else Some(DraftByDefault)
    case V16 =>
      if i == 0 then (if db.startRequired then Some(AllowNoStart) else None)
      else if i == 1 then (if db.capacity.Some? then Some(DropCapacity) else None)
      else if i == 2 then Some(AddCapacity) else Some(DemoteIncomplete)
  }

  /** The rest of a run from place i; that a check is there already is no error. */
  function RunFrom(v: Version, i: nat, db: Database, budget: nat): Progress
    requires i <= Length(v)
    decreases Length(v) - i
  {
    if i == Length(v) then Progress(db, budget, Done)
    else
      match Slot(v, i, db)
      case None => RunFrom(v, i + 1, db, budget)
      case Some(st) =>
        if budget == 0 then Progress(db, 0, Interrupted)
        else if Accepts(st, db) then RunFrom(v, i + 1, Execute(st, db), budget - 1)
        else if st == AddCapacity then RunFrom(v, i + 1, db, budget - 1)
        else Progress(db, budget, Rejected)
  }

  function AfterRuns(v: Version, db: Database, budgets: seq<nat>): Database
    decreases |budgets|
  {
    if budgets == [] then db else AfterRuns(v, RunFrom(v, 0, db, budgets[0]).db, budgets[1..])
  }

  // ---------------------------------------------------------------- convergence

  /** What the version is for, written down without a step of it. */
  function Target(v: Version, db: Database): Database {
    match v
    case V15 => db.(hasStatus := true, draftIsDefault := true, world := AllPublished(db.world))
    case V16 => db.(startRequired := false, capacity := Some(NonNegative), world := Demoted(db.world))
  }

  /** Version 16 comes after version 15. */
  predicate Startable(v: Version, db: Database) {
    v == V16 ==> db.hasStatus
  }

  predicate Ready(v: Version, i: nat, db: Database) {
    && Startable(v, db)
    && (v == V15 && i >= 1 ==> db.hasStatus)
    && (v == V15 && i >= 2 ==> db.world == AllPublished(db.world))
    && (v == V15 && i >= 3 ==> db.draftIsDefault)
    && (v == V16 && i >= 1 ==> !db.startRequired)
    && (v == V16 && i == 2 ==> db.capacity.None?)
    && (v == V16 && i >= 3 ==> db.capacity == Some(NonNegative))
    && (v == V16 && i >= 4 ==> db.world == Demoted(db.world))
  }

  lemma AllPublishedTwice(w: World)
    ensures AllPublished(AllPublished(w)) == AllPublished(w)
  {
  }

  lemma PresentableAsBefore(w: World, next: World, id: string)
    requires id in w.events && id in next.events && next.zones == w.zones && next.tiers == w.tiers
    requires next.events[id] == w.events[id].(publication := next.events[id].publication)
    ensures Presentable(next, id) <==> Presentable(w, id)
  {
  }

  lemma DemotedTwice(w: World)
    ensures Demoted(Demoted(w)) == Demoted(w)
  {
    var next := Demoted(w);
    forall id | id in w.events ensures Demoted(next).events[id] == next.events[id] {
      PresentableAsBefore(w, next, id);
    }
    assert Demoted(next).events == next.events;
  }

  /** Whatever is sent at a place meets its precondition, and leaves the next place ready with the same target. */
  lemma EachStep(v: Version, i: nat, db: Database) returns (next: Database)
    requires i < Length(v) && Ready(v, i, db)
    ensures Ready(v, i + 1, next) && Target(v, next) == Target(v, db)
    ensures match Slot(v, i, db)
      case None => next == db
      case Some(st) => Accepts(st, db) && next == Execute(st, db)
  {
    AllPublishedTwice(db.world);
    DemotedTwice(db.world);
    next := match Slot(v, i, db) case None => db case Some(st) => Execute(st, db);
  }

  /** A run from any of its places is never refused, stops early only when the connection is lost, and keeps its target. */
  lemma {:induction false} RunsProgress(v: Version, i: nat, db: Database, budget: nat)
    requires i <= Length(v) && Ready(v, i, db)
    ensures var r := RunFrom(v, i, db, budget);
      && (r.outcome == Done || (r.outcome == Interrupted && r.budget == 0))
      && Startable(v, r.db) && Target(v, r.db) == Target(v, db)
      && (r.outcome == Done ==> r.db == Target(v, db))
      && (budget >= Length(v) - i ==> r.outcome == Done)
    decreases Length(v) - i
  {
    if i < Length(v) {
      var next := EachStep(v, i, db);
      if Slot(v, i, db).None? {
        RunsProgress(v, i + 1, next, budget);
      } else if budget > 0 {
        RunsProgress(v, i + 1, next, budget - 1);
      }
    }
  }

  /** Any series of runs, each cut off after any statement, then one that lasts, ends at the target. */
  lemma {:induction false} UpgradeConverges(v: Version, db: Database, budgets: seq<nat>, last: nat)
    requires Startable(v, db) && last >= Length(v)
    ensures var r := RunFrom(v, 0, AfterRuns(v, db, budgets), last);
      r.outcome == Done && r.db == Target(v, db) && r.db == RunFrom(v, 0, db, Length(v)).db
    decreases |budgets|
  {
    RunsProgress(v, 0, db, Length(v));
    if budgets == [] {
      RunsProgress(v, 0, db, last);
    } else {
      RunsProgress(v, 0, db, budgets[0]);
      var next := RunFrom(v, 0, db, budgets[0]).db;
      UpgradeConverges(v, next, budgets[1..], last);
    }
  }

  // ---------------------------------------------------------------- what the upgraded catalogue shows

  /** The catalogue that both versions leave of an old one, after any interruptions. */
  function Upgraded(db: Database, cuts15: seq<nat>, cuts16: seq<nat>): Database {
    var with := RunFrom(V15, 0, AfterRuns(V15, db, cuts15), Length(V15)).db;
    RunFrom(V16, 0, AfterRuns(V16, with, cuts16), Length(V16)).db
  }

  /** Every event of the old catalogue is still there with all it had, PUBLISHED if it is presentable and else a draft. */
  lemma UpgradeKeepsEvents(db: Database, cuts15: seq<nat>, cuts16: seq<nat>)
    ensures var old_, new_ := db.world, Upgraded(db, cuts15, cuts16).world;
      && new_.events.Keys == old_.events.Keys && new_.zones == old_.zones && new_.tiers == old_.tiers && new_.holds == old_.holds
      && (forall id :: id in old_.events ==>
            new_.events[id] == old_.events[id].(publication := if Presentable(old_, id) then Published else Draft))
  {
    UpgradeConverges(V15, db, cuts15, Length(V15));
    var with := Target(V15, db);
    UpgradeConverges(V16, with, cuts16, Length(V16));
    forall id | id in db.world.events ensures Presentable(with.world, id) <==> Presentable(db.world, id) {
      PresentableAsBefore(db.world, with.world, id);
    }
  }

  function AsInput(e: Event): EventInput {
    EventInput(e.artist, e.city, e.venue, e.address, e.startsAt, e.publication, e.image, e.description, e.lineup)
  }

  predicate TextsFilled(e: Event) {
    !Blank(e.artist) && !Blank(e.city) && !Blank(e.venue) && !Blank(e.address) && !Blank(e.description)
  }

  lemma {:induction false} TrimKeepsFirst(s: string)
    requires s != "" && !IsSpace(s[0])
    ensures Trim(s) != ""
    decreases |s|
  {
    if IsSpace(s[|s| - 1]) { TrimKeepsFirst(s[..|s| - 1]); }
  }

  lemma UrlIsFilled(s: string)
    requires LooksLikeUrl(s)
    ensures !Blank(s) && SqlFilled(s)
  {
    var scheme := if HasHost(s, "http://") then "http://" else "https://";
    assert Lower(s[..|scheme|])[0] == LowerChar(s[0]);
    assert s[0] == 'h' || s[0] == 'H';
    TrimKeepsFirst(s);
    SqlTrimKeepsMore(s);
  }

  /** An event that the upgrade leaves published would be accepted for publication again exactly if its texts hold
      more than white space: MySQL's TRIM leaves tabs and line breaks, Go's TrimSpace does not. */
  lemma SparedIffStillAccepted(w: World, id: string)
    requires id in w.events && Presentable(w, id)
    ensures Complete(w, id, AsInput(w.events[id])) <==> TextsFilled(w.events[id])
  {
    UrlIsFilled(w.events[id].image);
  }

  const TabbedEvent := Event("AB", "\t\t", "CD", "EF", Some(0), Published, "http://a", "G", ["H"], 0, Scheduled)
  const TabbedWorld := World(map["e" := TabbedEvent], map[Place("e", "z") := Zone("Z")],
                             map[Place("e", "t") := Tier("T", "z", "G", 1, 1)], [])

  lemma TabbedImage()
    ensures LooksLikeUrl("http://a")
  {
    assert "http://a"[..7] == "http://";
    assert Lower("http://") == "http://";
  }

  lemma TabbedStock(w: World)
    requires w == TabbedWorld
    ensures HasZone(w, "e") && HasTier(w, "e") && NamesFilled(w, "e") && HasNamedAct(["H"])
  {
    assert Place("e", "z") in w.zones && Place("e", "t") in w.tiers;
    assert SqlFilled(["H"][0]);
  }

  lemma TabbedIsPresentable(w: World)
    requires w == TabbedWorld
    ensures "e" in w.events && Presentable(w, "e")
  {
    TabbedImage();
    TabbedStock(w);
  }

  /** A city of two tabs stays published, and no edit could publish it. */
  lemma TabsArePublished(w: World)
    requires w == TabbedWorld
    ensures Presentable(w, "e") && Demoted(w) == w && !Complete(w, "e", AsInput(TabbedEvent))
  {
    TabbedIsPresentable(w);
    SparedIffStillAccepted(w, "e");
  }

  // ---------------------------------------------------------------- edits after the upgrade

  /** What a published event shows, however it came to be published. */
  predicate Offered(w: World, id: string)
    requires id in w.events
  {
    var e := w.events[id];
    e.publication == Published ==>
      && e.startsAt.Some?
      && SqlFilled(e.artist) && SqlFilled(e.city) && SqlFilled(e.venue) && SqlFilled(e.address) && SqlFilled(e.description) && SqlFilled(e.image)
      && HasNamedAct(e.lineup) && HasZone(w, id) && HasTier(w, id) && NamesFilled(w, id)
  }

  predicate AllOffered(w: World) {
    forall id :: id in w.events ==> Offered(w, id)
  }

  lemma DemotionLeavesOffered(w: World)
    ensures AllOffered(Demoted(w))
  {
    var next := Demoted(w);
    forall id | id in next.events ensures Offered(next, id) {
      if next.events[id].publication == Published {
        PresentableAsBefore(w, next, id);
        UrlIsFilled(w.events[id].image);
      }
    }
  }

  /** Zones and tiers only come or are renamed, and whatever is new or changed has a name. */
  predicate Grows(w: World, next: World) {
    && w.zones.Keys <= next.zones.Keys && w.tiers.Keys <= next.tiers.Keys
    && (forall p :: p in next.zones ==> SqlFilled(next.zones[p].name) || (p in w.zones && next.zones[p] == w.zones[p]))
    && (forall p :: p in next.tiers ==>
          (SqlFilled(next.tiers[p].name) && SqlFilled(next.tiers[p].gate))
          || (p in w.tiers && next.tiers[p].name == w.tiers[p].name && next.tiers[p].gate == w.tiers[p].gate))
  }

  lemma GrowingKeepsOffered(w: World, next: World, id: string)
    requires id in w.events && Offered(w, id) && Grows(w, next)
    requires id in next.events
    requires next.events[id] == w.events[id]
    ensures Offered(next, id)
  {
    if w.events[id].publication == Published {
      var z :| z in w.zones && z.event == id;
      assert z in next.zones;
      var t :| t in w.tiers && t.event == id;
      assert t in next.tiers;
    }
  }

  lemma {:induction false} FilledForGo(s: string)
    requires !Blank(s)
    ensures SqlFilled(s) && SqlFilled(Trim(s))
  {
    SqlTrimKeepsMore(s);
    SqlTrimKeepsMore(Trim(s));
  }

  /** The input that the server accepts for publication makes an offered event. */
  lemma CompleteIsOffered(w: World, id: string, e: EventInput, version: nat, lifecycle: Lifecycle)
    requires EventInputOk(e) && Complete(w, id, e) && (forall i :: 0 <= i < |e.lineup| ==> Trimmed(e.lineup[i]))
    ensures Offered(w.(events := w.events[id := NewEvent(e, version, lifecycle)]), id)
  {
    var next := w.(events := w.events[id := NewEvent(e, version, lifecycle)]);
    FilledForGo(e.artist); FilledForGo(e.city); FilledForGo(e.venue); FilledForGo(e.address);
    FilledForGo(e.description); FilledForGo(e.image); FilledForGo(e.lineup[0]);
    assert HasZone(next, id) && HasTier(next, id) && NamesFilled(next, id);
  }

  lemma CreateKeepsOffered(w: World, id: string, input: EventInput)
    requires AllOffered(w)
    ensures AllOffered(CreateEventStep(w, id, input).0)
  {
    var (next, r) := CreateEventStep(w, id, input);
    if r == Ok {
      var e := CleanEvent(input);
      if e.publication == Published { CompleteIsOffered(w, id, e, 0, Scheduled); }
      forall other | other in next.events ensures Offered(next, other) {
        if other != id { GrowingKeepsOffered(w, next, other); }
      }
    }
  }

  lemma UpdateKeepsOffered(w: World, id: string, input: EventInput)
    requires AllOffered(w)
    ensures AllOffered(UpdateEventStep(w, id, input).0)
  {
    var (next, r) := UpdateEventStep(w, id, input);
    if r == Ok {
      var e := CleanEvent(input).(startsAt := KeptStart(w.events[id], CleanEvent(input)));
      if e.publication == Published { CompleteIsOffered(w, id, e, w.events[id].version, w.events[id].lifecycle); }
      forall other | other in next.events ensures Offered(next, other) {
        if other != id { GrowingKeepsOffered(w, next, other); }
      }
    }
  }

  lemma DecideKeepsOffered(w: World, id: string, d: Decision, now: int, unfinished: bool)
    requires AllOffered(w)
    ensures AllOffered(DecideStep(w, id, d, now, unfinished).0)
  {
    var next := DecideStep(w, id, d, now, unfinished).0;
    forall other | other in next.events ensures Offered(next, other) {
      assert Offered(w, other);
      if other != id { GrowingKeepsOffered(w, next, other); }
    }
  }

  lemma GrowthKeepsOffered(w: World, next: World)
    requires AllOffered(w) && next.events == w.events && Grows(w, next)
    ensures AllOffered(next)
  {
    forall other | other in next.events ensures Offered(next, other) { GrowingKeepsOffered(w, next, other); }
  }

  lemma SaveZoneKeepsOffered(w: World, place: Place, name: string, create: bool)
    requires AllOffered(w)
    ensures AllOffered(SaveZoneStep(w, place, name, create).0)
  {
    if SaveZoneStep(w, place, name, create).1 == Ok {
      FilledForGo(name);
      GrowthKeepsOffered(w, SaveZoneStep(w, place, name, create).0);
    }
  }

  lemma SaveTierKeepsOffered(w: World, place: Place, tier: TierInput, create: bool)
    requires AllOffered(w)
    ensures AllOffered(SaveTierStep(w, place, tier, create).0)
  {
    if SaveTierStep(w, place, tier, create).1 == Ok {
      var t := SavedTierIsNamed(w, place, tier, create);
      FilledForGo(t.name);
      FilledForGo(t.gate);
      GrowthKeepsOffered(w, w.(tiers := w.tiers[place := t]));
    }
  }

  predicate OnlyStockMoves(w: World, next: World) {
    next.events == w.events && next.zones == w.zones && next.tiers.Keys == w.tiers.Keys
    && forall p :: p in w.tiers ==> next.tiers[p].name == w.tiers[p].name && next.tiers[p].gate == w.tiers[p].gate
  }

  lemma ReserveMovesStock(w: World, event: string, items: seq<Item>)
    ensures OnlyStockMoves(w, ReserveStep(w, event, items).0)
  {
  }

  lemma GiveBackMovesStock(w: World, k: nat, clipped: bool)
    ensures OnlyStockMoves(w, GiveBackStep(w, k, clipped).0)
  {
  }

  lemma StockKeepsOffered(w: World, c: Change)
    requires AllOffered(w) && (c.Reserve? || c.GiveBack?)
    ensures AllOffered(Step(w, c).0)
  {
    var next := Step(w, c).0;
    if c.Reserve? { ReserveMovesStock(w, c.event, c.items); } else { GiveBackMovesStock(w, c.k, c.clipped); }
    GrowthKeepsOffered(w, next);
  }

  lemma StepKeepsOffered(w: World, c: Change)
    requires AllOffered(w)
    ensures AllOffered(Step(w, c).0)
  {
    match c
    case CreateEvent(id, input) => CreateKeepsOffered(w, id, input);
    case UpdateEvent(id, input) => UpdateKeepsOffered(w, id, input);
    case DecideEvent(id, decision, now, unfinished) => DecideKeepsOffered(w, id, decision, now, unfinished);
    case SaveZone(place, name, create) => SaveZoneKeepsOffered(w, place, name, create);
    case SaveTier(place, tier, create) => SaveTierKeepsOffered(w, place, tier, create);
    case Reserve(_, _) => StockKeepsOffered(w, c);
    case GiveBack(_, _) => StockKeepsOffered(w, c);
  }

  lemma {:induction false} RunKeepsOffered(w: World, changes: seq<Change>)
    requires AllOffered(w)
    ensures AllOffered(Run(w, changes))
    decreases |changes|
  {
    if changes != [] {
      StepKeepsOffered(w, changes[0]);
      RunKeepsOffered(Step(w, changes[0]).0, changes[1..]);
    }
  }

  /** Whatever the old catalogue held and however often its upgrade was interrupted: after any run of edits,
      reservations and returns every PUBLISHED event has a schedule, texts, a named act, a zone, a tier, and names and
      gates on all of them; and stock that was in order stays so. */
  lemma {:induction false} UpgradedCatalogStaysOffered(db: Database, cuts15: seq<nat>, cuts16: seq<nat>, changes: seq<Change>)
    ensures AllOffered(Run(Upgraded(db, cuts15, cuts16).world, changes))
    ensures StockOk(db.world) ==> StockOk(Run(Upgraded(db, cuts15, cuts16).world, changes))
  {
    UpgradeKeepsEvents(db, cuts15, cuts16);
    UpgradeConverges(V15, db, cuts15, Length(V15));
    UpgradeConverges(V16, Target(V15, db), cuts16, Length(V16));
    var w := Upgraded(db, cuts15, cuts16).world;
    DemotionLeavesOffered(Target(V15, db).world);
    RunKeepsOffered(w, changes);
    if StockOk(db.world) {
      SameStock(db.world, w);
      RunKeepsStock(w, changes);
    }
  }

  // ---------------------------------------------------------------- the programs

  class Connection {
    var db: Database
    var budget: nat

    constructor (db: Database, budget: nat)
      ensures this.db == db && this.budget == budget
    {
      this.db := db;
      this.budget := budget;
    }

    /** Sends one statement; `Done` means that MySQL carried it out. */
    method Exec(st: Statement) returns (outcome: Outcome)
      modifies this
      ensures outcome == if old(budget) == 0 then Interrupted else if Accepts(st, old(db)) then Done else Rejected
      ensures db == if outcome == Done then Execute(st, old(db)) else old(db)
      ensures budget == if outcome == Done then old(budget) - 1 else old(budget)
    {
      if budget == 0 { return Interrupted; }
      if !Accepts(st, db) { return Rejected; }
      db := Execute(st, db);
      budget := budget - 1;
      return Done;
    }
  }

  method ResumeEventPublication(c: Connection) returns (outcome: Outcome)
    modifies c
    ensures Progress(c.db, c.budget, outcome) == RunFrom(V15, 0, old(c.db), old(c.budget))
    ensures outcome != Rejected && (outcome == Done ==> c.db == Target(V15, old(c.db)))
    ensures Target(V15, c.db) == Target(V15, old(c.db))
  {
    RunsProgress(V15, 0, c.db, c.budget);
    ghost var total := RunFrom(V15, 0, c.db, c.budget);
    if !c.db.hasStatus {
      outcome := c.Exec(AddStatus);
      if outcome != Done { return; }
    }
    assert RunFrom(V15, 1, c.db, c.budget) == total;
    outcome := c.Exec(PublishAll);
    if outcome != Done { return; }
    assert RunFrom(V15, 2, c.db, c.budget) == total;
    outcome := c.Exec(DraftByDefault);
    assert outcome == Done ==> RunFrom(V15, 3, c.db, c.budget) == total;
  }

  method ResumeAdminCatalog(c: Connection) returns (outcome: Outcome)
    requires c.db.hasStatus
    modifies c
    ensures Progress(c.db, c.budget, outcome) == RunFrom(V16, 0, old(c.db), old(c.budget))
    ensures outcome != Rejected && (outcome == Done ==> c.db == Target(V16, old(c.db)))
    ensures Target(V16, c.db) == Target(V16, old(c.db))
  {
    RunsProgress(V16, 0, c.db, c.budget);
    ghost var total := RunFrom(V16, 0, c.db, c.budget);
    if c.db.startRequired {
      outcome := c.Exec(AllowNoStart);
      if outcome != Done { return; }
    }
    assert RunFrom(V16, 1, c.db, c.budget) == total;
    if c.db.capacity.Some? {
      outcome := c.Exec(DropCapacity);
      if outcome != Done { return; }
    }
    assert RunFrom(V16, 2, c.db, c.budget) == total;
    outcome := c.Exec(AddCapacity);
    if outcome != Done && outcome != Rejected { return; }
    assert RunFrom(V16, 3, c.db, c.budget) == total;
    outcome := c.Exec(DemoteIncomplete);
    assert outcome == Done ==> RunFrom(V16, 4, c.db, c.budget) == total;
  }
}
