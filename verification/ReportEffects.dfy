/** The figures of the reports, counted and added row by row without any grouping, keys or weights. */
module ReportEffects {
  import opened Options
  import opened Text
  import opened Wib
  import opened Grouping
  import Admission
  import S = SalesReport
  import A = AttendanceReport
  import C = Conversion

  // ---------------------------------------------------------------- sales

  /** The money of the succeeded payments, or refunds, between two instants, of one event or of all. */
  function Money(table: seq<S.Raw>, kind: S.Kind, from: int, to: int, event: string): int {
    if table == [] then 0
    else
      var last := table[|table| - 1];
      Money(table[..|table| - 1], kind, from, to, event)
      + (if last.succeeded && last.kind == kind && from <= last.at < to && (event == "" || last.event == event) then last.amount else 0)
  }

  /** How many payments these are. */
  function Payments(table: seq<S.Raw>, from: int, to: int, event: string): nat {
    if table == [] then 0
    else
      var last := table[|table| - 1];
      Payments(table[..|table| - 1], from, to, event)
      + (if last.succeeded && last.kind == S.Payment && from <= last.at < to && (event == "" || last.event == event) then 1 else 0)
  }

  /** The figures of a view are those of the table between two instants. */
  predicate Figures(a: S.Amounts, table: seq<S.Raw>, from: int, to: int, event: string) {
    && a.transactions == Payments(table, from, to, event)
    && a.payments == Money(table, S.Payment, from, to, event) && a.refunds == Money(table, S.Refund, from, to, event)
    && a.net == a.payments - a.refunds
  }

  /** The part of the range's rows that is picked are the rows between the two instants. */
  ghost predicate Picks(pick: S.Key -> bool, range: S.Range, from: int, to: int, event: string) {
    forall r: S.Raw ::
      S.InRange(r, range) && pick(S.KeyOf(r)) <==> r.succeeded && from <= r.at < to && (event == "" || r.event == event)
  }

  lemma {:induction false} SourceOneMore(table: seq<S.Raw>, range: S.Range, m: S.Measure, pick: S.Key -> bool)
    requires table != []
    ensures var rest, last := table[..|table| - 1], table[|table| - 1];
      Total(S.MeasuredRows(S.Source(table, range), m), pick)
      == Total(S.MeasuredRows(S.Source(rest, range), m), pick)
         + (if S.InRange(last, range) && pick(S.KeyOf(last)) then S.Weigh(last.kind, 1, last.amount, m) else 0)
  {
    var rest, last := table[..|table| - 1], table[|table| - 1];
    if S.InRange(last, range) {
      var rows := S.MeasuredRows(S.Source(table, range), m);
      assert rows[..|rows| - 1] == S.MeasuredRows(S.Source(rest, range), m);
    } else {
      assert S.Source(table, range) == S.Source(rest, range);
    }
  }

  lemma {:induction false} PickedFigures(table: seq<S.Raw>, range: S.Range, pick: S.Key -> bool, from: int, to: int, event: string)
    requires Picks(pick, range, from, to, event)
    ensures Total(S.MeasuredRows(S.Source(table, range), S.Transactions), pick) == Payments(table, from, to, event)
    ensures Total(S.MeasuredRows(S.Source(table, range), S.Payments), pick) == Money(table, S.Payment, from, to, event)
    ensures Total(S.MeasuredRows(S.Source(table, range), S.Refunds), pick) == Money(table, S.Refund, from, to, event)
    decreases |table|
  {
    if table != [] {
      PickedFigures(table[..|table| - 1], range, pick, from, to, event);
      SourceOneMore(table, range, S.Transactions, pick);
      SourceOneMore(table, range, S.Payments, pick);
      SourceOneMore(table, range, S.Refunds, pick);
    }
  }

  lemma {:induction false} DirectFigures(table: seq<S.Raw>, range: S.Range, pick: S.Key -> bool, from: int, to: int, event: string)
    requires Picks(pick, range, from, to, event)
    ensures Figures(S.Direct(S.Source(table, range), pick), table, from, to, event)
  {
    PickedFigures(table, range, pick, from, to, event);
  }

  lemma DayPicks(range: S.Range, day: int)
    requires range.fromDay <= day <= range.toDay
    ensures Picks(S.OnDay(day), range, StartOf(day), StartOf(day + 1), range.event)
  {
    forall r: S.Raw
      ensures S.InRange(r, range) && S.OnDay(day)(S.KeyOf(r))
        <==> r.succeeded && StartOf(day) <= r.at < StartOf(day + 1) && (range.event == "" || r.event == range.event)
    {
      DaysOfRange(r.at, day, day);
      DaysOfRange(r.at, range.fromDay, range.toDay);
    }
  }

  /** Every figure of a report is that of the table: each day's between its two midnights in Jakarta, each event's and the
      summary's between the first and the last, of the asked event if there is one. */
  lemma {:induction false} SalesFigures(r: S.Report, range: S.Range, events: seq<string>, table: seq<S.Raw>)
    requires range.fromDay <= range.toDay && S.Faithful(r, S.Source(table, range), range, events)
    requires forall i :: 0 <= i < |events| ==> events[i] != ""
    ensures Figures(r.summary, table, StartOf(range.fromDay), StartOf(range.toDay + 1), range.event)
    ensures |r.daily| == range.toDay - range.fromDay + 1
    ensures forall i :: 0 <= i < |r.daily| ==>
              r.dates[i] == range.fromDay + i
              && Figures(r.daily[i], table, StartOf(range.fromDay + i), StartOf(range.fromDay + i + 1), range.event)
    ensures forall i :: 0 <= i < |r.events| ==>
              Figures(r.byEvent[i], table, StartOf(range.fromDay), StartOf(range.toDay + 1), r.events[i])
  {
    DirectFigures(table, range, All(), StartOf(range.fromDay), StartOf(range.toDay + 1), range.event);
    forall i | 0 <= i < |r.daily|
      ensures Figures(r.daily[i], table, StartOf(range.fromDay + i), StartOf(range.fromDay + i + 1), range.event)
    {
      DayPicks(range, range.fromDay + i);
      DirectFigures(table, range, S.OnDay(range.fromDay + i), StartOf(range.fromDay + i), StartOf(range.fromDay + i + 1), range.event);
    }
    forall i | 0 <= i < |r.events| ensures Figures(r.byEvent[i], table, StartOf(range.fromDay), StartOf(range.toDay + 1), r.events[i]) {
      ListedIsAsked(events, range.event, i);
      assert Picks(S.OfEvent(r.events[i]), range, StartOf(range.fromDay), StartOf(range.toDay + 1), r.events[i]);
      DirectFigures(table, range, S.OfEvent(r.events[i]), StartOf(range.fromDay), StartOf(range.toDay + 1), r.events[i]);
    }
  }

  lemma {:induction false} ListedIsAsked(events: seq<string>, event: string, i: nat)
    requires i < |S.Listed(events, event)| && forall k :: 0 <= k < |events| ==> events[k] != ""
    ensures var e := S.Listed(events, event)[i]; e != "" && (event == "" || e == event)
    decreases |events|
  {
    if i < |S.Listed(events[..|events| - 1], event)| { ListedIsAsked(events[..|events| - 1], event, i); }
  }

  /** A report is asked for the days that were given, up to today if no end was, and for thirty days if no start was. */
  lemma RangeMeans(f: S.Filter, now: int)
    requires S.ParseFilter(f, now).Some?
    ensures var r := S.ParseFilter(f, now).value;
      && r.event == f.event
      && (f.dateTo.Day? ==> r.toDay == f.dateTo.day) && (f.dateTo == S.Blank ==> r.toDay == WibDay(now))
      && (f.dateFrom.Day? ==> r.fromDay == f.dateFrom.day) && (f.dateFrom == S.Blank ==> r.fromDay == r.toDay - 29)
  {
  }

  // ---------------------------------------------------------------- attendance

  /** How many of the tickets the test picks. */
  function Tally(raws: seq<A.Raw>, test: A.Raw -> bool): nat {
    if raws == [] then 0 else Tally(raws[..|raws| - 1], test) + (if test(raws[|raws| - 1]) then 1 else 0)
  }

  function Eligibles(mine: A.Raw -> bool): A.Raw -> bool {
    (r: A.Raw) => mine(r) && r.eligible
  }

  function Helds(mine: A.Raw -> bool): A.Raw -> bool {
    (r: A.Raw) => mine(r) && r.held
  }

  function Ins(mine: A.Raw -> bool): A.Raw -> bool {
    (r: A.Raw) => mine(r) && r.checkedIn
  }

  /** A row counts the tickets of its label, and its rate is the share of the eligible that are in. */
  predicate CountsTickets(row: A.Row, raws: seq<A.Raw>, mine: A.Raw -> bool) {
    && row.counts.issued == Tally(raws, mine) && row.counts.eligible == Tally(raws, Eligibles(mine))
    && row.counts.held == Tally(raws, Helds(mine)) && row.counts.checkedIn == Tally(raws, Ins(mine))
    && (row.rate.None? <==> Tally(raws, Eligibles(mine)) == 0)
    && (row.rate.Some? ==> row.rate.value * Tally(raws, Eligibles(mine)) as real == Tally(raws, Eligibles(Ins(mine))) as real * 100.0)
  }

  lemma {:induction false} TotalIsTally(raws: seq<A.Raw>, m: A.Measure, pick: A.Key -> bool, test: A.Raw -> bool)
    requires forall r: A.Raw :: (if pick(A.Key(r.tier, r.gate)) then A.Weigh(r, m) else 0) == (if test(r) then 1 else 0)
    ensures Total(A.MeasuredRows(raws, m), pick) == Tally(raws, test)
    decreases |raws|
  {
    if raws != [] {
      TotalIsTally(raws[..|raws| - 1], m, pick, test);
      assert A.MeasuredRows(raws, m)[..|raws| - 1] == A.MeasuredRows(raws[..|raws| - 1], m);
    }
  }

  ghost predicate SameLabel(pick: A.Key -> bool, mine: A.Raw -> bool) {
    forall r: A.Raw :: pick(A.Key(r.tier, r.gate)) <==> mine(r)
  }

  lemma {:induction false} DirectCountsTickets(raws: seq<A.Raw>, pick: A.Key -> bool, mine: A.Raw -> bool)
    requires SameLabel(pick, mine)
    ensures A.Direct(raws, pick) == A.Counts(Tally(raws, mine), Tally(raws, Eligibles(mine)), Tally(raws, Helds(mine)),
                                             Tally(raws, Ins(mine)), Tally(raws, Eligibles(Ins(mine))))
  {
    TotalIsTally(raws, A.Issued, pick, mine);
    TotalIsTally(raws, A.Eligible, pick, Eligibles(mine));
    TotalIsTally(raws, A.Held, pick, Helds(mine));
    TotalIsTally(raws, A.CheckedIn, pick, Ins(mine));
    TotalIsTally(raws, A.EligibleIn, pick, Eligibles(Ins(mine)));
  }

  lemma {:induction false} InsAreEligible(raws: seq<A.Raw>, pick: A.Key -> bool, mine: A.Raw -> bool)
    requires SameLabel(pick, mine)
    ensures Tally(raws, Eligibles(Ins(mine))) <= Tally(raws, Eligibles(mine))
  {
    DirectCountsTickets(raws, pick, mine);
    A.EligibleInBounds(raws, pick);
  }

  lemma RateIsShare(inside: nat, eligible: nat)
    requires inside <= eligible
    ensures var rate := A.Rate(inside, eligible);
      && (rate.None? <==> eligible == 0)
      && (rate.Some? ==> rate.value * eligible as real == inside as real * 100.0)
  {
    A.RateIsAPercentage(inside, eligible);
  }

  lemma {:induction false} RowOfCounts(capacity: int, available: int, c: A.Counts, raws: seq<A.Raw>, mine: A.Raw -> bool)
    requires Tally(raws, Eligibles(Ins(mine))) <= Tally(raws, Eligibles(mine))
    requires c == A.Counts(Tally(raws, mine), Tally(raws, Eligibles(mine)), Tally(raws, Helds(mine)), Tally(raws, Ins(mine)),
                           Tally(raws, Eligibles(Ins(mine))))
    ensures CountsTickets(A.RowOf(capacity, available, c), raws, mine)
  {
    RateIsShare(c.eligibleIn, c.eligible);
  }

  lemma {:induction false} RowCountsTickets(capacity: int, available: int, raws: seq<A.Raw>, pick: A.Key -> bool, mine: A.Raw -> bool)
    requires SameLabel(pick, mine)
    ensures CountsTickets(A.RowOf(capacity, available, A.Direct(raws, pick)), raws, mine)
  {
    DirectCountsTickets(raws, pick, mine);
    InsAreEligible(raws, pick, mine);
    RowOfCounts(capacity, available, A.Direct(raws, pick), raws, mine);
  }

  function InTier(tier: nat): A.Raw -> bool {
    (r: A.Raw) => r.tier == tier
  }

  function AtGate(gate: string): A.Raw -> bool {
    (r: A.Raw) => r.gate == gate
  }

  function AnyTicket(): A.Raw -> bool {
    (r: A.Raw) => true
  }

  /** Every category, every gate and the summary count their tickets one by one, each with its own share. */
  lemma {:induction false} AttendanceFigures(r: A.Report, tiers: seq<A.Tier>, raws: seq<A.Raw>)
    requires A.Faithful(r, tiers, raws)
    ensures CountsTickets(r.summary, raws, AnyTicket())
    ensures forall i :: 0 <= i < |r.byCategory| ==> CountsTickets(r.byCategory[i], raws, InTier(r.tierIds[i]))
    ensures forall i :: 0 <= i < |r.byGate| ==> CountsTickets(r.byGate[i], raws, AtGate(r.gates[i]))
  {
    RowCountsTickets(r.summary.capacity, r.summary.available, raws, All(), AnyTicket());
    forall i | 0 <= i < |r.byCategory| ensures CountsTickets(r.byCategory[i], raws, InTier(r.tierIds[i])) {
      RowCountsTickets(r.byCategory[i].capacity, r.byCategory[i].available, raws, A.OfTier(r.tierIds[i]), InTier(r.tierIds[i]));
    }
    forall i | 0 <= i < |r.byGate| ensures CountsTickets(r.byGate[i], raws, AtGate(r.gates[i])) {
      RowCountsTickets(r.byGate[i].capacity, r.byGate[i].available, raws, A.OfGate(r.gates[i]), AtGate(r.gates[i]));
    }
  }

  /** The stock of the tiers with a gate, or of all. */
  function Seats(tiers: seq<A.Tier>, gate: Option<string>, available: bool): int {
    if tiers == [] then 0
    else
      var last := tiers[|tiers| - 1];
      Seats(tiers[..|tiers| - 1], gate, available)
      + (if gate.None? || last.gate == gate.value then (if available then last.available else last.capacity) else 0)
  }

  lemma {:induction false} StockIsSeats(tiers: seq<A.Tier>, gate: string, available: bool)
    ensures Total(A.GateStock(tiers, available), Is(gate)) == Seats(tiers, Some(gate), available)
    ensures Total(A.GateStock(tiers, available), All()) == Seats(tiers, None, available)
    decreases |tiers|
  {
    if tiers != [] {
      StockIsSeats(tiers[..|tiers| - 1], gate, available);
      assert A.GateStock(tiers, available)[..|tiers| - 1] == A.GateStock(tiers[..|tiers| - 1], available);
    }
  }

  /** Capacity and available stock: each tier's own, each gate's and the whole event's as the sum over its tiers. */
  lemma {:induction false} AttendanceStock(r: A.Report, tiers: seq<A.Tier>, raws: seq<A.Raw>)
    requires A.Faithful(r, tiers, raws) && A.DistinctTiers(tiers)
    ensures r.summary.capacity == Seats(tiers, None, false) && r.summary.available == Seats(tiers, None, true)
    ensures forall i :: 0 <= i < |r.gates| ==>
              r.byGate[i].capacity == Seats(tiers, Some(r.gates[i]), false) && r.byGate[i].available == Seats(tiers, Some(r.gates[i]), true)
    ensures forall i, k :: 0 <= i < |r.tierIds| && 0 <= k < |tiers| && tiers[k].id == r.tierIds[i] ==>
              r.byCategory[i].capacity == tiers[k].capacity && r.byCategory[i].available == tiers[k].available
  {
    StockIsSeats(tiers, "", false);
    StockIsSeats(tiers, "", true);
    forall i | 0 <= i < |r.gates|
      ensures r.byGate[i].capacity == Seats(tiers, Some(r.gates[i]), false) && r.byGate[i].available == Seats(tiers, Some(r.gates[i]), true)
    {
      StockIsSeats(tiers, r.gates[i], false);
      StockIsSeats(tiers, r.gates[i], true);
    }
    forall i, k | 0 <= i < |r.tierIds| && 0 <= k < |tiers| && tiers[k].id == r.tierIds[i]
      ensures r.byCategory[i].capacity == tiers[k].capacity && r.byCategory[i].available == tiers[k].available
    {
      A.StockAt(tiers, k, false);
      A.StockAt(tiers, k, true);
    }
  }

  // ---------------------------------------------------------------- conversion

  predicate WithinADay(at: int, startedAt: int) {
    at <= startedAt + 86400
  }

  /** The journey reached the stage within a day of its start, by the event itself or by one of its reservations. */
  predicate GotTo(db: C.Db, id: string, stage: C.Stage)
    requires id in db.journeys
  {
    var start := db.journeys[id].startedAt;
    match stage
    case Detail => db.journeys[id].detailAt.Some? && WithinADay(db.journeys[id].detailAt.value, start)
    case Reservation => exists r :: r in db.links && db.links[r] == id && r in db.reservedAt && WithinADay(db.reservedAt[r], start)
    case Order => exists r :: r in db.links && db.links[r] == id && r in db.orderedAt && WithinADay(db.orderedAt[r], start)
    case PaymentStarted =>
      exists r :: r in db.links && db.links[r] == id && r in db.payments
                  && db.payments[r].startedAt.Some? && WithinADay(db.payments[r].startedAt.value, start)
    case PaymentSucceeded =>
      exists r :: r in db.links && db.links[r] == id && r in db.payments && db.payments[r].succeeded
                  && db.payments[r].paidAt.Some? && WithinADay(db.payments[r].paidAt.value, start)
  }

  lemma ReachesMeans(db: C.Db, id: string, stage: C.Stage)
    requires id in db.journeys
    ensures C.Reaches(db, id, stage) <==> GotTo(db, id, stage)
  {
    var start := db.journeys[id].startedAt;
    match stage
    case Detail =>
    case Reservation =>
      forall r | r in db.links && db.links[r] == id
        ensures C.RowReaches(db, C.Joined(id, Some(r)), C.Reservation) <==> r in db.reservedAt && WithinADay(db.reservedAt[r], start) {}
    case Order =>
      forall r | r in db.links && db.links[r] == id
        ensures C.RowReaches(db, C.Joined(id, Some(r)), C.Order) <==> r in db.orderedAt && WithinADay(db.orderedAt[r], start) {}
    case PaymentStarted =>
      forall r | r in db.links && db.links[r] == id
        ensures C.RowReaches(db, C.Joined(id, Some(r)), C.PaymentStarted) <==>
          r in db.payments && db.payments[r].startedAt.Some? && WithinADay(db.payments[r].startedAt.value, start) {}
    case PaymentSucceeded =>
      forall r | r in db.links && db.links[r] == id
        ensures C.RowReaches(db, C.Joined(id, Some(r)), C.PaymentSucceeded) <==>
          r in db.payments && db.payments[r].succeeded && db.payments[r].paidAt.Some? && WithinADay(db.payments[r].paidAt.value, start) {}
  }

  /** The journeys of a filter: started in its time, with the details opened, of its event and device if it names any. */
  predicate Asked(j: C.Journey, f: C.Filter) {
    f.start <= j.startedAt && j.startedAt < f.end && j.detailAt.Some? && (f.event == "" || j.event == f.event) && (f.device == "" || j.device == f.device)
  }

  predicate InGroup(j: C.Journey, d: C.Dimension, group: string) {
    match d
    case Whole => group == ""
    case ByEvent => j.event == group
    case ByDevice => j.device == group
  }

  /** The asked journeys of a group, a day old if only those count, that got to the stage if one is named. */
  function Counted(db: C.Db, f: C.Filter, stage: Option<C.Stage>, dayOld: bool, d: C.Dimension, group: string, now: int): set<string> {
    set id | id in db.journeys && Asked(db.journeys[id], f) && InGroup(db.journeys[id], d, group)
             && (dayOld ==> db.journeys[id].startedAt + 86400 <= now)
             && (stage.Some? ==> GotTo(db, id, stage.value))
  }

  lemma CountMeans(db: C.Db, f: C.Filter, stage: Option<C.Stage>, dayOld: bool, d: C.Dimension, group: string, now: int)
    ensures C.CountDistinct(db, f, C.Aggregate(stage, dayOld, d, group), now) == |Counted(db, f, stage, dayOld, d, group, now)|
  {
    C.CountsAreJourneys(db, f, C.Aggregate(stage, dayOld, d, group), now);
    forall id | id in db.journeys && stage.Some? ensures C.Reaches(db, id, stage.value) <==> GotTo(db, id, stage.value) {
      ReachesMeans(db, id, stage.value);
    }
    assert C.CountedSet(db, f, C.Aggregate(stage, dayOld, d, group), now) == Counted(db, f, stage, dayOld, d, group, now);
  }

  /** The five stages of a row are the numbers of journeys that got to each of them. */
  predicate StagesCount(s: C.Stages, db: C.Db, f: C.Filter, dayOld: bool, d: C.Dimension, group: string, now: int) {
    && s.detail == |Counted(db, f, Some(C.Detail), dayOld, d, group, now)|
    && s.reservation == |Counted(db, f, Some(C.Reservation), dayOld, d, group, now)|
    && s.order == |Counted(db, f, Some(C.Order), dayOld, d, group, now)|
    && s.paymentStarted == |Counted(db, f, Some(C.PaymentStarted), dayOld, d, group, now)|
    && s.paymentSucceeded == |Counted(db, f, Some(C.PaymentSucceeded), dayOld, d, group, now)|
  }

  lemma StagesMean(db: C.Db, f: C.Filter, dayOld: bool, d: C.Dimension, group: string, now: int)
    ensures StagesCount(C.StagesOf(db, f, dayOld, d, group, now), db, f, dayOld, d, group, now)
  {
    CountMeans(db, f, Some(C.Detail), dayOld, d, group, now);
    CountMeans(db, f, Some(C.Reservation), dayOld, d, group, now);
    CountMeans(db, f, Some(C.Order), dayOld, d, group, now);
    CountMeans(db, f, Some(C.PaymentStarted), dayOld, d, group, now);
    CountMeans(db, f, Some(C.PaymentSucceeded), dayOld, d, group, now);
  }

  predicate IsLoss(loss: int, before: int, after: int) {
    loss >= 0 && loss >= before - after && (loss == 0 || loss == before - after)
  }

  /** A row of the funnel: all and day-old journeys by stage, those less than a day old as pending, and as losses the
      differences of day-old neighbours where they are positive. */
  lemma FunnelRows(db: C.Db, f: C.Filter, d: C.Dimension, group: string, now: int)
    ensures var row := C.RowFor(db, f, d, group, now);
      && row.group == group
      && StagesCount(row.total, db, f, false, d, group, now) && StagesCount(row.matured, db, f, true, d, group, now)
      && row.pending == |Counted(db, f, None, false, d, group, now)| - |Counted(db, f, None, true, d, group, now)|
      && IsLoss(row.lost.detailToReservation, row.matured.detail, row.matured.reservation)
      && IsLoss(row.lost.reservationToOrder, row.matured.reservation, row.matured.order)
      && IsLoss(row.lost.orderToPayment, row.matured.order, row.matured.paymentStarted)
      && IsLoss(row.lost.paymentToSuccess, row.matured.paymentStarted, row.matured.paymentSucceeded)
  {
    StagesMean(db, f, false, d, group, now);
    StagesMean(db, f, true, d, group, now);
    CountMeans(db, f, None, false, d, group, now);
    CountMeans(db, f, None, true, d, group, now);
  }

  // ---------------------------------------------------------------- the summary of the funnel

  /** A figure of a row. */
  datatype Figure = OfAll(stage: C.Stage) | OfDayOld(stage: C.Stage) | Pending | LostBefore(stage: C.Stage)

  function StageOf(s: C.Stages, stage: C.Stage): int {
    match stage
    case Detail => s.detail
    case Reservation => s.reservation
    case Order => s.order
    case PaymentStarted => s.paymentStarted
    case PaymentSucceeded => s.paymentSucceeded
  }

  function FigureOf(row: C.Breakdown, figure: Figure): int {
    match figure
    case OfAll(stage) => StageOf(row.total, stage)
    case OfDayOld(stage) => StageOf(row.matured, stage)
    case Pending => row.pending
    case LostBefore(stage) =>
      match stage
      case Detail => 0
      case Reservation => row.lost.detailToReservation
      case Order => row.lost.reservationToOrder
      case PaymentStarted => row.lost.orderToPayment
      case PaymentSucceeded => row.lost.paymentToSuccess
  }

  /** The sum of one column. */
  function Column(rows: seq<C.Breakdown>, figure: Figure): int {
    if rows == [] then 0 else FigureOf(rows[0], figure) + Column(rows[1..], figure)
  }

  lemma {:induction false} ColumnEndsWith(rows: seq<C.Breakdown>, row: C.Breakdown, figure: Figure)
    ensures Column(rows + [row], figure) == Column(rows, figure) + FigureOf(row, figure)
    decreases |rows|
  {
    if rows == [] {
      assert [] + [row] == [row];
    } else {
      ColumnEndsWith(rows[1..], row, figure);
      assert (rows + [row])[1..] == rows[1..] + [row];
    }
  }

  /** Each figure of the summary, the losses too, is the sum of its column. */
  lemma {:induction false} SummaryAddsColumns(rows: seq<C.Breakdown>, figure: Figure)
    ensures FigureOf(C.SumOf(rows), figure) == Column(rows, figure)
    decreases |rows|
  {
    if rows != [] {
      var n := |rows| - 1;
      SummaryAddsColumns(rows[..n], figure);
      ColumnEndsWith(rows[..n], rows[n], figure);
      assert rows[..n] + [rows[n]] == rows;
    }
  }
}
