/** The conversion funnel: COUNT(DISTINCT IF(...)) over journeys joined with their reservations, orders and payments.  The
    joins multiply rows, and the counts do not notice. */
module Conversion {
  import opened Options

  datatype Journey = Journey(event: string, device: string, startedAt: int, detailAt: Option<int>)
  datatype Payment = Payment(startedAt: Option<int>, paidAt: Option<int>, succeeded: bool)

  /** `links` gives each linked reservation its journey; a reservation has at most one order, an order one payment. */
  datatype Db = Db(
    journeys: map<string, Journey>,
    links: map<string, string>,
    reservedAt: map<string, int>,
    orderedAt: map<string, int>,
    payments: map<string, Payment>)

  datatype Filter = Filter(start: int, end: int, event: string, device: string)

  const Day := 86400

  datatype Stage = Detail | Reservation | Order | PaymentStarted | PaymentSucceeded

  // ---------------------------------------------------------------- the query

  /** A row of the join: a journey with one of its reservations, or alone when it has none. */
  datatype Joined = Joined(journey: string, reservation: Option<string>)

  predicate InCohort(j: Journey, f: Filter) {
    && f.start <= j.startedAt < f.end && j.detailAt.Some?
    && (f.event == "" || j.event == f.event) && (f.device == "" || j.device == f.device)
  }

  function Cohort(db: Db, f: Filter): set<string> {
    set id | id in db.journeys && InCohort(db.journeys[id], f)
  }

  predicate Linked(db: Db, journey: string) {
    exists r :: r in db.links && db.links[r] == journey
  }

  /** FROM journeys LEFT JOIN reservations LEFT JOIN orders LEFT JOIN payments WHERE ... */
  function Rows(db: Db, f: Filter): set<Joined> {
    (set r | r in db.links && db.links[r] in Cohort(db, f) :: Joined(db.links[r], Some(r)))
    + (set id | id in Cohort(db, f) && !Linked(db, id) :: Joined(id, None))
  }

  predicate Within(at: Option<int>, j: Journey) {
    at.Some? && at.value <= j.startedAt + Day
  }

  function Look<V>(m: map<string, V>, key: Option<string>): Option<V> {
    if key.Some? && key.value in m then Some(m[key.value]) else None
  }

  /** The condition of one IF, NULL counting as false. */
  predicate RowReaches(db: Db, row: Joined, stage: Stage)
    requires row.journey in db.journeys
  {
    var j := db.journeys[row.journey];
    var payment := Look(db.payments, row.reservation);
    match stage
    case Detail => Within(j.detailAt, j)
    case Reservation => Within(Look(db.reservedAt, row.reservation), j)
    case Order => Within(Look(db.orderedAt, row.reservation), j)
    case PaymentStarted => payment.Some? && Within(payment.value.startedAt, j)
    case PaymentSucceeded => payment.Some? && payment.value.succeeded && Within(payment.value.paidAt, j)
  }

  predicate Mature(j: Journey, now: int) {
    j.startedAt <= now - Day
  }

  datatype Dimension = Whole | ByEvent | ByDevice

  function LabelOf(j: Journey, d: Dimension): string {
    match d
    case Whole => ""
    case ByEvent => j.event
    case ByDevice => j.device
  }

  /** What one aggregate counts: a stage or, without one, every journey; of one group; mature ones only or all. */
  datatype Aggregate = Aggregate(stage: Option<Stage>, matureOnly: bool, dimension: Dimension, group: string)

  predicate RowCounts(db: Db, row: Joined, a: Aggregate, now: int)
    requires row.journey in db.journeys
  {
    var j := db.journeys[row.journey];
    && LabelOf(j, a.dimension) == a.group
    && (a.matureOnly ==> Mature(j, now))
    && (a.stage.Some? ==> RowReaches(db, row, a.stage.value))
  }

  lemma RowsHaveJourneys(db: Db, f: Filter)
    ensures forall row :: row in Rows(db, f) ==> row.journey in Cohort(db, f)
  {
  }

  /** COUNT(DISTINCT IF(condition, j.id, NULL)). */
  function CountDistinct(db: Db, f: Filter, a: Aggregate, now: int): nat {
    RowsHaveJourneys(db, f);
    |set row | row in Rows(db, f) && RowCounts(db, row, a, now) :: row.journey|
  }

  // ---------------------------------------------------------------- what it counts

  /** The journey reached the stage within a day, by any of its reservations. */
  predicate Reaches(db: Db, id: string, stage: Stage)
    requires id in db.journeys
  {
    if stage == Detail then RowReaches(db, Joined(id, None), Detail)
    else exists r :: r in db.links && db.links[r] == id && RowReaches(db, Joined(id, Some(r)), stage)
  }

  predicate Counted(db: Db, id: string, a: Aggregate, now: int)
    requires id in db.journeys
  {
    var j := db.journeys[id];
    && LabelOf(j, a.dimension) == a.group
    && (a.matureOnly ==> Mature(j, now))
    && (a.stage.Some? ==> Reaches(db, id, a.stage.value))
  }

  function CountedSet(db: Db, f: Filter, a: Aggregate, now: int): set<string> {
    set id | id in Cohort(db, f) && Counted(db, id, a, now)
  }

  /** Some row of the journey. */
  lemma JourneyHasRow(db: Db, f: Filter, id: string) returns (row: Joined)
    requires id in Cohort(db, f)
    ensures row in Rows(db, f) && row.journey == id
  {
    if Linked(db, id) {
      var r :| r in db.links && db.links[r] == id;
      row := Joined(id, Some(r));
    } else {
      row := Joined(id, None);
    }
  }

  lemma RowDecides(db: Db, f: Filter, row: Joined, a: Aggregate, now: int)
    requires row in Rows(db, f) && row.journey in db.journeys && RowCounts(db, row, a, now)
    ensures Counted(db, row.journey, a, now)
  {
    if a.stage.Some? && a.stage.value != Detail {
      assert row.reservation.Some?;
      var r := row.reservation.value;
      assert r in db.links && db.links[r] == row.journey && row == Joined(row.journey, Some(r));
    }
  }

  lemma CountedHasRow(db: Db, f: Filter, id: string, a: Aggregate, now: int) returns (row: Joined)
    requires id in Cohort(db, f) && Counted(db, id, a, now)
    ensures row in Rows(db, f) && row.journey == id && RowCounts(db, row, a, now)
  {
    if a.stage.Some? && a.stage.value != Detail {
      var r :| r in db.links && db.links[r] == id && RowReaches(db, Joined(id, Some(r)), a.stage.value);
      row := Joined(id, Some(r));
    } else {
      row := JourneyHasRow(db, f, id);
    }
  }

  /** However many reservations a journey has, it is counted once where any of them reached the stage in time, and not
      at all where none did. */
  lemma CountsAreJourneys(db: Db, f: Filter, a: Aggregate, now: int)
    ensures CountDistinct(db, f, a, now) == |CountedSet(db, f, a, now)|
  {
    RowsHaveJourneys(db, f);
    var counted := set row | row in Rows(db, f) && RowCounts(db, row, a, now) :: row.journey;
    forall id ensures id in counted <==> id in CountedSet(db, f, a, now) {
      if id in counted {
        var row :| row in Rows(db, f) && RowCounts(db, row, a, now) && row.journey == id;
        RowDecides(db, f, row, a, now);
      }
      if id in CountedSet(db, f, a, now) {
        var row := CountedHasRow(db, f, id, a, now);
      }
    }
    assert counted == CountedSet(db, f, a, now);
  }

  // ---------------------------------------------------------------- mature journeys

  lemma {:induction false} SubsetIsSmaller<T>(a: set<T>, b: set<T>)
    requires a <= b
    ensures |a| <= |b|
    decreases |a|
  {
    if a != {} {
      var x :| x in a;
      SubsetIsSmaller(a - {x}, b - {x});
    }
  }

  /** At every stage the mature journeys are at most all of them; so what is pending is never negative. */
  lemma MatureIsAtMostAll(db: Db, f: Filter, stage: Option<Stage>, d: Dimension, group: string, now: int)
    ensures CountDistinct(db, f, Aggregate(stage, true, d, group), now) <= CountDistinct(db, f, Aggregate(stage, false, d, group), now)
  {
    CountsAreJourneys(db, f, Aggregate(stage, true, d, group), now);
    CountsAreJourneys(db, f, Aggregate(stage, false, d, group), now);
    SubsetIsSmaller(CountedSet(db, f, Aggregate(stage, true, d, group), now), CountedSet(db, f, Aggregate(stage, false, d, group), now));
  }

  /** No stage counts more journeys than there are. */
  lemma StageIsAtMostAll(db: Db, f: Filter, stage: Stage, matureOnly: bool, d: Dimension, group: string, now: int)
    ensures CountDistinct(db, f, Aggregate(Some(stage), matureOnly, d, group), now)
         <= CountDistinct(db, f, Aggregate(None, matureOnly, d, group), now)
  {
    CountsAreJourneys(db, f, Aggregate(Some(stage), matureOnly, d, group), now);
    CountsAreJourneys(db, f, Aggregate(None, matureOnly, d, group), now);
    SubsetIsSmaller(CountedSet(db, f, Aggregate(Some(stage), matureOnly, d, group), now),
                    CountedSet(db, f, Aggregate(None, matureOnly, d, group), now));
  }

  // ---------------------------------------------------------------- the breakdowns

  datatype Stages = Stages(detail: int, reservation: int, order: int, paymentStarted: int, paymentSucceeded: int)
  datatype Lost = Lost(detailToReservation: int, reservationToOrder: int, orderToPayment: int, paymentToSuccess: int)
  datatype Breakdown = Breakdown(group: string, total: Stages, matured: Stages, pending: int, lost: Lost)

  function StagesOf(db: Db, f: Filter, matureOnly: bool, d: Dimension, group: string, now: int): Stages {
    Stages(CountDistinct(db, f, Aggregate(Some(Detail), matureOnly, d, group), now),
           CountDistinct(db, f, Aggregate(Some(Reservation), matureOnly, d, group), now),
           CountDistinct(db, f, Aggregate(Some(Order), matureOnly, d, group), now),
           CountDistinct(db, f, Aggregate(Some(PaymentStarted), matureOnly, d, group), now),
           CountDistinct(db, f, Aggregate(Some(PaymentSucceeded), matureOnly, d, group), now))
  }

  function MaxZero(v: int): int {
    if v < 0 then 0 else v
  }

  function LostOf(m: Stages): Lost {
    Lost(MaxZero(m.detail - m.reservation), MaxZero(m.reservation - m.order), MaxZero(m.order - m.paymentStarted),
         MaxZero(m.paymentStarted - m.paymentSucceeded))
  }

  function RowFor(db: Db, f: Filter, d: Dimension, group: string, now: int): Breakdown {
    var matured := StagesOf(db, f, true, d, group, now);
    Breakdown(group, StagesOf(db, f, false, d, group, now), matured,
              CountDistinct(db, f, Aggregate(None, false, d, group), now) - CountDistinct(db, f, Aggregate(None, true, d, group), now),
              LostOf(matured))
  }

  /** One line that the query returns. */
  datatype Line = Line(group: string, journeys: int, total: Stages, matureJourneys: int, matured: Stages)

  function LineFor(db: Db, f: Filter, d: Dimension, group: string, now: int): Line {
    Line(group, CountDistinct(db, f, Aggregate(None, false, d, group), now), StagesOf(db, f, false, d, group, now),
         CountDistinct(db, f, Aggregate(None, true, d, group), now), StagesOf(db, f, true, d, group, now))
  }

  /** GROUP BY: one line for each label that some journey of the cohort has. */
  predicate GroupLines(db: Db, f: Filter, d: Dimension, now: int, lines: seq<Line>) {
    && (forall i, k :: 0 <= i < k < |lines| ==> lines[i].group != lines[k].group)
    && (forall i :: 0 <= i < |lines| ==> lines[i] == LineFor(db, f, d, lines[i].group, now))
    && (forall id :: id in Cohort(db, f) ==> exists i :: 0 <= i < |lines| && lines[i].group == LabelOf(db.journeys[id], d))
  }

  function BreakdownOf(b: Line): Breakdown {
    var m := b.matured;
    Breakdown(b.group, b.total, m, b.journeys - b.matureJourneys,
              Lost(MaxZero(m.detail - m.reservation), MaxZero(m.reservation - m.order), MaxZero(m.order - m.paymentStarted),
                   MaxZero(m.paymentStarted - m.paymentSucceeded)))
  }

  lemma LineIsRow(db: Db, f: Filter, d: Dimension, lines: seq<Line>, now: int, i: nat)
    requires GroupLines(db, f, d, now, lines) && i < |lines|
    ensures BreakdownOf(lines[i]) == RowFor(db, f, d, lines[i].group, now)
  {
  }

  /** The loop over the lines. */
  method StageRows(lines: seq<Line>, ghost db: Db, ghost f: Filter, ghost d: Dimension, ghost now: int) returns (out: seq<Breakdown>)
    requires GroupLines(db, f, d, now, lines)
    ensures |out| == |lines| && forall i :: 0 <= i < |out| ==> out[i] == RowFor(db, f, d, lines[i].group, now)
  {
    out := [];
    for i := 0 to |lines|
      invariant |out| == i && forall k :: 0 <= k < i ==> out[k] == BreakdownOf(lines[k])
    {
      var b := lines[i];
      var m := b.matured;
      out := out + [Breakdown(b.group, b.total, m, b.journeys - b.matureJourneys,
        Lost(MaxZero(m.detail - m.reservation), MaxZero(m.reservation - m.order), MaxZero(m.order - m.paymentStarted),
             MaxZero(m.paymentStarted - m.paymentSucceeded)))];
    }
    forall i | 0 <= i < |out| ensures out[i] == RowFor(db, f, d, lines[i].group, now) { LineIsRow(db, f, d, lines, now, i); }
  }

  function PlusStages(a: Stages, b: Stages): Stages {
    Stages(a.detail + b.detail, a.reservation + b.reservation, a.order + b.order,
           a.paymentStarted + b.paymentStarted, a.paymentSucceeded + b.paymentSucceeded)
  }

  function PlusLost(a: Lost, b: Lost): Lost {
    Lost(a.detailToReservation + b.detailToReservation, a.reservationToOrder + b.reservationToOrder,
         a.orderToPayment + b.orderToPayment, a.paymentToSuccess + b.paymentToSuccess)
  }

  const NoStages := Stages(0, 0, 0, 0, 0)

  function SumOf(rows: seq<Breakdown>): Breakdown {
    if rows == [] then Breakdown("", NoStages, NoStages, 0, Lost(0, 0, 0, 0))
    else
      var s, r := SumOf(rows[..|rows| - 1]), rows[|rows| - 1];
      Breakdown("", PlusStages(s.total, r.total), PlusStages(s.matured, r.matured), s.pending + r.pending, PlusLost(s.lost, r.lost))
  }

  method Sum(rows: seq<Breakdown>) returns (b: Breakdown)
    ensures b == SumOf(rows)
  {
    b := Breakdown("", NoStages, NoStages, 0, Lost(0, 0, 0, 0));
    for i := 0 to |rows|
      invariant b == SumOf(rows[..i])
    {
      var r := rows[i];
      assert rows[..i + 1][..i] == rows[..i];
      b := b.(total := PlusStages(b.total, r.total), matured := PlusStages(b.matured, r.matured), pending := b.pending + r.pending,
              lost := PlusLost(b.lost, r.lost));
    }
    assert rows[..|rows|] == rows;
  }

  // ---------------------------------------------------------------- groups add up

  function Labels(lines: seq<Line>): seq<string> {
    seq(|lines|, i requires 0 <= i < |lines| => lines[i].group)
  }

  /** The part of the journeys that has the label. */
  function Part(ids: set<string>, labelOf: map<string, string>, l: string): set<string> {
    set id | id in ids && id in labelOf && labelOf[id] == l
  }

  function PartsUpTo(ids: set<string>, labelOf: map<string, string>, labels: seq<string>): set<string> {
    set id | id in ids && id in labelOf && labelOf[id] in labels
  }

  function SumOfParts(ids: set<string>, labelOf: map<string, string>, labels: seq<string>): nat {
    if labels == [] then 0 else SumOfParts(ids, labelOf, labels[..|labels| - 1]) + |Part(ids, labelOf, labels[|labels| - 1])|
  }

  lemma {:induction false} PartsAddUp(ids: set<string>, labelOf: map<string, string>, labels: seq<string>)
    requires forall i, k :: 0 <= i < k < |labels| ==> labels[i] != labels[k]
    ensures SumOfParts(ids, labelOf, labels) == |PartsUpTo(ids, labelOf, labels)|
    decreases |labels|
  {
    if labels != [] {
      var n := |labels| - 1;
      var rest, last := labels[..n], labels[n];
      PartsAddUp(ids, labelOf, rest);
      forall i | 0 <= i < |rest| ensures rest[i] != last { assert labels[i] == rest[i]; }
      assert labels == rest + [last];
      assert PartsUpTo(ids, labelOf, rest) !! Part(ids, labelOf, last);
      assert PartsUpTo(ids, labelOf, labels) == PartsUpTo(ids, labelOf, rest) + Part(ids, labelOf, last);
    }
  }

  function LabelMap(db: Db, d: Dimension): map<string, string> {
    map id | id in db.journeys :: LabelOf(db.journeys[id], d)
  }

  predicate Passes(db: Db, id: string, stage: Option<Stage>, matureOnly: bool, now: int)
    requires id in db.journeys
  {
    (matureOnly ==> Mature(db.journeys[id], now)) && (stage.Some? ==> Reaches(db, id, stage.value))
  }

  function PassingSet(db: Db, f: Filter, stage: Option<Stage>, matureOnly: bool, now: int): set<string> {
    set id | id in Cohort(db, f) && Passes(db, id, stage, matureOnly, now)
  }

  lemma CountedIsPart(db: Db, f: Filter, stage: Option<Stage>, matureOnly: bool, d: Dimension, group: string, now: int)
    ensures CountDistinct(db, f, Aggregate(stage, matureOnly, d, group), now)
         == |Part(PassingSet(db, f, stage, matureOnly, now), LabelMap(db, d), group)|
  {
    var a := Aggregate(stage, matureOnly, d, group);
    CountsAreJourneys(db, f, a, now);
    assert CountedSet(db, f, a, now) == Part(PassingSet(db, f, stage, matureOnly, now), LabelMap(db, d), group);
  }

  function SumCounts(db: Db, f: Filter, stage: Option<Stage>, matureOnly: bool, d: Dimension, labels: seq<string>, now: int): nat {
    if labels == [] then 0
    else SumCounts(db, f, stage, matureOnly, d, labels[..|labels| - 1], now)
         + CountDistinct(db, f, Aggregate(stage, matureOnly, d, labels[|labels| - 1]), now)
  }

  lemma {:induction false} SumCountsIsSumOfParts(db: Db, f: Filter, stage: Option<Stage>, matureOnly: bool, d: Dimension, labels: seq<string>, now: int)
    ensures SumCounts(db, f, stage, matureOnly, d, labels, now)
         == SumOfParts(PassingSet(db, f, stage, matureOnly, now), LabelMap(db, d), labels)
    decreases |labels|
  {
    if labels != [] {
      SumCountsIsSumOfParts(db, f, stage, matureOnly, d, labels[..|labels| - 1], now);
      CountedIsPart(db, f, stage, matureOnly, d, labels[|labels| - 1], now);
    }
  }

  lemma LabelsCover(db: Db, f: Filter, ids: set<string>, d: Dimension, lines: seq<Line>, now: int)
    requires GroupLines(db, f, d, now, lines) && ids <= Cohort(db, f)
    ensures PartsUpTo(ids, LabelMap(db, d), Labels(lines)) == ids
  {
    forall id | id in ids ensures id in PartsUpTo(ids, LabelMap(db, d), Labels(lines)) {
      var i :| 0 <= i < |lines| && lines[i].group == LabelOf(db.journeys[id], d);
      assert Labels(lines)[i] == lines[i].group;
    }
  }

  /** A count of the whole cohort is the sum of the same count over its events, and over its devices. */
  lemma {:induction false} GroupsAddUp(db: Db, f: Filter, stage: Option<Stage>, matureOnly: bool, d: Dimension, lines: seq<Line>, now: int)
    requires GroupLines(db, f, d, now, lines)
    ensures SumCounts(db, f, stage, matureOnly, d, Labels(lines), now) == CountDistinct(db, f, Aggregate(stage, matureOnly, Whole, ""), now)
  {
    var passing := PassingSet(db, f, stage, matureOnly, now);
    SumCountsIsSumOfParts(db, f, stage, matureOnly, d, Labels(lines), now);
    PartsAddUp(passing, LabelMap(db, d), Labels(lines));
    LabelsCover(db, f, passing, d, lines, now);
    CountedIsPart(db, f, stage, matureOnly, Whole, "", now);
    assert Part(passing, LabelMap(db, Whole), "") == passing;
  }

  function StagesSum(db: Db, f: Filter, matureOnly: bool, d: Dimension, labels: seq<string>, now: int): Stages {
    Stages(SumCounts(db, f, Some(Detail), matureOnly, d, labels, now), SumCounts(db, f, Some(Reservation), matureOnly, d, labels, now),
           SumCounts(db, f, Some(Order), matureOnly, d, labels, now), SumCounts(db, f, Some(PaymentStarted), matureOnly, d, labels, now),
           SumCounts(db, f, Some(PaymentSucceeded), matureOnly, d, labels, now))
  }

  lemma StagesSumLast(db: Db, f: Filter, matureOnly: bool, d: Dimension, labels: seq<string>, now: int)
    requires labels != []
    ensures StagesSum(db, f, matureOnly, d, labels, now)
         == PlusStages(StagesSum(db, f, matureOnly, d, labels[..|labels| - 1], now), StagesOf(db, f, matureOnly, d, labels[|labels| - 1], now))
  {
  }

  function PendingSum(db: Db, f: Filter, d: Dimension, labels: seq<string>, now: int): int {
    SumCounts(db, f, None, false, d, labels, now) - SumCounts(db, f, None, true, d, labels, now)
  }

  lemma {:induction false} SumOfRows(db: Db, f: Filter, d: Dimension, labels: seq<string>, rows: seq<Breakdown>, now: int)
    requires |rows| == |labels| && forall i :: 0 <= i < |rows| ==> rows[i] == RowFor(db, f, d, labels[i], now)
    ensures SumOf(rows).total == StagesSum(db, f, false, d, labels, now)
    ensures SumOf(rows).matured == StagesSum(db, f, true, d, labels, now)
    ensures SumOf(rows).pending == PendingSum(db, f, d, labels, now)
    decreases |rows|
  {
    if rows != [] {
      var n := |rows| - 1;
      SumOfRows(db, f, d, labels[..n], rows[..n], now);
      StagesSumLast(db, f, false, d, labels, now);
      StagesSumLast(db, f, true, d, labels, now);
      assert rows[n] == RowFor(db, f, d, labels[n], now);
    }
  }

  lemma StagesAddUp(db: Db, f: Filter, matureOnly: bool, d: Dimension, lines: seq<Line>, now: int)
    requires GroupLines(db, f, d, now, lines)
    ensures StagesSum(db, f, matureOnly, d, Labels(lines), now) == StagesOf(db, f, matureOnly, Whole, "", now)
  {
    GroupsAddUp(db, f, Some(Detail), matureOnly, d, lines, now);
    GroupsAddUp(db, f, Some(Reservation), matureOnly, d, lines, now);
    GroupsAddUp(db, f, Some(Order), matureOnly, d, lines, now);
    GroupsAddUp(db, f, Some(PaymentStarted), matureOnly, d, lines, now);
    GroupsAddUp(db, f, Some(PaymentSucceeded), matureOnly, d, lines, now);
  }

  lemma PendingAddsUp(db: Db, f: Filter, d: Dimension, lines: seq<Line>, now: int)
    requires GroupLines(db, f, d, now, lines)
    ensures PendingSum(db, f, d, Labels(lines), now) == RowFor(db, f, Whole, "", now).pending >= 0
  {
    GroupsAddUp(db, f, None, false, d, lines, now);
    GroupsAddUp(db, f, None, true, d, lines, now);
    MatureIsAtMostAll(db, f, None, Whole, "", now);
  }

  /** The same for the rows that the report shows: the stage counts and the pending journeys of its events, and of its
      devices, add up to the summary. */
  lemma {:induction false} BreakdownsAgree(db: Db, f: Filter, d: Dimension, lines: seq<Line>, rows: seq<Breakdown>, now: int)
    requires GroupLines(db, f, d, now, lines)
    requires |rows| == |lines| && forall i :: 0 <= i < |rows| ==> rows[i] == RowFor(db, f, d, lines[i].group, now)
    ensures var s, whole := SumOf(rows), RowFor(db, f, Whole, "", now);
      s.total == whole.total && s.matured == whole.matured && s.pending == whole.pending && whole.pending >= 0
  {
    SumOfRows(db, f, d, Labels(lines), rows, now);
    StagesAddUp(db, f, false, d, lines, now);
    StagesAddUp(db, f, true, d, lines, now);
    PendingAddsUp(db, f, d, lines, now);
  }

  // ---------------------------------------------------------------- losses

  lemma Difference(a: set<string>, b: set<string>)
    ensures |a| - |b| == |a - b| - |b - a|
  {
    assert a == (a - b) + (a * b) && b == (b - a) + (a * b);
    assert |a| == |a - b| + |a * b| by { assert (a - b) !! (a * b); }
    assert |b| == |b - a| + |a * b| by { assert (b - a) !! (a * b); }
  }

  lemma NothingLeft(a: set<string>, b: set<string>)
    ensures a <= b <==> a - b == {}
  {
    if a - b == {} {
      forall x | x in a ensures x in b { assert x in a - b <==> x !in b; }
    }
  }

  lemma LossOfSets(a: set<string>, b: set<string>)
    ensures MaxZero(|a| - |b|) == |a - b| <==> a <= b || b <= a
  {
    Difference(a, b);
    NothingLeft(a, b);
    NothingLeft(b, a);
  }

  /** A loss between two stages is the number of mature journeys that reached the first and not the second, exactly when
      there are none or no other journey skipped the first one.  A skip hides a loss: the counts alone cancel out. */
  lemma LossIsExactIffNobodySkips(db: Db, f: Filter, from: Stage, to: Stage, d: Dimension, group: string, now: int)
    ensures var a, b := CountedSet(db, f, Aggregate(Some(from), true, d, group), now), CountedSet(db, f, Aggregate(Some(to), true, d, group), now);
      MaxZero(CountDistinct(db, f, Aggregate(Some(from), true, d, group), now) - CountDistinct(db, f, Aggregate(Some(to), true, d, group), now)) == |a - b|
      <==> (a <= b || b <= a)
  {
    var a, b := CountedSet(db, f, Aggregate(Some(from), true, d, group), now), CountedSet(db, f, Aggregate(Some(to), true, d, group), now);
    CountsAreJourneys(db, f, Aggregate(Some(from), true, d, group), now);
    CountsAreJourneys(db, f, Aggregate(Some(to), true, d, group), now);
    LossOfSets(a, b);
  }

  /** One journey stops after the details; another reserves at once and opens the details a day too late. */
  const StoppedAndSkipped := Db(map["a" := Journey("e", "mobile", 0, Some(0)), "b" := Journey("e", "mobile", 0, Some(100000))],
                                map["r" := "b"], map["r" := 10], map[], map[])

  lemma StoppedAndSkippedStages(db: Db, f: Filter)
    requires db == StoppedAndSkipped && f == Filter(0, 1, "", "")
    ensures CountedSet(db, f, Aggregate(Some(Detail), true, Whole, ""), 200000) == {"a"}
    ensures CountedSet(db, f, Aggregate(Some(Reservation), true, Whole, ""), 200000) == {"b"}
  {
    assert "a" != "b" by { assert "a"[0] != "b"[0]; }
    assert RowReaches(db, Joined("b", Some("r")), Reservation);
    assert Reaches(db, "b", Reservation) && !Reaches(db, "a", Reservation);
    assert Reaches(db, "a", Detail) && !Reaches(db, "b", Detail);
  }

  /** One journey was lost between the two stages, and the loss that is shown is 0. */
  lemma SkipHidesLoss()
    ensures var f, detail, reserved := Filter(0, 1, "", ""), Aggregate(Some(Detail), true, Whole, ""), Aggregate(Some(Reservation), true, Whole, "");
      && |CountedSet(StoppedAndSkipped, f, detail, 200000) - CountedSet(StoppedAndSkipped, f, reserved, 200000)| == 1
      && MaxZero(CountDistinct(StoppedAndSkipped, f, detail, 200000) - CountDistinct(StoppedAndSkipped, f, reserved, 200000)) == 0
  {
    var f := Filter(0, 1, "", "");
    var detail, reserved := Aggregate(Some(Detail), true, Whole, ""), Aggregate(Some(Reservation), true, Whole, "");
    StoppedAndSkippedStages(StoppedAndSkipped, f);
    CountsAreJourneys(StoppedAndSkipped, f, detail, 200000);
    CountsAreJourneys(StoppedAndSkipped, f, reserved, 200000);
    assert "a" != "b" by { assert "a"[0] != "b"[0]; }
    assert {"a"} - {"b"} == {"a"};
  }

  /** Orders follow their reservations, and payments their orders; the details page may come later than all of them. */
  predicate InSequence(db: Db) {
    && (forall r :: r in db.orderedAt ==> r in db.reservedAt && db.reservedAt[r] <= db.orderedAt[r])
    && (forall r :: r in db.payments && db.payments[r].startedAt.Some? ==> r in db.orderedAt && db.orderedAt[r] <= db.payments[r].startedAt.value)
    && (forall r :: r in db.payments && db.payments[r].paidAt.Some? ==>
          db.payments[r].startedAt.Some? && db.payments[r].startedAt.value <= db.payments[r].paidAt.value)
  }

  predicate Follows(from: Stage, to: Stage) {
    (from == Reservation && to == Order) || (from == Order && to == PaymentStarted) || (from == PaymentStarted && to == PaymentSucceeded)
  }

  lemma ReachesEarlier(db: Db, id: string, from: Stage, to: Stage)
    requires InSequence(db) && Follows(from, to) && id in db.journeys && Reaches(db, id, to)
    ensures Reaches(db, id, from)
  {
    var r :| r in db.links && db.links[r] == id && RowReaches(db, Joined(id, Some(r)), to);
    assert RowReaches(db, Joined(id, Some(r)), from);
  }

  /** From the reservation on, the shown losses are the journeys that stopped there. */
  lemma LaterLossesAreExact(db: Db, f: Filter, from: Stage, to: Stage, d: Dimension, group: string, now: int)
    requires InSequence(db) && Follows(from, to)
    ensures var a, b := CountedSet(db, f, Aggregate(Some(from), true, d, group), now), CountedSet(db, f, Aggregate(Some(to), true, d, group), now);
      MaxZero(CountDistinct(db, f, Aggregate(Some(from), true, d, group), now) - CountDistinct(db, f, Aggregate(Some(to), true, d, group), now)) == |a - b|
  {
    var a, b := CountedSet(db, f, Aggregate(Some(from), true, d, group), now), CountedSet(db, f, Aggregate(Some(to), true, d, group), now);
    forall id | id in b ensures id in a { ReachesEarlier(db, id, from, to); }
    LossIsExactIffNobodySkips(db, f, from, to, d, group, now);
  }
}
