/** The sales report: payments and refunds of a range of Jakarta days, grouped by the database and added up by day, by
    event and in all.  The three views agree with each other and with the rows they come from. */
module SalesReport {
  import opened Options
  import opened Text
  import opened Wib
  import opened Grouping

  datatype Kind = Payment | Refund

  /** A payment at `paid_at` or a refund at `completed_at`. */
  datatype Raw = Raw(kind: Kind, at: int, event: string, amount: int, succeeded: bool)

  datatype Key = Key(day: int, event: string, kind: Kind)
  datatype Group = Group(key: Key, count: int, amount: int)
  datatype Amounts = Amounts(transactions: int, payments: int, refunds: int, net: int)

  // ---------------------------------------------------------------- the range

  /** A date parameter: missing, the text of a day, or a text that is not one. */
  datatype DateText = Blank | Day(day: int) | Garbled
  datatype Filter = Filter(event: string, dateFrom: DateText, dateTo: DateText)
  datatype Range = Range(event: string, fromDay: int, toDay: int)

  function ParseFilter(f: Filter, now: int): Option<Range> {
    if Trim(f.event) != f.event || Bytes(f.event) > 64 then None
    else
      var today := WibDay(now);
      var toText := if f.dateTo == Blank then Day(today) else f.dateTo;
      var fromText := if f.dateFrom == Blank then (if toText.Day? then Day(toText.day - 29) else Garbled) else f.dateFrom;
      if !fromText.Day? || !toText.Day? then None
      else if toText.day < fromText.day || toText.day - fromText.day >= 366 then None
      else Some(Range(f.event, fromText.day, toText.day))
  }

  /** A range has 1 to 366 days; without dates it is the last thirty, ending today. */
  lemma RangesAreBounded(f: Filter, now: int)
    ensures ParseFilter(f, now).Some? ==> var r := ParseFilter(f, now).value; 1 <= r.toDay - r.fromDay + 1 <= 366
    ensures f.dateFrom == Blank && ParseFilter(f, now).Some? ==> var r := ParseFilter(f, now).value; r.toDay - r.fromDay == 29
    ensures f.dateTo == Blank && ParseFilter(f, now).Some? ==> ParseFilter(f, now).value.toDay == WibDay(now)
    ensures ParseFilter(f, now).None? <==>
              || Trim(f.event) != f.event || Bytes(f.event) > 64 || f.dateFrom == Garbled || f.dateTo == Garbled
              || (f.dateFrom.Day? && f.dateTo.Day? && !(0 <= f.dateTo.day - f.dateFrom.day < 366))
              || (f.dateFrom.Day? && f.dateTo == Blank && !(0 <= WibDay(now) - f.dateFrom.day < 366))
  {
  }

  // ---------------------------------------------------------------- rows and groups

  predicate InRange(r: Raw, range: Range) {
    r.succeeded && StartOf(range.fromDay) <= r.at < StartOf(range.toDay + 1) && (range.event == "" || r.event == range.event)
  }

  /** The rows that the query reads. */
  function Source(table: seq<Raw>, range: Range): seq<Raw> {
    if table == [] then []
    else
      Source(table[..|table| - 1], range) + (if InRange(table[|table| - 1], range) then [table[|table| - 1]] else [])
  }

  lemma {:induction false} SourceIsInRange(table: seq<Raw>, range: Range)
    ensures forall i :: 0 <= i < |Source(table, range)| ==> InRange(Source(table, range)[i], range)
    decreases |table|
  {
    if table != [] { SourceIsInRange(table[..|table| - 1], range); }
  }

  function KeyOf(r: Raw): Key {
    Key(WibDay(r.at), r.event, r.kind)
  }

  function Ones(raws: seq<Raw>): seq<Entry<Key>> {
    seq(|raws|, i requires 0 <= i < |raws| => Entry(KeyOf(raws[i]), 1))
  }

  function Sums(raws: seq<Raw>): seq<Entry<Key>> {
    seq(|raws|, i requires 0 <= i < |raws| => Entry(KeyOf(raws[i]), raws[i].amount))
  }

  function CountsOf(groups: seq<Group>): seq<Entry<Key>> {
    seq(|groups|, i requires 0 <= i < |groups| => Entry(groups[i].key, groups[i].count))
  }

  function SumsOf(groups: seq<Group>): seq<Entry<Key>> {
    seq(|groups|, i requires 0 <= i < |groups| => Entry(groups[i].key, groups[i].amount))
  }

  /** SELECT day, event, kind, COUNT(*), SUM(amount) ... GROUP BY day, event, kind. */
  predicate IsGroupBy(groups: seq<Group>, raws: seq<Raw>) {
    GroupedBy(CountsOf(groups), Ones(raws)) && GroupedBy(SumsOf(groups), Sums(raws))
  }

  // ---------------------------------------------------------------- three measures of rows and of groups

  datatype Measure = Transactions | Payments | Refunds

  function Weigh(kind: Kind, count: int, amount: int, m: Measure): int {
    match m
    case Transactions => if kind == Payment then count else 0
    case Payments => if kind == Payment then amount else 0
    case Refunds => if kind == Refund then amount else 0
  }

  function Measured(groups: seq<Group>, m: Measure): seq<Entry<Key>> {
    seq(|groups|, i requires 0 <= i < |groups| => Entry(groups[i].key, Weigh(groups[i].key.kind, groups[i].count, groups[i].amount, m)))
  }

  function MeasuredRows(raws: seq<Raw>, m: Measure): seq<Entry<Key>> {
    seq(|raws|, i requires 0 <= i < |raws| => Entry(KeyOf(raws[i]), Weigh(raws[i].kind, 1, raws[i].amount, m)))
  }

  lemma {:induction false} MeasureOfKey(raws: seq<Raw>, m: Measure, key: Key)
    ensures Total(MeasuredRows(raws, m), Is(key)) == Weigh(key.kind, Total(Ones(raws), Is(key)), Total(Sums(raws), Is(key)), m)
    decreases |raws|
  {
    if raws != [] {
      var rest, last := raws[..|raws| - 1], raws[|raws| - 1];
      MeasureOfKey(rest, m, key);
      assert MeasuredRows(raws, m)[..|raws| - 1] == MeasuredRows(rest, m);
      assert Ones(raws)[..|raws| - 1] == Ones(rest);
      assert Sums(raws)[..|raws| - 1] == Sums(rest);
    }
  }

  /** Grouping by kind as well keeps payments and refunds apart. */
  lemma MeasuresAreGrouped(groups: seq<Group>, raws: seq<Raw>, m: Measure)
    requires IsGroupBy(groups, raws)
    ensures GroupedBy(Measured(groups, m), MeasuredRows(raws, m))
  {
    var measured, rows := Measured(groups, m), MeasuredRows(raws, m);
    forall i, j | 0 <= i < j < |measured| ensures measured[i].key != measured[j].key {
      assert CountsOf(groups)[i].key != CountsOf(groups)[j].key;
    }
    forall i | 0 <= i < |measured| ensures measured[i].weight == Total(rows, Is(measured[i].key)) {
      assert CountsOf(groups)[i].weight == groups[i].count && SumsOf(groups)[i].weight == groups[i].amount;
      MeasureOfKey(raws, m, groups[i].key);
    }
    forall i | 0 <= i < |rows| ensures HasKey(measured, rows[i].key) {
      assert HasKey(CountsOf(groups), Ones(raws)[i].key);
      var k :| 0 <= k < |groups| && CountsOf(groups)[k].key == rows[i].key;
      assert measured[k].key == rows[i].key;
    }
  }

  /** What the rows alone amount to, as far as they are picked. */
  function Direct(raws: seq<Raw>, pick: Key -> bool): Amounts {
    WithNet(Total(MeasuredRows(raws, Transactions), pick), Total(MeasuredRows(raws, Payments), pick), Total(MeasuredRows(raws, Refunds), pick))
  }

  function WithNet(transactions: int, payments: int, refunds: int): Amounts {
    Amounts(transactions, payments, refunds, payments - refunds)
  }

  /** The same from groups, with no net amount yet. */
  function Book(groups: seq<Group>, pick: Key -> bool): Amounts {
    Amounts(Total(Measured(groups, Transactions), pick), Total(Measured(groups, Payments), pick), Total(Measured(groups, Refunds), pick), 0)
  }

  function Add(a: Amounts, g: Group): Amounts {
    if g.key.kind == Payment then a.(transactions := a.transactions + g.count, payments := a.payments + g.amount)
    else a.(refunds := a.refunds + g.amount)
  }

  lemma MeasuredOneMore(groups: seq<Group>, k: nat, m: Measure, pick: Key -> bool)
    requires k < |groups|
    ensures Total(Measured(groups[..k + 1], m), pick)
         == Total(Measured(groups[..k], m), pick)
            + (if pick(groups[k].key) then Weigh(groups[k].key.kind, groups[k].count, groups[k].amount, m) else 0)
  {
    assert Measured(groups[..k + 1], m)[..k] == Measured(groups[..k], m);
  }

  predicate GrowsBy(groups: seq<Group>, k: nat, pick: Key -> bool)
    requires k < |groups|
  {
    Book(groups[..k + 1], pick) == if pick(groups[k].key) then Add(Book(groups[..k], pick), groups[k]) else Book(groups[..k], pick)
  }

  lemma BookOneMore(groups: seq<Group>, k: nat, pick: Key -> bool)
    requires k < |groups|
    ensures GrowsBy(groups, k, pick)
  {
    MeasuredOneMore(groups, k, Transactions, pick);
    MeasuredOneMore(groups, k, Payments, pick);
    MeasuredOneMore(groups, k, Refunds, pick);
  }

  lemma BookIsDirect(groups: seq<Group>, raws: seq<Raw>, pick: Key -> bool)
    requires IsGroupBy(groups, raws)
    ensures var b := Book(groups, pick); Direct(raws, pick) == WithNet(b.transactions, b.payments, b.refunds)
  {
    MeasuresAreGrouped(groups, raws, Transactions);
    MeasuresAreGrouped(groups, raws, Payments);
    MeasuresAreGrouped(groups, raws, Refunds);
    GroupsKeepTotals(Measured(groups, Transactions), MeasuredRows(raws, Transactions), pick);
    GroupsKeepTotals(Measured(groups, Payments), MeasuredRows(raws, Payments), pick);
    GroupsKeepTotals(Measured(groups, Refunds), MeasuredRows(raws, Refunds), pick);
  }

  function OnDay(day: int): Key -> bool {
    (k: Key) => k.day == day
  }

  function OfEvent(event: string): Key -> bool {
    (k: Key) => k.event == event
  }

  // ---------------------------------------------------------------- the report

  datatype Report = Report(dates: seq<int>, daily: seq<Amounts>, summary: Amounts, events: seq<string>, byEvent: seq<Amounts>)
  datatype Outcome = Made(report: Report) | OutsideRange | NoSuchEvent

  function Days(range: Range): seq<int>
    requires range.fromDay <= range.toDay + 1
  {
    seq(range.toDay - range.fromDay + 1, i => range.fromDay + i)
  }

  function Listed(events: seq<string>, event: string): seq<string> {
    if events == [] then []
    else Listed(events[..|events| - 1], event)
         + (if event != "" && events[|events| - 1] != event then [] else [events[|events| - 1]])
  }

  /** Every view is the direct total of the rows that it stands for. */
  predicate Faithful(r: Report, raws: seq<Raw>, range: Range, events: seq<string>)
    requires range.fromDay <= range.toDay
  {
    && r.dates == Days(range) && |r.daily| == |r.dates|
    && (forall i :: 0 <= i < |r.dates| ==> r.daily[i] == Direct(raws, OnDay(r.dates[i])))
    && r.summary == Direct(raws, All())
    && r.events == Listed(events, range.event) && |r.byEvent| == |r.events|
    && (forall i :: 0 <= i < |r.events| ==> r.byEvent[i] == Direct(raws, OfEvent(r.events[i])))
  }

  /** The days of the range and, for each, its place. */
  method ListDays(range: Range) returns (dates: seq<int>, places: map<int, nat>)
    requires range.fromDay <= range.toDay
    ensures dates == Days(range)
    ensures forall day :: day in places <==> range.fromDay <= day <= range.toDay
    ensures forall day :: day in places ==> places[day] == day - range.fromDay
  {
    dates, places := [], map[];
    var day := range.fromDay;
    while day < range.toDay + 1
      invariant range.fromDay <= day <= range.toDay + 1
      invariant dates == Days(range)[..day - range.fromDay]
      invariant forall d :: d in places <==> range.fromDay <= d < day
      invariant forall d :: d in places ==> places[d] == d - range.fromDay
    {
      dates := dates + [day];
      places := places[day := |dates| - 1];
      day := day + 1;
    }
  }

  function AmountsOf(events: map<string, Amounts>, event: string): Amounts {
    if event in events then events[event] else Amounts(0, 0, 0, 0)
  }

  /** The loop over the groups: every group goes to its day, to its event and to the summary. */
  method AddGroups(range: Range, groups: seq<Group>, places: map<int, nat>, daily: array<Amounts>, ghost dates: seq<int>)
      returns (ok: bool, summary: Amounts, events: map<string, Amounts>)
    requires range.fromDay <= range.toDay && dates == Days(range) && daily.Length == |dates|
    requires forall day :: day in places <==> range.fromDay <= day <= range.toDay
    requires forall day :: day in places ==> places[day] == day - range.fromDay
    requires forall i :: 0 <= i < |groups| ==> range.fromDay <= groups[i].key.day <= range.toDay
    requires forall i :: 0 <= i < daily.Length ==> daily[i] == Amounts(0, 0, 0, 0)
    modifies daily
    ensures ok && summary == Book(groups, All())
    ensures forall i :: 0 <= i < |dates| ==> daily[i] == Book(groups, OnDay(dates[i]))
    ensures forall event :: AmountsOf(events, event) == Book(groups, OfEvent(event))
  {
    summary, events := Amounts(0, 0, 0, 0), map[];
    for k := 0 to |groups|
      invariant summary == Book(groups[..k], All())
      invariant forall i :: 0 <= i < |dates| ==> daily[i] == Book(groups[..k], OnDay(dates[i]))
      invariant forall event :: AmountsOf(events, event) == Book(groups[..k], OfEvent(event))
    {
      var g := groups[k];
      if g.key.day !in places {
        return false, summary, events;
      }
      var place := places[g.key.day];
      BookOneMore(groups, k, All());
      forall i | 0 <= i < |dates| ensures GrowsBy(groups, k, OnDay(dates[i])) { BookOneMore(groups, k, OnDay(dates[i])); }
      forall event ensures GrowsBy(groups, k, OfEvent(event)) { BookOneMore(groups, k, OfEvent(event)); }
      daily[place] := Add(daily[place], g);
      summary := Add(summary, g);
      events := events[g.key.event := Add(AmountsOf(events, g.key.event), g)];
    }
    assert groups[..|groups|] == groups;
    ok := true;
  }

  lemma GroupsAreInRange(groups: seq<Group>, raws: seq<Raw>, range: Range)
    requires IsGroupBy(groups, raws) && forall i :: 0 <= i < |raws| ==> InRange(raws[i], range)
    requires forall i :: 0 <= i < |groups| ==> groups[i].count > 0
    ensures forall i :: 0 <= i < |groups| ==> range.fromDay <= groups[i].key.day <= range.toDay
  {
    forall i | 0 <= i < |groups| ensures range.fromDay <= groups[i].key.day <= range.toDay {
      var key := groups[i].key;
      assert CountsOf(groups)[i].weight == Total(Ones(raws), Is(key));
      var j := SomeRow(raws, key);
      DaysOfRange(raws[j].at, range.fromDay, range.toDay);
    }
  }

  /** A group is made of rows. */
  lemma {:induction false} SomeRow(raws: seq<Raw>, key: Key) returns (j: nat)
    requires Total(Ones(raws), Is(key)) > 0
    ensures j < |raws| && KeyOf(raws[j]) == key
    decreases |raws|
  {
    var rest, last := raws[..|raws| - 1], raws[|raws| - 1];
    assert Ones(raws)[..|raws| - 1] == Ones(rest);
    if KeyOf(last) == key { j := |raws| - 1; } else { j := SomeRow(rest, key); }
  }

  predicate Distinct(events: seq<string>) {
    forall i, j :: 0 <= i < j < |events| ==> events[i] != events[j]
  }

  /** The report over a table, from the groups that the database returns for the range.  It never finds a group outside
      the days that it listed. */
  method Sales(range: Range, groups: seq<Group>, events: seq<string>, ghost table: seq<Raw>) returns (r: Outcome)
    requires range.fromDay <= range.toDay
    requires IsGroupBy(groups, Source(table, range)) && forall i :: 0 <= i < |groups| ==> groups[i].count > 0
    ensures r.Made? || r.NoSuchEvent?
    ensures r.NoSuchEvent? <==> range.event != "" && Listed(events, range.event) == []
    ensures r.Made? ==> Faithful(r.report, Source(table, range), range, events)
  {
    ghost var raws := Source(table, range);
    SourceIsInRange(table, range);
    GroupsAreInRange(groups, raws, range);
    var dates, places := ListDays(range);
    var daily := new Amounts[|dates|](_ => Amounts(0, 0, 0, 0));
    var ok, summary, byEvent := AddGroups(range, groups, places, daily, dates);
    if !ok { return OutsideRange; }
    var net := NetDays(daily);
    forall i | 0 <= i < |dates| ensures net[i] == Direct(raws, OnDay(dates[i])) { BookIsDirect(groups, raws, OnDay(dates[i])); }
    summary := summary.(net := summary.payments - summary.refunds);
    BookIsDirect(groups, raws, All());
    var listed, rows := [], [];
    for k := 0 to |events|
      invariant listed == Listed(events[..k], range.event) && |rows| == |listed|
      invariant forall i :: 0 <= i < |rows| ==> rows[i] == Direct(raws, OfEvent(listed[i]))
    {
      assert events[..k + 1][..k] == events[..k];
      if range.event != "" && events[k] != range.event { continue; }
      var amounts := AmountsOf(byEvent, events[k]);
      BookIsDirect(groups, raws, OfEvent(events[k]));
      listed := listed + [events[k]];
      rows := rows + [amounts.(net := amounts.payments - amounts.refunds)];
    }
    assert events[..|events|] == events;
    if range.event != "" && |rows| == 0 { return NoSuchEvent; }
    return Made(Report(dates, net, summary, listed, rows));
  }

  method NetDays(daily: array<Amounts>) returns (net: seq<Amounts>)
    modifies daily
    ensures |net| == daily.Length
    ensures forall i :: 0 <= i < |net| ==> net[i] == WithNet(old(daily[i]).transactions, old(daily[i]).payments, old(daily[i]).refunds)
  {
    for index := 0 to daily.Length
      invariant forall i :: 0 <= i < index ==> daily[i] == WithNet(old(daily[i]).transactions, old(daily[i]).payments, old(daily[i]).refunds)
      invariant forall i :: index <= i < daily.Length ==> daily[i] == old(daily[i])
    {
      daily[index] := daily[index].(net := daily[index].payments - daily[index].refunds);
    }
    net := daily[..];
  }

  // ---------------------------------------------------------------- the views agree

  function TransactionsOf(rows: seq<Amounts>): seq<int> {
    seq(|rows|, i requires 0 <= i < |rows| => rows[i].transactions)
  }

  function PaymentsOf(rows: seq<Amounts>): seq<int> {
    seq(|rows|, i requires 0 <= i < |rows| => rows[i].payments)
  }

  function RefundsOf(rows: seq<Amounts>): seq<int> {
    seq(|rows|, i requires 0 <= i < |rows| => rows[i].refunds)
  }

  function NetsOf(rows: seq<Amounts>): seq<int> {
    seq(|rows|, i requires 0 <= i < |rows| => rows[i].net)
  }

  /** Rows added up column by column. */
  function AddUp(rows: seq<Amounts>): Amounts {
    Amounts(Sum(TransactionsOf(rows)), Sum(PaymentsOf(rows)), Sum(RefundsOf(rows)), Sum(NetsOf(rows)))
  }

  lemma {:induction false} ViewAddsUp<L>(labels: seq<L>, rows: seq<Amounts>, raws: seq<Raw>, part: L -> (Key -> bool))
    requires |rows| == |labels| && forall i :: 0 <= i < |labels| ==> rows[i] == Direct(raws, part(labels[i]))
    requires forall i :: 0 <= i < |raws| ==> Claims(labels, KeyOf(raws[i]), part) == 1
    ensures AddUp(rows) == Direct(raws, All())
  {
    var ts, ps, fs := MeasuredRows(raws, Transactions), MeasuredRows(raws, Payments), MeasuredRows(raws, Refunds);
    SumIsSumOver(labels, TransactionsOf(rows), ts, part);
    SumIsSumOver(labels, PaymentsOf(rows), ps, part);
    SumIsSumOver(labels, RefundsOf(rows), fs, part);
    SumOfDifferences(PaymentsOf(rows), RefundsOf(rows), NetsOf(rows));
    PartsAddUp(labels, ts, part);
    PartsAddUp(labels, ps, part);
    PartsAddUp(labels, fs, part);
  }

  /** Every instant of the range falls on exactly one of the listed days. */
  lemma OneDayEach(r: Raw, range: Range)
    requires range.fromDay <= range.toDay && InRange(r, range)
    ensures Claims(Days(range), KeyOf(r), OnDay) == 1
  {
    DaysOfRange(r.at, range.fromDay, range.toDay);
    var k := WibDay(r.at) - range.fromDay;
    ClaimedOnce(Days(range), KeyOf(r), OnDay, k);
  }

  lemma {:induction false} ListedMeans(events: seq<string>, event: string)
    requires Distinct(events)
    ensures Distinct(Listed(events, event))
    ensures forall e :: e in Listed(events, event) <==> e in events && (event == "" || e == event)
    decreases |events|
  {
    if events != [] {
      var rest, last := events[..|events| - 1], events[|events| - 1];
      assert events == rest + [last];
      ListedMeans(rest, event);
      assert last !in rest;
      assert forall i :: 0 <= i < |Listed(rest, event)| ==> Listed(rest, event)[i] in Listed(rest, event);
    }
  }

  lemma {:induction false} OneEventEach(r: Raw, range: Range, events: seq<string>)
    requires InRange(r, range) && Distinct(events) && r.event in events
    ensures Claims(Listed(events, range.event), KeyOf(r), OfEvent) == 1
  {
    ListedMeans(events, range.event);
    var listed := Listed(events, range.event);
    var k :| 0 <= k < |listed| && listed[k] == r.event;
    ClaimedOnce(listed, KeyOf(r), OfEvent, k);
  }

  /** The daily rows add up to the summary, and so do the rows of the events. */
  lemma {:induction false} ViewsAgree(report: Report, range: Range, events: seq<string>, table: seq<Raw>)
    requires range.fromDay <= range.toDay && Distinct(events)
    requires forall i :: 0 <= i < |Source(table, range)| ==> Source(table, range)[i].event in events
    requires Faithful(report, Source(table, range), range, events)
    ensures AddUp(report.daily) == report.summary && AddUp(report.byEvent) == report.summary
  {
    var raws := Source(table, range);
    SourceIsInRange(table, range);
    forall i | 0 <= i < |raws| ensures Claims(Days(range), KeyOf(raws[i]), OnDay) == 1 { OneDayEach(raws[i], range); }
    ViewAddsUp(Days(range), report.daily, raws, OnDay);
    forall i | 0 <= i < |raws| ensures Claims(Listed(events, range.event), KeyOf(raws[i]), OfEvent) == 1 { OneEventEach(raws[i], range, events); }
    ViewAddsUp(report.events, report.byEvent, raws, OfEvent);
  }
}
