/** The attendance report: tickets grouped by the database by tier and snapshot gate, added up by category, by gate and
    in all, beside the stock of the tiers.  Categories and gates are two splits of the same tickets and the same stock. */
module AttendanceReport {
  import opened Options
  import opened Grouping
  import Admission

  /** An issued ticket as the report's query sees it. */
  datatype Raw = Raw(tier: nat, gate: string, eligible: bool, held: bool, checkedIn: bool)

  datatype Key = Key(tier: nat, gate: string)

  datatype Counts = Counts(issued: int, eligible: int, held: int, checkedIn: int, eligibleIn: int)

  /** A row of the aggregate; `tierName` and `tierGate` are those of the tier, when it still belongs to the event. */
  datatype Group = Group(key: Key, tierName: string, tierGate: string, counts: Counts)

  datatype Tier = Tier(id: nat, name: string, gate: string, capacity: int, available: int)

  // ---------------------------------------------------------------- measures

  datatype Measure = Issued | Eligible | Held | CheckedIn | EligibleIn

  function Weigh(r: Raw, m: Measure): int {
    match m
    case Issued => 1
    case Eligible => if r.eligible then 1 else 0
    case Held => if r.held then 1 else 0
    case CheckedIn => if r.checkedIn then 1 else 0
    case EligibleIn => if r.checkedIn && r.eligible then 1 else 0
  }

  function Column(c: Counts, m: Measure): int {
    match m
    case Issued => c.issued
    case Eligible => c.eligible
    case Held => c.held
    case CheckedIn => c.checkedIn
    case EligibleIn => c.eligibleIn
  }

  function MeasuredRows(raws: seq<Raw>, m: Measure): seq<Entry<Key>> {
    seq(|raws|, i requires 0 <= i < |raws| => Entry(Key(raws[i].tier, raws[i].gate), Weigh(raws[i], m)))
  }

  function Measured(groups: seq<Group>, m: Measure): seq<Entry<Key>> {
    seq(|groups|, i requires 0 <= i < |groups| => Entry(groups[i].key, Column(groups[i].counts, m)))
  }

  /** SELECT tier, gate, COUNT(*), SUM(...), ... GROUP BY tier, gate. */
  ghost predicate IsGroupBy(groups: seq<Group>, raws: seq<Raw>) {
    forall m: Measure :: GroupedBy(Measured(groups, m), MeasuredRows(raws, m))
  }

  function Book(groups: seq<Group>, pick: Key -> bool): Counts {
    Counts(Total(Measured(groups, Issued), pick), Total(Measured(groups, Eligible), pick), Total(Measured(groups, Held), pick),
           Total(Measured(groups, CheckedIn), pick), Total(Measured(groups, EligibleIn), pick))
  }

  /** What the tickets alone amount to, as far as they are picked. */
  function Direct(raws: seq<Raw>, pick: Key -> bool): Counts {
    Counts(Total(MeasuredRows(raws, Issued), pick), Total(MeasuredRows(raws, Eligible), pick), Total(MeasuredRows(raws, Held), pick),
           Total(MeasuredRows(raws, CheckedIn), pick), Total(MeasuredRows(raws, EligibleIn), pick))
  }

  lemma BookIsDirect(groups: seq<Group>, raws: seq<Raw>, pick: Key -> bool)
    requires IsGroupBy(groups, raws)
    ensures Book(groups, pick) == Direct(raws, pick)
  {
    GroupsKeepTotals(Measured(groups, Issued), MeasuredRows(raws, Issued), pick);
    GroupsKeepTotals(Measured(groups, Eligible), MeasuredRows(raws, Eligible), pick);
    GroupsKeepTotals(Measured(groups, Held), MeasuredRows(raws, Held), pick);
    GroupsKeepTotals(Measured(groups, CheckedIn), MeasuredRows(raws, CheckedIn), pick);
    GroupsKeepTotals(Measured(groups, EligibleIn), MeasuredRows(raws, EligibleIn), pick);
  }

  function Plus(a: Counts, b: Counts): Counts {
    Counts(a.issued + b.issued, a.eligible + b.eligible, a.held + b.held, a.checkedIn + b.checkedIn, a.eligibleIn + b.eligibleIn)
  }

  const Nobody := Counts(0, 0, 0, 0, 0)

  predicate GrowsBy(groups: seq<Group>, k: nat, pick: Key -> bool)
    requires k < |groups|
  {
    Book(groups[..k + 1], pick) == if pick(groups[k].key) then Plus(Book(groups[..k], pick), groups[k].counts) else Book(groups[..k], pick)
  }

  lemma MeasuredOneMore(groups: seq<Group>, k: nat, m: Measure, pick: Key -> bool)
    requires k < |groups|
    ensures Total(Measured(groups[..k + 1], m), pick)
         == Total(Measured(groups[..k], m), pick) + (if pick(groups[k].key) then Column(groups[k].counts, m) else 0)
  {
    assert Measured(groups[..k + 1], m)[..k] == Measured(groups[..k], m);
  }

  lemma BookOneMore(groups: seq<Group>, k: nat, pick: Key -> bool)
    requires k < |groups|
    ensures GrowsBy(groups, k, pick)
  {
    MeasuredOneMore(groups, k, Issued, pick);
    MeasuredOneMore(groups, k, Eligible, pick);
    MeasuredOneMore(groups, k, Held, pick);
    MeasuredOneMore(groups, k, CheckedIn, pick);
    MeasuredOneMore(groups, k, EligibleIn, pick);
  }

  function OfTier(tier: nat): Key -> bool {
    (k: Key) => k.tier == tier
  }

  function OfGate(gate: string): Key -> bool {
    (k: Key) => k.gate == gate
  }

  // ---------------------------------------------------------------- accumulators

  /** A category in the making: a tier of the event, or one that only tickets know. */
  datatype Category = Category(name: string, gate: string, capacity: int, available: int, counts: Counts)

  /** A gate in the making; its label is null when only tickets without a gate have it. */
  datatype Gate = Gate(gateLabel: Option<string>, capacity: int, available: int, counts: Counts)

  function CountsOfTier(categories: map<nat, Category>, tier: nat): Counts {
    if tier in categories then categories[tier].counts else Nobody
  }

  function CountsOfGate(gates: map<string, Gate>, gate: string): Counts {
    if gate in gates then gates[gate].counts else Nobody
  }

  predicate DistinctTiers(tiers: seq<Tier>) {
    forall i, j :: 0 <= i < j < |tiers| ==> tiers[i].id != tiers[j].id
  }

  predicate SameStock(c: Category, t: Tier) {
    c.gate == t.gate && c.capacity == t.capacity && c.available == t.available
  }

  /** A category has the stock of its tier, and none if the event has no such tier. */
  predicate Stocked(categories: map<nat, Category>, tiers: seq<Tier>) {
    && (forall i :: 0 <= i < |tiers| ==> tiers[i].id in categories && SameStock(categories[tiers[i].id], tiers[i]))
    && (forall id :: id in categories && (forall i :: 0 <= i < |tiers| ==> tiers[i].id != id) ==>
          categories[id].capacity == 0 && categories[id].available == 0)
  }

  function Fresh(t: Tier): Category {
    Category(t.name, t.gate, t.capacity, t.available, Nobody)
  }

  method ReadTiers(tiers: seq<Tier>) returns (categories: map<nat, Category>)
    requires DistinctTiers(tiers)
    ensures Stocked(categories, tiers)
    ensures forall id :: id in categories ==> categories[id].counts == Nobody
    ensures forall id :: id in categories ==> exists i :: 0 <= i < |tiers| && tiers[i].id == id
  {
    categories := map[];
    for k := 0 to |tiers|
      invariant forall i :: 0 <= i < k ==> tiers[i].id in categories && categories[tiers[i].id] == Fresh(tiers[i])
      invariant forall id :: id in categories ==> exists i :: 0 <= i < k && tiers[i].id == id
    {
      categories := categories[tiers[k].id := Fresh(tiers[k])];
    }
  }

  /** A group goes to its category, which is made for it if no tier has it, */
  function AddToCategory(categories: map<nat, Category>, g: Group): map<nat, Category> {
    var category := if g.key.tier in categories then categories[g.key.tier] else Category(g.tierName, g.tierGate, 0, 0, Nobody);
    categories[g.key.tier := category.(counts := Plus(category.counts, g.counts))]
  }

  /** and to its gate, likewise. */
  function AddToGate(gates: map<string, Gate>, g: Group): map<string, Gate> {
    var gate := if g.key.gate in gates then gates[g.key.gate] else Gate(if g.key.gate != "" then Some(g.key.gate) else None, 0, 0, Nobody);
    gates[g.key.gate := gate.(counts := Plus(gate.counts, g.counts))]
  }

  ghost predicate TiersBooked(categories: map<nat, Category>, groups: seq<Group>) {
    && (forall i :: 0 <= i < |groups| ==> groups[i].key.tier in categories)
    && (forall tier: nat :: CountsOfTier(categories, tier) == Book(groups, OfTier(tier)))
  }

  ghost predicate GatesBooked(gates: map<string, Gate>, groups: seq<Group>) {
    && (forall i :: 0 <= i < |groups| ==> groups[i].key.gate in gates)
    && (forall gate :: CountsOfGate(gates, gate) == Book(groups, OfGate(gate)))
    && (forall gate :: gate in gates ==> gates[gate].capacity == 0 && gates[gate].available == 0)
  }

  lemma TiersOneMore(categories: map<nat, Category>, groups: seq<Group>, k: nat)
    requires k < |groups| && TiersBooked(categories, groups[..k])
    ensures TiersBooked(AddToCategory(categories, groups[k]), groups[..k + 1])
  {
    var more := AddToCategory(categories, groups[k]);
    forall tier: nat ensures CountsOfTier(more, tier) == Book(groups[..k + 1], OfTier(tier)) {
      BookOneMore(groups, k, OfTier(tier));
      assert CountsOfTier(categories, tier) == Book(groups[..k], OfTier(tier));
    }
    var next := groups[..k + 1];
    forall i | 0 <= i < |next| ensures next[i].key.tier in more {
      if i < k { assert groups[..k][i].key.tier in categories; }
    }
  }

  lemma GatesOneMore(gates: map<string, Gate>, groups: seq<Group>, k: nat)
    requires k < |groups| && GatesBooked(gates, groups[..k])
    ensures GatesBooked(AddToGate(gates, groups[k]), groups[..k + 1])
  {
    var more := AddToGate(gates, groups[k]);
    forall gate ensures CountsOfGate(more, gate) == Book(groups[..k + 1], OfGate(gate)) {
      BookOneMore(groups, k, OfGate(gate));
      assert CountsOfGate(gates, gate) == Book(groups[..k], OfGate(gate));
    }
    var next := groups[..k + 1];
    forall i | 0 <= i < |next| ensures next[i].key.gate in more {
      if i < k { assert groups[..k][i].key.gate in gates; }
    }
  }

  lemma StockStays(categories: map<nat, Category>, tiers: seq<Tier>, g: Group)
    requires Stocked(categories, tiers)
    ensures Stocked(AddToCategory(categories, g), tiers)
  {
    var more := AddToCategory(categories, g);
    forall i | 0 <= i < |tiers| ensures tiers[i].id in more && SameStock(more[tiers[i].id], tiers[i]) {
      assert SameStock(categories[tiers[i].id], tiers[i]);
    }
  }

  /** The loop over the groups. */
  method AddGroups(tiers: seq<Tier>, start: map<nat, Category>, groups: seq<Group>)
      returns (categories: map<nat, Category>, gates: map<string, Gate>)
    requires Stocked(start, tiers) && forall id :: id in start ==> start[id].counts == Nobody
    ensures Stocked(categories, tiers) && TiersBooked(categories, groups) && GatesBooked(gates, groups)
  {
    categories, gates := start, map[];
    for k := 0 to |groups|
      invariant Stocked(categories, tiers) && TiersBooked(categories, groups[..k]) && GatesBooked(gates, groups[..k])
    {
      TiersOneMore(categories, groups, k);
      GatesOneMore(gates, groups, k);
      StockStays(categories, tiers, groups[k]);
      categories := AddToCategory(categories, groups[k]);
      gates := AddToGate(gates, groups[k]);
    }
    assert groups[..|groups|] == groups;
  }

  // ---------------------------------------------------------------- rates

  /** attendanceRate, exactly. */
  function Rate(checkedIn: int, eligible: int): Option<real> {
    if eligible == 0 then None else Some(checkedIn as real * 100.0 / eligible as real)
  }

  lemma RateIsAPercentage(checkedIn: int, eligible: int)
    requires 0 <= checkedIn <= eligible
    ensures Rate(checkedIn, eligible).None? <==> eligible == 0
    ensures Rate(checkedIn, eligible).Some? ==> 0.0 <= Rate(checkedIn, eligible).value <= 100.0
    ensures Rate(checkedIn, eligible).Some? ==> Rate(checkedIn, eligible).value * eligible as real == checkedIn as real * 100.0
  {
  }

  // ---------------------------------------------------------------- the report

  datatype Row = Row(capacity: int, available: int, counts: Counts, rate: Option<real>)
  datatype Report = Report(tierIds: seq<nat>, byCategory: seq<Row>, gates: seq<string>, byGate: seq<Row>, summary: Row)

  /** The stock of the tiers, and that of categories, by tier. */
  function TierStock(tiers: seq<Tier>, available: bool): seq<Entry<nat>> {
    seq(|tiers|, i requires 0 <= i < |tiers| => Entry(tiers[i].id, if available then tiers[i].available else tiers[i].capacity))
  }

  function CategoryStock(order: seq<nat>, categories: map<nat, Category>, available: bool): seq<Entry<nat>>
    requires forall i :: 0 <= i < |order| ==> order[i] in categories
  {
    seq(|order|, i requires 0 <= i < |order| =>
      Entry(order[i], if available then categories[order[i]].available else categories[order[i]].capacity))
  }

  /** The same by gate. */
  function GateStock(tiers: seq<Tier>, available: bool): seq<Entry<string>> {
    seq(|tiers|, i requires 0 <= i < |tiers| => Entry(tiers[i].gate, if available then tiers[i].available else tiers[i].capacity))
  }

  function AtGate(categories: map<nat, Category>, gate: string): nat -> bool {
    (id: nat) => id in categories && categories[id].gate == gate
  }

  predicate Distinct<T(==)>(s: seq<T>) {
    forall i, j :: 0 <= i < j < |s| ==> s[i] != s[j]
  }

  predicate Enumerates<T(==)>(order: seq<T>, keys: set<T>) {
    Distinct(order) && (set k | k in order) == keys
  }

  function Stock(t: Tier, available: bool): int {
    if available then t.available else t.capacity
  }

  function StockOf(tiers: seq<Tier>, id: nat, available: bool): int {
    if tiers == [] then 0
    else if tiers[|tiers| - 1].id == id then Stock(tiers[|tiers| - 1], available)
    else StockOf(tiers[..|tiers| - 1], id, available)
  }

  lemma {:induction false} StockOfTier(tiers: seq<Tier>, id: nat, available: bool)
    requires DistinctTiers(tiers)
    ensures Total(TierStock(tiers, available), Is<nat>(id)) == StockOf(tiers, id, available)
    decreases |tiers|
  {
    if tiers != [] {
      var rest, last := tiers[..|tiers| - 1], tiers[|tiers| - 1];
      StockOfTier(rest, id, available);
      assert TierStock(tiers, available)[..|tiers| - 1] == TierStock(rest, available);
      if last.id == id { NoStock(rest, id, available); }
    }
  }

  lemma {:induction false} NoStock(tiers: seq<Tier>, id: nat, available: bool)
    requires forall i :: 0 <= i < |tiers| ==> tiers[i].id != id
    ensures StockOf(tiers, id, available) == 0
    decreases |tiers|
  {
    if tiers != [] { NoStock(tiers[..|tiers| - 1], id, available); }
  }

  lemma {:induction false} StockAt(tiers: seq<Tier>, i: nat, available: bool)
    requires DistinctTiers(tiers) && i < |tiers|
    ensures StockOf(tiers, tiers[i].id, available) == Stock(tiers[i], available)
    decreases |tiers|
  {
    if i < |tiers| - 1 { StockAt(tiers[..|tiers| - 1], i, available); }
  }

  lemma {:induction false} StockOfCategory(categories: map<nat, Category>, tiers: seq<Tier>, id: nat)
    requires DistinctTiers(tiers) && Stocked(categories, tiers) && id in categories
    ensures categories[id].capacity == StockOf(tiers, id, false) && categories[id].available == StockOf(tiers, id, true)
  {
    if i :| 0 <= i < |tiers| && tiers[i].id == id {
      assert SameStock(categories[id], tiers[i]);
      StockAt(tiers, i, false);
      StockAt(tiers, i, true);
    } else {
      NoStock(tiers, id, false);
      NoStock(tiers, id, true);
    }
  }

  /** Seen by tier, the categories have the stock of the tiers, each tier once. */
  lemma CategoriesGroupStock(order: seq<nat>, categories: map<nat, Category>, tiers: seq<Tier>, available: bool)
    requires DistinctTiers(tiers) && Stocked(categories, tiers) && Enumerates(order, categories.Keys)
    ensures forall i :: 0 <= i < |order| ==> order[i] in categories
    ensures GroupedBy(CategoryStock(order, categories, available), TierStock(tiers, available))
  {
    assert forall i :: 0 <= i < |order| ==> order[i] in (set k | k in order);
    var groups, rows := CategoryStock(order, categories, available), TierStock(tiers, available);
    forall i | 0 <= i < |groups| ensures groups[i].weight == Total(rows, Is(groups[i].key)) {
      StockOfCategory(categories, tiers, order[i]);
      StockOfTier(tiers, order[i], available);
    }
    forall i | 0 <= i < |rows| ensures HasKey(groups, rows[i].key) {
      assert SameStock(categories[tiers[i].id], tiers[i]);
      assert tiers[i].id in order;
      var k :| 0 <= k < |order| && order[k] == tiers[i].id;
      assert groups[k].key == rows[i].key;
    }
  }

  lemma {:induction false} StockByGate(tiers: seq<Tier>, categories: map<nat, Category>, gate: string, available: bool)
    requires forall i :: 0 <= i < |tiers| ==> tiers[i].id in categories && categories[tiers[i].id].gate == tiers[i].gate
    ensures Total(TierStock(tiers, available), AtGate(categories, gate)) == Total(GateStock(tiers, available), Is(gate))
    ensures Total(TierStock(tiers, available), All()) == Total(GateStock(tiers, available), All())
    decreases |tiers|
  {
    if tiers != [] {
      var rest := tiers[..|tiers| - 1];
      StockByGate(rest, categories, gate, available);
      assert TierStock(tiers, available)[..|tiers| - 1] == TierStock(rest, available);
      assert GateStock(tiers, available)[..|tiers| - 1] == GateStock(rest, available);
    }
  }

  // ---------------------------------------------------------------- the loop over the categories

  /** A category's stock goes to its gate, which is made for it if no ticket has it. */
  function AddStock(gates: map<string, Gate>, c: Category): map<string, Gate> {
    var gate := if c.gate in gates then gates[c.gate] else Gate(Some(c.gate), 0, 0, Nobody);
    gates[c.gate := gate.(capacity := gate.capacity + c.capacity, available := gate.available + c.available)]
  }

  function StockAtGate(gates: map<string, Gate>, gate: string, available: bool): int {
    if gate !in gates then 0 else if available then gates[gate].available else gates[gate].capacity
  }

  predicate Known(order: seq<nat>, categories: map<nat, Category>) {
    forall i :: 0 <= i < |order| ==> order[i] in categories
  }

  /** After the categories of `order`: the gates have their stock, and still the counts of the tickets. */
  ghost predicate GatesStocked(gates: map<string, Gate>, counted: map<string, Gate>, order: seq<nat>, categories: map<nat, Category>)
    requires Known(order, categories)
  {
    && counted.Keys <= gates.Keys
    && (forall gate :: CountsOfGate(gates, gate) == CountsOfGate(counted, gate))
    && (forall i :: 0 <= i < |order| ==> categories[order[i]].gate in gates)
    && (forall gate, available: bool :: StockAtGate(gates, gate, available)
          == Total(CategoryStock(order, categories, available), AtGate(categories, gate)))
  }

  lemma StockOneMore(gates: map<string, Gate>, counted: map<string, Gate>, order: seq<nat>, k: nat, categories: map<nat, Category>)
    requires k < |order| && Known(order, categories) && GatesStocked(gates, counted, order[..k], categories)
    ensures GatesStocked(AddStock(gates, categories[order[k]]), counted, order[..k + 1], categories)
  {
    var more := AddStock(gates, categories[order[k]]);
    forall gate, available: bool
      ensures StockAtGate(more, gate, available) == Total(CategoryStock(order[..k + 1], categories, available), AtGate(categories, gate))
    {
      assert StockAtGate(gates, gate, available) == Total(CategoryStock(order[..k], categories, available), AtGate(categories, gate));
      assert CategoryStock(order[..k + 1], categories, available)[..k] == CategoryStock(order[..k], categories, available);
    }
    forall gate ensures CountsOfGate(more, gate) == CountsOfGate(counted, gate) {
      assert CountsOfGate(gates, gate) == CountsOfGate(counted, gate);
    }
    var next := order[..k + 1];
    forall i | 0 <= i < |next| ensures categories[next[i]].gate in more {
      if i < k { assert categories[order[..k][i]].gate in gates; }
    }
  }

  function RowOf(capacity: int, available: int, counts: Counts): Row {
    Row(capacity, available, counts, Rate(counts.eligibleIn, counts.eligible))
  }

  /** The rows of the categories, and the sum over them. */
  function SumRows(rows: seq<Row>): Row {
    if rows == [] then Row(0, 0, Nobody, None)
    else
      var sum, last := SumRows(rows[..|rows| - 1]), rows[|rows| - 1];
      Row(sum.capacity + last.capacity, sum.available + last.available, Plus(sum.counts, last.counts), None)
  }

  function RowsOf(order: seq<nat>, categories: map<nat, Category>): seq<Row>
    requires Known(order, categories)
  {
    seq(|order|, i requires 0 <= i < |order| =>
      RowOf(categories[order[i]].capacity, categories[order[i]].available, categories[order[i]].counts))
  }

  function GateRowsOf(names: seq<string>, gates: map<string, Gate>): seq<Row>
    requires forall i :: 0 <= i < |names| ==> names[i] in gates
  {
    seq(|names|, i requires 0 <= i < |names| => RowOf(gates[names[i]].capacity, gates[names[i]].available, gates[names[i]].counts))
  }

  /** The keys of a map in some order. */
  method KeysOf<K(==), V>(m: map<K, V>) returns (order: seq<K>)
    ensures Enumerates(order, m.Keys) && forall i :: 0 <= i < |order| ==> order[i] in m
  {
    order := [];
    var todo := m.Keys;
    while todo != {}
      invariant todo <= m.Keys && Enumerates(order, m.Keys - todo)
      invariant forall i :: 0 <= i < |order| ==> order[i] in m && order[i] !in todo
      decreases |todo|
    {
      var key :| key in todo;
      assert (set k | k in order + [key]) == (set k | k in order) + {key};
      assert m.Keys - (todo - {key}) == (m.Keys - todo) + {key};
      todo := todo - {key};
      order := order + [key];
    }
  }

  lemma RowsOneMore(order: seq<nat>, k: nat, categories: map<nat, Category>)
    requires k < |order| && Known(order, categories)
    ensures var rows, c := RowsOf(order[..k], categories), categories[order[k]];
      var more, sum := rows + [RowOf(c.capacity, c.available, c.counts)], SumRows(rows);
      && RowsOf(order[..k + 1], categories) == more
      && SumRows(more) == Row(sum.capacity + c.capacity, sum.available + c.available, Plus(sum.counts, c.counts), None)
  {
    var rows, c := RowsOf(order[..k], categories), categories[order[k]];
    var more := rows + [RowOf(c.capacity, c.available, c.counts)];
    assert more[..k] == rows;
    assert RowsOf(order[..k + 1], categories) == more;
  }

  method Summarize(tiers: seq<Tier>, categories: map<nat, Category>, counted: map<string, Gate>)
      returns (order: seq<nat>, rows: seq<Row>, gates: map<string, Gate>, summary: Row)
    requires forall gate :: gate in counted ==> counted[gate].capacity == 0 && counted[gate].available == 0
    ensures Enumerates(order, categories.Keys) && Known(order, categories) && rows == RowsOf(order, categories)
    ensures GatesStocked(gates, counted, order, categories)
    ensures summary == var sum := SumRows(rows); RowOf(sum.capacity, sum.available, sum.counts)
  {
    order := KeysOf(categories);
    rows, gates := [], counted;
    var capacity, available, counts := 0, 0, Nobody;
    for k := 0 to |order|
      invariant rows == RowsOf(order[..k], categories)
      invariant GatesStocked(gates, counted, order[..k], categories)
      invariant SumRows(rows) == Row(capacity, available, counts, None)
    {
      StockOneMore(gates, counted, order, k, categories);
      var c := categories[order[k]];
      gates := AddStock(gates, c);
      RowsOneMore(order, k, categories);
      rows := rows + [RowOf(c.capacity, c.available, c.counts)];
      capacity, available, counts := capacity + c.capacity, available + c.available, Plus(counts, c.counts);
    }
    assert order[..|order|] == order;
    summary := RowOf(capacity, available, counts);
  }

  // ---------------------------------------------------------------- sums of rows

  function CountColumn(rows: seq<Row>, m: Measure): seq<int> {
    seq(|rows|, i requires 0 <= i < |rows| => Column(rows[i].counts, m))
  }

  function StockColumn(rows: seq<Row>, available: bool): seq<int> {
    seq(|rows|, i requires 0 <= i < |rows| => if available then rows[i].available else rows[i].capacity)
  }

  lemma {:induction false} SumRowsByColumn(rows: seq<Row>, m: Measure)
    ensures Column(SumRows(rows).counts, m) == Sum(CountColumn(rows, m))
    decreases |rows|
  {
    if rows != [] {
      SumRowsByColumn(rows[..|rows| - 1], m);
      assert CountColumn(rows, m)[..|rows| - 1] == CountColumn(rows[..|rows| - 1], m);
    }
  }

  lemma {:induction false} SumRowsStock(rows: seq<Row>)
    ensures SumRows(rows).capacity == Sum(StockColumn(rows, false)) && SumRows(rows).available == Sum(StockColumn(rows, true))
    decreases |rows|
  {
    if rows != [] {
      SumRowsStock(rows[..|rows| - 1]);
      assert StockColumn(rows, false)[..|rows| - 1] == StockColumn(rows[..|rows| - 1], false);
      assert StockColumn(rows, true)[..|rows| - 1] == StockColumn(rows[..|rows| - 1], true);
    }
  }

  lemma {:induction false} MeasureAddsUp<L>(labels: seq<L>, rows: seq<Row>, raws: seq<Raw>, part: L -> (Key -> bool), m: Measure)
    requires |rows| == |labels|
    requires forall i :: 0 <= i < |labels| ==> Column(rows[i].counts, m) == Total(MeasuredRows(raws, m), part(labels[i]))
    requires forall i :: 0 <= i < |raws| ==> Claims(labels, Key(raws[i].tier, raws[i].gate), part) == 1
    ensures Column(SumRows(rows).counts, m) == Total(MeasuredRows(raws, m), All())
  {
    SumRowsByColumn(rows, m);
    SumIsSumOver(labels, CountColumn(rows, m), MeasuredRows(raws, m), part);
    PartsAddUp(labels, MeasuredRows(raws, m), part);
  }

  /** Rows that split the tickets by a label add up to all tickets. */
  lemma {:induction false} ViewAddsUp<L>(labels: seq<L>, rows: seq<Row>, raws: seq<Raw>, part: L -> (Key -> bool))
    requires |rows| == |labels| && forall i :: 0 <= i < |labels| ==> rows[i].counts == Direct(raws, part(labels[i]))
    requires forall i :: 0 <= i < |raws| ==> Claims(labels, Key(raws[i].tier, raws[i].gate), part) == 1
    ensures SumRows(rows).counts == Direct(raws, All())
  {
    MeasureAddsUp(labels, rows, raws, part, Issued);
    MeasureAddsUp(labels, rows, raws, part, Eligible);
    MeasureAddsUp(labels, rows, raws, part, Held);
    MeasureAddsUp(labels, rows, raws, part, CheckedIn);
    MeasureAddsUp(labels, rows, raws, part, EligibleIn);
  }

  lemma {:induction false} ClaimedByTier(order: seq<nat>, key: Key)
    requires Distinct(order) && key.tier in order
    ensures Claims(order, key, OfTier) == 1
  {
    var k :| 0 <= k < |order| && order[k] == key.tier;
    ClaimedOnce(order, key, OfTier, k);
  }

  lemma {:induction false} ClaimedByGate(names: seq<string>, key: Key)
    requires Distinct(names) && key.gate in names
    ensures Claims(names, key, OfGate) == 1
  {
    var k :| 0 <= k < |names| && names[k] == key.gate;
    ClaimedOnce(names, key, OfGate, k);
  }

  lemma {:induction false} StockColumnIsTotal(order: seq<nat>, categories: map<nat, Category>, available: bool)
    requires Known(order, categories)
    ensures Sum(StockColumn(RowsOf(order, categories), available)) == Total(CategoryStock(order, categories, available), All())
    decreases |order|
  {
    if order != [] {
      var rest := order[..|order| - 1];
      StockColumnIsTotal(rest, categories, available);
      assert StockColumn(RowsOf(order, categories), available)[..|order| - 1] == StockColumn(RowsOf(rest, categories), available);
      assert CategoryStock(order, categories, available)[..|order| - 1] == CategoryStock(rest, categories, available);
    }
  }

  // ---------------------------------------------------------------- the whole report

  /** The row of a label, from the tickets and the tiers alone. */
  function CategoryRow(tiers: seq<Tier>, raws: seq<Raw>, id: nat): Row {
    RowOf(StockOf(tiers, id, false), StockOf(tiers, id, true), Direct(raws, OfTier(id)))
  }

  function GateRow(tiers: seq<Tier>, raws: seq<Raw>, gate: string): Row {
    RowOf(Total(GateStock(tiers, false), Is(gate)), Total(GateStock(tiers, true), Is(gate)), Direct(raws, OfGate(gate)))
  }

  function SummaryRow(tiers: seq<Tier>, raws: seq<Raw>): Row {
    RowOf(Total(GateStock(tiers, false), All()), Total(GateStock(tiers, true), All()), Direct(raws, All()))
  }

  predicate Covers(r: Report, tiers: seq<Tier>, raws: seq<Raw>) {
    && Distinct(r.tierIds) && Distinct(r.gates)
    && (forall i :: 0 <= i < |raws| ==> raws[i].tier in r.tierIds && raws[i].gate in r.gates)
    && (forall i :: 0 <= i < |tiers| ==> tiers[i].id in r.tierIds && tiers[i].gate in r.gates)
  }

  /** Every row is what the tickets and the tiers amount to, and no ticket and no tier is left out. */
  predicate Faithful(r: Report, tiers: seq<Tier>, raws: seq<Raw>) {
    && Covers(r, tiers, raws)
    && |r.byCategory| == |r.tierIds| && (forall i :: 0 <= i < |r.tierIds| ==> r.byCategory[i] == CategoryRow(tiers, raws, r.tierIds[i]))
    && |r.byGate| == |r.gates| && (forall i :: 0 <= i < |r.gates| ==> r.byGate[i] == GateRow(tiers, raws, r.gates[i]))
    && r.summary == SummaryRow(tiers, raws)
  }

  lemma GroupOfRow(groups: seq<Group>, raws: seq<Raw>, i: nat) returns (k: nat)
    requires IsGroupBy(groups, raws) && i < |raws|
    ensures k < |groups| && groups[k].key == Key(raws[i].tier, raws[i].gate)
  {
    assert GroupedBy(Measured(groups, Issued), MeasuredRows(raws, Issued));
    assert HasKey(Measured(groups, Issued), MeasuredRows(raws, Issued)[i].key);
    k :| 0 <= k < |groups| && Measured(groups, Issued)[k].key == MeasuredRows(raws, Issued)[i].key;
  }

  lemma CategoryRowsAreDirect(order: seq<nat>, categories: map<nat, Category>, groups: seq<Group>, tiers: seq<Tier>, raws: seq<Raw>, i: nat)
    requires DistinctTiers(tiers) && IsGroupBy(groups, raws) && Known(order, categories) && i < |order|
    requires Stocked(categories, tiers) && TiersBooked(categories, groups)
    ensures RowsOf(order, categories)[i] == CategoryRow(tiers, raws, order[i])
  {
    assert CountsOfTier(categories, order[i]) == Book(groups, OfTier(order[i]));
    BookIsDirect(groups, raws, OfTier(order[i]));
    StockOfCategory(categories, tiers, order[i]);
  }

  lemma GateRowsAreDirect(names: seq<string>, gates: map<string, Gate>, counted: map<string, Gate>, order: seq<nat>, categories: map<nat, Category>,
      groups: seq<Group>, tiers: seq<Tier>, raws: seq<Raw>, i: nat)
    requires DistinctTiers(tiers) && IsGroupBy(groups, raws) && Known(order, categories) && Enumerates(order, categories.Keys)
    requires Stocked(categories, tiers) && GatesBooked(counted, groups) && GatesStocked(gates, counted, order, categories)
    requires i < |names| && forall i :: 0 <= i < |names| ==> names[i] in gates
    ensures GateRowsOf(names, gates)[i] == GateRow(tiers, raws, names[i])
  {
    var gate := names[i];
    assert CountsOfGate(gates, gate) == CountsOfGate(counted, gate) == Book(groups, OfGate(gate));
    BookIsDirect(groups, raws, OfGate(gate));
    forall available: bool ensures StockAtGate(gates, gate, available) == Total(GateStock(tiers, available), Is(gate)) {
      assert StockAtGate(gates, gate, available) == Total(CategoryStock(order, categories, available), AtGate(categories, gate));
      CategoriesGroupStock(order, categories, tiers, available);
      GroupsKeepTotals(CategoryStock(order, categories, available), TierStock(tiers, available), AtGate(categories, gate));
      TiersAtTheirGates(categories, tiers);
      StockByGate(tiers, categories, gate, available);
    }
    assert StockAtGate(gates, gate, false) == gates[gate].capacity && StockAtGate(gates, gate, true) == gates[gate].available;
  }

  lemma TiersAtTheirGates(categories: map<nat, Category>, tiers: seq<Tier>)
    requires Stocked(categories, tiers)
    ensures forall i :: 0 <= i < |tiers| ==> tiers[i].id in categories && categories[tiers[i].id].gate == tiers[i].gate
  {
    forall i | 0 <= i < |tiers| ensures tiers[i].id in categories && categories[tiers[i].id].gate == tiers[i].gate {
      assert SameStock(categories[tiers[i].id], tiers[i]);
    }
  }

  lemma SummaryIsDirect(order: seq<nat>, categories: map<nat, Category>, groups: seq<Group>, tiers: seq<Tier>, raws: seq<Raw>)
    requires DistinctTiers(tiers) && IsGroupBy(groups, raws) && Known(order, categories) && Enumerates(order, categories.Keys)
    requires Stocked(categories, tiers) && TiersBooked(categories, groups)
    ensures var sum := SumRows(RowsOf(order, categories));
      RowOf(sum.capacity, sum.available, sum.counts) == SummaryRow(tiers, raws)
  {
    var rows := RowsOf(order, categories);
    forall i | 0 <= i < |order| ensures rows[i].counts == Direct(raws, OfTier(order[i])) {
      CategoryRowsAreDirect(order, categories, groups, tiers, raws, i);
    }
    forall i | 0 <= i < |raws| ensures Claims(order, Key(raws[i].tier, raws[i].gate), OfTier) == 1 {
      var k := GroupOfRow(groups, raws, i);
      assert groups[k].key.tier in (set k | k in order);
      ClaimedByTier(order, Key(raws[i].tier, raws[i].gate));
    }
    ViewAddsUp(order, rows, raws, OfTier);
    SumRowsStock(rows);
    TiersAtTheirGates(categories, tiers);
    forall available: bool ensures Sum(StockColumn(rows, available)) == Total(GateStock(tiers, available), All()) {
      StockColumnIsTotal(order, categories, available);
      CategoriesGroupStock(order, categories, tiers, available);
      GroupsKeepTotals(CategoryStock(order, categories, available), TierStock(tiers, available), All());
      StockByGate(tiers, categories, "", available);
    }
  }

  /** The report from the tiers of the event and the groups that the database returns for its tickets. */
  method Attendance(tiers: seq<Tier>, groups: seq<Group>, ghost raws: seq<Raw>) returns (r: Report)
    requires DistinctTiers(tiers) && IsGroupBy(groups, raws)
    ensures Faithful(r, tiers, raws)
  {
    var categories := ReadTiers(tiers);
    var counted;
    categories, counted := AddGroups(tiers, categories, groups);
    var order, rows, gates, summary := Summarize(tiers, categories, counted);
    var names := KeysOf(gates);
    var gateRows := [];
    for k := 0 to |names|
      invariant gateRows == GateRowsOf(names[..k], gates)
    {
      gateRows := gateRows + [RowOf(gates[names[k]].capacity, gates[names[k]].available, gates[names[k]].counts)];
      assert GateRowsOf(names[..k + 1], gates) == gateRows;
    }
    assert names[..|names|] == names;
    r := Report(order, rows, names, gateRows, summary);
    forall i | 0 <= i < |order| ensures rows[i] == CategoryRow(tiers, raws, order[i]) {
      CategoryRowsAreDirect(order, categories, groups, tiers, raws, i);
    }
    forall i | 0 <= i < |names| ensures gateRows[i] == GateRow(tiers, raws, names[i]) {
      GateRowsAreDirect(names, gates, counted, order, categories, groups, tiers, raws, i);
    }
    SummaryIsDirect(order, categories, groups, tiers, raws);
    CoversAll(r, tiers, groups, raws, categories, gates, counted);
  }

  lemma CoversAll(r: Report, tiers: seq<Tier>, groups: seq<Group>, raws: seq<Raw>, categories: map<nat, Category>, gates: map<string, Gate>, counted: map<string, Gate>)
    requires IsGroupBy(groups, raws) && Enumerates(r.tierIds, categories.Keys) && Enumerates(r.gates, gates.Keys)
    requires Known(r.tierIds, categories) && GatesStocked(gates, counted, r.tierIds, categories)
    requires Stocked(categories, tiers) && TiersBooked(categories, groups) && GatesBooked(counted, groups)
    ensures Covers(r, tiers, raws)
  {
    forall i | 0 <= i < |raws| ensures raws[i].tier in r.tierIds && raws[i].gate in r.gates {
      var k := GroupOfRow(groups, raws, i);
      assert groups[k].key.tier in (set k | k in r.tierIds) && groups[k].key.gate in (set k | k in r.gates);
    }
    forall i | 0 <= i < |tiers| ensures tiers[i].id in r.tierIds && tiers[i].gate in r.gates {
      assert SameStock(categories[tiers[i].id], tiers[i]);
      assert tiers[i].id in (set k | k in r.tierIds);
      var j :| 0 <= j < |r.tierIds| && r.tierIds[j] == tiers[i].id;
      assert categories[r.tierIds[j]].gate in (set k | k in r.gates);
    }
  }

  // ---------------------------------------------------------------- what a reader may rely on

  function OfName(gate: string): string -> bool {
    Is(gate)
  }

  function OfId(id: nat): nat -> bool {
    Is<nat>(id)
  }

  lemma GateStockAddsUp(r: Report, tiers: seq<Tier>, raws: seq<Raw>, available: bool)
    requires Faithful(r, tiers, raws)
    ensures Sum(StockColumn(r.byGate, available)) == Total(GateStock(tiers, available), All())
  {
    forall i | 0 <= i < |tiers| ensures Claims(r.gates, GateStock(tiers, available)[i].key, OfName) == 1 {
      var k :| 0 <= k < |r.gates| && r.gates[k] == tiers[i].gate;
      ClaimedOnce(r.gates, tiers[i].gate, OfName, k);
    }
    forall i | 0 <= i < |r.gates| ensures StockColumn(r.byGate, available)[i] == Total(GateStock(tiers, available), OfName(r.gates[i])) {
      assert r.byGate[i] == GateRow(tiers, raws, r.gates[i]);
    }
    SumIsSumOver(r.gates, StockColumn(r.byGate, available), GateStock(tiers, available), OfName);
    PartsAddUp(r.gates, GateStock(tiers, available), OfName);
  }

  lemma {:induction false} ClaimedById(ids: seq<nat>, id: nat)
    requires Distinct(ids) && id in ids
    ensures Claims(ids, id, OfId) == 1
  {
    var k :| 0 <= k < |ids| && ids[k] == id;
    ClaimedOnce(ids, id, OfId, k);
  }

  lemma CategoryRowStock(tiers: seq<Tier>, raws: seq<Raw>, id: nat, available: bool)
    requires DistinctTiers(tiers)
    ensures var row := CategoryRow(tiers, raws, id);
      (if available then row.available else row.capacity) == Total(TierStock(tiers, available), OfId(id))
  {
    StockOfTier(tiers, id, available);
  }

  lemma CategoryStockAddsUp(r: Report, tiers: seq<Tier>, raws: seq<Raw>, available: bool)
    requires DistinctTiers(tiers) && Faithful(r, tiers, raws)
    ensures Sum(StockColumn(r.byCategory, available)) == Total(TierStock(tiers, available), All())
  {
    forall i | 0 <= i < |tiers| ensures Claims(r.tierIds, TierStock(tiers, available)[i].key, OfId) == 1 {
      ClaimedById(r.tierIds, tiers[i].id);
    }
    forall i | 0 <= i < |r.tierIds| ensures StockColumn(r.byCategory, available)[i] == Total(TierStock(tiers, available), OfId(r.tierIds[i])) {
      assert r.byCategory[i] == CategoryRow(tiers, raws, r.tierIds[i]);
      CategoryRowStock(tiers, raws, r.tierIds[i], available);
    }
    SumIsSumOver(r.tierIds, StockColumn(r.byCategory, available), TierStock(tiers, available), OfId);
    PartsAddUp(r.tierIds, TierStock(tiers, available), OfId);
  }

  lemma {:induction false} StockEitherWay(tiers: seq<Tier>, available: bool)
    ensures Total(TierStock(tiers, available), All()) == Total(GateStock(tiers, available), All())
    decreases |tiers|
  {
    if tiers != [] {
      var rest := tiers[..|tiers| - 1];
      StockEitherWay(rest, available);
      assert TierStock(tiers, available)[..|tiers| - 1] == TierStock(rest, available);
      assert GateStock(tiers, available)[..|tiers| - 1] == GateStock(rest, available);
    }
  }

  /** The categories and the gates each add up to the summary: issued, eligible, held and checked-in tickets, capacity and
      available stock. */
  lemma ViewsAgree(r: Report, tiers: seq<Tier>, raws: seq<Raw>)
    requires DistinctTiers(tiers) && Faithful(r, tiers, raws)
    ensures SumRows(r.byCategory).counts == r.summary.counts && SumRows(r.byGate).counts == r.summary.counts
    ensures SumRows(r.byCategory).capacity == SumRows(r.byGate).capacity == r.summary.capacity
    ensures SumRows(r.byCategory).available == SumRows(r.byGate).available == r.summary.available
  {
    forall i | 0 <= i < |raws|
      ensures Claims(r.tierIds, Key(raws[i].tier, raws[i].gate), OfTier) == 1 && Claims(r.gates, Key(raws[i].tier, raws[i].gate), OfGate) == 1
    {
      ClaimedByTier(r.tierIds, Key(raws[i].tier, raws[i].gate));
      ClaimedByGate(r.gates, Key(raws[i].tier, raws[i].gate));
    }
    ViewAddsUp(r.tierIds, r.byCategory, raws, OfTier);
    ViewAddsUp(r.gates, r.byGate, raws, OfGate);
    SumRowsStock(r.byCategory);
    SumRowsStock(r.byGate);
    forall available: bool
      ensures Sum(StockColumn(r.byCategory, available)) == Sum(StockColumn(r.byGate, available)) == Total(GateStock(tiers, available), All())
    {
      CategoryStockAddsUp(r, tiers, raws, available);
      GateStockAddsUp(r, tiers, raws, available);
      StockEitherWay(tiers, available);
    }
  }

  lemma EligibleInBounds(raws: seq<Raw>, pick: Key -> bool)
    ensures 0 <= Direct(raws, pick).eligibleIn <= Direct(raws, pick).eligible <= Direct(raws, pick).issued
  {
    NonNegativeTotals(MeasuredRows(raws, EligibleIn), pick);
    SmallerTotals(MeasuredRows(raws, EligibleIn), MeasuredRows(raws, Eligible), pick);
    SmallerTotals(MeasuredRows(raws, Eligible), MeasuredRows(raws, Issued), pick);
  }

  predicate GoodRate(row: Row) {
    && (row.rate.None? <==> row.counts.eligible == 0)
    && (row.rate.Some? ==> 0.0 <= row.rate.value <= 100.0)
  }

  lemma GoodRowRate(capacity: int, available: int, raws: seq<Raw>, pick: Key -> bool)
    ensures GoodRate(RowOf(capacity, available, Direct(raws, pick)))
  {
    EligibleInBounds(raws, pick);
    RateIsAPercentage(Direct(raws, pick).eligibleIn, Direct(raws, pick).eligible);
  }

  /** Every rate of a report is null exactly when nobody is eligible, and otherwise lies between 0 and 100. */
  lemma RatesArePercentages(r: Report, tiers: seq<Tier>, raws: seq<Raw>)
    requires Faithful(r, tiers, raws)
    ensures GoodRate(r.summary)
    ensures forall i :: 0 <= i < |r.byCategory| ==> GoodRate(r.byCategory[i])
    ensures forall i :: 0 <= i < |r.byGate| ==> GoodRate(r.byGate[i])
  {
    GoodRowRate(r.summary.capacity, r.summary.available, raws, All());
    forall i | 0 <= i < |r.byCategory| ensures GoodRate(r.byCategory[i]) {
      GoodRowRate(r.byCategory[i].capacity, r.byCategory[i].available, raws, OfTier(r.tierIds[i]));
    }
    forall i | 0 <= i < |r.byGate| ensures GoodRate(r.byGate[i]) {
      GoodRowRate(r.byGate[i].capacity, r.byGate[i].available, raws, OfGate(r.gates[i]));
    }
  }

  /** Some member of staff works at the ticket's gate. */
  ghost predicate Staffed(db: Admission.Db, id: string)
    requires Admission.Sound(db) && id in db.tickets
  {
    exists p :: Admission.AtOwnGate(db, p, id)
  }

  /** Shown at its own gate, the ticket passes every check; the day and an earlier use are left aside. */
  ghost predicate Admitted(db: Admission.Db, id: string)
    requires Admission.Sound(db) && id in db.tickets
  {
    exists p, now :: Admission.AtOwnGate(db, p, id) && Admission.Enters(Admission.AnyDay(db), p, Admission.OwnRequest(db, id), now)
  }

  ghost function CountAdmitted(db: Admission.Db, ids: seq<string>): nat
    requires Admission.Sound(db) && forall i :: 0 <= i < |ids| ==> ids[i] in db.tickets
  {
    if ids == [] then 0 else CountAdmitted(db, ids[..|ids| - 1]) + (if Admitted(db, ids[|ids| - 1]) then 1 else 0)
  }

  lemma AdmittedIsEligible(db: Admission.Db, id: string)
    requires Admission.Sound(db) && id in db.tickets && Staffed(db, id)
    ensures Admitted(db, id) <==> Admission.Eligible(db, id)
  {
    var p :| Admission.AtOwnGate(db, p, id);
    Admission.EligibleIffEntersAnyDay(db, p, id, 0);
    if q, now :| Admission.AtOwnGate(db, q, id) && Admission.Enters(Admission.AnyDay(db), q, Admission.OwnRequest(db, id), now) {
      Admission.EligibleIffEntersAnyDay(db, q, id, now);
    }
  }

  ghost predicate Describes(db: Admission.Db, id: string, raw: Raw)
    requires Admission.Sound(db)
  {
    id in db.tickets && Staffed(db, id) && raw.eligible == Admission.Eligible(db, id)
  }

  lemma DescribedIsAdmitted(db: Admission.Db, id: string, raw: Raw)
    requires Admission.Sound(db) && Describes(db, id, raw)
    ensures id in db.tickets && Weigh(raw, Eligible) == (if Admitted(db, id) then 1 else 0)
  {
    AdmittedIsEligible(db, id);
  }

  lemma EligibleOneMore(raws: seq<Raw>)
    requires raws != []
    ensures Direct(raws, All()).eligible == Direct(raws[..|raws| - 1], All()).eligible + Weigh(raws[|raws| - 1], Eligible)
  {
    var n := |raws| - 1;
    assert MeasuredRows(raws, Eligible)[..n] == MeasuredRows(raws[..n], Eligible);
  }

  /** The tickets that the report counts as eligible are as many as check-in would admit, where every gate is staffed. */
  lemma {:induction false} EligibleAreAdmitted(db: Admission.Db, ids: seq<string>, raws: seq<Raw>)
    requires Admission.Sound(db) && |ids| == |raws|
    requires forall i :: 0 <= i < |ids| ==> ids[i] in db.tickets
    requires forall i :: 0 <= i < |ids| ==> Describes(db, ids[i], raws[i])
    ensures Direct(raws, All()).eligible == CountAdmitted(db, ids)
    decreases |ids|
  {
    if ids != [] {
      var n := |ids| - 1;
      EligibleAreAdmitted(db, ids[..n], raws[..n]);
      EligibleOneMore(raws);
      DescribedIsAdmitted(db, ids[n], raws[n]);
    }
  }
}
