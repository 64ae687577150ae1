/** The item loop of checkout: from the lines of a reservation and the attendees of a request to priced items, a
    subtotal and attendee rows, in 64-bit arithmetic that never wraps. */
module CheckoutItems {
  import opened Options
  import opened CheckoutRequest
  import opened Words

  /** A row of reservation_items with the slug and name of its tier. */
  datatype Line = Line(tierId: nat, slug: string, name: string, quantity: uint64, price: uint64)
  datatype Item = Item(line: Line, total: uint64)
  datatype AttendeeRow = AttendeeRow(tierId: nat, number: nat, name: string)

  function Cost(line: Line): nat {
    (line.quantity as int) * (line.price as int)
  }

  /** The exact price of the lines, with no bound on its size. */
  function ExactSum(lines: seq<Line>): nat {
    if lines == [] then 0 else ExactSum(lines[..|lines| - 1]) + Cost(lines[|lines| - 1])
  }

  lemma {:induction false} PrefixCostsLess(lines: seq<Line>, n: nat)
    requires n <= |lines|
    ensures ExactSum(lines[..n]) <= ExactSum(lines)
    ensures n < |lines| ==> ExactSum(lines[..n]) + Cost(lines[n]) <= ExactSum(lines)
    decreases |lines| - n
  {
    if n == |lines| {
      assert lines[..n] == lines;
    } else {
      PrefixCostsLess(lines, n + 1);
      assert lines[..n + 1][..n] == lines[..n];
    }
  }

  lemma TimesGrows(a: nat, b: nat, p: nat)
    requires a <= b
    ensures a * p <= b * p
  {
    assert b * p == a * p + (b - a) * p;
  }

  lemma QuotientGuard(q: nat, p: nat, m: nat)
    requires p > 0
    ensures q > m / p <==> q * p > m
  {
    var d := m / p;
    assert d * p <= m < d * p + p;
    if q > d {
      TimesGrows(d + 1, q, p);
      assert (d + 1) * p == d * p + p;
    } else {
      TimesGrows(q, d, p);
    }
  }

  lemma OverflowGuard(quantity: uint64, price: uint64)
    requires price > 0
    ensures quantity > MaxUint64 / price <==> (quantity as int) * (price as int) > MaxUint64 as int
  {
    QuotientGuard(quantity as int, price as int, MaxUint64 as int);
  }

  // ---------------------------------------------------------------- which requests fit which reservations

  predicate DistinctTiers(attendees: seq<Attendees>) {
    forall i, j :: 0 <= i < j < |attendees| ==> attendees[i].tier != attendees[j].tier
  }

  predicate GroupsOk(attendees: seq<Attendees>) {
    && (forall i :: 0 <= i < |attendees| ==> attendees[i].tier != "" && attendees[i].names != [])
    && DistinctTiers(attendees)
  }

  /** The line is priced, and some group names one attendee for each of its tickets. */
  predicate LineOk(line: Line, attendees: seq<Attendees>) {
    && line.price > 0 && line.quantity > 0
    && exists i :: 0 <= i < |attendees| && attendees[i].tier == line.slug && |attendees[i].names| == line.quantity as int
  }

  predicate Reserved(group: Attendees, lines: seq<Line>) {
    exists k :: 0 <= k < |lines| && lines[k].slug == group.tier
  }

  /** Attendee tiers are the reservation's tiers, names are counted by quantity, and the price fits in 64 bits. */
  predicate Acceptable(lines: seq<Line>, attendees: seq<Attendees>) {
    && GroupsOk(attendees)
    && lines != []
    && (forall k :: 0 <= k < |lines| ==> LineOk(lines[k], attendees))
    && (forall i :: 0 <= i < |attendees| ==> Reserved(attendees[i], lines))
    && ExactSum(lines) <= MaxUint64 as int
  }

  function Priced(lines: seq<Line>): seq<Item>
    requires forall k :: 0 <= k < |lines| ==> Cost(lines[k]) <= MaxUint64 as int
  {
    seq(|lines|, k requires 0 <= k < |lines| => Item(lines[k], Cost(lines[k]) as uint64))
  }

  lemma {:induction false} AcceptableLinesFit(lines: seq<Line>)
    requires ExactSum(lines) <= MaxUint64 as int
    ensures forall k :: 0 <= k < |lines| ==> Cost(lines[k]) <= MaxUint64 as int
  {
    forall k | 0 <= k < |lines| ensures Cost(lines[k]) <= MaxUint64 as int { PrefixCostsLess(lines, k); }
  }

  /** Nobody, when no group names the tier. */
  function NamesOf(attendees: seq<Attendees>, slug: string): seq<string> {
    if attendees == [] then []
    else if attendees[|attendees| - 1].tier == slug then attendees[|attendees| - 1].names
    else NamesOf(attendees[..|attendees| - 1], slug)
  }

  lemma {:induction false} NamesOfGroup(attendees: seq<Attendees>, i: nat)
    requires DistinctTiers(attendees) && i < |attendees|
    ensures NamesOf(attendees, attendees[i].tier) == attendees[i].names
    decreases |attendees|
  {
    if i < |attendees| - 1 { NamesOfGroup(attendees[..|attendees| - 1], i); }
  }

  lemma {:induction false} NamesOfStranger(attendees: seq<Attendees>, slug: string)
    requires forall i :: 0 <= i < |attendees| ==> attendees[i].tier != slug
    ensures NamesOf(attendees, slug) == []
    decreases |attendees|
  {
    if attendees != [] { NamesOfStranger(attendees[..|attendees| - 1], slug); }
  }

  /** The map of the loop looks the groups up. */
  ghost predicate Indexes(names: map<string, seq<string>>, attendees: seq<Attendees>) {
    && (forall i :: 0 <= i < |attendees| ==> attendees[i].tier in names && names[attendees[i].tier] == attendees[i].names)
    && (forall slug :: slug in names ==> exists i :: 0 <= i < |attendees| && attendees[i].tier == slug)
  }

  lemma IndexOneMore(attendees: seq<Attendees>, i: nat, names: map<string, seq<string>>)
    requires i < |attendees| && GroupsOk(attendees[..i]) && Indexes(names, attendees[..i])
    ensures GroupsOk(attendees[..i + 1]) <==> attendees[i].tier != "" && attendees[i].names != [] && attendees[i].tier !in names
    ensures attendees[i].tier !in names ==> Indexes(names[attendees[i].tier := attendees[i].names], attendees[..i + 1])
  {
    var more := attendees[..i + 1];
    assert more == attendees[..i] + [attendees[i]];
    if attendees[i].tier in names {
      var j :| 0 <= j < i && attendees[..i][j].tier == attendees[i].tier;
      assert more[j].tier == more[i].tier;
    } else {
      var after := names[attendees[i].tier := attendees[i].names];
      forall slug | slug in after ensures exists j :: 0 <= j < |more| && more[j].tier == slug {
        if slug in names {
          var j :| 0 <= j < i && attendees[..i][j].tier == slug;
          assert more[j].tier == slug;
        } else {
          assert more[i].tier == slug;
        }
      }
      forall j | 0 <= j < i ensures more[j].tier != attendees[i].tier {
        assert attendees[..i][j].tier in names;
      }
    }
  }

  lemma GroupsOkPrefix(attendees: seq<Attendees>, n: nat)
    requires n <= |attendees| && GroupsOk(attendees)
    ensures GroupsOk(attendees[..n])
  {
  }

  method IndexAttendees(attendees: seq<Attendees>) returns (r: Option<map<string, seq<string>>>)
    ensures r.Some? <==> GroupsOk(attendees)
    ensures r.Some? ==> Indexes(r.value, attendees)
  {
    var names: map<string, seq<string>> := map[];
    for i := 0 to |attendees|
      invariant GroupsOk(attendees[..i]) && Indexes(names, attendees[..i])
    {
      IndexOneMore(attendees, i, names);
      if attendees[i].tier == "" || |attendees[i].names| == 0 || attendees[i].tier in names {
        if GroupsOk(attendees) { GroupsOkPrefix(attendees, i + 1); }
        return None;
      }
      names := names[attendees[i].tier := attendees[i].names];
    }
    assert attendees[..|attendees|] == attendees;
    return Some(names);
  }

  /** One round: the guards in the order of the code.  With a price in range, the line passes them exactly when it is
      priced, its names are counted by its quantity, and the running subtotal still fits. */
  method TakeLine(line: Line, names: map<string, seq<string>>, subtotal: uint64, ghost attendees: seq<Attendees>) returns (r: Option<Item>)
    requires GroupsOk(attendees) && Indexes(names, attendees)
    ensures r.Some? <==> LineOk(line, attendees) && subtotal as int + Cost(line) <= MaxUint64 as int
    ensures r.Some? ==> line.slug in names && r.value.line == line && r.value.total as int == Cost(line)
  {
    if line.price == 0 || line.quantity == 0 {
      return None;
    }
    OverflowGuard(line.quantity, line.price);
    if line.quantity > MaxUint64 / line.price {
      return None;
    }
    var total := line.quantity * line.price;
    var given := if line.slug in names then names[line.slug] else [];
    assert LineOk(line, attendees) <==> |given| == line.quantity as int by {
      if LineOk(line, attendees) {
        var i :| 0 <= i < |attendees| && attendees[i].tier == line.slug && |attendees[i].names| == line.quantity as int;
        assert names[attendees[i].tier] == attendees[i].names;
      }
    }
    if |given| != line.quantity as int {
      return None;
    }
    if MaxUint64 - subtotal < total {
      return None;
    }
    return Some(Item(line, total));
  }

  datatype Basket = Basket(items: seq<Item>, subtotal: uint64, names: map<string, seq<string>>)

  /** The tiers seen among the lines so far. */
  ghost function Slugs(lines: seq<Line>): set<string> {
    set k | 0 <= k < |lines| :: lines[k].slug
  }

  /** Every line consumed a group, so as many tiers seen as groups given leaves no group over. */
  lemma SeenAllGroups(lines: seq<Line>, names: map<string, seq<string>>, attendees: seq<Attendees>)
    requires Indexes(names, attendees) && Slugs(lines) <= names.Keys
    ensures |Slugs(lines)| == |names.Keys| <==> forall i :: 0 <= i < |attendees| ==> Reserved(attendees[i], lines)
  {
    var seen := Slugs(lines);
    if |seen| == |names.Keys| {
      SubsetOfSameSize(seen, names.Keys);
      forall i | 0 <= i < |attendees| ensures Reserved(attendees[i], lines) {
        assert attendees[i].tier in seen;
      }
    }
    if forall i :: 0 <= i < |attendees| ==> Reserved(attendees[i], lines) {
      forall slug | slug in names.Keys ensures slug in seen {
        var i :| 0 <= i < |attendees| && attendees[i].tier == slug;
        assert Reserved(attendees[i], lines);
      }
      assert seen == names.Keys;
    }
  }

  lemma {:induction false} SubsetOfSameSize<T>(a: set<T>, b: set<T>)
    requires a <= b && |a| == |b|
    ensures a == b
    decreases |a|
  {
    if a != {} {
      var x :| x in a;
      SubsetOfSameSize(a - {x}, b - {x});
      assert a == a - {x} + {x} && b == b - {x} + {x};
    } else {
      assert b == {};
    }
  }

  /** The lines before k passed their rounds. */
  ghost predicate Taken(lines: seq<Line>, attendees: seq<Attendees>, k: nat, items: seq<Item>, subtotal: uint64)
    requires k <= |lines|
  {
    && |items| == k && subtotal as int == ExactSum(lines[..k])
    && (forall i :: 0 <= i < k ==> LineOk(lines[i], attendees))
    && (forall i :: 0 <= i < k ==> items[i].line == lines[i] && items[i].total as int == Cost(lines[i]))
  }

  lemma RejectedLine(lines: seq<Line>, attendees: seq<Attendees>, k: nat)
    requires k < |lines|
    requires !(LineOk(lines[k], attendees) && ExactSum(lines[..k]) + Cost(lines[k]) <= MaxUint64 as int)
    ensures !Acceptable(lines, attendees)
  {
    PrefixCostsLess(lines, k);
  }

  lemma TakenOneMore(lines: seq<Line>, attendees: seq<Attendees>, k: nat, items: seq<Item>, subtotal: uint64, item: Item)
    requires k < |lines| && Taken(lines, attendees, k, items, subtotal) && LineOk(lines[k], attendees)
    requires item.line == lines[k] && item.total as int == Cost(lines[k]) && subtotal as int + Cost(lines[k]) <= MaxUint64 as int
    ensures Taken(lines, attendees, k + 1, items + [item], subtotal + item.total)
  {
    assert lines[..k + 1][..k] == lines[..k];
  }

  lemma SlugsOneMore(lines: seq<Line>, k: nat)
    requires k < |lines|
    ensures Slugs(lines[..k + 1]) == Slugs(lines[..k]) + {lines[k].slug}
  {
    assert forall i :: 0 <= i < k ==> lines[..k + 1][i] == lines[..k][i];
    assert lines[..k + 1][k] == lines[k];
  }

  lemma {:induction false} TakenAll(lines: seq<Line>, attendees: seq<Attendees>, names: map<string, seq<string>>, items: seq<Item>, subtotal: uint64)
    requires GroupsOk(attendees) && Indexes(names, attendees) && Slugs(lines) <= names.Keys
    requires Taken(lines, attendees, |lines|, items, subtotal)
    ensures subtotal as int == ExactSum(lines)
    ensures Acceptable(lines, attendees) <==> lines != [] && |Slugs(lines)| == |names.Keys|
  {
    assert lines[..|lines|] == lines;
    SeenAllGroups(lines, names, attendees);
  }

  /** The item loop.  It succeeds exactly on the acceptable requests, and then the subtotal is the exact price. */
  method TakeItems(lines: seq<Line>, attendees: seq<Attendees>) returns (r: Option<Basket>)
    ensures r.Some? <==> Acceptable(lines, attendees)
    ensures r.Some? ==> Taken(lines, attendees, |lines|, r.value.items, r.value.subtotal)
    ensures r.Some? ==> r.value.subtotal as int == ExactSum(lines) && Indexes(r.value.names, attendees)
  {
    var index := IndexAttendees(attendees);
    if index.None? {
      return None;
    }
    var names := index.value;
    var items: seq<Item> := [];
    var subtotal: uint64 := 0;
    var seen: set<string> := {};
    for k := 0 to |lines|
      invariant Taken(lines, attendees, k, items, subtotal)
      invariant seen == Slugs(lines[..k]) && seen <= names.Keys
    {
      var taken := TakeLine(lines[k], names, subtotal, attendees);
      if taken.None? {
        RejectedLine(lines, attendees, k);
        return None;
      }
      TakenOneMore(lines, attendees, k, items, subtotal, taken.value);
      SlugsOneMore(lines, k);
      seen := seen + {lines[k].slug};
      subtotal := subtotal + taken.value.total;
      items := items + [taken.value];
    }
    assert lines[..|lines|] == lines;
    TakenAll(lines, attendees, names, items, subtotal);
    var adminFee: uint64 := 0;
    if |items| == 0 || MaxUint64 - subtotal < adminFee {
      return None;
    }
    if |seen| != |names.Keys| {
      return None;
    }
    return Some(Basket(items, subtotal, names));
  }

  // ---------------------------------------------------------------- the quote

  /** SELECT COALESCE(SUM(quantity * unit_price), 0), scanned into 64 bits. */
  function QuotedSubtotal(lines: seq<Line>): Option<uint64> {
    if ExactSum(lines) <= MaxUint64 as int then Some(ExactSum(lines) as uint64) else None
  }

  // ---------------------------------------------------------------- attendee rows

  function RowsOf(line: Line, names: seq<string>): seq<AttendeeRow> {
    seq(|names|, i requires 0 <= i < |names| => AttendeeRow(line.tierId, i + 1, names[i]))
  }

  function Rows(lines: seq<Line>, attendees: seq<Attendees>): seq<AttendeeRow> {
    if lines == [] then []
    else Rows(lines[..|lines| - 1], attendees) + RowsOf(lines[|lines| - 1], NamesOf(attendees, lines[|lines| - 1].slug))
  }

  method InsertAttendees(lines: seq<Line>, attendees: seq<Attendees>, names: map<string, seq<string>>) returns (rows: seq<AttendeeRow>)
    requires DistinctTiers(attendees) && Indexes(names, attendees)
    ensures rows == Rows(lines, attendees)
  {
    rows := [];
    for k := 0 to |lines|
      invariant rows == Rows(lines[..k], attendees)
    {
      var given := if lines[k].slug in names then names[lines[k].slug] else [];
      assert given == NamesOf(attendees, lines[k].slug) by { LookupIsNamesOf(attendees, names, lines[k].slug); }
      ghost var before := rows;
      for i := 0 to |given|
        invariant rows == before + RowsOf(lines[k], given)[..i]
      {
        rows := rows + [AttendeeRow(lines[k].tierId, i + 1, given[i])];
      }
      assert RowsOf(lines[k], given)[..|given|] == RowsOf(lines[k], given);
      assert lines[..k + 1][..k] == lines[..k];
    }
    assert lines[..|lines|] == lines;
  }

  lemma {:induction false} LookupIsNamesOf(attendees: seq<Attendees>, names: map<string, seq<string>>, slug: string)
    requires DistinctTiers(attendees) && Indexes(names, attendees)
    ensures NamesOf(attendees, slug) == if slug in names then names[slug] else []
  {
    if slug in names {
      var i :| 0 <= i < |attendees| && attendees[i].tier == slug;
      NamesOfGroup(attendees, i);
    } else {
      NamesOfStranger(attendees, slug);
    }
  }

  predicate DistinctTierIds(lines: seq<Line>) {
    forall i, j :: 0 <= i < j < |lines| ==> lines[i].tierId != lines[j].tierId
  }

  function Tickets(lines: seq<Line>): nat {
    if lines == [] then 0 else Tickets(lines[..|lines| - 1]) + lines[|lines| - 1].quantity as int
  }

  /** How many rows a tier and number have. */
  function CountRows(rows: seq<AttendeeRow>, tierId: nat, number: nat): nat {
    if rows == [] then 0
    else CountRows(rows[..|rows| - 1], tierId, number)
         + (if rows[|rows| - 1].tierId == tierId && rows[|rows| - 1].number == number then 1 else 0)
  }

  lemma {:induction false} CountRowsAppend(a: seq<AttendeeRow>, b: seq<AttendeeRow>, tierId: nat, number: nat)
    ensures CountRows(a + b, tierId, number) == CountRows(a, tierId, number) + CountRows(b, tierId, number)
    decreases |b|
  {
    if b == [] {
      assert a + b == a;
    } else {
      CountRowsAppend(a, b[..|b| - 1], tierId, number);
      assert (a + b)[..|a + b| - 1] == a + b[..|b| - 1];
    }
  }

  lemma {:induction false} CountRowsOf(line: Line, names: seq<string>, tierId: nat, number: nat)
    ensures CountRows(RowsOf(line, names), tierId, number) == if tierId == line.tierId && 1 <= number <= |names| then 1 else 0
    decreases |names|
  {
    if names != [] {
      CountRowsOf(line, names[..|names| - 1], tierId, number);
      assert RowsOf(line, names)[..|names| - 1] == RowsOf(line, names[..|names| - 1]);
    }
  }

  /** What Acceptable says of each line, without the existential. */
  predicate NamedInFull(lines: seq<Line>, attendees: seq<Attendees>) {
    forall k :: 0 <= k < |lines| ==> |NamesOf(attendees, lines[k].slug)| == lines[k].quantity as int
  }

  lemma AcceptableIsNamedInFull(lines: seq<Line>, attendees: seq<Attendees>)
    requires Acceptable(lines, attendees)
    ensures NamedInFull(lines, attendees)
  {
    forall k | 0 <= k < |lines| ensures |NamesOf(attendees, lines[k].slug)| == lines[k].quantity as int {
      assert LineOk(lines[k], attendees);
      var i :| 0 <= i < |attendees| && attendees[i].tier == lines[k].slug && |attendees[i].names| == lines[k].quantity as int;
      NamesOfGroup(attendees, i);
    }
  }

  /** Is there a ticket of this tier with this number? */
  predicate HasTicket(lines: seq<Line>, tierId: nat, number: nat) {
    exists k :: 0 <= k < |lines| && lines[k].tierId == tierId && 1 <= number <= lines[k].quantity as int
  }

  lemma HasTicketLast(lines: seq<Line>, tierId: nat, number: nat)
    requires lines != []
    ensures HasTicket(lines, tierId, number)
       <==> HasTicket(lines[..|lines| - 1], tierId, number)
            || (lines[|lines| - 1].tierId == tierId && 1 <= number <= lines[|lines| - 1].quantity as int)
  {
    if HasTicket(lines[..|lines| - 1], tierId, number) {
      var k :| 0 <= k < |lines| - 1 && lines[..|lines| - 1][k].tierId == tierId && 1 <= number <= lines[..|lines| - 1][k].quantity as int;
      assert lines[k].tierId == tierId;
    }
    if HasTicket(lines, tierId, number) {
      var k :| 0 <= k < |lines| && lines[k].tierId == tierId && 1 <= number <= lines[k].quantity as int;
      if k < |lines| - 1 { assert lines[..|lines| - 1][k].tierId == tierId; }
    }
  }

  /** The attendees of every tier are numbered from 1 to its quantity, each number once, and there are no others. */
  lemma {:induction false} NumberedWithoutGap(lines: seq<Line>, attendees: seq<Attendees>, tierId: nat, number: nat)
    requires NamedInFull(lines, attendees) && DistinctTierIds(lines)
    ensures |Rows(lines, attendees)| == Tickets(lines)
    ensures CountRows(Rows(lines, attendees), tierId, number) == if HasTicket(lines, tierId, number) then 1 else 0
    decreases |lines|
  {
    if lines != [] {
      var last, rest := lines[|lines| - 1], lines[..|lines| - 1];
      var names := NamesOf(attendees, last.slug);
      NumberedWithoutGap(rest, attendees, tierId, number);
      CountRowsAppend(Rows(rest, attendees), RowsOf(last, names), tierId, number);
      CountRowsOf(last, names, tierId, number);
      HasTicketLast(lines, tierId, number);
      if HasTicket(rest, tierId, number) {
        var k :| 0 <= k < |rest| && rest[k].tierId == tierId && 1 <= number <= rest[k].quantity as int;
        assert lines[k].tierId != last.tierId;
      }
    }
  }

  /** The row of number n of a tier bears the n-th name that the request gave for it. */
  lemma {:induction false} RowsBearTheNames(lines: seq<Line>, attendees: seq<Attendees>, row: AttendeeRow)
    requires row in Rows(lines, attendees)
    ensures exists k :: 0 <= k < |lines| && lines[k].tierId == row.tierId
              && 1 <= row.number <= |NamesOf(attendees, lines[k].slug)| && row.name == NamesOf(attendees, lines[k].slug)[row.number - 1]
    decreases |lines|
  {
    var last := lines[|lines| - 1];
    if row in Rows(lines[..|lines| - 1], attendees) {
      RowsBearTheNames(lines[..|lines| - 1], attendees, row);
      var k :| 0 <= k < |lines| - 1 && lines[..|lines| - 1][k].tierId == row.tierId
        && 1 <= row.number <= |NamesOf(attendees, lines[..|lines| - 1][k].slug)|
        && row.name == NamesOf(attendees, lines[..|lines| - 1][k].slug)[row.number - 1];
      assert lines[k].tierId == row.tierId;
    } else {
      assert row in RowsOf(last, NamesOf(attendees, last.slug));
    }
  }
}
