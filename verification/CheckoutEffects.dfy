/** What checkout accepts, answers and stores, told field by field. */
module CheckoutEffects {
  import opened Options
  import opened Text
  import opened CheckoutRequest
  import opened CheckoutItems
  import opened CheckoutOrders
  import opened Words

  // ---------------------------------------------------------------- the accepted request

  predicate Numerals(s: string, least: nat, most: nat) {
    least <= |s| <= most && forall i :: 0 <= i < |s| ==> '0' <= s[i] <= '9'
  }

  /** The first at sign, and a dot behind it. */
  predicate DotAt(email: string, i: int, j: int) {
    0 <= i < j < |email| && email[i] == '@' && '@' !in email[..i] && email[j] == '.'
  }

  /** A dot somewhere behind the first at sign. */
  predicate DotAfterAt(email: string) {
    exists i, j :: 0 <= i < j < |email| && DotAt(email, i, j)
  }

  predicate NameFits(name: string) {
    2 <= |Trim(name)| <= 80
  }

  predicate EmailFits(email: string, mailbox: string -> bool) {
    Bytes(Trim(email)) <= 254 && mailbox(Trim(email)) && DotAfterAt(Trim(email))
  }

  /** Nine to fifteen digits, with a plus in front or not. */
  predicate PhoneFits(phone: string) {
    var digits := Strip(Trim(phone));
    Numerals(digits, 9, 15) || (digits != "" && digits[0] == '+' && Numerals(digits[1..], 9, 15))
  }

  predicate IdentityFits(identity: string) {
    Trim(identity) == "" || Numerals(Trim(identity), 12, 20)
  }

  predicate GroupsFit(groups: seq<Attendees>) {
    forall i, j :: 0 <= i < |groups| && 0 <= j < |groups[i].names| ==> NameFits(groups[i].names[j])
  }

  /** Buyer and attendees are in order. */
  predicate PeopleFit(r: Request, mailbox: string -> bool) {
    && NameFits(r.buyer.name) && EmailFits(r.buyer.email, mailbox) && PhoneFits(r.buyer.phone) && IdentityFits(r.buyer.identity)
    && GroupsFit(r.attendees)
  }

  /** No voucher, or capitals, digits, and from the second place on underscores and hyphens, two to 32 in all. */
  predicate VoucherFits(voucher: string) {
    var code := Upper(Trim(voucher));
    code == "" || (2 <= |code| <= 32 && forall i :: 0 <= i < |code| ==>
      'A' <= code[i] <= 'Z' || '0' <= code[i] <= '9' || (i > 0 && (code[i] == '_' || code[i] == '-')))
  }

  /** The group as it is stored: its tier in lower case, its names in their order, all trimmed. */
  predicate CleanGroup(given: Attendees, clean: Attendees) {
    && clean.tier == Lower(Trim(given.tier)) && |clean.names| == |given.names|
    && forall j :: 0 <= j < |given.names| ==> clean.names[j] == Trim(given.names[j])
  }

  /** Every field of what is stored comes from the field that was sent. */
  predicate CleanForm(given: Request, clean: Request) {
    && clean.buyer.name == Trim(given.buyer.name) && clean.buyer.email == Trim(given.buyer.email)
    && clean.buyer.phone == Strip(Trim(given.buyer.phone)) && clean.buyer.identity == Trim(given.buyer.identity)
    && clean.voucher == Upper(Trim(given.voucher))
    && |clean.attendees| == |given.attendees|
    && forall i :: 0 <= i < |given.attendees| ==> CleanGroup(given.attendees[i], clean.attendees[i])
  }

  function Kept(c: char): string {
    if c == ' ' || c == '-' then "" else [c]
  }

  lemma {:induction false} StripConcat(a: string, b: string)
    ensures Strip(a + b) == Strip(a) + Strip(b)
    decreases |a|
  {
    if a == "" {
      assert a + b == b;
    } else {
      var whole := a + b;
      StripConcat(a[1..], b);
      assert whole[0] == a[0] && whole[1..] == a[1..] + b;
      var rest := Strip(a[1..]);
      assert Strip(whole) == Kept(a[0]) + Strip(whole[1..]);
      assert Strip(a) == Kept(a[0]) + rest;
      assert Kept(a[0]) + (rest + Strip(b)) == Kept(a[0]) + rest + Strip(b);
    }
  }

  /** Stripping takes out separators one by one and nothing else. */
  lemma {:induction false} StripDropsSeparators(a: string, c: char, b: string)
    ensures Strip(a + [c] + b) == Strip(a) + Kept(c) + Strip(b)
  {
    StripConcat(a + [c], b);
    StripConcat(a, [c]);
    assert Strip([c][1..]) == "";
  }

  lemma {:induction false} DigitBytes(s: string)
    requires AllDigits(s)
    ensures Bytes(s) == |s|
    decreases |s|
  {
    if s != "" { DigitBytes(s[1..]); }
  }

  lemma DotShifts(email: string, i: int, j: int)
    requires email != "" && email[0] != '@'
    ensures DotAt(email, i + 1, j + 1) <==> DotAt(email[1..], i, j)
  {
    if 0 <= i < |email| - 1 {
      assert email[..i + 1] == [email[0]] + email[1..][..i];
    } else if i == -1 {
      assert !DotAt(email, 0, j + 1);
    }
  }

  lemma {:induction false} DomainIsDotted(email: string)
    requires '@' in email
    ensures HasDottedDomain(email) <==> DotAfterAt(email)
    decreases |email|
  {
    var rest := email[1..];
    if email[0] == '@' {
      if j :| 0 <= j < |rest| && rest[j] == '.' { assert DotAt(email, 0, j + 1); }
      if i, j :| DotAt(email, i, j) { assert rest[j - 1] == '.'; }
    } else {
      DomainIsDotted(rest);
      if i, j :| DotAt(rest, i, j) { DotShifts(email, i, j); }
      if i, j :| DotAt(email, i, j) { DotShifts(email, i - 1, j - 1); }
    }
  }

  lemma {:induction false} PhoneMeans(phone: string)
    ensures PhoneOk(Strip(Trim(phone))) <==> PhoneFits(phone)
  {
    var p := Strip(Trim(phone));
    if AllDigits(WithoutPlus(p)) { DigitBytes(WithoutPlus(p)); }
  }

  lemma {:induction false} IdentityMeans(identity: string)
    ensures IdentityOk(Trim(identity)) <==> IdentityFits(identity)
  {
    if AllDigits(Trim(identity)) { DigitBytes(Trim(identity)); }
  }

  lemma {:induction false} EmailMeans(email: string, mailbox: string -> bool)
    requires ParsesAddresses(mailbox)
    ensures EmailOk(Trim(email), mailbox) <==> EmailFits(email, mailbox)
  {
    if mailbox(Trim(email)) { DomainIsDotted(Trim(email)); }
  }

  lemma NamesMean(groups: seq<Attendees>)
    ensures NamesOk(TrimAttendees(groups)) <==> GroupsFit(groups)
  {
    var clean := TrimAttendees(groups);
    assert forall i :: 0 <= i < |groups| ==> |clean[i].names| == |groups[i].names|;
    assert forall i, j :: 0 <= i < |groups| && 0 <= j < |groups[i].names| ==> clean[i].names[j] == Trim(groups[i].names[j]);
  }

  lemma CleanedIsClean(r: Request)
    ensures CleanForm(r, Cleaned(r))
  {
  }

  lemma PeopleMean(r: Request, mailbox: string -> bool)
    requires ParsesAddresses(mailbox)
    ensures var clean := Cleaned(r);
      PeopleFit(r, mailbox) <==>
        && NamesOk(clean.attendees) && NameOk(clean.buyer.name) && EmailOk(clean.buyer.email, mailbox)
        && PhoneOk(clean.buyer.phone) && IdentityOk(clean.buyer.identity)
  {
    PhoneMeans(r.buyer.phone);
    IdentityMeans(r.buyer.identity);
    EmailMeans(r.buyer.email, mailbox);
    NamesMean(r.attendees);
  }

  /** A request is accepted exactly if all its fields are in order, with every field in its clean form; a voucher alone
      out of order is told apart. */
  lemma ValidateAnswers(r: Request, mailbox: string -> bool)
    requires ParsesAddresses(mailbox)
    ensures var v := Normalized(r, mailbox);
      && (v.Valid? <==> PeopleFit(r, mailbox) && VoucherFits(r.voucher))
      && (v.InvalidVoucher? <==> PeopleFit(r, mailbox) && !VoucherFits(r.voucher))
      && (v.InvalidRequest? <==> !PeopleFit(r, mailbox))
      && (v.Valid? ==> CleanForm(r, v.request))
  {
    PeopleMean(r, mailbox);
    CleanedIsClean(r);
    assert VoucherFits(r.voucher) <==> Upper(Trim(r.voucher)) == "" || ValidCode(Upper(Trim(r.voucher)));
  }

  // ---------------------------------------------------------------- which groups fit which lines

  function Tiers(groups: seq<Attendees>): set<string> {
    set i | 0 <= i < |groups| :: groups[i].tier
  }

  function Slugs(lines: seq<Line>): set<string> {
    set k | 0 <= k < |lines| :: lines[k].slug
  }

  /** Groups and lines are of the same tiers, one group to a tier, one name to a ticket. */
  predicate Covered(lines: seq<Line>, groups: seq<Attendees>) {
    && Tiers(groups) == Slugs(lines)
    && (forall i, j :: 0 <= i < j < |groups| ==> groups[i].tier != groups[j].tier)
    && (forall k :: 0 <= k < |lines| ==> NamedFor(lines[k], groups))
  }

  predicate NamedFor(line: Line, groups: seq<Attendees>) {
    forall i :: 0 <= i < |groups| && groups[i].tier == line.slug ==> |groups[i].names| == line.quantity as int
  }

  /** What checkout asks of a reservation's lines and the given attendees: lines at all, with prices and quantities, of
      named tiers, covered by the groups, at a sum that fits in 64 bits. */
  lemma {:induction false} AcceptableMeans(lines: seq<Line>, groups: seq<Attendees>)
    ensures Acceptable(lines, groups) <==>
      && lines != [] && "" !in Slugs(lines) && (forall k :: 0 <= k < |lines| ==> lines[k].price > 0 && lines[k].quantity > 0)
      && Covered(lines, groups) && ExactSum(lines) < 0x1_0000_0000_0000_0000
  {
    if Acceptable(lines, groups) { AcceptableIsCovered(lines, groups); }
    if Covered(lines, groups) && "" !in Slugs(lines) && forall k :: 0 <= k < |lines| ==> lines[k].price > 0 && lines[k].quantity > 0 {
      CoveredIsAcceptable(lines, groups);
    }
  }

  lemma OneGroupEach(groups: seq<Attendees>, i: nat, j: nat)
    requires DistinctTiers(groups) && i < |groups| && j < |groups| && groups[i].tier == groups[j].tier
    ensures i == j
  {
  }

  lemma LineIsCovered(line: Line, groups: seq<Attendees>)
    requires GroupsOk(groups) && LineOk(line, groups)
    ensures line.slug in Tiers(groups) && line.slug != "" && NamedFor(line, groups)
  {
    var j :| 0 <= j < |groups| && groups[j].tier == line.slug && |groups[j].names| == line.quantity as int;
    forall i | 0 <= i < |groups| && groups[i].tier == line.slug ensures |groups[i].names| == line.quantity as int {
      OneGroupEach(groups, i, j);
    }
  }

  lemma GroupIsReserved(lines: seq<Line>, group: Attendees)
    requires Reserved(group, lines)
    ensures group.tier in Slugs(lines)
  {
    var k :| 0 <= k < |lines| && lines[k].slug == group.tier;
  }

  lemma SameTiers(lines: seq<Line>, groups: seq<Attendees>)
    requires forall k :: 0 <= k < |lines| ==> lines[k].slug in Tiers(groups)
    requires forall i :: 0 <= i < |groups| ==> groups[i].tier in Slugs(lines)
    ensures Tiers(groups) == Slugs(lines)
  {
  }

  /** What one line has of the groups. */
  predicate LineCovered(line: Line, groups: seq<Attendees>) {
    line.slug in Tiers(groups) && line.slug != "" && NamedFor(line, groups)
  }

  lemma AllCovered(lines: seq<Line>, groups: seq<Attendees>)
    requires forall k :: 0 <= k < |lines| ==> LineCovered(lines[k], groups)
    requires forall i :: 0 <= i < |groups| ==> groups[i].tier in Slugs(lines)
    requires DistinctTiers(groups)
    ensures Covered(lines, groups) && "" !in Slugs(lines)
  {
    SameTiers(lines, groups);
  }

  lemma AcceptableIsCovered(lines: seq<Line>, groups: seq<Attendees>)
    requires GroupsOk(groups) && forall k :: 0 <= k < |lines| ==> LineOk(lines[k], groups)
    requires forall i :: 0 <= i < |groups| ==> Reserved(groups[i], lines)
    ensures Covered(lines, groups) && "" !in Slugs(lines)
  {
    forall k | 0 <= k < |lines| ensures LineCovered(lines[k], groups) { LineIsCovered(lines[k], groups); }
    forall i | 0 <= i < |groups| ensures groups[i].tier in Slugs(lines) { GroupIsReserved(lines, groups[i]); }
    AllCovered(lines, groups);
  }

  lemma CoveredIsAcceptable(lines: seq<Line>, groups: seq<Attendees>)
    requires Covered(lines, groups) && "" !in Slugs(lines) && forall k :: 0 <= k < |lines| ==> lines[k].price > 0 && lines[k].quantity > 0
    ensures GroupsOk(groups) && (forall k :: 0 <= k < |lines| ==> LineOk(lines[k], groups))
    ensures forall i :: 0 <= i < |groups| ==> Reserved(groups[i], lines)
  {
    forall i | 0 <= i < |groups| ensures Reserved(groups[i], lines) && groups[i].tier != "" && groups[i].names != [] {
      assert groups[i].tier in Tiers(groups);
      var k :| 0 <= k < |lines| && lines[k].slug == groups[i].tier;
      assert NamedFor(lines[k], groups);
    }
    forall k | 0 <= k < |lines| ensures LineOk(lines[k], groups) {
      assert lines[k].slug in Slugs(lines);
      var i :| 0 <= i < |groups| && groups[i].tier == lines[k].slug;
      assert NamedFor(lines[k], groups);
    }
  }

  /** The exact sum is the sum of quantity times price, however the lines are split. */
  lemma {:induction false} SumSplits(a: seq<Line>, b: seq<Line>)
    ensures ExactSum(a + b) == ExactSum(a) + ExactSum(b)
    ensures |b| == 1 ==> ExactSum(b) == b[0].quantity as int * b[0].price as int
    decreases |b|
  {
    if b == [] {
      assert a + b == a;
    } else {
      SumSplits(a, b[..|b| - 1]);
      assert (a + b)[..|a + b| - 1] == a + b[..|b| - 1];
      assert |b| == 1 ==> b[..0] == [];
    }
  }

  // ---------------------------------------------------------------- replay

  predicate SameGroup(a: Attendees, b: Attendees) {
    && Lower(Trim(a.tier)) == Lower(Trim(b.tier)) && |a.names| == |b.names|
    && forall j :: 0 <= j < |a.names| ==> Trim(a.names[j]) == Trim(b.names[j])
  }

  /** The two requests differ in nothing but spelling that is cleaned away. */
  predicate SameData(a: Request, b: Request) {
    && Trim(a.buyer.name) == Trim(b.buyer.name) && Trim(a.buyer.email) == Trim(b.buyer.email)
    && Strip(Trim(a.buyer.phone)) == Strip(Trim(b.buyer.phone)) && Trim(a.buyer.identity) == Trim(b.buyer.identity)
    && Upper(Trim(a.voucher)) == Upper(Trim(b.voucher))
    && |a.attendees| == |b.attendees| && forall i :: 0 <= i < |a.attendees| ==> SameGroup(a.attendees[i], b.attendees[i])
  }

  lemma SameGroupSameForm(a: Attendees, b: Attendees, x: Attendees, y: Attendees)
    requires CleanGroup(a, x) && CleanGroup(b, y)
    ensures x == y <==> SameGroup(a, b)
  {
    if x == y {
      forall j | 0 <= j < |a.names| ensures Trim(a.names[j]) == Trim(b.names[j]) { assert x.names[j] == y.names[j]; }
    }
    assert SameGroup(a, b) ==> x.names == y.names;
  }

  lemma SameGroupsSameForm(a: seq<Attendees>, b: seq<Attendees>, x: seq<Attendees>, y: seq<Attendees>)
    requires |x| == |a| && |y| == |b|
    requires forall i :: 0 <= i < |a| ==> CleanGroup(a[i], x[i])
    requires forall i :: 0 <= i < |b| ==> CleanGroup(b[i], y[i])
    ensures x == y <==> |a| == |b| && forall i :: 0 <= i < |a| ==> SameGroup(a[i], b[i])
  {
    if |a| == |b| {
      forall i | 0 <= i < |a| ensures x[i] == y[i] <==> SameGroup(a[i], b[i]) { SameGroupSameForm(a[i], b[i], x[i], y[i]); }
    }
  }

  lemma SameDataSameForm(a: Request, b: Request, x: Request, y: Request)
    requires CleanForm(a, x) && CleanForm(b, y)
    ensures x == y <==> SameData(a, b)
  {
    SameGroupsSameForm(a.attendees, b.attendees, x.attendees, y.attendees);
  }

  /** After a placed order any later checkout of its reservation that is in order and has the key is a replay exactly if
      no field differs, and a conflict exactly if one does. */
  lemma {:induction false} ReplayedIffSameData(s: Store, first: Checkout, events: seq<Event>, again: Checkout, mailbox: string -> bool)
    requires ParsesAddresses(mailbox) && InOrder(s) && DirectKnown(s)
    requires again.reservation == first.reservation && again.key == first.key && Step(s, Create(first), mailbox).1.Placed?
    requires PeopleFit(again.request, mailbox) && VoucherFits(again.request.voucher)
    ensures var placed := Step(s, Create(first), mailbox).1.order;
      var outcome := Step(Run(Step(s, Create(first), mailbox).0, events, mailbox), Create(again), mailbox).1;
      && (outcome.Replayed? <==> SameData(first.request, again.request))
      && (outcome == Refused(IdempotencyConflict) <==> !SameData(first.request, again.request))
      && (outcome.Replayed? ==> SameButStatus(placed, outcome.order))
  {
    CheckoutPlacesIff(s, first, mailbox);
    ValidateAnswers(first.request, mailbox);
    ValidateAnswers(again.request, mailbox);
    SameDataSameForm(first.request, again.request, Normalized(first.request, mailbox).request, Normalized(again.request, mailbox).request);
    ReplayReturnsTheOrder(s, first, events, again, mailbox);
  }

  // ---------------------------------------------------------------- every answer of a checkout

  /** The request is in order and comes from the holder of the reservation. */
  predicate Admitted(s: Store, c: Checkout, mailbox: string -> bool) {
    && PeopleFit(c.request, mailbox) && VoucherFits(c.request.voucher)
    && c.reservation in s.reservations && s.reservations[c.reservation].key == c.key
  }

  lemma {:induction false} OrderedIffFound(s: Store, id: string)
    ensures FindOrder(s.orders, id).Some? <==> HasOrder(s, id)
  {
    FindOrderFinds(s.orders, id);
  }

  /** Placing is none of the earlier answers. */
  lemma PlacingIsLate(s: Store, c: Checkout, request: Request)
    requires c.reservation in s.reservations
    ensures var r := PlaceStep(s, c, request).1;
      r.Placed? || r == Refused(BadRequest) || r == Refused(BadVoucher) || r == Refused(Unavailable)
  {
    PlaceRefusals(s, c, request);
  }

  lemma OrderedAnswers(s: Store, c: Checkout, request: Request)
    requires c.reservation in s.reservations && s.reservations[c.reservation].key == c.key && FindOrder(s.orders, c.reservation).Some?
    ensures var r := CreateStep(s, c, Valid(request)).1; r.Replayed? || r == Refused(IdempotencyConflict)
  {
  }

  lemma {:induction false} UnorderedAnswers(s: Store, c: Checkout, request: Request)
    requires c.reservation in s.reservations && s.reservations[c.reservation].key == c.key && FindOrder(s.orders, c.reservation).None?
    ensures var r := CreateStep(s, c, Valid(request)).1;
      !r.Replayed? && r != Refused(IdempotencyConflict) && r != Refused(ReservationNotFound) && r != Refused(AccessDenied)
  {
    if Open(s, c) { CreatePlacesIffOpen(s, c, Valid(request)); }
    PlacingIsLate(s, c, request);
  }

  /** What ends a checkout before anything is priced. */
  lemma {:induction false} EarlyRefusals(s: Store, c: Checkout, mailbox: string -> bool)
    requires ParsesAddresses(mailbox)
    ensures var r := Step(s, Create(c), mailbox).1;
      var known := PeopleFit(c.request, mailbox) && VoucherFits(c.request.voucher);
      && (r == Refused(ReservationNotFound) <==> known && c.reservation !in s.reservations)
      && (r == Refused(AccessDenied) <==> known && c.reservation in s.reservations && s.reservations[c.reservation].key != c.key)
      && (r.Replayed? || r == Refused(IdempotencyConflict) <==> Admitted(s, c, mailbox) && HasOrder(s, c.reservation))
  {
    ValidateAnswers(c.request, mailbox);
    if Admitted(s, c, mailbox) {
      var request := Normalized(c.request, mailbox).request;
      OrderedIffFound(s, c.reservation);
      if HasOrder(s, c.reservation) { OrderedAnswers(s, c, request); } else { UnorderedAnswers(s, c, request); }
    }
  }

  /** A request out of order is refused as such, whatever it is for. */
  lemma DisorderIsRefused(s: Store, c: Checkout, mailbox: string -> bool)
    requires ParsesAddresses(mailbox)
    ensures var (next, r) := Step(s, Create(c), mailbox);
      && (!PeopleFit(c.request, mailbox) ==> r == Refused(BadRequest) && next == s)
      && (PeopleFit(c.request, mailbox) && !VoucherFits(c.request.voucher) ==> r == Refused(BadVoucher) && next == s)
  {
    ValidateAnswers(c.request, mailbox);
  }

  lemma {:induction false} HolderRefusals(s: Store, c: Checkout, request: Request)
    requires c.reservation in s.reservations && s.reservations[c.reservation].key == c.key && FindOrder(s.orders, c.reservation).None?
    ensures var r, status := CreateStep(s, c, Valid(request)).1, s.reservations[c.reservation].status;
      && (r == Refused(SalesClosed) <==> !c.sellable)
      && (r == Refused(ReservationCancelled) <==> c.sellable && status == Cancelled)
      && (r == Refused(ReservationConverted) <==> c.sellable && status == Converted)
      && (r == Refused(ReservationExpired) <==>
            c.sellable && (status == Expired || (status == Active && s.reservations[c.reservation].expiresAt <= s.now)))
  {
    if Open(s, c) { CreatePlacesIffOpen(s, c, Valid(request)); }
    PlacingIsLate(s, c, request);
  }

  /** Each state of the reservation has its own refusal. */
  lemma {:induction false} StateRefusals(s: Store, c: Checkout, mailbox: string -> bool)
    requires ParsesAddresses(mailbox) && Admitted(s, c, mailbox) && !HasOrder(s, c.reservation)
    ensures var r, status := Step(s, Create(c), mailbox).1, s.reservations[c.reservation].status;
      && (r == Refused(SalesClosed) <==> !c.sellable)
      && (r == Refused(ReservationCancelled) <==> c.sellable && status == Cancelled)
      && (r == Refused(ReservationConverted) <==> c.sellable && status == Converted)
      && (r == Refused(ReservationExpired) <==>
            c.sellable && (status == Expired || (status == Active && s.reservations[c.reservation].expiresAt <= s.now)))
  {
    ValidateAnswers(c.request, mailbox);
    OrderedIffFound(s, c.reservation);
    HolderRefusals(s, c, Normalized(c.request, mailbox).request);
  }

  /** The price: the fee is the tariff's, the discount what the voucher takes off but never more than the subtotal. */
  lemma PriceMeans(subtotal: uint64, tariff: Tariff)
    ensures var p := Calculate(subtotal, tariff);
      var fits := subtotal as int + tariff.fee as int <= MaxUint64 as int;
      && (p.Priced? <==> fits && tariff.usable && (tariff.fee > 0 || tariff.cut < subtotal))
      && (p == NotPriced(BadRequest) <==> !fits)
      && (p == NotPriced(BadVoucher) <==> fits && !(tariff.usable && (tariff.fee > 0 || tariff.cut < subtotal)))
      && (p.Priced? ==>
            && p.quote.fee == tariff.fee
            && (tariff.cut <= subtotal ==> p.quote.discount == tariff.cut) && (tariff.cut > subtotal ==> p.quote.discount == subtotal)
            && p.quote.total as int == subtotal as int + tariff.fee as int - p.quote.discount as int)
  {
  }

  /** Placing fails on what the request covers, on the price, or on a taken id, and then changes nothing. */
  lemma PlaceRefusals(s: Store, c: Checkout, request: Request)
    requires c.reservation in s.reservations
    ensures var (next, r) := PlaceStep(s, c, request);
      var lines := s.reservations[c.reservation].lines;
      && (!Acceptable(lines, request.attendees) ==> r == Refused(BadRequest))
      && (Acceptable(lines, request.attendees) ==>
            var price := Calculate(ExactSum(lines) as uint64, c.tariff);
            && (price.NotPriced? ==> r == Refused(price.error))
            && (price.Priced? ==> (r == Refused(Unavailable) <==> IdTaken(s.orders, c.orderId)))
            && (price.Priced? ==> (r.Placed? <==> !IdTaken(s.orders, c.orderId))))
      && (!r.Placed? ==> next == s && (r == Refused(BadRequest) || r == Refused(BadVoucher) || r == Refused(Unavailable)))
  {
    var lines := s.reservations[c.reservation].lines;
    if Acceptable(lines, request.attendees) { PriceMeans(ExactSum(lines) as uint64, c.tariff); }
  }

  // ---------------------------------------------------------------- what a placed order says

  /** Whose order it is, and of what request. */
  predicate OrderNames(order: Order, c: Checkout) {
    && order.id == c.orderId && order.reference == c.reference && order.reservation == c.reservation && order.status == "PENDING"
    && order.hash.reservation == c.reservation && CleanForm(c.request, order.hash.request)
    && order.buyer.name == Trim(c.request.buyer.name) && order.buyer.email == Trim(c.request.buyer.email)
    && order.buyer.phone == Strip(Trim(c.request.buyer.phone)) && order.buyer.identity == Trim(c.request.buyer.identity)
  }

  /** What it is for and what it costs. */
  predicate OrderCosts(order: Order, c: Checkout, lines: seq<Line>) {
    && |order.items| == |lines|
    && (forall k :: 0 <= k < |lines| ==> order.items[k].line == lines[k] && order.items[k].total as int == Cost(lines[k]))
    && order.attendees == Rows(lines, order.hash.request.attendees)
    && order.subtotal as int == ExactSum(lines) && order.fee == c.tariff.fee
    && (c.tariff.cut <= order.subtotal ==> order.discount == c.tariff.cut)
    && (c.tariff.cut > order.subtotal ==> order.discount == order.subtotal)
    && order.total as int == order.subtotal as int + order.fee as int - order.discount as int
  }

  lemma NewOrderNames(c: Checkout, request: Request, lines: seq<Line>, quote: Quote)
    requires Acceptable(lines, request.attendees) && CleanForm(c.request, request)
    ensures var order := NewOrder(c, request, lines, quote); OrderNames(order, c) && order.hash.request == request
  {
  }

  lemma {:induction false} NewOrderCosts(c: Checkout, request: Request, lines: seq<Line>)
    requires Acceptable(lines, request.attendees) && DistinctTierIds(lines)
    requires Calculate(ExactSum(lines) as uint64, c.tariff).Priced?
    ensures OrderCosts(NewOrder(c, request, lines, Calculate(ExactSum(lines) as uint64, c.tariff).quote), c, lines)
  {
    NewOrderIsFaithful(c, request, lines);
    PriceMeans(ExactSum(lines) as uint64, c.tariff);
  }

  /** A placed order is added behind all others and says what request, reservation and tariff said; its reservation is
      CONVERTED and nothing else changes. */
  lemma PlacedEffects(s: Store, c: Checkout, mailbox: string -> bool)
    requires ParsesAddresses(mailbox) && InOrder(s) && Step(s, Create(c), mailbox).1.Placed?
    ensures c.reservation in s.reservations
    ensures var (next, r) := Step(s, Create(c), mailbox);
      && OrderNames(r.order, c) && OrderCosts(r.order, c, s.reservations[c.reservation].lines)
      && next.orders == s.orders + [r.order] && next.now == s.now && next.direct == s.direct
      && next.reservations == s.reservations[c.reservation := s.reservations[c.reservation].(status := Converted)]
  {
    CheckoutPlacesIff(s, c, mailbox);
    ValidateAnswers(c.request, mailbox);
    var request := Normalized(c.request, mailbox).request;
    ActiveHasNoOrder(s, c.reservation);
    CreatePlacesIffOpen(s, c, Normalized(c.request, mailbox));
    var lines := s.reservations[c.reservation].lines;
    var quote := Calculate(ExactSum(lines) as uint64, c.tariff).quote;
    assert ReservationOk(s, c.reservation);
    NewOrderNames(c, request, lines, quote);
    NewOrderCosts(c, request, lines);
    PlacedIs(s, c, request, NewOrder(c, request, lines, quote));
  }

  // ---------------------------------------------------------------- the other transactions

  /** The conversion endpoint converts exactly an active reservation in time while sales are open. */
  lemma ConvertEffects(s: Store, id: string, sellable: bool, mailbox: string -> bool)
    requires ParsesAddresses(mailbox)
    ensures var (next, r) := Step(s, Convert(id, sellable), mailbox);
      && (r == Refused(ReservationNotFound) <==> id !in s.reservations)
      && (id in s.reservations ==>
            var before := s.reservations[id];
            && (r == Refused(SalesClosed) <==> !sellable)
            && (r == Refused(ReservationCancelled) <==> sellable && before.status == Cancelled)
            && (r == Refused(ReservationExpired) <==>
                  sellable && (before.status == Expired || (before.status == Active && before.expiresAt <= s.now)))
            && (r == Done <==> sellable && (before.status == Converted || (before.status == Active && s.now < before.expiresAt)))
            && next.reservations == (if r == Done then s.reservations[id := before.(status := Converted)] else s.reservations))
      && next.orders == s.orders && next.now == s.now && (r != Done ==> next == s)
  {
    if id in s.reservations { assert s.reservations[id := s.reservations[id]] == s.reservations; }
  }

  /** Reserving adds an active reservation under a new id; cancelling and expiring end an active one; payment and refund
      move the status of one order; the clock moves alone. */
  lemma OtherEffects(s: Store, id: string, key: string, expiresAt: nat, lines: seq<Line>, status: Status, elapsed: nat, mailbox: string -> bool)
    requires ParsesAddresses(mailbox)
    ensures var next := Step(s, Reserve(id, key, expiresAt, lines), mailbox).0;
      if id in s.reservations || !DistinctTierIds(lines) then next == s
      else next == s.(reservations := s.reservations[id := Reservation(key, expiresAt, Active, lines)])
    ensures var next := Step(s, Leave(id, status), mailbox).0;
      if id in s.reservations && s.reservations[id].status == Active && status != Active && status != Converted
      then next == s.(reservations := s.reservations[id := s.reservations[id].(status := status)]) else next == s
    ensures Step(s, Tick(elapsed), mailbox).0 == s.(now := s.now + elapsed)
  {
  }

  lemma MoveEffects(s: Store, orderId: string, status: string, mailbox: string -> bool)
    requires ParsesAddresses(mailbox)
    ensures var next := Step(s, OrderMoves(orderId, status), mailbox).0;
      && next == s.(orders := next.orders) && |next.orders| == |s.orders|
      && forall i :: 0 <= i < |s.orders| ==>
           next.orders[i] == if s.orders[i].id == orderId then s.orders[i].(status := status) else s.orders[i]
  {
  }
}
