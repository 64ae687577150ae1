/** Checkout as a whole: one transaction turns an active reservation into one order, and later requests for the same
    reservation find that order again.  The reservation's row lock makes each transaction one step. */
module CheckoutOrders {
  import opened Options
  import opened Text
  import opened CheckoutRequest
  import opened CheckoutItems
  import opened Words

  datatype Status = Active | Expired | Cancelled | Converted

  datatype Reservation = Reservation(key: string, expiresAt: nat, status: Status, lines: seq<Line>)

  /** SHA-256 over the reservation and the normal form of the request, taken to be injective. */
  datatype Digest = Digest(reservation: string, request: Request)

  datatype Order = Order(
    id: string,
    reference: string,
    reservation: string,
    status: string,
    hash: Digest,
    items: seq<Item>,
    attendees: seq<AttendeeRow>,
    buyer: Buyer,
    subtotal: uint64,
    fee: uint64,
    discount: uint64,
    total: uint64)

  /** The tables; `direct` remembers the reservations that the conversion endpoint converted without an order. */
  datatype Store = Store(reservations: map<string, Reservation>, orders: seq<Order>, now: nat, direct: set<string>)

  datatype Error =
    | BadRequest | BadVoucher | ReservationNotFound | AccessDenied | IdempotencyConflict | SalesClosed
    | ReservationCancelled | ReservationExpired | ReservationConverted | Unavailable

  datatype Outcome = Placed(order: Order) | Replayed(order: Order) | Refused(error: Error) | Done

  // ---------------------------------------------------------------- price

  /** The administration fee, and what the voucher would take off; `usable` is whether its conditions hold. */
  datatype Tariff = Tariff(fee: uint64, cut: uint64, usable: bool)
  datatype Quote = Quote(fee: uint64, discount: uint64, total: uint64)
  datatype Price = Priced(quote: Quote) | NotPriced(error: Error)

  function Calculate(subtotal: uint64, tariff: Tariff): (p: Price)
    ensures p.Priced? ==>
              && p.quote.discount <= subtotal && p.quote.total > 0
              && p.quote.total as int == subtotal as int + tariff.fee as int - p.quote.discount as int
  {
    if subtotal > MaxUint64 - tariff.fee then NotPriced(BadRequest)
    else if !tariff.usable then NotPriced(BadVoucher)
    else
      var discount := if tariff.cut < subtotal then tariff.cut else subtotal;
      var total := subtotal + tariff.fee - discount;
      if total == 0 then NotPriced(BadVoucher) else Priced(Quote(tariff.fee, discount, total))
  }

  // ---------------------------------------------------------------- transactions

  /** What a request to create an order brings, and what it finds outside the tables modelled here. */
  datatype Checkout = Checkout(
    reservation: string,
    key: string,
    request: Request,
    sellable: bool,
    tariff: Tariff,
    orderId: string,
    reference: string)

  datatype Event =
    | Reserve(id: string, key: string, expiresAt: nat, lines: seq<Line>)
    | Create(checkout: Checkout)
    | Convert(id: string, sellable: bool)
    | Leave(id: string, status: Status)
    | OrderMoves(orderId: string, orderStatus: string)
    | Tick(elapsed: nat)

  function FindOrder(orders: seq<Order>, reservation: string): Option<Order> {
    if orders == [] then None
    else if orders[|orders| - 1].reservation == reservation then Some(orders[|orders| - 1])
    else FindOrder(orders[..|orders| - 1], reservation)
  }

  predicate IdTaken(orders: seq<Order>, id: string) {
    exists i :: 0 <= i < |orders| && orders[i].id == id
  }

  ghost function Step(s: Store, e: Event, mailbox: string -> bool): (Store, Outcome)
    requires ParsesAddresses(mailbox)
  {
    match e
    case Reserve(id, key, expiresAt, lines) => (ReserveStep(s, id, key, expiresAt, lines), Done)
    case Create(checkout) => CreateStep(s, checkout, Normalized(checkout.request, mailbox))
    case Convert(id, sellable) => ConvertStep(s, id, sellable)
    case Leave(id, status) => (LeaveStep(s, id, status), Done)
    case OrderMoves(orderId, status) => (MoveStep(s, orderId, status), Done)
    case Tick(elapsed) => (s.(now := s.now + elapsed), Done)
  }

  function ReserveStep(s: Store, id: string, key: string, expiresAt: nat, lines: seq<Line>): Store {
    if id in s.reservations || !DistinctTierIds(lines) then s
    else s.(reservations := s.reservations[id := Reservation(key, expiresAt, Active, lines)])
  }

  /** The reservation is cancelled, or its time runs out. */
  function LeaveStep(s: Store, id: string, status: Status): Store {
    if id in s.reservations && s.reservations[id].status == Active && (status == Expired || status == Cancelled) then WithStatus(s, id, status)
    else s
  }

  function WithStatus(s: Store, id: string, status: Status): Store
    requires id in s.reservations
  {
    s.(reservations := s.reservations[id := s.reservations[id].(status := status)])
  }

  /** Payment, refund or expiry move the order on. */
  function MoveStep(s: Store, orderId: string, status: string): Store {
    s.(orders := seq(|s.orders|, i requires 0 <= i < |s.orders| =>
      if s.orders[i].id == orderId then s.orders[i].(status := status) else s.orders[i]))
  }

  function CreateStep(s: Store, c: Checkout, validated: Validated): (Store, Outcome) {
    if validated.InvalidRequest? then (s, Refused(BadRequest))
    else if validated.InvalidVoucher? then (s, Refused(BadVoucher))
    else if c.reservation !in s.reservations then (s, Refused(ReservationNotFound))
    else
      var reservation := s.reservations[c.reservation];
      var hash := Digest(c.reservation, validated.request);
      if reservation.key != c.key then (s, Refused(AccessDenied))
      else
        var existing := FindOrder(s.orders, c.reservation);
        if existing.Some? then (s, if existing.value.hash == hash then Replayed(existing.value) else Refused(IdempotencyConflict))
        else if !c.sellable then (s, Refused(SalesClosed))
        else
          match reservation.status
          case Cancelled => (s, Refused(ReservationCancelled))
          case Expired => (s, Refused(ReservationExpired))
          case Converted => (s, Refused(ReservationConverted))
          case Active =>
            if s.now >= reservation.expiresAt then (s, Refused(ReservationExpired)) else PlaceStep(s, c, validated.request)
  }

  function PlaceStep(s: Store, c: Checkout, request: Request): (Store, Outcome)
    requires c.reservation in s.reservations
  {
    var lines := s.reservations[c.reservation].lines;
    if !Acceptable(lines, request.attendees) then (s, Refused(BadRequest))
    else
      var price := Calculate(ExactSum(lines) as uint64, c.tariff);
      if price.NotPriced? then (s, Refused(price.error))
      else if IdTaken(s.orders, c.orderId) then (s, Refused(Unavailable))
      else
        var order := NewOrder(c, request, lines, price.quote);
        (WithStatus(s.(orders := s.orders + [order]), c.reservation, Converted), Placed(order))
  }

  function NewOrder(c: Checkout, request: Request, lines: seq<Line>, quote: Quote): Order
    requires Acceptable(lines, request.attendees)
  {
    AcceptableLinesFit(lines);
    Order(c.orderId, c.reference, c.reservation, "PENDING", Digest(c.reservation, request), CheckoutItems.Priced(lines),
          Rows(lines, request.attendees), request.buyer, ExactSum(lines) as uint64, quote.fee, quote.discount, quote.total)
  }

  /** The conversion endpoint.  On an overdue reservation it returns before it commits, so nothing is left of it. */
  function ConvertStep(s: Store, id: string, sellable: bool): (Store, Outcome) {
    if id !in s.reservations then (s, Refused(ReservationNotFound))
    else if !sellable then (s, Refused(SalesClosed))
    else
      match s.reservations[id].status
      case Converted => (s, Done)
      case Cancelled => (s, Refused(ReservationCancelled))
      case Expired => (s, Refused(ReservationExpired))
      case Active =>
        if s.now >= s.reservations[id].expiresAt then (s, Refused(ReservationExpired))
        else (WithStatus(s.(direct := s.direct + {id}), id, Converted), Done)
  }

  ghost function Run(s: Store, events: seq<Event>, mailbox: string -> bool): Store
    requires ParsesAddresses(mailbox)
    decreases |events|
  {
    if events == [] then s else Run(Step(s, events[0], mailbox).0, events[1..], mailbox)
  }

  // ---------------------------------------------------------------- what every step keeps

  predicate ItemsMatch(items: seq<Item>, lines: seq<Line>) {
    |items| == |lines| && forall k :: 0 <= k < |lines| ==> items[k].line == lines[k] && items[k].total as int == Cost(lines[k])
  }

  /** The order says of its reservation what the request and the lines say. */
  predicate Faithful(order: Order, lines: seq<Line>) {
    && Acceptable(lines, order.hash.request.attendees) && DistinctTierIds(lines)
    && order.hash.reservation == order.reservation && order.buyer == order.hash.request.buyer
    && order.subtotal as int == ExactSum(lines)
    && ItemsMatch(order.items, lines)
    && order.attendees == Rows(lines, order.hash.request.attendees)
    && order.discount <= order.subtotal && order.total > 0
    && order.total as int == order.subtotal as int + order.fee as int - order.discount as int
  }

  predicate OrderOk(s: Store, order: Order) {
    && order.reservation in s.reservations && s.reservations[order.reservation].status == Converted
    && order.reservation !in s.direct
    && Faithful(order, s.reservations[order.reservation].lines)
  }

  predicate OneOrderEach(orders: seq<Order>) {
    forall i, j :: 0 <= i < j < |orders| ==> orders[i].reservation != orders[j].reservation && orders[i].id != orders[j].id
  }

  predicate HasOrder(s: Store, id: string) {
    exists i :: 0 <= i < |s.orders| && s.orders[i].reservation == id
  }

  predicate ReservationOk(s: Store, id: string)
    requires id in s.reservations
  {
    && DistinctTierIds(s.reservations[id].lines)
    && (s.reservations[id].status == Converted <==> HasOrder(s, id) || id in s.direct)
  }

  predicate InOrder(s: Store) {
    && OneOrderEach(s.orders)
    && (forall i :: 0 <= i < |s.orders| ==> OrderOk(s, s.orders[i]))
    && (forall id :: id in s.reservations ==> ReservationOk(s, id))
  }

  lemma {:induction false} FindOrderFinds(orders: seq<Order>, reservation: string)
    ensures FindOrder(orders, reservation).Some? <==> exists i :: 0 <= i < |orders| && orders[i].reservation == reservation
    ensures FindOrder(orders, reservation).Some? ==>
              exists i :: 0 <= i < |orders| && orders[i].reservation == reservation && FindOrder(orders, reservation).value == orders[i]
    decreases |orders|
  {
    if orders != [] {
      var rest := orders[..|orders| - 1];
      FindOrderFinds(rest, reservation);
      if orders[|orders| - 1].reservation != reservation {
        if i :| 0 <= i < |orders| && orders[i].reservation == reservation {
          assert rest[i].reservation == reservation;
        }
        if FindOrder(rest, reservation).Some? {
          var i :| 0 <= i < |rest| && rest[i].reservation == reservation && FindOrder(rest, reservation).value == rest[i];
          assert orders[i].reservation == reservation;
        }
      }
    }
  }

  lemma PricedMatches(lines: seq<Line>)
    requires forall k :: 0 <= k < |lines| ==> Cost(lines[k]) <= MaxUint64 as int
    ensures ItemsMatch(CheckoutItems.Priced(lines), lines)
  {
  }

  lemma {:induction false} MatchIsPriced(items: seq<Item>, lines: seq<Line>)
    requires ItemsMatch(items, lines) && ExactSum(lines) <= MaxUint64 as int
    ensures forall k :: 0 <= k < |lines| ==> Cost(lines[k]) <= MaxUint64 as int
    ensures items == CheckoutItems.Priced(lines)
  {
    AcceptableLinesFit(lines);
  }

  lemma TakenMatches(lines: seq<Line>, attendees: seq<Attendees>, items: seq<Item>, subtotal: uint64)
    requires Taken(lines, attendees, |lines|, items, subtotal)
    ensures ItemsMatch(items, lines)
  {
  }

  lemma {:induction false} NewOrderIsFaithful(c: Checkout, request: Request, lines: seq<Line>)
    requires Acceptable(lines, request.attendees) && DistinctTierIds(lines)
    requires Calculate(ExactSum(lines) as uint64, c.tariff).Priced?
    ensures Faithful(NewOrder(c, request, lines, Calculate(ExactSum(lines) as uint64, c.tariff).quote), lines)
  {
    AcceptableLinesFit(lines);
    PricedMatches(lines);
  }

  lemma PlaceKeepsOrder(s: Store, c: Checkout, request: Request)
    requires InOrder(s) && c.reservation in s.reservations && s.reservations[c.reservation].status == Active
    ensures InOrder(PlaceStep(s, c, request).0)
  {
    var (next, outcome) := PlaceStep(s, c, request);
    if outcome.Placed? {
      var lines := s.reservations[c.reservation].lines;
      assert ReservationOk(s, c.reservation);
      NewOrderIsFaithful(c, request, lines);
      AppendKeepsOrder(s, c.reservation, outcome.order);
    }
  }

  lemma AppendedOrderOk(s: Store, id: string, order: Order, i: nat)
    requires InOrder(s) && id in s.reservations && s.reservations[id].status == Active
    requires order.reservation == id && Faithful(order, s.reservations[id].lines) && i <= |s.orders|
    ensures OrderOk(WithStatus(s.(orders := s.orders + [order]), id, Converted), (s.orders + [order])[i])
    ensures i < |s.orders| ==> s.orders[i].reservation != id
  {
    var next := WithStatus(s.(orders := s.orders + [order]), id, Converted);
    assert ReservationOk(s, id);
    if i < |s.orders| {
      OtherOrderOk(s, next, s.orders[i]);
      assert HasOrder(s, s.orders[i].reservation);
    } else {
      assert order.reservation !in s.direct;
    }
  }

  lemma OtherOrderOk(s: Store, next: Store, order: Order)
    requires OrderOk(s, order) && next.direct == s.direct && order.reservation in next.reservations
    requires next.reservations[order.reservation] == s.reservations[order.reservation].(status := Converted)
    ensures OrderOk(next, order)
  {
  }

  lemma AppendedReservationOk(s: Store, id: string, order: Order, other: string)
    requires id in s.reservations && order.reservation == id && other in s.reservations && ReservationOk(s, other)
    ensures ReservationOk(WithStatus(s.(orders := s.orders + [order]), id, Converted), other)
  {
    var next := WithStatus(s.(orders := s.orders + [order]), id, Converted);
    assert next.orders[|s.orders|].reservation == id;
    if other != id && HasOrder(s, other) {
      var i :| 0 <= i < |s.orders| && s.orders[i].reservation == other;
      assert next.orders[i].reservation == other;
    }
  }

  lemma AppendKeepsOrder(s: Store, id: string, order: Order)
    requires InOrder(s) && id in s.reservations && s.reservations[id].status == Active
    requires order.reservation == id && Faithful(order, s.reservations[id].lines) && !IdTaken(s.orders, order.id)
    ensures InOrder(WithStatus(s.(orders := s.orders + [order]), id, Converted))
  {
    var next := WithStatus(s.(orders := s.orders + [order]), id, Converted);
    forall i: nat | i < |next.orders| ensures OrderOk(next, next.orders[i]) && (i < |s.orders| ==> s.orders[i].reservation != id) {
      AppendedOrderOk(s, id, order, i);
    }
    forall other | other in next.reservations ensures ReservationOk(next, other) {
      AppendedReservationOk(s, id, order, other);
    }
  }

  lemma CreateKeepsOrder(s: Store, c: Checkout, validated: Validated)
    requires InOrder(s)
    ensures InOrder(CreateStep(s, c, validated).0)
  {
    var placed := CreateIsPlace(s, c, validated);
    if placed { PlaceKeepsOrder(s, c, validated.request); }
  }

  /** A checkout that changes anything passed every check before the item loop. */
  lemma CreateIsPlace(s: Store, c: Checkout, validated: Validated) returns (placed: bool)
    ensures !placed ==> CreateStep(s, c, validated).0 == s && !CreateStep(s, c, validated).1.Placed?
    ensures placed ==>
              && validated.Valid? && c.reservation in s.reservations && s.reservations[c.reservation].status == Active
              && s.reservations[c.reservation].key == c.key
              && CreateStep(s, c, validated) == PlaceStep(s, c, validated.request)
  {
    placed := CreateStep(s, c, validated).1.Placed?;
  }

  predicate StatusChanges(s: Store, next: Store, id: string, status: Status) {
    && id in s.reservations && s.reservations[id].status == Active && next.orders == s.orders
    && next.reservations == s.reservations[id := s.reservations[id].(status := status)]
    && next.direct == (if status == Converted then s.direct + {id} else s.direct)
  }

  lemma StatusOrderOk(s: Store, next: Store, id: string, status: Status, order: Order)
    requires StatusChanges(s, next, id, status) && OrderOk(s, order)
    ensures OrderOk(next, order)
  {
  }

  lemma StatusReservationOk(s: Store, next: Store, id: string, status: Status, other: string)
    requires StatusChanges(s, next, id, status) && other in s.reservations && ReservationOk(s, other) && !HasOrder(s, id) && id !in s.direct
    ensures ReservationOk(next, other)
  {
    assert HasOrder(next, other) <==> HasOrder(s, other);
  }

  /** A reservation without an order changes its status. */
  lemma StatusKeepsOrder(s: Store, id: string, status: Status)
    requires InOrder(s) && id in s.reservations && s.reservations[id].status == Active
    ensures InOrder(WithStatus(if status == Converted then s.(direct := s.direct + {id}) else s, id, status))
  {
    var next := WithStatus(if status == Converted then s.(direct := s.direct + {id}) else s, id, status);
    assert ReservationOk(s, id);
    forall i | 0 <= i < |s.orders| ensures OrderOk(next, next.orders[i]) { StatusOrderOk(s, next, id, status, s.orders[i]); }
    forall other | other in next.reservations ensures ReservationOk(next, other) { StatusReservationOk(s, next, id, status, other); }
  }

  lemma MovedOrderOk(s: Store, orderId: string, status: string, i: nat)
    requires i < |s.orders| && OrderOk(s, s.orders[i])
    ensures OrderOk(MoveStep(s, orderId, status), MoveStep(s, orderId, status).orders[i])
  {
    StatusIsNoMatter(s.orders[i], status, s.reservations[s.orders[i].reservation].lines);
  }

  lemma StatusIsNoMatter(order: Order, status: string, lines: seq<Line>)
    requires Faithful(order, lines)
    ensures Faithful(order.(status := status), lines)
  {
  }

  lemma MovedReservationOk(s: Store, orderId: string, status: string, id: string)
    requires id in s.reservations && ReservationOk(s, id)
    ensures ReservationOk(MoveStep(s, orderId, status), id)
  {
    var next := MoveStep(s, orderId, status);
    if HasOrder(s, id) {
      var i :| 0 <= i < |s.orders| && s.orders[i].reservation == id;
      assert next.orders[i].reservation == id;
    }
  }

  lemma MovedIsOneEach(s: Store, orderId: string, status: string)
    requires OneOrderEach(s.orders)
    ensures OneOrderEach(MoveStep(s, orderId, status).orders)
  {
  }

  lemma MovesKeepOrder(s: Store, orderId: string, status: string)
    requires InOrder(s)
    ensures InOrder(MoveStep(s, orderId, status))
  {
    var next := MoveStep(s, orderId, status);
    MovedIsOneEach(s, orderId, status);
    forall i | 0 <= i < |next.orders| ensures OrderOk(next, next.orders[i]) { MovedOrderOk(s, orderId, status, i); }
    forall id | id in next.reservations ensures ReservationOk(next, id) { MovedReservationOk(s, orderId, status, id); }
  }

  lemma ReserveKeepsOrder(s: Store, id: string, key: string, expiresAt: nat, lines: seq<Line>)
    requires InOrder(s) && DirectKnown(s)
    ensures InOrder(ReserveStep(s, id, key, expiresAt, lines))
  {
    if id !in s.reservations && DistinctTierIds(lines) {
      AddedKeepsOrder(s, id, Reservation(key, expiresAt, Active, lines));
    }
  }

  lemma AddedKeepsOrder(s: Store, id: string, reservation: Reservation)
    requires InOrder(s) && DirectKnown(s) && id !in s.reservations && reservation.status == Active && DistinctTierIds(reservation.lines)
    ensures InOrder(s.(reservations := s.reservations[id := reservation]))
  {
    var next := s.(reservations := s.reservations[id := reservation]);
    forall i | 0 <= i < |s.orders| ensures OrderOk(next, next.orders[i]) && s.orders[i].reservation != id {
      assert OrderOk(s, s.orders[i]);
    }
    forall other | other in next.reservations ensures ReservationOk(next, other) {
      if other != id { assert ReservationOk(s, other); }
      assert HasOrder(next, other) <==> HasOrder(s, other);
    }
  }

  lemma TickKeepsOrder(s: Store, now: nat)
    requires InOrder(s)
    ensures InOrder(s.(now := now))
  {
    var next := s.(now := now);
    forall i | 0 <= i < |s.orders| ensures OrderOk(next, next.orders[i]) { assert OrderOk(s, s.orders[i]); }
    forall id | id in next.reservations ensures ReservationOk(next, id) { assert ReservationOk(s, id) && (HasOrder(next, id) <==> HasOrder(s, id)); }
  }

  predicate DirectKnown(s: Store) {
    forall id :: id in s.direct ==> id in s.reservations
  }

  lemma StepKeepsOrder(s: Store, e: Event, mailbox: string -> bool)
    requires ParsesAddresses(mailbox) && InOrder(s) && DirectKnown(s)
    ensures InOrder(Step(s, e, mailbox).0) && DirectKnown(Step(s, e, mailbox).0)
  {
    StepExtends(s, e, mailbox);
    match e
    case Reserve(id, key, expiresAt, lines) => ReserveKeepsOrder(s, id, key, expiresAt, lines);
    case Create(c) => CreateKeepsOrder(s, c, Normalized(c.request, mailbox));
    case Convert(id, sellable) => ConvertKeepsOrder(s, id, sellable);
    case Leave(id, status) => LeaveKeepsOrder(s, id, status);
    case OrderMoves(orderId, status) => MovesKeepOrder(s, orderId, status);
    case Tick(elapsed) => TickKeepsOrder(s, s.now + elapsed);
  }

  lemma ConvertKeepsOrder(s: Store, id: string, sellable: bool)
    requires InOrder(s)
    ensures InOrder(ConvertStep(s, id, sellable).0)
  {
    if id in s.reservations && s.reservations[id].status == Active { StatusKeepsOrder(s, id, Converted); }
  }

  lemma LeaveKeepsOrder(s: Store, id: string, status: Status)
    requires InOrder(s)
    ensures InOrder(LeaveStep(s, id, status))
  {
    if id in s.reservations && s.reservations[id].status == Active { StatusKeepsOrder(s, id, status); }
  }

  predicate SameButStatus(before: Order, after: Order) {
    after == before.(status := after.status)
  }

  predicate SameReservation(before: Reservation, after: Reservation) {
    after == before.(status := after.status) && (before.status != Active ==> after == before)
  }

  /** Orders are appended and keep everything but their status; reservations keep everything but theirs, and that moves
      only away from ACTIVE; only the conversion endpoint converts directly. */
  predicate Extends(s: Store, next: Store) {
    && |s.orders| <= |next.orders|
    && (forall i :: 0 <= i < |s.orders| ==> SameButStatus(s.orders[i], next.orders[i]))
    && (forall id :: id in s.reservations ==> id in next.reservations && SameReservation(s.reservations[id], next.reservations[id]))
    && s.direct <= next.direct && (forall id :: id in next.direct ==> id in s.direct || id in next.reservations)
  }

  lemma CreateExtends(s: Store, c: Checkout, validated: Validated)
    ensures Extends(s, CreateStep(s, c, validated).0) && CreateStep(s, c, validated).0.direct == s.direct
  {
    var placed := CreateIsPlace(s, c, validated);
    if placed { PlaceExtends(s, c, validated.request); }
  }

  lemma PlaceExtends(s: Store, c: Checkout, request: Request)
    requires c.reservation in s.reservations && s.reservations[c.reservation].status == Active
    ensures Extends(s, PlaceStep(s, c, request).0) && PlaceStep(s, c, request).0.direct == s.direct
    ensures PlaceStep(s, c, request).1.Placed? ==> Placement(s, PlaceStep(s, c, request).0, c, request, PlaceStep(s, c, request).1.order)
  {
    var (next, outcome) := PlaceStep(s, c, request);
    if outcome.Placed? { AppendExtends(s, c.reservation, outcome.order); }
  }

  lemma AppendExtends(s: Store, id: string, order: Order)
    requires id in s.reservations && s.reservations[id].status == Active
    ensures Extends(s, WithStatus(s.(orders := s.orders + [order]), id, Converted))
  {
  }

  predicate Placement(s: Store, next: Store, c: Checkout, request: Request, order: Order) {
    && next.orders == s.orders + [order] && order.reservation == c.reservation && order.hash == Digest(c.reservation, request)
    && c.reservation in next.reservations && c.reservation in s.reservations
    && next.reservations[c.reservation].key == s.reservations[c.reservation].key
  }

  lemma ConvertExtends(s: Store, id: string, sellable: bool)
    ensures var next := ConvertStep(s, id, sellable).0;
      Extends(s, next) && next.orders == s.orders && (next.direct == s.direct || next.direct == s.direct + {id})
  {
  }

  lemma OthersExtend(s: Store, e: Event, mailbox: string -> bool)
    requires ParsesAddresses(mailbox) && !e.Create? && !e.Convert?
    ensures Extends(s, Step(s, e, mailbox).0) && Step(s, e, mailbox).0.direct == s.direct
  {
  }

  lemma StepExtends(s: Store, e: Event, mailbox: string -> bool)
    requires ParsesAddresses(mailbox)
    ensures Extends(s, Step(s, e, mailbox).0)
    ensures Step(s, e, mailbox).0.direct == s.direct || (e.Convert? && Step(s, e, mailbox).0.direct == s.direct + {e.id})
  {
    if e.Create? {
      CreateExtends(s, e.checkout, Normalized(e.checkout.request, mailbox));
    } else if e.Convert? {
      ConvertExtends(s, e.id, e.sellable);
    } else {
      OthersExtend(s, e, mailbox);
    }
  }

  lemma ExtendsIsTransitive(a: Store, b: Store, c: Store)
    requires Extends(a, b) && Extends(b, c)
    ensures |a.orders| <= |c.orders| && forall i :: 0 <= i < |a.orders| ==> SameButStatus(a.orders[i], c.orders[i])
    ensures forall id :: id in a.reservations ==> id in c.reservations && SameReservation(a.reservations[id], c.reservations[id])
    ensures Extends(a, c)
  {
    forall i | 0 <= i < |a.orders| ensures SameButStatus(a.orders[i], c.orders[i]) {
      assert SameButStatus(a.orders[i], b.orders[i]) && SameButStatus(b.orders[i], c.orders[i]);
    }
    forall id | id in a.reservations ensures id in c.reservations && SameReservation(a.reservations[id], c.reservations[id]) {
      assert SameReservation(a.reservations[id], b.reservations[id]) && SameReservation(b.reservations[id], c.reservations[id]);
    }
  }

  lemma {:induction false} RunExtends(s: Store, events: seq<Event>, mailbox: string -> bool)
    requires ParsesAddresses(mailbox)
    ensures Extends(s, Run(s, events, mailbox))
    decreases |events|
  {
    if events != [] {
      var next := Step(s, events[0], mailbox).0;
      StepExtends(s, events[0], mailbox);
      RunExtends(next, events[1..], mailbox);
      ExtendsIsTransitive(s, next, Run(next, events[1..], mailbox));
    }
  }

  /** Over every run a reservation has at most one order; every order is a faithful one of a CONVERTED reservation; and
      a reservation is CONVERTED exactly when it has an order or the conversion endpoint converted it, never both. */
  lemma {:induction false} RunKeepsOrder(s: Store, events: seq<Event>, mailbox: string -> bool)
    requires ParsesAddresses(mailbox) && InOrder(s) && DirectKnown(s)
    ensures InOrder(Run(s, events, mailbox)) && DirectKnown(Run(s, events, mailbox))
    decreases |events|
  {
    if events != [] {
      StepKeepsOrder(s, events[0], mailbox);
      RunKeepsOrder(Step(s, events[0], mailbox).0, events[1..], mailbox);
    }
  }

  const Empty := Store(map[], [], 0, {})

  lemma {:induction false} OnlyConvertIsDirect(s: Store, events: seq<Event>, id: string, mailbox: string -> bool)
    requires ParsesAddresses(mailbox) && id !in s.direct
    requires forall k :: 0 <= k < |events| && events[k].Convert? ==> events[k].id != id
    ensures id !in Run(s, events, mailbox).direct
    decreases |events|
  {
    if events != [] {
      StepExtends(s, events[0], mailbox);
      OnlyConvertIsDirect(Step(s, events[0], mailbox).0, events[1..], id, mailbox);
    }
  }

  /** Where no one calls the conversion endpoint for it, a reservation is CONVERTED exactly when it has an order. */
  lemma {:induction false} ConvertedIffOrdered(events: seq<Event>, id: string, mailbox: string -> bool)
    requires ParsesAddresses(mailbox)
    requires forall k :: 0 <= k < |events| && events[k].Convert? ==> events[k].id != id
    ensures var s := Run(Empty, events, mailbox);
      HasOrder(s, id) <==> id in s.reservations && s.reservations[id].status == Converted
  {
    RunKeepsOrder(Empty, events, mailbox);
    OnlyConvertIsDirect(Empty, events, id, mailbox);
    var s := Run(Empty, events, mailbox);
    if id in s.reservations {
      assert ReservationOk(s, id);
    }
    if HasOrder(s, id) {
      OrdersAreReserved(s, id);
    }
  }

  lemma OrdersAreReserved(s: Store, id: string)
    requires InOrder(s) && HasOrder(s, id)
    ensures id in s.reservations
  {
    var i :| 0 <= i < |s.orders| && s.orders[i].reservation == id;
    assert OrderOk(s, s.orders[i]);
  }

  /** The step that converts a reservation leaves an order for it exactly when it is a checkout. */
  lemma ConversionWithoutOrder(s: Store, e: Event, id: string, mailbox: string -> bool)
    requires ParsesAddresses(mailbox) && InOrder(s) && DirectKnown(s)
    requires id in s.reservations && s.reservations[id].status != Converted
    requires id in Step(s, e, mailbox).0.reservations && Step(s, e, mailbox).0.reservations[id].status == Converted
    ensures HasOrder(Step(s, e, mailbox).0, id) <==> !e.Convert?
  {
    StepKeepsOrder(s, e, mailbox);
    StepExtends(s, e, mailbox);
    assert ReservationOk(s, id) && ReservationOk(Step(s, e, mailbox).0, id);
    if e.Convert? { ConvertExtends(s, e.id, e.sellable); }
  }

  /** One ticket reserved and then converted at the endpoint: CONVERTED, and no order. */
  lemma ConvertedAndNotOrdered(line: Line, mailbox: string -> bool)
    requires ParsesAddresses(mailbox)
    ensures var s := Run(Empty, [Reserve("r", "k", 10, [line]), Convert("r", true)], mailbox);
      "r" in s.reservations && s.reservations["r"].status == Converted && !HasOrder(s, "r")
  {
    var reserve, convert := Reserve("r", "k", 10, [line]), Convert("r", true);
    var s1 := Step(Empty, reserve, mailbox).0;
    var s2 := Step(s1, convert, mailbox).0;
    assert s1.reservations["r"].status == Active && s1.orders == [];
    assert [reserve, convert][1..] == [convert] && [convert][1..] == [];
    assert Run(s1, [convert], mailbox) == Run(s2, [], mailbox);
  }

  // ---------------------------------------------------------------- the attendees of an order

  /** In every stored order the attendees of each tier are numbered from 1 to the quantity reserved, each number once,
      and there are no others. */
  lemma {:induction false} OrderIsNumbered(s: Store, i: nat, tierId: nat, number: nat)
    requires InOrder(s) && i < |s.orders|
    ensures var order := s.orders[i];
      && order.reservation in s.reservations
      && var lines := s.reservations[order.reservation].lines;
         && |order.attendees| == Tickets(lines)
         && CountRows(order.attendees, tierId, number) == if HasTicket(lines, tierId, number) then 1 else 0
  {
    var order := s.orders[i];
    assert OrderOk(s, order);
    var lines := s.reservations[order.reservation].lines;
    AcceptableIsNamedInFull(lines, order.hash.request.attendees);
    NumberedWithoutGap(lines, order.hash.request.attendees, tierId, number);
  }

  /** The same of every order that any run from empty tables leaves. */
  lemma {:induction false} EveryOrderIsNumbered(events: seq<Event>, mailbox: string -> bool, i: nat, tierId: nat, number: nat)
    requires ParsesAddresses(mailbox) && i < |Run(Empty, events, mailbox).orders|
    ensures var s := Run(Empty, events, mailbox);
      var order := s.orders[i];
      && order.reservation in s.reservations
      && CountRows(order.attendees, tierId, number) == if HasTicket(s.reservations[order.reservation].lines, tierId, number) then 1 else 0
  {
    RunKeepsOrder(Empty, events, mailbox);
    OrderIsNumbered(Run(Empty, events, mailbox), i, tierId, number);
  }

  // ---------------------------------------------------------------- replay

  lemma {:induction false} FoundIsTheOne(orders: seq<Order>, i: nat)
    requires OneOrderEach(orders) && i < |orders|
    ensures FindOrder(orders, orders[i].reservation) == Some(orders[i])
  {
    FindOrderFinds(orders, orders[i].reservation);
    var j :| 0 <= j < |orders| && orders[j].reservation == orders[i].reservation && FindOrder(orders, orders[i].reservation).value == orders[j];
    assert i == j;
  }

  /** Once a checkout placed an order, any later checkout of that reservation, whatever happened in between, leaves
      everything as it is.  With the reservation's key, a request that normalises to the same data gets the same order
      back (its status may have moved), and valid data that differs is a conflict; another key is denied. */
  lemma {:induction false} ReplayReturnsTheOrder(s: Store, first: Checkout, events: seq<Event>, again: Checkout, mailbox: string -> bool)
    requires ParsesAddresses(mailbox) && InOrder(s) && DirectKnown(s)
    requires again.reservation == first.reservation && Step(s, Create(first), mailbox).1.Placed?
    ensures var placed := Step(s, Create(first), mailbox);
      var later := Run(placed.0, events, mailbox);
      var (after, outcome) := Step(later, Create(again), mailbox);
      && after == later
      && (Normalized(again.request, mailbox).Valid? ==>
            if again.key != first.key then outcome == Refused(AccessDenied)
            else if Normalized(again.request, mailbox) == Normalized(first.request, mailbox)
            then outcome.Replayed? && SameButStatus(placed.1.order, outcome.order)
            else outcome == Refused(IdempotencyConflict))
      && (!Normalized(again.request, mailbox).Valid? ==> outcome == Refused(BadRequest) || outcome == Refused(BadVoucher))
  {
    var (next, outcome) := Step(s, Create(first), mailbox);
    StepKeepsOrder(s, Create(first), mailbox);
    RunKeepsOrder(next, events, mailbox);
    RunExtends(next, events, mailbox);
    PlacedIsLast(s, first, Normalized(first.request, mailbox));
    FoundIsTheOne(Run(next, events, mailbox).orders, |s.orders|);
    OrderedIsReplayed(Run(next, events, mailbox), |s.orders|, again, Normalized(again.request, mailbox));
  }

  lemma PlacedIsLast(s: Store, c: Checkout, validated: Validated)
    requires CreateStep(s, c, validated).1.Placed?
    ensures validated.Valid? && c.reservation in s.reservations && s.reservations[c.reservation].key == c.key
    ensures Placement(s, CreateStep(s, c, validated).0, c, validated.request, CreateStep(s, c, validated).1.order)
  {
    var placed := CreateIsPlace(s, c, validated);
    PlaceExtends(s, c, validated.request);
  }

  lemma OrderedIsReplayed(s: Store, i: nat, c: Checkout, validated: Validated)
    requires i < |s.orders| && s.orders[i].reservation == c.reservation && c.reservation in s.reservations
    requires FindOrder(s.orders, c.reservation) == Some(s.orders[i])
    ensures CreateStep(s, c, validated) ==
      (s, if validated.InvalidRequest? then Refused(BadRequest)
          else if validated.InvalidVoucher? then Refused(BadVoucher)
          else if c.key != s.reservations[c.reservation].key then Refused(AccessDenied)
          else if s.orders[i].hash == Digest(c.reservation, validated.request) then Replayed(s.orders[i])
          else Refused(IdempotencyConflict))
  {
  }

  /** The reservation can still be turned into an order by this caller at this moment. */
  predicate Open(s: Store, c: Checkout) {
    && c.reservation in s.reservations && s.reservations[c.reservation].key == c.key
    && s.reservations[c.reservation].status == Active && s.now < s.reservations[c.reservation].expiresAt && c.sellable
  }

  /** The request covers the reservation's lines, their sum fits, and it can be charged under a fresh id. */
  predicate Chargeable(s: Store, c: Checkout, request: Request)
    requires c.reservation in s.reservations
  {
    var lines := s.reservations[c.reservation].lines;
    Acceptable(lines, request.attendees) && Calculate(ExactSum(lines) as uint64, c.tariff).Priced? && !IdTaken(s.orders, c.orderId)
  }

  lemma {:induction false} ActiveHasNoOrder(s: Store, id: string)
    requires InOrder(s) && id in s.reservations && s.reservations[id].status == Active
    ensures FindOrder(s.orders, id).None?
  {
    assert ReservationOk(s, id);
    FindOrderFinds(s.orders, id);
    assert !HasOrder(s, id);
  }

  lemma PlacesIffChargeable(s: Store, c: Checkout, request: Request)
    requires c.reservation in s.reservations
    ensures PlaceStep(s, c, request).1.Placed? <==> Chargeable(s, c, request)
    ensures !PlaceStep(s, c, request).1.Placed? ==> PlaceStep(s, c, request).0 == s
  {
  }

  lemma CreatePlacesIffOpen(s: Store, c: Checkout, validated: Validated)
    requires c.reservation in s.reservations && s.reservations[c.reservation].status == Active ==> FindOrder(s.orders, c.reservation).None?
    ensures if validated.Valid? && Open(s, c) then CreateStep(s, c, validated) == PlaceStep(s, c, validated.request)
            else !CreateStep(s, c, validated).1.Placed? && CreateStep(s, c, validated).0 == s
  {
  }

  /** A checkout places an order exactly if its request is valid, its reservation open and the whole chargeable; otherwise
      it changes nothing.  That there is no order yet need not be asked: an active reservation has none. */
  lemma CheckoutPlacesIff(s: Store, c: Checkout, mailbox: string -> bool)
    requires ParsesAddresses(mailbox) && InOrder(s)
    ensures var (next, outcome) := Step(s, Create(c), mailbox);
      var validated := Normalized(c.request, mailbox);
      && (outcome.Placed? <==> validated.Valid? && Open(s, c) && Chargeable(s, c, validated.request))
      && (!outcome.Placed? ==> next == s)
  {
    var validated := Normalized(c.request, mailbox);
    if c.reservation in s.reservations && s.reservations[c.reservation].status == Active { ActiveHasNoOrder(s, c.reservation); }
    CreatePlacesIffOpen(s, c, validated);
    if validated.Valid? && Open(s, c) { PlacesIffChargeable(s, c, validated.request); }
  }

  /** The quote and the order agree: for the same reservation and tariff, checkout charges what was quoted. */
  lemma OrderCostsWhatWasQuoted(s: Store, c: Checkout, mailbox: string -> bool)
    requires ParsesAddresses(mailbox) && Step(s, Create(c), mailbox).1.Placed?
    ensures c.reservation in s.reservations
    ensures var order, subtotal := Step(s, Create(c), mailbox).1.order, QuotedSubtotal(s.reservations[c.reservation].lines);
      subtotal == Some(order.subtotal) && Calculate(subtotal.value, c.tariff) == Priced(Quote(order.fee, order.discount, order.total))
  {
    var placed := CreateIsPlace(s, c, Normalized(c.request, mailbox));
    PlacedCosts(s, c, Normalized(c.request, mailbox).request);
  }

  lemma PlacedCosts(s: Store, c: Checkout, request: Request)
    requires c.reservation in s.reservations && PlaceStep(s, c, request).1.Placed?
    ensures var order, subtotal := PlaceStep(s, c, request).1.order, QuotedSubtotal(s.reservations[c.reservation].lines);
      subtotal == Some(order.subtotal) && Calculate(subtotal.value, c.tariff) == Priced(Quote(order.fee, order.discount, order.total))
  {
  }

  // ---------------------------------------------------------------- the repository

  lemma PlacedIs(s: Store, c: Checkout, request: Request, order: Order)
    requires c.reservation in s.reservations && Chargeable(s, c, request)
    requires var lines := s.reservations[c.reservation].lines;
      order == NewOrder(c, request, lines, Calculate(ExactSum(lines) as uint64, c.tariff).quote)
    ensures PlaceStep(s, c, request) == (WithStatus(s.(orders := s.orders + [order]), c.reservation, Converted), Placed(order))
  {
  }

  class Repository {
    var reservations: map<string, Reservation>
    var orders: seq<Order>
    var now: nat
    ghost var direct: set<string>

    ghost function State(): Store
      reads this
    {
      Store(reservations, orders, now, direct)
    }

    constructor ()
      ensures State() == Empty && InOrder(State()) && DirectKnown(State())
    {
      reservations, orders, now, direct := map[], [], 0, {};
    }

    method Create(c: Checkout, mailbox: string -> bool) returns (r: Outcome)
      requires ParsesAddresses(mailbox)
      modifies this
      ensures (State(), r) == Step(old(State()), Event.Create(c), mailbox)
    {
      var validated := Validate(c.request, mailbox);
      if validated.InvalidRequest? { return Refused(BadRequest); }
      if validated.InvalidVoucher? { return Refused(BadVoucher); }
      var hash := Digest(c.reservation, validated.request);
      if c.reservation !in reservations { return Refused(ReservationNotFound); }
      var reservation := reservations[c.reservation];
      if reservation.key != c.key { return Refused(AccessDenied); }
      var existing := FindOrder(orders, c.reservation);
      if existing.Some? {
        if existing.value.hash != hash { return Refused(IdempotencyConflict); }
        return Replayed(existing.value);
      }
      if !c.sellable { return Refused(SalesClosed); }
      match reservation.status {
        case Cancelled => return Refused(ReservationCancelled);
        case Expired => return Refused(ReservationExpired);
        case Converted => return Refused(ReservationConverted);
        case Active =>
          if now >= reservation.expiresAt { return Refused(ReservationExpired); }
      }
      r := Place(c, validated.request);
    }

    method Place(c: Checkout, request: Request) returns (r: Outcome)
      requires c.reservation in reservations && reservations[c.reservation].status == Active
      modifies this
      ensures (State(), r) == PlaceStep(old(State()), c, request)
    {
      var lines := reservations[c.reservation].lines;
      var basket := TakeItems(lines, request.attendees);
      if basket.None? { return Refused(BadRequest); }
      var price := Calculate(basket.value.subtotal, c.tariff);
      if price.NotPriced? { return Refused(price.error); }
      if IdTaken(orders, c.orderId) { return Refused(Unavailable); }
      var order := WriteOrder(c, request, lines, basket.value, price.quote);
      PlacedIs(State(), c, request, order);
      StoreOrder(c.reservation, order);
      return Placed(order);
    }

    /** Adds the order's row; the UPDATE of the reservation asks for the status ACTIVE again. */
    method StoreOrder(id: string, order: Order)
      requires id in reservations && reservations[id].status == Active
      modifies this`orders, this`reservations
      ensures State() == WithStatus(old(State()).(orders := old(orders) + [order]), id, Converted)
    {
      orders := orders + [order];
      if reservations[id].status == Active {
        reservations := reservations[id := reservations[id].(status := Converted)];
      }
    }

    /** The rows of the order, its items and its attendees. */
    method WriteOrder(c: Checkout, request: Request, lines: seq<Line>, basket: Basket, quote: Quote) returns (order: Order)
      requires Acceptable(lines, request.attendees) && Indexes(basket.names, request.attendees)
      requires Taken(lines, request.attendees, |lines|, basket.items, basket.subtotal) && basket.subtotal as int == ExactSum(lines)
      ensures order == NewOrder(c, request, lines, quote)
    {
      var rows := InsertAttendees(lines, request.attendees, basket.names);
      TakenMatches(lines, request.attendees, basket.items, basket.subtotal);
      MatchIsPriced(basket.items, lines);
      order := Order(c.orderId, c.reference, c.reservation, "PENDING", Digest(c.reservation, request), basket.items, rows,
                     request.buyer, basket.subtotal, quote.fee, quote.discount, quote.total);
    }

    method Convert(id: string, sellable: bool) returns (r: Outcome)
      modifies this
      ensures (State(), r) == ConvertStep(old(State()), id, sellable)
    {
      if id !in reservations { return Refused(ReservationNotFound); }
      if !sellable { return Refused(SalesClosed); }
      match reservations[id].status {
        case Converted => return Done;
        case Cancelled => return Refused(ReservationCancelled);
        case Expired => return Refused(ReservationExpired);
        case Active =>
          if now >= reservations[id].expiresAt { return Refused(ReservationExpired); }
      }
      reservations := reservations[id := reservations[id].(status := Converted)];
      direct := direct + {id};
      return Done;
    }

    /** Quote: what the reservation would cost, without an order. */
    method QuoteReservation(id: string, key: string, code: string, tariff: Tariff) returns (r: Price)
      ensures Upper(Trim(code)) != "" && !ValidCode(Upper(Trim(code))) ==> r == NotPriced(BadVoucher)
      ensures Upper(Trim(code)) == "" || ValidCode(Upper(Trim(code))) ==>
                if id !in reservations then r == NotPriced(ReservationNotFound)
                else if reservations[id].key != key then r == NotPriced(AccessDenied)
                else if reservations[id].status != Active || reservations[id].expiresAt <= now then r == NotPriced(ReservationExpired)
                else if QuotedSubtotal(reservations[id].lines).None? then r == NotPriced(Unavailable)
                else r == Calculate(QuotedSubtotal(reservations[id].lines).value, tariff)
    {
      var voucher := Upper(Trim(code));
      if voucher != "" && !ValidCode(voucher) { return NotPriced(BadVoucher); }
      if id !in reservations { return NotPriced(ReservationNotFound); }
      var reservation := reservations[id];
      if reservation.key != key { return NotPriced(AccessDenied); }
      if reservation.status != Active || now >= reservation.expiresAt { return NotPriced(ReservationExpired); }
      var subtotal := QuotedSubtotal(reservation.lines);
      if subtotal.None? { return NotPriced(Unavailable); }
      return Calculate(subtotal.value, tariff);
    }
  }
}
