/** The payment webhook of the bookings service, delivered any number of times, against the expiry
    job.  Both handlers are atomic steps here; module SeatReservation interleaves them. */
module WebhookRedelivery {
  import opened Outcomes
  import opened BookingStatuses

  type Id = string

  datatype Booking = Booking(status: BookingStatus, expires: int, payment: Option<Id>)

  /** What arrives: `signed` when body and signature are present, `valid` when they match; `random`
      is what the server draws when there is no payment id. */
  datatype Delivery = Delivery(
    signed: bool, valid: bool, header: Option<string>, event: Option<string>,
    payment: Option<Id>, order: Option<Id>, random: string)

  datatype Answer =
    | Unauthorized | Duplicate | Ignored | BookingNotFound | AlreadyConfirmed | NotPending | Confirmed | Threw

  /** `orders` is the unique index on the order id; `events` holds the ids of webhook events seen. */
  datatype State = State(events: set<string>, orders: map<Id, Id>, bookings: map<Id, Booking>)

  datatype Action =
    | Create(bid: Id, order: Id, expires: int)
    | Deliver(d: Delivery, crash: bool)          // crash: the handler throws after storing the event
    | Expire(bid: Id, now: int)

  function Or(s: Option<string>, otherwise: string): string { if Truthy(s) then s.value else otherwise }

  function EventId(d: Delivery): string {
    if Truthy(d.header) then d.header.value else Or(d.event, "unknown") + ":" + Or(d.payment, d.random)
  }

  /** The unique index on payment ids. */
  predicate PaymentFree(s: State, bid: Id, payment: Option<Id>) {
    forall b | b in s.bookings && b != bid :: s.bookings[b].payment != payment
  }

  function Respond(s: State, d: Delivery, crash: bool): Answer {
    if !d.signed || !d.valid then Unauthorized
    else if EventId(d) in s.events then Duplicate
    else if !Truthy(d.order) || !Truthy(d.payment) then Ignored
    else if d.order.value !in s.orders || s.orders[d.order.value] !in s.bookings then BookingNotFound
    else
      var bid := s.orders[d.order.value];
      if s.bookings[bid].status == CONFIRMED then AlreadyConfirmed
      else if s.bookings[bid].status != PENDING then NotPending
      else if crash || !PaymentFree(s, bid, d.payment) then Threw
      else Confirmed
  }

  function Apply(s: State, a: Action): State {
    match a
    case Create(bid, order, expires) =>
      if bid in s.bookings || order in s.orders then s
      else s.(orders := s.orders[order := bid], bookings := s.bookings[bid := Booking(PENDING, expires, None)])
    case Deliver(d, crash) =>
      var answer := Respond(s, d, crash);
      if answer == Unauthorized then s
      else
        var stored := s.(events := s.events + {EventId(d)});
        if answer != Confirmed then stored
        else
          var bid := s.orders[d.order.value];
          stored.(bookings := s.bookings[bid := s.bookings[bid].(status := CONFIRMED, payment := d.payment)])
    case Expire(bid, now) =>
      if bid in s.bookings && s.bookings[bid].status == PENDING && s.bookings[bid].expires <= now
      then s.(bookings := s.bookings[bid := s.bookings[bid].(status := EXPIRED)])
      else s
  }

  function Run(s: State, acts: seq<Action>): State
    decreases |acts|
  {
    if acts == [] then s else Run(Apply(s, acts[0]), acts[1..])
  }

  // ---------------------------------------------------------------- only first deliveries count

  predicate Genuine(a: Action) { a.Deliver? && a.d.signed && a.d.valid }

  /** The run without the genuine deliveries whose event id was seen before. */
  function FirstOnly(acts: seq<Action>, seen: set<string>): seq<Action>
    decreases |acts|
  {
    if acts == [] then []
    else if !Genuine(acts[0]) then [acts[0]] + FirstOnly(acts[1..], seen)
    else if EventId(acts[0].d) in seen then FirstOnly(acts[1..], seen)
    else [acts[0]] + FirstOnly(acts[1..], seen + {EventId(acts[0].d)})
  }

  lemma EventsGrow(s: State, a: Action)
    ensures Apply(s, a).events == s.events + if Genuine(a) then {EventId(a.d)} else {}
  {
    if a.Deliver? {
      assert Respond(s, a.d, a.crash) == Duplicate ==> EventId(a.d) in s.events;
    }
  }

  lemma DuplicateDoesNothing(s: State, a: Action)
    requires Genuine(a) && EventId(a.d) in s.events
    ensures Apply(s, a) == s
  {
    assert s.events + {EventId(a.d)} == s.events;
  }

  lemma RunCons(s: State, a: Action, rest: seq<Action>)
    ensures Run(s, [a] + rest) == Run(Apply(s, a), rest)
  {
    assert ([a] + rest)[1..] == rest;
  }

  /** Any sequence of deliveries, repeated as often as the gateway likes and mixed with anything
      else, leaves everything as if only the first delivery of each event id had arrived. */
  lemma {:induction false} OnlyFirstDeliveriesCount(s: State, acts: seq<Action>)
    ensures Run(s, acts) == Run(s, FirstOnly(acts, s.events))
    decreases |acts|
  {
    if acts != [] {
      var a, rest := acts[0], acts[1..];
      hide Apply, EventId;
      EventsGrow(s, a);
      OnlyFirstDeliveriesCount(Apply(s, a), rest);
      if Genuine(a) && EventId(a.d) in s.events {
        DuplicateDoesNothing(s, a);
      } else {
        RunCons(s, a, FirstOnly(rest, Apply(s, a).events));
      }
    }
  }

  // ---------------------------------------------------------------- one confirmation, for good

  /** Deliveries answered `confirmed` for a booking. */
  function Confirmations(s: State, acts: seq<Action>, bid: Id): nat
    decreases |acts|
  {
    if acts == [] then 0
    else
      var a := acts[0];
      var hit := a.Deliver? && Respond(s, a.d, a.crash) == Confirmed && s.orders[a.d.order.value] == bid;
      (if hit then 1 else 0) + Confirmations(Apply(s, a), acts[1..], bid)
  }

  predicate IsConfirmed(s: State, bid: Id) { bid in s.bookings && s.bookings[bid].status == CONFIRMED }

  /** CONFIRMED and EXPIRED rows are never written again: a confirmed booking keeps its first
      payment id, whatever events arrive later, under whatever ids. */
  lemma {:induction false} ConfirmedAndExpiredAreFinal(s: State, acts: seq<Action>, bid: Id)
    requires bid in s.bookings && (s.bookings[bid].status == CONFIRMED || s.bookings[bid].status == EXPIRED)
    ensures bid in Run(s, acts).bookings && Run(s, acts).bookings[bid] == s.bookings[bid]
    decreases |acts|
  {
    if acts != [] {
      var next := Apply(s, acts[0]);
      assert bid in next.bookings && next.bookings[bid] == s.bookings[bid];
      ConfirmedAndExpiredAreFinal(next, acts[1..], bid);
    }
  }

  lemma ConfirmedOnce(s: State, a: Action, bid: Id)
    ensures var hit := a.Deliver? && Respond(s, a.d, a.crash) == Confirmed && s.orders[a.d.order.value] == bid;
            (hit ==> !IsConfirmed(s, bid)) && IsConfirmed(Apply(s, a), bid) == (IsConfirmed(s, bid) || hit)
  {}

  /** A booking is confirmed at most once, and exactly once if it ends up CONFIRMED. */
  lemma {:induction false} ConfirmedAtMostOnce(s: State, acts: seq<Action>, bid: Id)
    ensures Confirmations(s, acts, bid) == if !IsConfirmed(s, bid) && IsConfirmed(Run(s, acts), bid) then 1 else 0
    decreases |acts|
  {
    hide Apply, Respond;
    if acts != [] {
      ConfirmedOnce(s, acts[0], bid);
      ConfirmedAtMostOnce(Apply(s, acts[0]), acts[1..], bid);
      if IsConfirmed(Apply(s, acts[0]), bid) {
        ConfirmedAndExpiredAreFinal(Apply(s, acts[0]), acts[1..], bid);
      }
    }
  }

  /** Payment ids and confirmations go together, and no payment confirms two bookings. */
  ghost predicate PaymentsFine(s: State) {
    && (forall b | b in s.bookings :: s.bookings[b].payment.Some? <==> s.bookings[b].status == CONFIRMED)
    && (forall b, c | b in s.bookings && c in s.bookings && b != c && s.bookings[b].payment.Some? :: s.bookings[b].payment != s.bookings[c].payment)
  }

  lemma StepKeepsPayments(s: State, a: Action)
    requires PaymentsFine(s)
    ensures PaymentsFine(Apply(s, a))
  {}

  lemma {:induction false} EachPaymentConfirmsOneBooking(s: State, acts: seq<Action>)
    requires PaymentsFine(s)
    ensures PaymentsFine(Run(s, acts))
    decreases |acts|
  {
    hide PaymentsFine, Apply;
    if acts != [] {
      StepKeepsPayments(s, acts[0]);
      EachPaymentConfirmsOneBooking(Apply(s, acts[0]), acts[1..]);
    }
  }

  /** The event is stored before the booking is written, and not with it: a delivery that fails in
      between is taken for a duplicate when it is retried, for ever, and never confirms. */
  lemma RetryAfterFailureIsLost(s: State, d: Delivery, crash: bool, acts: seq<Action>, again: bool)
    requires d.signed && d.valid && EventId(d) !in s.events && Truthy(d.order) && Truthy(d.payment)
    requires d.order.value in s.orders && s.orders[d.order.value] in s.bookings
    requires s.bookings[s.orders[d.order.value]].status == PENDING
    requires crash || !PaymentFree(s, s.orders[d.order.value], d.payment)
    ensures Respond(s, d, crash) == Threw && Apply(s, Deliver(d, crash)).bookings == s.bookings
    ensures Respond(Run(Apply(s, Deliver(d, crash)), acts), d, again) == Duplicate
  {
    EventsStay(Apply(s, Deliver(d, crash)), acts, EventId(d));
  }

  lemma {:induction false} EventsStay(s: State, acts: seq<Action>, event: string)
    requires event in s.events
    ensures event in Run(s, acts).events
    decreases |acts|
  {
    hide Apply, EventId;
    if acts != [] {
      EventsGrow(s, acts[0]);
      EventsStay(Apply(s, acts[0]), acts[1..], event);
    }
  }

  // ---------------------------------------------------------------- the service

  class BookingTables {
    var events: set<string>
    var orders: map<Id, Id>
    var bookings: map<Id, Booking>

    ghost function Tables(): State
      reads this
    {
      State(events, orders, bookings)
    }

    constructor ()
      ensures Tables() == State({}, map[], map[])
    {
      events, orders, bookings := {}, map[], map[];
    }

    /** An event is answered and stored once; a booking is written only when it is PENDING, the
        event is new and genuine and names its order, and the payment id is nobody else's. */
    method ProcessPaymentWebhook(d: Delivery, crash: bool) returns (answer: Answer)
      modifies this
      ensures answer == old(Respond(Tables(), d, crash))
      ensures Tables() == Apply(old(Tables()), Deliver(d, crash))
      ensures answer == Unauthorized <==> !d.signed || !d.valid
      ensures answer == Unauthorized ==> events == old(events)
      ensures answer != Unauthorized ==>
        var what, which := if Truthy(d.event) then d.event.value else "unknown", if Truthy(d.payment) then d.payment.value else d.random;
        var id := if Truthy(d.header) then d.header.value else what + ":" + which;
        (answer == Duplicate <==> id in old(events)) && events == old(events) + {id}
      ensures answer !in {Unauthorized, Duplicate} ==>
        var named := Truthy(d.order) && Truthy(d.payment);
        var found := named && d.order.value in old(orders) && old(orders)[d.order.value] in old(bookings);
        && (answer == Ignored <==> !named)
        && (answer == BookingNotFound <==> named && !found)
        && (found ==>
              var bid := old(orders)[d.order.value];
              var taken := exists b | b in old(bookings) :: b != bid && old(bookings)[b].payment == d.payment;
              && (answer == AlreadyConfirmed <==> old(bookings)[bid].status == CONFIRMED)
              && (answer == NotPending <==> old(bookings)[bid].status !in {PENDING, CONFIRMED})
              && (answer == Threw <==> old(bookings)[bid].status == PENDING && (crash || taken))
              && (answer == Confirmed <==> old(bookings)[bid].status == PENDING && !crash && !taken))
      ensures orders == old(orders) && (answer != Confirmed ==> bookings == old(bookings))
      ensures answer == Confirmed ==>
        var bid := orders[d.order.value];
        bid in old(bookings) && old(bookings)[bid].status == PENDING && bookings == old(bookings)[bid := Booking(CONFIRMED, old(bookings)[bid].expires, d.payment)]
    {
      if !d.signed { return Unauthorized; }
      if !d.valid { return Unauthorized; }
      var eventId := EventId(d);
      if eventId in events {
        DuplicateDoesNothing(Tables(), Deliver(d, crash));
        return Duplicate;
      }
      events := events + {eventId};
      if !Truthy(d.order) || !Truthy(d.payment) { return Ignored; }
      if d.order.value !in orders || orders[d.order.value] !in bookings { return BookingNotFound; }
      var bid := orders[d.order.value];
      var booking := bookings[bid];
      if booking.status == CONFIRMED { return AlreadyConfirmed; }
      if booking.status != PENDING { return NotPending; }
      if crash || exists b | b in bookings :: b != bid && bookings[b].payment == d.payment { return Threw; }
      bookings := bookings[bid := booking.(status := CONFIRMED, payment := d.payment)];
      return Confirmed;
    }

    method ExpirePendingBooking(bid: Id, now: int)
      modifies this`bookings
      ensures Tables() == Apply(old(Tables()), Expire(bid, now))
      ensures bid in old(bookings) && old(bookings)[bid].status == PENDING && old(bookings)[bid].expires <= now ==>
        bookings == old(bookings)[bid := old(bookings)[bid].(status := EXPIRED)]
      ensures !(bid in old(bookings) && old(bookings)[bid].status == PENDING && old(bookings)[bid].expires <= now) ==> bookings == old(bookings)
    {
      if bid !in bookings { return; }
      if bookings[bid].status != PENDING { return; }
      if bookings[bid].expires > now { return; }
      bookings := bookings[bid := bookings[bid].(status := EXPIRED)];
    }
  }
}
