/** Coupon and gift-card arithmetic, and what is charged after it.  Booking totals are whole paise;
    coupon values, caps and gift-card balances are exact decimals, here reals, in paise. */
module Discount {
  import opened Lifecycle
  import opened Outcomes

  type Id = string

  datatype Booking = Booking(
    status: Status, total: int, ordered: bool,            // ordered: an order id or time is set
    couponId: Option<Id>, giftCardId: Option<Id>,
    couponPart: int, giftPart: int, discount: int, final: int)

  datatype Coupon = Coupon(
    id: Id, active: bool, expires: Option<int>, usageLimit: Option<int>, usageCount: int,
    minOrder: real, percentage: bool, value: real, cap: Option<real>)

  datatype GiftCard = GiftCard(id: Id, active: bool, expires: Option<int>, balance: real)

  datatype Breakdown = Breakdown(total: int, couponPart: int, giftPart: int, discount: int, final: int)

  datatype Refusal =
    | BookingNotFound | NotLocked | OrderExists | CouponAlreadyApplied | GiftCardAlreadyApplied
    | CouponNotFound | CouponInactive | CouponExpired | CouponUsedUp | BelowMinimum
    | GiftCardNotFound | GiftCardInactive | GiftCardExpired | GiftCardEmpty

  function Min(x: real, y: real): real { if x <= y then x else y }

  /** `toDecimalPlaces(2)` on an amount in paise: nearest, halves away from zero. */
  function Round(x: real): int { if x >= 0.0 then (x + 0.5).Floor else -((0.5 - x).Floor) }

  /** What the coupon is worth before rounding. */
  function Worth(total: int, c: Coupon): real {
    if c.percentage then
      var raw := total as real * c.value / 100.0;
      if c.cap.Some? then Min(raw, c.cap.value) else raw
    else Min(c.value, total as real)
  }

  // ---------------------------------------------------------------- rounding

  lemma RoundIsNearest(x: real)
    ensures -0.5 <= Round(x) as real - x <= 0.5
  {}

  lemma RoundOfWhole(n: int)
    ensures Round(n as real) == n
  {}

  lemma RoundIsMonotone(x: real, y: real)
    requires x <= y
    ensures Round(x) <= Round(y)
  {}

  /** Which exact amounts round into 0..total. */
  lemma RoundsInto(x: real, total: int)
    requires total >= 0
    ensures 0 <= Round(x) <= total <==> -0.5 < x < total as real + 0.5
  {}

  /** The whole number nearest to x, the one away from zero when two are. */
  predicate Nearest(n: int, x: real) {
    -0.5 <= n as real - x <= 0.5 && (x >= 0.0 ==> n as real - x != -0.5) && (x < 0.0 ==> n as real - x != 0.5)
  }

  lemma RoundIsTheNearest(x: real, n: int)
    ensures Nearest(n, x) <==> n == Round(x)
  {}

  // ---------------------------------------------------------------- the computation

  /** What a coupon takes off a total: a fixed one its value, or the whole total when it is worth
      more; a percentage its share of the total, or its cap when the share is above it. */
  predicate CouponTakes(total: int, c: Coupon, amount: int) {
    var share := total as real * c.value / 100.0;
    if !c.percentage then
      if c.value < total as real then Nearest(amount, c.value) else amount == total
    else if c.cap.Some? && c.cap.value < share then Nearest(amount, c.cap.value)
    else Nearest(amount, share)
  }

  /** What a gift card pays: all that is left when the balance covers it, else the balance. */
  predicate GiftCardPays(running: int, g: GiftCard, amount: int) {
    if g.balance >= running as real then amount == running else Nearest(amount, g.balance)
  }

  function CouponPart(total: int, c: Option<Coupon>): int { if c.Some? then Round(Worth(total, c.value)) else 0 }

  function GiftPart(running: int, g: Option<GiftCard>): int { if g.Some? then Round(Min(g.value.balance, running as real)) else 0 }

  function Compute(total: int, c: Option<Coupon>, g: Option<GiftCard>): Breakdown {
    var coupon := CouponPart(total, c);
    var gift := GiftPart(total - coupon, g);
    var running := total - coupon - gift;
    Breakdown(total, coupon, gift, coupon + gift, if running > 0 then running else 0)
  }

  /** Nothing negative, and coupon, gift card and remainder make up the total. */
  predicate Conserves(b: Breakdown) {
    b.couponPart >= 0 && b.giftPart >= 0 && b.final >= 0 && b.couponPart + b.giftPart + b.final == b.total
  }

  /** What `createRazorpayOrder` charges. */
  function Charged(b: Breakdown): int { if b.discount > 0 then b.final else b.total }

  /** The gift card pays no more than is left to pay, nor less than nothing, when something is left. */
  lemma GiftPartFits(running: int, g: Option<GiftCard>)
    requires g.Some? ==> g.value.balance > 0.0
    ensures running >= 0 ==> 0 <= GiftPart(running, g) <= running
    ensures running < 0 && g.Some? ==> GiftPart(running, g) == running
  {
    if g.Some? {
      var x := Min(g.value.balance, running as real);
      RoundOfWhole(running);
      RoundOfWhole(0);
      RoundIsMonotone(x, running as real);
      if running >= 0 { RoundIsMonotone(0.0, x); }
    }
  }

  /** The books balance exactly when the rounded coupon lies between nothing and the total. */
  lemma ConservesExactlyWhenInRange(total: int, c: Option<Coupon>, g: Option<GiftCard>)
    requires total >= 0 && (g.Some? ==> g.value.balance > 0.0)
    ensures Conserves(Compute(total, c, g)) <==> 0 <= CouponPart(total, c) <= total
  {
    hide Round, Worth, GiftPart, CouponPart;
    GiftPartFits(total - CouponPart(total, c), g);
  }

  /** In terms of what the coupon says: its worth before rounding must be above minus half a
      paisa and less than half a paisa above the total. */
  lemma ConservesExactlyWhenWorth(total: int, c: Coupon, g: Option<GiftCard>)
    requires total >= 0 && (g.Some? ==> g.value.balance > 0.0)
    ensures Conserves(Compute(total, Some(c), g)) <==> -0.5 < Worth(total, c) < total as real + 0.5
  {
    hide Round, Worth, GiftPart;
    ConservesExactlyWhenInRange(total, Some(c), g);
    RoundsInto(Worth(total, c), total);
  }

  /** A fixed coupon always fits; a percentage fits up to 100, or under a cap within the total. */
  lemma OrdinaryCouponsFit(total: int, c: Coupon)
    requires total >= 0 && c.value >= 0.0
    requires c.percentage ==> c.value <= 100.0 || (c.cap.Some? && c.cap.value <= total as real)
    requires c.percentage && c.cap.Some? ==> c.cap.value >= 0.0
    ensures 0.0 <= Worth(total, c) <= total as real
  {
    if c.percentage {
      var t := total as real;
      assert t * c.value >= 0.0;
      if c.value <= 100.0 {
        assert t * (100.0 - c.value) >= 0.0;
        assert t * c.value <= t * 100.0;
      }
    }
  }

  /** The main result for ordinary coupons: conservation, half a paisa of rounding at most, and the
      charge and the discount add up to the total. */
  lemma DiscountsConserve(total: int, c: Option<Coupon>, g: Option<GiftCard>)
    requires total >= 0 && (g.Some? ==> g.value.balance > 0.0)
    requires c.Some? ==> -0.5 < Worth(total, c.value) < total as real + 0.5
    ensures var b := Compute(total, c, g);
            Conserves(b) && b.discount + Charged(b) == total
            && (c.Some? ==> -0.5 <= b.couponPart as real - Worth(total, c.value) <= 0.5)
  {
    hide Round, Worth, GiftPart;
    if c.Some? {
      ConservesExactlyWhenWorth(total, c.value, g);
      RoundIsNearest(Worth(total, c.value));
    } else {
      ConservesExactlyWhenInRange(total, c, g);
    }
  }

  /** The gift card is never overdrawn, exactly when the part taken is not a rounding-up of the
      whole balance: always for balances in whole paise. */
  lemma GiftCardNotOverdrawnExactlyWhen(running: int, g: GiftCard)
    requires running >= 0 && g.balance > 0.0
    ensures GiftPart(running, Some(g)) as real <= g.balance
       <==> running as real <= g.balance || g.balance - g.balance.Floor as real < 0.5
  {
    hide Round;
    RoundOfWhole(running);
    RoundOfPositive(g.balance);
  }

  lemma RoundOfPositive(x: real)
    requires x >= 0.0
    ensures Round(x) == if x - x.Floor as real < 0.5 then x.Floor else x.Floor + 1
  {}

  /** An uncapped percentage well over 100 breaks the books: nothing to pay, but more discount than
      there was to pay; and a gift card is then credited instead of debited. */
  lemma UncappedPercentageBreaks(total: int, c: Coupon)
    requires total > 0 && c.percentage && c.cap.None? && c.value >= 200.0
    ensures var b := Compute(total, Some(c), None); b.final == 0 && b.discount > total && Charged(b) + b.discount > total
    ensures var b := Compute(total, Some(c), Some(GiftCard("g", true, None, 1.0))); b.giftPart < 0
  {
    var t := total as real;
    assert t * c.value >= t * 200.0;
    assert Worth(total, c) >= t + 1.0;
    RoundIsMonotone(t + 1.0, Worth(total, c));
    RoundOfWhole(total + 1);
    hide Round, Worth;
    GiftPartFits(total - CouponPart(total, Some(c)), Some(GiftCard("g", true, None, 1.0)));
  }

  // ---------------------------------------------------------------- refusals

  function CouponRefusal(c: Option<Coupon>, total: int, now: int): Option<Refusal> {
    if c.None? then Some(CouponNotFound)
    else if !c.value.active then Some(CouponInactive)
    else if c.value.expires.Some? && c.value.expires.value < now then Some(CouponExpired)
    else if c.value.usageLimit.Some? && c.value.usageCount >= c.value.usageLimit.value then Some(CouponUsedUp)
    else if total as real < c.value.minOrder then Some(BelowMinimum)
    else None
  }

  function GiftCardRefusal(g: Option<GiftCard>, now: int): Option<Refusal> {
    if g.None? then Some(GiftCardNotFound)
    else if !g.value.active then Some(GiftCardInactive)
    else if g.value.expires.Some? && g.value.expires.value < now then Some(GiftCardExpired)
    else if g.value.balance <= 0.0 then Some(GiftCardEmpty)
    else None
  }

  function BookingRefusal(b: Option<Booking>, coupon: bool, gift: bool): Option<Refusal> {
    if b.None? then Some(BookingNotFound)
    else if b.value.status != LOCKED then Some(NotLocked)
    else if b.value.ordered then Some(OrderExists)
    else if coupon && b.value.couponId.Some? then Some(CouponAlreadyApplied)
    else if gift && b.value.giftCardId.Some? then Some(GiftCardAlreadyApplied)
    else None
  }

  function Lookup<T>(m: map<string, T>, key: string): Option<T> { if key in m then Some(m[key]) else None }

  // ---------------------------------------------------------------- the service

  class DiscountService {
    var bookings: map<Id, Booking>
    const coupons: map<string, Coupon>
    const giftCards: map<string, GiftCard>

    constructor (bookings: map<Id, Booking>, coupons: map<string, Coupon>, giftCards: map<string, GiftCard>)
      ensures this.bookings == bookings && this.coupons == coupons && this.giftCards == giftCards
    {
      this.bookings, this.coupons, this.giftCards := bookings, coupons, giftCards;
    }

    /** The first refusal in the order the code looks for them. */
    function Refused(id: Id, couponCode: Option<string>, giftCode: Option<string>, now: int): Option<Refusal>
      reads this
    {
      var b := BookingRefusal(Lookup(bookings, id), Truthy(couponCode), Truthy(giftCode));
      if b.Some? then b
      else
        var c := if Truthy(couponCode) then CouponRefusal(Lookup(coupons, couponCode.value), bookings[id].total, now) else None;
        if c.Some? then c
        else if Truthy(giftCode) then GiftCardRefusal(Lookup(giftCards, giftCode.value), now) else None
    }

    function CouponFor(code: Option<string>): Option<Coupon> { if Truthy(code) then Lookup(coupons, code.value) else None }

    function GiftCardFor(code: Option<string>): Option<GiftCard> { if Truthy(code) then Lookup(giftCards, code.value) else None }

    method CheckCoupon(code: string, total: int, now: int) returns (r: Result<Coupon, Refusal>)
      ensures CouponRefusal(Lookup(coupons, code), total, now) == if r.Err? then Some(r.error) else None
      ensures r == Err(CouponNotFound) <==> code !in coupons
      ensures code in coupons ==>
        var c := coupons[code];
        var lapsed := c.expires.Some? && c.expires.value < now;
        var usedUp := c.usageLimit.Some? && c.usageCount >= c.usageLimit.value;
        && (r == Err(CouponInactive) <==> !c.active)
        && (r == Err(CouponExpired) <==> c.active && lapsed)
        && (r == Err(CouponUsedUp) <==> c.active && !lapsed && usedUp)
        && (r == Err(BelowMinimum) <==> c.active && !lapsed && !usedUp && total as real < c.minOrder)
        && (r == Ok(c) <==> c.active && !lapsed && !usedUp && total as real >= c.minOrder)
    {
      if code !in coupons { return Err(CouponNotFound); }
      var coupon := coupons[code];
      if !coupon.active { return Err(CouponInactive); }
      if coupon.expires.Some? && coupon.expires.value < now { return Err(CouponExpired); }
      if coupon.usageLimit.Some? && coupon.usageCount >= coupon.usageLimit.value { return Err(CouponUsedUp); }
      if total as real < coupon.minOrder { return Err(BelowMinimum); }
      return Ok(coupon);
    }

    method CheckGiftCard(code: string, now: int) returns (r: Result<GiftCard, Refusal>)
      ensures GiftCardRefusal(Lookup(giftCards, code), now) == if r.Err? then Some(r.error) else None
      ensures r == Err(GiftCardNotFound) <==> code !in giftCards
      ensures code in giftCards ==>
        var g := giftCards[code];
        var lapsed := g.expires.Some? && g.expires.value < now;
        && (r == Err(GiftCardInactive) <==> !g.active)
        && (r == Err(GiftCardExpired) <==> g.active && lapsed)
        && (r == Err(GiftCardEmpty) <==> g.active && !lapsed && g.balance <= 0.0)
        && (r == Ok(g) <==> g.active && !lapsed && g.balance > 0.0)
    {
      if code !in giftCards { return Err(GiftCardNotFound); }
      var giftCard := giftCards[code];
      if !giftCard.active { return Err(GiftCardInactive); }
      if giftCard.expires.Some? && giftCard.expires.value < now { return Err(GiftCardExpired); }
      if giftCard.balance <= 0.0 { return Err(GiftCardEmpty); }
      return Ok(giftCard);
    }

    /** A refusal leaves every booking alone; otherwise the computed breakdown is stored on this
        booking, whose coupon and gift card can then not be applied a second time. */
    method ApplyDiscounts(id: Id, couponCode: Option<string>, giftCode: Option<string>, now: int) returns (r: Result<Breakdown, Refusal>)
      modifies this
      ensures r.Err? <==> old(Refused(id, couponCode, giftCode, now)).Some?
      ensures r.Err? ==> Some(r.error) == old(Refused(id, couponCode, giftCode, now)) && bookings == old(bookings)
      ensures r == Err(BookingNotFound) <==> id !in old(bookings)
      ensures id in old(bookings) ==>
        var was := old(bookings)[id];
        var twiceCoupon := Truthy(couponCode) && was.couponId.Some?;
        var twiceGift := Truthy(giftCode) && was.giftCardId.Some?;
        && (r == Err(NotLocked) <==> was.status != LOCKED)
        && (r == Err(OrderExists) <==> was.status == LOCKED && was.ordered)
        && (r == Err(CouponAlreadyApplied) <==> was.status == LOCKED && !was.ordered && twiceCoupon)
        && (r == Err(GiftCardAlreadyApplied) <==> was.status == LOCKED && !was.ordered && !twiceCoupon && twiceGift)
      ensures r.Ok? ==> id in old(bookings) && bookings.Keys == old(bookings).Keys && r.value == Compute(old(bookings)[id].total, CouponFor(couponCode), GiftCardFor(giftCode))
      ensures r.Ok? ==> forall i | i in bookings && i != id :: bookings[i] == old(bookings)[i]
      ensures r.Ok? ==> var b, was := bookings[id], old(bookings)[id];
                        b.status == was.status && b.total == was.total && b.ordered == was.ordered
                        && Breakdown(b.total, b.couponPart, b.giftPart, b.discount, b.final) == r.value
      ensures r.Ok? ==>
        var b, was := bookings[id], old(bookings)[id];
        if Truthy(couponCode) then
          couponCode.value in coupons && b.couponId == Some(coupons[couponCode.value].id) && CouponTakes(was.total, coupons[couponCode.value], b.couponPart)
        else b.couponId == was.couponId && b.couponPart == 0
      ensures r.Ok? ==>
        var b, was := bookings[id], old(bookings)[id];
        if Truthy(giftCode) then
          && giftCode.value in giftCards && b.giftCardId == Some(giftCards[giftCode.value].id)
          && GiftCardPays(was.total - b.couponPart, giftCards[giftCode.value], b.giftPart)
        else b.giftCardId == was.giftCardId && b.giftPart == 0
      ensures r.Ok? ==>
        var b := bookings[id];
        b.discount == b.couponPart + b.giftPart && b.final == if b.total > b.discount then b.total - b.discount else 0
      ensures r.Ok? && Truthy(couponCode) ==> Refused(id, couponCode, giftCode, now) == Some(CouponAlreadyApplied)
      ensures r.Ok? && !Truthy(couponCode) && Truthy(giftCode) ==> Refused(id, couponCode, giftCode, now) == Some(GiftCardAlreadyApplied)
    {
      hide CouponPart, GiftPart, CouponRefusal, GiftCardRefusal, CouponTakes, GiftCardPays;
      NothingApplied();
      if id !in bookings { return Err(BookingNotFound); }
      var booking := bookings[id];
      if booking.status != LOCKED { return Err(NotLocked); }
      if booking.ordered { return Err(OrderExists); }
      if Truthy(couponCode) && booking.couponId.Some? { return Err(CouponAlreadyApplied); }
      if Truthy(giftCode) && booking.giftCardId.Some? { return Err(GiftCardAlreadyApplied); }
      var runningTotal, couponPart, giftPart := booking.total, 0, 0;
      if Truthy(couponCode) {
        var checked := CheckCoupon(couponCode.value, booking.total, now);
        if checked.Err? { return Err(checked.error); }
        var coupon := checked.value;
        couponPart := CouponAmount(booking.total, coupon);
        runningTotal := runningTotal - couponPart;
        booking := booking.(couponId := Some(coupon.id));
      }
      if Truthy(giftCode) {
        var checked := CheckGiftCard(giftCode.value, now);
        if checked.Err? { return Err(checked.error); }
        var giftCard := checked.value;
        giftPart := GiftCardAmount(runningTotal, giftCard);
        runningTotal := runningTotal - giftPart;
        booking := booking.(giftCardId := Some(giftCard.id));
      }
      var discount, final := couponPart + giftPart, if runningTotal > 0 then runningTotal else 0;
      bookings := bookings[id := booking.(couponPart := couponPart, giftPart := giftPart, discount := discount, final := final)];
      return Ok(Breakdown(booking.total, couponPart, giftPart, discount, final));
    }
  }

  lemma NothingApplied()
    ensures forall running :: CouponPart(running, None) == 0 && GiftPart(running, None) == 0
  {}

  /** The gift-card branch: never more than the balance or the running total, then rounded. */
  method GiftCardAmount(running: int, g: GiftCard) returns (amount: int)
    ensures amount == GiftPart(running, Some(g))
    ensures GiftCardPays(running, g, amount)
  {
    RoundIsTheNearest(g.balance, Round(g.balance));
    RoundOfWhole(running);
    hide Nearest;
    amount := Round(if g.balance < running as real then g.balance else running as real);
  }

  /** The coupon branch of the computation. */
  method CouponAmount(total: int, c: Coupon) returns (amount: int)
    ensures amount == CouponPart(total, Some(c))
    ensures -0.5 <= amount as real - Worth(total, c) <= 0.5
    ensures CouponTakes(total, c, amount)
  {
    hide Nearest, Round;
    var exact: real;
    if c.percentage {
      exact := total as real * c.value / 100.0;
      if c.cap.Some? && c.cap.value < exact { exact := c.cap.value; }
    } else if c.value < total as real {
      exact := c.value;
    } else {
      exact := total as real;
    }
    amount := Round(exact);
    assert exact == Worth(total, c);
    RoundIsNearest(exact);
    RoundIsTheNearest(exact, amount);
    RoundOfWhole(total);
  }
}
