/** The seat map of an event, read from one snapshot, and what it promises: a seat shown as
    AVAILABLE is one the reservation protocol would let anybody lock and book. */
module SeatMap {
  import opened Outcomes
  import opened Sequences
  import opened BookingStatuses
  import opened SeatReservation
  import opened ReservationService

  // ---------------------------------------------------------------- the text of a lock key

  const PREFIX := "seat-lock:"

  function EventPrefix(tenant: Id, event: Id): string { PREFIX + (tenant + ":" + (event + ":")) }

  /** `getLockKey`. */
  function KeyText(k: LockKey): string { PREFIX + (k.tenant + ":" + (k.event + ":" + k.seat)) }

  /** The ids in front of a colon contain none; the seat's may. */
  predicate Plain(k: LockKey) { ':' !in k.tenant && ':' !in k.event }

  lemma {:induction false} FirstColon(a: string, x: string, b: string, y: string)
    requires ':' !in a && ':' !in b && a + ":" + x == b + ":" + y
    ensures a == b && x == y
  {
    var left, right := a + ":" + x, b + ":" + y;
    if a == "" || b == "" {
      assert left[0] == right[0];
      assert a == "" && b == "";
      assert left[1..] == x && right[1..] == y;
    } else {
      assert left[0] == a[0] && right[0] == b[0];
      assert left[1..] == a[1..] + ":" + x && right[1..] == b[1..] + ":" + y;
      FirstColon(a[1..], x, b[1..], y);
      assert a == [a[0]] + a[1..] && b == [b[0]] + b[1..];
    }
  }

  lemma PrefixDrops(x: string, y: string)
    requires PREFIX + x == PREFIX + y
    ensures x == y
  {
    assert (PREFIX + x)[|PREFIX|..] == x && (PREFIX + y)[|PREFIX|..] == y;
  }

  lemma KeyTextIsInjective(k: LockKey, l: LockKey)
    requires Plain(k) && Plain(l) && KeyText(k) == KeyText(l)
    ensures k == l
  {
    PrefixDrops(k.tenant + ":" + (k.event + ":" + k.seat), l.tenant + ":" + (l.event + ":" + l.seat));
    FirstColon(k.tenant, k.event + ":" + k.seat, l.tenant, l.event + ":" + l.seat);
    FirstColon(k.event, k.seat, l.event, l.seat);
  }

  /** The scan of one event's keys finds the keys of that event and no others. */
  lemma PrefixScanIsExact(k: LockKey, tenant: Id, event: Id)
    requires Plain(k) && ':' !in tenant && ':' !in event
    ensures EventPrefix(tenant, event) <= KeyText(k) <==> k.tenant == tenant && k.event == event
  {
    var p := EventPrefix(tenant, event);
    if k.tenant == tenant && k.event == event {
      assert KeyText(k) == p + k.seat;
    }
    if p <= KeyText(k) {
      var rest := KeyText(k)[|p|..];
      assert KeyText(k) == p + rest;
      assert p + rest == PREFIX + (tenant + ":" + (event + ":" + rest));
      KeyTextIsInjective(k, LockKey(tenant, event, rest));
    }
  }

  /** With a colon in a tenant or event name two locks can share a key. */
  lemma ColonsCollide()
    ensures KeyText(LockKey("a:b", "c", "x")) == KeyText(LockKey("a", "b:c", "x"))
  {
    assert "a:b" + ":" + ("c" + ":" + "x") == "a" + ":" + ("b:c" + ":" + "x");
  }

  // ---------------------------------------------------------------- the lock store behind its keys

  datatype LockText = LockText(seat: Id, user: Id, expires: int)

  /** Redis holds one entry per lock, under the lock's key. */
  ghost predicate Represents(redis: map<string, LockText>, locks: map<LockKey, SeatLock>) {
    && (forall k | k in locks :: Plain(k) && KeyText(k) in redis && redis[KeyText(k)] == LockText(k.seat, locks[k].user, locks[k].expires))
    && (forall text | text in redis :: exists k :: k in locks && KeyText(k) == text)
  }

  /** Writing and deleting by key text is writing and deleting the lock. */
  lemma StoreByKeyText(redis: map<string, LockText>, locks: map<LockKey, SeatLock>, k: LockKey, lock: SeatLock)
    requires Represents(redis, locks) && Plain(k)
    ensures Represents(redis[KeyText(k) := LockText(k.seat, lock.user, lock.expires)], locks[k := lock])
    ensures Represents(redis - {KeyText(k)}, locks - {k})
  {
    hide KeyText, Plain;
    forall l | l in locks && KeyText(l) == KeyText(k) ensures l == k {
      KeyTextIsInjective(l, k);
    }
    var put, added := redis[KeyText(k) := LockText(k.seat, lock.user, lock.expires)], locks[k := lock];
    forall text | text in put ensures exists l :: l in added && KeyText(l) == text {
      if text == KeyText(k) {
        assert k in added;
      } else {
        var l :| l in locks && KeyText(l) == text;
        assert l in added;
      }
    }
    forall text | text in redis - {KeyText(k)} ensures exists l :: l in locks - {k} && KeyText(l) == text {
      var l :| l in locks && KeyText(l) == text;
      assert l in locks - {k};
    }
  }

  // ---------------------------------------------------------------- what the map shows

  datatype SeatStatus = BOOKED | PENDING_PAYMENT | LOCKED_BY_ME | LOCKED | AVAILABLE
  datatype SeatView = SeatView(seat: Id, status: SeatStatus, mine: bool)

  /** A live booking of the seat, in this event. */
  predicate Holds(s: State, tenant: Id, event: Id, seat: Id, b: Id) {
    && b in s.bookings && s.bookings[b].tenant == tenant && s.bookings[b].event == event
    && seat in s.bookings[b].seats && Live(s.bookings[b], s.clock)
  }

  predicate Busy(s: State, tenant: Id, event: Id, seat: Id) { exists b | b in s.bookings :: Holds(s, tenant, event, seat, b) }

  /** The entry is that of this live booking of the seat. */
  predicate ShowsBooking(s: State, tenant: Id, event: Id, user: Option<Id>, v: SeatView, b: Id) {
    && Holds(s, tenant, event, v.seat, b)
    && v.status == (if s.bookings[b].status == CONFIRMED then BOOKED else PENDING_PAYMENT)
    && v.mine == (Some(s.bookings[b].user) == user)
  }

  /** The entry of one seat tells the truth about the snapshot. */
  ghost predicate Shows(s: State, tenant: Id, event: Id, user: Option<Id>, v: SeatView) {
    var key := LockKey(tenant, event, v.seat);
    var byMe := user.Some? && LockedBy(s, key, user.value);
    if Busy(s, tenant, event, v.seat) then exists b :: ShowsBooking(s, tenant, event, user, v, b)
    else v.mine == byMe && v.status == if byMe then LOCKED_BY_ME else if LiveLock(s, key) then LOCKED else AVAILABLE
  }

  lemma BusyIsConflict(s: State, tenant: Id, event: Id, seat: Id)
    ensures Busy(s, tenant, event, seat) <==> Conflict(s, tenant, event, {seat}, s.clock)
  {
    forall b | b in s.bookings ensures s.bookings[b].seats * {seat} != {} <==> seat in s.bookings[b].seats {
      assert seat in s.bookings[b].seats ==> seat in s.bookings[b].seats * {seat};
    }
    if Busy(s, tenant, event, seat) {
      var b :| b in s.bookings && Holds(s, tenant, event, seat, b);
      assert s.bookings[b].seats * {seat} != {};
    }
    if Conflict(s, tenant, event, {seat}, s.clock) {
      var b :| b in s.bookings && s.bookings[b].tenant == tenant && s.bookings[b].event == event
               && s.bookings[b].seats * {seat} != {} && Live(s.bookings[b], s.clock);
      assert Holds(s, tenant, event, seat, b);
    }
  }

  /** A lock by this user would be granted, and a booking made at once would pass every check. */
  predicate LockThenBook(c: Config, s: State, tenant: Id, event: Id, seat: Id, user: Id, token: Id) {
    && !LiveLock(s, LockKey(tenant, event, seat))
    && Accepted(c, Apply(c, s, LockSeat(LockKey(tenant, event, seat), user, token)), tenant, event, user, {seat})
  }

  /** The seat map agrees with the protocol: AVAILABLE is shown exactly when any user at all could
      lock the seat and book it; LOCKED_BY_ME exactly when this user could book it as it stands. */
  lemma MapAgreesWithProtocol(c: Config, s: State, tenant: Id, event: Id, me: Id, v: SeatView, anybody: Id, token: Id)
    requires c.lockTtl > 0 && OnSale(c, tenant, event, {v.seat}) && Shows(s, tenant, event, Some(me), v)
    ensures v.status == AVAILABLE <==> LockThenBook(c, s, tenant, event, v.seat, anybody, token)
    ensures v.status == LOCKED_BY_ME <==> Accepted(c, s, tenant, event, me, {v.seat})
  {
    hide Conflict;
    var key := LockKey(tenant, event, v.seat);
    BusyIsConflict(s, tenant, event, v.seat);
    BusyOrNot(s, tenant, event, Some(me), v);
    LockKeepsConflict(c, s, key, anybody, token);
  }

  lemma BusyOrNot(s: State, tenant: Id, event: Id, user: Option<Id>, v: SeatView)
    requires Shows(s, tenant, event, user, v)
    ensures Busy(s, tenant, event, v.seat) ==> v.status == BOOKED || v.status == PENDING_PAYMENT
  {}

  /** In a snapshot without double bookings, the one booking of the seat is the one shown. */
  lemma ShowsTheOneBooking(s: State, tenant: Id, event: Id, user: Option<Id>, v: SeatView, b: Id)
    requires NoDoubleBooking(s) && Shows(s, tenant, event, user, v) && Holds(s, tenant, event, v.seat, b)
    ensures ShowsBooking(s, tenant, event, user, v, b)
  {
    var d :| ShowsBooking(s, tenant, event, user, v, d);
    OneHolder(s, tenant, event, v.seat, b, d);
  }

  lemma LockKeepsConflict(c: Config, s: State, key: LockKey, user: Id, token: Id)
    ensures var t := Apply(c, s, LockSeat(key, user, token));
            t.clock == s.clock && Conflict(t, key.tenant, key.event, {key.seat}, s.clock) == Conflict(s, key.tenant, key.event, {key.seat}, s.clock)
  {}

  // ---------------------------------------------------------------- reading the map

  function SeatsOfEvent(c: Config, event: Id): set<Id> { set x | x in c.seatEvent && c.seatEvent[x] == event }

  /** The lock list of one event: `KEYS prefix*`, then `MGET`, where lapsed keys come back empty. */
  method GetLocksForEvent(ghost s: State, redis: map<string, LockText>, clock: int, tenant: Id, event: Id) returns (locks: map<Id, Id>)
    requires Represents(redis, s.locks) && ':' !in tenant && ':' !in event && clock == s.clock
    ensures forall x :: x in locks <==> LiveLock(s, LockKey(tenant, event, x))
    ensures forall x | x in locks :: LiveLock(s, LockKey(tenant, event, x)) && locks[x] == s.locks[LockKey(tenant, event, x)].user
  {
    locks := map[];
    var keys := set text | text in redis && EventPrefix(tenant, event) <= text;
    ghost var all := keys;
    hide EventPrefix, KeyText, Plain;
    while keys != {}
      invariant keys <= all
      invariant forall x :: x in locks <==> LiveLock(s, LockKey(tenant, event, x)) && KeyText(LockKey(tenant, event, x)) in all - keys
      invariant forall x | x in locks :: LiveLock(s, LockKey(tenant, event, x)) && locks[x] == s.locks[LockKey(tenant, event, x)].user
      decreases keys
    {
      var text :| text in keys;
      var value := redis[text];
      ghost var k :| k in s.locks && KeyText(k) == text;
      PrefixScanIsExact(k, tenant, event);
      assert k == LockKey(tenant, event, value.seat);
      forall x | LockKey(tenant, event, x) in s.locks && KeyText(LockKey(tenant, event, x)) == text ensures x == value.seat {
        KeyTextIsInjective(LockKey(tenant, event, x), k);
      }
      keys := keys - {text};
      if value.expires > clock { locks := locks[value.seat := value.user]; }
    }
    forall x | LiveLock(s, LockKey(tenant, event, x)) ensures KeyText(LockKey(tenant, event, x)) in all {
      PrefixScanIsExact(LockKey(tenant, event, x), tenant, event);
    }
  }

  datatype Busyness = Busyness(status: BookingStatus, user: Id)

  predicate HeldBy(s: State, tenant: Id, event: Id, seat: Id, b: Id, who: Busyness) {
    Holds(s, tenant, event, seat, b) && who == Busyness(s.bookings[b].status, s.bookings[b].user)
  }

  /** The busy rows, gathered into a map in whatever order the database lists the bookings. */
  method BusySeats(s: State, order: seq<Id>, seats: set<Id>, tenant: Id, event: Id) returns (busy: map<Id, Busyness>)
    requires SetOf(order) == s.bookings.Keys
    ensures forall x :: x in busy <==> x in seats && Busy(s, tenant, event, x)
    ensures forall x | x in busy :: exists b :: HeldBy(s, tenant, event, x, b, busy[x])
  {
    busy := map[];
    hide Live;
    for i := 0 to |order|
      invariant forall x :: x in busy <==> x in seats && exists j | 0 <= j < i :: Holds(s, tenant, event, x, order[j])
      invariant forall x | x in busy :: exists b :: HeldBy(s, tenant, event, x, b, busy[x])
    {
      var id := order[i];
      assert id in SetOf(order);
      var b := s.bookings[id];
      ghost var before := busy;
      if b.tenant == tenant && b.event == event && Live(b, s.clock) {
        busy := busy + map x | x in b.seats && x in seats :: Busyness(b.status, b.user);
        forall x | x in busy ensures exists h :: HeldBy(s, tenant, event, x, h, busy[x]) {
          if x in b.seats && x in seats {
            assert HeldBy(s, tenant, event, x, id, busy[x]);
          } else {
            assert x in before && busy[x] == before[x];
          }
        }
      }
      assert forall x :: Holds(s, tenant, event, x, id) <==> b.tenant == tenant && b.event == event && Live(b, s.clock) && x in b.seats;
    }
    forall x ensures Busy(s, tenant, event, x) <==> exists j | 0 <= j < |order| :: Holds(s, tenant, event, x, order[j]) {
      if Busy(s, tenant, event, x) {
        var b :| b in s.bookings && Holds(s, tenant, event, x, b);
        assert b in SetOf(order);
      }
    }
  }

  lemma OneHolder(s: State, tenant: Id, event: Id, seat: Id, b: Id, d: Id)
    requires NoDoubleBooking(s) && Holds(s, tenant, event, seat, b) && Holds(s, tenant, event, seat, d)
    ensures b == d
  {
    assert seat in s.bookings[b].seats * s.bookings[d].seats;
  }

  /** Each seat of the event once, in the listed order, each entry true of the snapshot.
      `order` is the order the database happens to list its bookings in: it does not matter. */
  method GetSeatMap(c: Config, s: State, redis: map<string, LockText>, seats: seq<Id>, order: seq<Id>, tenant: Id, event: Id, user: Option<Id>)
    returns (r: Option<seq<SeatView>>)
    requires Represents(redis, s.locks) && ':' !in tenant && ':' !in event
    requires Distinct(seats) && SetOf(seats) == SeatsOfEvent(c, event) && SetOf(order) == s.bookings.Keys
    ensures r.None? <==> !(event in c.eventTenant && c.eventTenant[event] == tenant)
    ensures r.Some? ==> |r.value| == |seats| && forall i | 0 <= i < |seats| :: r.value[i].seat == seats[i]
    ensures r.Some? ==> forall i | 0 <= i < |seats| :: Shows(s, tenant, event, user, r.value[i])
    ensures r.Some? ==> forall x | x in SeatsOfEvent(c, event) :: exists i | 0 <= i < |seats| :: r.value[i].seat == x
  {
    hide HeldBy, Busy, Represents, Shows, Distinct;
    if event !in c.eventTenant || c.eventTenant[event] != tenant { return None; }
    var busy := BusySeats(s, order, SetOf(seats), tenant, event);
    var locks := GetLocksForEvent(s, redis, s.clock, tenant, event);
    var views: seq<SeatView> := [];
    for i := 0 to |seats|
      invariant |views| == i && forall j | 0 <= j < i :: views[j].seat == seats[j] && Shows(s, tenant, event, user, views[j])
    {
      var seat := seats[i];
      assert seat in SetOf(seats);
      var view;
      if seat in busy {
        view := SeatView(seat, if busy[seat].status == CONFIRMED then BOOKED else PENDING_PAYMENT, Some(busy[seat].user) == user);
        ghost var b :| HeldBy(s, tenant, event, seat, b, busy[seat]);
        BusyShows(s, tenant, event, user, view, b, busy[seat]);
      } else {
        if seat in locks {
          view := SeatView(seat, if Some(locks[seat]) == user then LOCKED_BY_ME else LOCKED, Some(locks[seat]) == user);
        } else {
          view := SeatView(seat, AVAILABLE, false);
        }
        FreeShows(s, tenant, event, user, view);
      }
      views := views + [view];
    }
    forall x | x in SeatsOfEvent(c, event) ensures exists i | 0 <= i < |seats| :: views[i].seat == x {
      assert x in SetOf(seats);
      var i :| 0 <= i < |seats| && seats[i] == x;
      assert views[i].seat == x;
    }
    return Some(views);
  }

  lemma BusyShows(s: State, tenant: Id, event: Id, user: Option<Id>, v: SeatView, b: Id, who: Busyness)
    requires HeldBy(s, tenant, event, v.seat, b, who)
    requires v.status == (if who.status == CONFIRMED then BOOKED else PENDING_PAYMENT) && v.mine == (Some(who.user) == user)
    ensures Shows(s, tenant, event, user, v)
  {
    assert ShowsBooking(s, tenant, event, user, v, b);
  }

  lemma FreeShows(s: State, tenant: Id, event: Id, user: Option<Id>, v: SeatView)
    requires !Busy(s, tenant, event, v.seat)
    requires var key := LockKey(tenant, event, v.seat);
             var byMe := user.Some? && LockedBy(s, key, user.value);
             v.mine == byMe && v.status == if byMe then LOCKED_BY_ME else if LiveLock(s, key) then LOCKED else AVAILABLE
    ensures Shows(s, tenant, event, user, v)
  {}
}
