/** The reservation operations run without interruption: what one call does to the stores, and
    that it is a run of the interleaved protocol of module SeatReservation. */
module ReservationService {
  import opened Outcomes
  import opened BookingStatuses
  import opened SeatReservation
  import opened Sequences

  predicate AllLockedBy(s: State, tenant: Id, event: Id, user: Id, seats: set<Id>) {
    forall x | x in seats :: LockedBy(s, LockKey(tenant, event, x), user)
  }

  /** When an uninterrupted `initiateBooking` goes through. */
  predicate Accepted(c: Config, s: State, tenant: Id, event: Id, user: Id, seats: set<Id>) {
    && OnSale(c, tenant, event, seats)
    && AllLockedBy(s, tenant, event, user, seats)
    && !Conflict(s, tenant, event, seats, s.clock)
  }

  function KeysOf(tenant: Id, event: Id, seats: set<Id>): set<LockKey> {
    set x | x in seats :: LockKey(tenant, event, x)
  }

  function LiveKeysOf(s: State, tenant: Id, event: Id, seats: set<Id>): set<LockKey> {
    set x | x in seats && LiveLock(s, LockKey(tenant, event, x)) :: LockKey(tenant, event, x)
  }

  /** The stores after an accepted booking: one more PENDING booking, its seat locks gone. */
  function Booked(c: Config, s: State, tenant: Id, event: Id, user: Id, seats: set<Id>, bid: Id): State {
    s.(bookings := s.bookings[bid := Booking(tenant, event, user, seats, PENDING, s.clock + c.bookingTtl)],
       locks := s.locks - KeysOf(tenant, event, seats))
  }

  // ------------------------------------------------------------ one call as a run of the protocol

  function Reads(rid: Id, seats: seq<Id>): seq<Action> {
    if seats == [] then [] else [ReadLock(rid, seats[0])] + Reads(rid, seats[1..])
  }

  function Releases(rid: Id, seats: seq<Id>): seq<Action> {
    if seats == [] then []
    else [ReleaseGet(rid, seats[0]), ReleaseDel(rid, seats[0])] + Releases(rid, seats[1..])
  }

  /** The steps of one `initiateBooking` call, in program order. */
  function Script(rid: Id, tenant: Id, event: Id, user: Id, seats: seq<Id>, bid: Id): seq<Action> {
    [Arrive(rid, tenant, event, user, SetOf(seats))]
    + (Reads(rid, seats) + (Middle(rid, bid) + (Releases(rid, seats) + [Finish(rid)])))
  }

  lemma {:induction false} RunConcat(c: Config, s: State, xs: seq<Action>, ys: seq<Action>)
    ensures Run(c, s, xs + ys) == Run(c, Run(c, s, xs), ys)
    decreases |xs|
  {
    if xs == [] {
      assert xs + ys == ys;
    } else {
      assert (xs + ys)[1..] == xs[1..] + ys;
      RunConcat(c, Apply(c, s, xs[0]), xs[1..], ys);
    }
  }

  lemma RunNothing(c: Config, s: State)
    ensures Run(c, s, []) == s
  {}

  lemma RunCons(c: Config, s: State, a: Action, rest: seq<Action>)
    ensures Run(c, s, [a] + rest) == Run(c, Apply(c, s, a), rest)
  {
    assert ([a] + rest)[1..] == rest;
  }

  predicate OnlyStepsOf(rid: Id, acts: seq<Action>) {
    forall a | a in acts ::
      (a.ReadLock? || a.CaptureNow? || a.QueryLive? || a.CreateBooking? || a.EnqueueExpiry? || a.ReleaseGet? || a.ReleaseDel? || a.Finish?)
      && a.rid == rid
  }

  /** The steps of a request that has already thrown do nothing. */
  lemma {:induction false} GoneMeansNoSteps(c: Config, s: State, rid: Id, acts: seq<Action>)
    requires rid !in s.requests
    requires OnlyStepsOf(rid, acts)
    ensures Run(c, s, acts) == s
    decreases |acts|
  {
    if acts != [] {
      assert acts[0] in acts;
      assert Apply(c, s, acts[0]) == s;
      GoneMeansNoSteps(c, s, rid, acts[1..]);
    }
  }

  lemma ReadsOnly(rid: Id, seats: seq<Id>)
    ensures forall a | a in Reads(rid, seats) :: a.ReadLock? && a.rid == rid
  {}

  lemma ReleasesOnly(rid: Id, seats: seq<Id>)
    ensures forall a | a in Releases(rid, seats) :: (a.ReleaseGet? || a.ReleaseDel?) && a.rid == rid
  {}

  lemma ScriptOnly(rid: Id, seats: seq<Id>, bid: Id)
    ensures OnlyStepsOf(rid, Releases(rid, seats) + [Finish(rid)])
    ensures OnlyStepsOf(rid, Middle(rid, bid) + (Releases(rid, seats) + [Finish(rid)]))
    ensures OnlyStepsOf(rid, Reads(rid, seats) + (Middle(rid, bid) + (Releases(rid, seats) + [Finish(rid)])))
  {
    ReadsOnly(rid, seats);
    ReleasesOnly(rid, seats);
  }

  lemma SplitSeats(seats: seq<Id>)
    requires seats != [] && Distinct(seats)
    ensures seats[0] in SetOf(seats) && Distinct(seats[1..])
    ensures SetOf(seats) - {seats[0]} == SetOf(seats[1..])
    ensures SetOf(seats) == {seats[0]} + SetOf(seats[1..])
  {
    assert forall y | y in seats[1..] :: y != seats[0];
    assert forall y | y in seats :: y == seats[0] || y in seats[1..];
  }

  /** Request `rid` stands at `phase`; what it holds is left open. */
  predicate At(s: State, t: State, rid: Id, r: Request, phase: Phase) {
    && rid in t.requests
    && t == SetRequest(s, rid, r.(phase := phase, held := t.requests[rid].held))
  }

  /** One GET that finds the user's own lock. */
  lemma OneRead(c: Config, s: State, rid: Id, x: Id, toRead: set<Id>)
    requires rid in s.requests && s.requests[rid].phase == Validating(toRead) && x in toRead
    ensures var r := s.requests[rid];
            var t := Apply(c, s, ReadLock(rid, x));
            if LockedBy(s, r.Key(x), r.user)
            then At(s, t, rid, r, Validating(toRead - {x})) && DropRequest(t, rid) == DropRequest(s, rid)
            else t == DropRequest(s, rid)
  {
    assert DropRequest(Apply(c, s, ReadLock(rid, x)), rid).requests == DropRequest(s, rid).requests;
  }

  lemma AtStaysAt(s: State, t: State, u: State, rid: Id, r: Request, mid: Phase, end: Phase)
    requires At(s, t, rid, r, mid) && At(t, u, rid, t.requests[rid], end)
    ensures At(s, u, rid, r, end)
  {
    assert u.requests == s.requests[rid := r.(phase := end, held := u.requests[rid].held)];
  }

  lemma LocksSeenFrom(s: State, t: State, r: Request, rid: Id, phase: Phase, x: Id, rest: set<Id>)
    requires At(s, t, rid, r, phase) && LockedBy(s, r.Key(x), r.user)
    ensures AllLockedBy(t, r.tenant, r.event, r.user, rest) == AllLockedBy(s, r.tenant, r.event, r.user, {x} + rest)
  {
    assert forall y :: LockedBy(t, LockKey(r.tenant, r.event, y), r.user) == LockedBy(s, LockKey(r.tenant, r.event, y), r.user);
  }

  /** validateLocksOwned: either every lock is read and owned, or the request throws. */
  lemma {:induction false} ReadsMeaning(c: Config, s: State, rid: Id, seats: seq<Id>)
    requires rid in s.requests && s.requests[rid].phase == Validating(SetOf(seats)) && Distinct(seats)
    ensures var r := s.requests[rid];
            var t := Run(c, s, Reads(rid, seats));
            if AllLockedBy(s, r.tenant, r.event, r.user, SetOf(seats)) then At(s, t, rid, r, Validating({}))
            else t == DropRequest(s, rid)
    decreases |seats|
  {
    hide Run, Apply, Distinct, LockedBy;
    var r := s.requests[rid];
    if seats == [] {
      assert SetOf(seats) == {};
      RunNothing(c, s);
      assert At(s, s, rid, r, Validating({})) by { assert s.requests == s.requests[rid := r]; }
    } else {
      var x, rest := seats[0], seats[1..];
      RunCons(c, s, ReadLock(rid, x), Reads(rid, rest));
      SplitSeats(seats);
      OneRead(c, s, rid, x, SetOf(seats));
      var t := Apply(c, s, ReadLock(rid, x));
      if LockedBy(s, r.Key(x), r.user) {
        LocksSeenFrom(s, t, r, rid, Validating(SetOf(rest)), x, SetOf(rest));
        ReadsMeaning(c, t, rid, rest);
        var u := Run(c, t, Reads(rid, rest));
        if AllLockedBy(s, r.tenant, r.event, r.user, SetOf(seats)) {
          AtStaysAt(s, t, u, rid, r, Validating(SetOf(rest)), Validating({}));
        }
      } else {
        assert x in SetOf(seats) && r.Key(x) == LockKey(r.tenant, r.event, x);
        ReadsOnly(rid, rest);
        GoneMeansNoSteps(c, t, rid, Reads(rid, rest));
      }
    }
  }

  lemma OneRelease(c: Config, s: State, rid: Id, toGet: set<Id>, x: Id)
    requires rid in s.requests && s.requests[rid].phase == Releasing(toGet, {}) && x in toGet
    requires LiveLock(s, s.requests[rid].Key(x))
    ensures var r := s.requests[rid];
            var u := ApplyReleaseDel(ApplyReleaseGet(s, rid, x), rid, x);
            At(s.(locks := s.locks - {r.Key(x)}), u, rid, r, Releasing(toGet - {x}, {}))
  {
    var r := s.requests[rid];
    var t := ApplyReleaseGet(s, rid, x);
    assert t.requests[rid].phase.toDel == {x};
    var u := ApplyReleaseDel(t, rid, x);
    assert {x} - {x} == {};
    assert u.requests[rid].phase == Releasing(toGet - {x}, {});
    assert u.requests == s.requests[rid := u.requests[rid]];
  }

  lemma StillLive(s: State, u: State, rid: Id, seats: seq<Id>)
    requires rid in s.requests && seats != [] && Distinct(seats)
    requires forall x | x in seats :: LiveLock(s, s.requests[rid].Key(x))
    requires At(s.(locks := s.locks - {s.requests[rid].Key(seats[0])}), u, rid, s.requests[rid], Releasing(SetOf(seats[1..]), {}))
    ensures forall x | x in seats[1..] :: LiveLock(u, u.requests[rid].Key(x))
  {
    forall y | y in seats[1..] ensures LiveLock(u, u.requests[rid].Key(y)) {
      assert LiveLock(s, s.requests[rid].Key(y)) && y != seats[0];
    }
  }

  lemma AtTwice(s: State, u: State, v: State, rid: Id, r: Request, phase: Phase, gone: set<LockKey>, goneToo: set<LockKey>, phase': Phase)
    requires rid in s.requests
    requires At(s.(locks := s.locks - gone), u, rid, r, phase)
    requires At(u.(locks := u.locks - goneToo), v, rid, u.requests[rid], phase')
    ensures At(s.(locks := s.locks - (gone + goneToo)), v, rid, r, phase')
  {
    assert s.locks - gone - goneToo == s.locks - (gone + goneToo);
    assert v.requests == s.requests[rid := v.requests[rid]];
  }

  /** releaseMany deletes exactly the request's seat keys. */
  lemma {:induction false} ReleasesMeaning(c: Config, s: State, rid: Id, seats: seq<Id>)
    requires rid in s.requests && s.requests[rid].phase == Releasing(SetOf(seats), {}) && Distinct(seats)
    requires forall x | x in seats :: LiveLock(s, s.requests[rid].Key(x))
    ensures var r := s.requests[rid];
            At(s.(locks := s.locks - KeysOf(r.tenant, r.event, SetOf(seats))), Run(c, s, Releases(rid, seats)),
               rid, r, Releasing({}, {}))
    decreases |seats|
  {
    hide Run, ApplyReleaseGet, ApplyReleaseDel;
    var r := s.requests[rid];
    if seats == [] {
      assert SetOf(seats) == {};
      assert s.locks - KeysOf(r.tenant, r.event, {}) == s.locks;
      assert At(s, s, rid, r, Releasing({}, {}));
      RunNothing(c, s);
    } else {
      var x, rest := seats[0], seats[1..];
      var keys, restKeys := KeysOf(r.tenant, r.event, SetOf(seats)), KeysOf(r.tenant, r.event, SetOf(rest));
      SplitSeats(seats);
      assert keys == {r.Key(x)} + restKeys;
      var t := ApplyReleaseGet(s, rid, x);
      var u := ApplyReleaseDel(t, rid, x);
      assert Releases(rid, seats) == [ReleaseGet(rid, x)] + ([ReleaseDel(rid, x)] + Releases(rid, rest));
      RunCons(c, s, ReleaseGet(rid, x), [ReleaseDel(rid, x)] + Releases(rid, rest));
      RunCons(c, t, ReleaseDel(rid, x), Releases(rid, rest));
      OneRelease(c, s, rid, SetOf(seats), x);
      StillLive(s, u, rid, seats);
      ReleasesMeaning(c, u, rid, rest);
      AtTwice(s, u, Run(c, u, Releases(rid, rest)), rid, r, Releasing(SetOf(rest), {}), {r.Key(x)}, restKeys, Releasing({}, {}));
    }
  }

  function Middle(rid: Id, bid: Id): seq<Action> {
    [CaptureNow(rid)] + ([QueryLive(rid)] + ([CreateBooking(rid, bid)] + ([EnqueueExpiry(rid)] + [])))
  }

  lemma CaptureAndQuery(c: Config, s: State, rid: Id)
    requires rid in s.requests && s.requests[rid].phase == Validating({})
    ensures var r := s.requests[rid];
            var t := Apply(c, Apply(c, s, CaptureNow(rid)), QueryLive(rid));
            t == if Conflict(s, r.tenant, r.event, r.seats, s.clock) then DropRequest(s, rid)
                 else SetRequest(s, rid, r.(phase := Ordering(s.clock)))
  {
    var r := s.requests[rid];
    var s1 := SetRequest(s, rid, r.(phase := Querying(s.clock)));
    assert Apply(c, s, CaptureNow(rid)) == s1;
    assert Conflict(s1, r.tenant, r.event, r.seats, s.clock) == Conflict(s, r.tenant, r.event, r.seats, s.clock);
    assert DropRequest(s1, rid) == DropRequest(s, rid);
    assert SetRequest(s1, rid, r.(phase := Ordering(s.clock))) == SetRequest(s, rid, r.(phase := Ordering(s.clock)));
  }

  lemma CreateAndEnqueue(c: Config, s: State, rid: Id, now: int, bid: Id)
    requires rid in s.requests && s.requests[rid].phase == Ordering(now) && bid !in s.bookings
    ensures var r := s.requests[rid];
            var t := Apply(c, Apply(c, s, CreateBooking(rid, bid)), EnqueueExpiry(rid));
            At(s.(bookings := s.bookings[bid := Booking(r.tenant, r.event, r.user, r.seats, PENDING, now + c.bookingTtl)]),
               t, rid, r, Releasing(r.seats, {}))
  {
    var r := s.requests[rid];
    var s1 := Apply(c, s, CreateBooking(rid, bid));
    assert s1.requests == s.requests[rid := r.(phase := Created)];
    var t := Apply(c, s1, EnqueueExpiry(rid));
    assert t.requests == s.requests[rid := r.(phase := Releasing(r.seats, {}))];
  }

  lemma AtAfterSet(s: State, t: State, rid: Id, r: Request, mid: Phase, end: Phase, bookings: map<Id, Booking>)
    requires At(SetRequest(s, rid, r.(phase := mid)).(bookings := bookings), t, rid, r.(phase := mid), end)
    ensures At(s.(bookings := bookings), t, rid, r, end)
  {
    assert t.requests == s.requests[rid := t.requests[rid]];
  }

  /** The middle of the call, once every lock has been validated. */
  lemma MiddleMeaning(c: Config, s: State, rid: Id, bid: Id)
    requires rid in s.requests && s.requests[rid].phase == Validating({}) && bid !in s.bookings
    ensures var r := s.requests[rid];
            var t := Run(c, s, Middle(rid, bid));
            if Conflict(s, r.tenant, r.event, r.seats, s.clock) then t == DropRequest(s, rid)
            else At(s.(bookings := s.bookings[bid := Booking(r.tenant, r.event, r.user, r.seats, PENDING, s.clock + c.bookingTtl)]),
                    t, rid, r, Releasing(r.seats, {}))
  {
    hide Run, Apply, Conflict, At;
    var r := s.requests[rid];
    var last := [EnqueueExpiry(rid)] + [];
    var later := [CreateBooking(rid, bid)] + last;
    RunCons(c, s, CaptureNow(rid), [QueryLive(rid)] + later);
    RunCons(c, Apply(c, s, CaptureNow(rid)), QueryLive(rid), later);
    CaptureAndQuery(c, s, rid);
    if Conflict(s, r.tenant, r.event, r.seats, s.clock) {
      GoneMeansNoSteps(c, DropRequest(s, rid), rid, later);
    } else {
      var s2 := SetRequest(s, rid, r.(phase := Ordering(s.clock)));
      RunCons(c, s2, CreateBooking(rid, bid), last);
      RunCons(c, Apply(c, s2, CreateBooking(rid, bid)), EnqueueExpiry(rid), []);
      RunNothing(c, Apply(c, Apply(c, s2, CreateBooking(rid, bid)), EnqueueExpiry(rid)));
      CreateAndEnqueue(c, s2, rid, s.clock, bid);
      AtAfterSet(s, Run(c, s, Middle(rid, bid)), rid, r, Ordering(s.clock), Releasing(r.seats, {}),
                 s.bookings[bid := Booking(r.tenant, r.event, r.user, r.seats, PENDING, s.clock + c.bookingTtl)]);
    }
  }

  lemma ArriveMeaning(c: Config, s: State, rid: Id, tenant: Id, event: Id, user: Id, all: set<Id>)
    requires rid !in s.requests
    ensures Apply(c, s, Arrive(rid, tenant, event, user, all)) ==
            if OnSale(c, tenant, event, all) then SetRequest(s, rid, Request(tenant, event, user, all, Validating(all), map[])) else s
  {}

  lemma FinishMeaning(c: Config, s: State, rid: Id)
    requires rid in s.requests && s.requests[rid].phase == Releasing({}, {})
    ensures Apply(c, s, Finish(rid)) == DropRequest(s, rid)
  {}

  /** One uninterrupted call takes the stores from `s` to `Booked` exactly when `Accepted` holds,
      and otherwise leaves everything as it was, other requests in flight included. */
  lemma UninterruptedBooking(c: Config, s: State, rid: Id, tenant: Id, event: Id, user: Id, seats: seq<Id>, bid: Id)
    requires rid !in s.requests && bid !in s.bookings && Distinct(seats)
    ensures Run(c, s, Script(rid, tenant, event, user, seats, bid)) ==
            if Accepted(c, s, tenant, event, user, SetOf(seats))
            then Booked(c, s, tenant, event, user, SetOf(seats), bid) else s
  {
    hide Run, Middle, Reads, Releases, OnlyStepsOf, Apply, OnSale, Conflict, Distinct, AllLockedBy, At, DropRequest;
    var all := SetOf(seats);
    var tail := Releases(rid, seats) + [Finish(rid)];
    var later := Middle(rid, bid) + tail;
    ScriptOnly(rid, seats, bid);
    RunCons(c, s, Arrive(rid, tenant, event, user, all), Reads(rid, seats) + later);
    ArriveMeaning(c, s, rid, tenant, event, user, all);
    if !OnSale(c, tenant, event, all) {
      GoneMeansNoSteps(c, s, rid, Reads(rid, seats) + later);
    } else {
      var r := Request(tenant, event, user, all, Validating(all), map[]);
      var s1 := SetRequest(s, rid, r);
      RunConcat(c, s1, Reads(rid, seats), later);
      ReadsMeaning(c, s1, rid, seats);
      OneMoreRequest(s, rid, r);
      var s2 := Run(c, s1, Reads(rid, seats));
      if !AllLockedBy(s, tenant, event, user, all) {
        GoneMeansNoSteps(c, s2, rid, later);
      } else {
        AtFromSet(s, s2, rid, r, Validating({}));
        AfterValidation(c, s, s2, rid, r, seats, bid);
      }
    }
  }

  /** A new request changes nothing about locks, and dropping it leaves no trace. */
  lemma OneMoreRequest(s: State, rid: Id, r: Request)
    requires rid !in s.requests
    ensures AllLockedBy(SetRequest(s, rid, r), r.tenant, r.event, r.user, r.seats) == AllLockedBy(s, r.tenant, r.event, r.user, r.seats)
    ensures DropRequest(SetRequest(s, rid, r), rid) == s
  {
    var t := SetRequest(s, rid, r);
    assert forall x :: LockedBy(t, LockKey(r.tenant, r.event, x), r.user) == LockedBy(s, LockKey(r.tenant, r.event, x), r.user);
    assert t.requests - {rid} == s.requests;
  }

  lemma AtFromSet(s: State, t: State, rid: Id, r: Request, phase: Phase)
    requires At(SetRequest(s, rid, r), t, rid, r, phase)
    ensures At(s, t, rid, r, phase)
  {
    assert t.requests == s.requests[rid := t.requests[rid]];
  }

  lemma AtDropped(s: State, t: State, rid: Id, r: Request, phase: Phase)
    requires At(s, t, rid, r, phase) && rid !in s.requests
    ensures DropRequest(t, rid) == s
    ensures Conflict(t, r.tenant, r.event, r.seats, s.clock) == Conflict(s, r.tenant, r.event, r.seats, s.clock)
    ensures t.requests[rid] == r.(phase := phase, held := t.requests[rid].held) && t.clock == s.clock && t.bookings == s.bookings
  {
    assert t.requests - {rid} == s.requests;
  }

  lemma AfterValidation(c: Config, s: State, s2: State, rid: Id, r: Request, seats: seq<Id>, bid: Id)
    requires rid !in s.requests && bid !in s.bookings && Distinct(seats) && r.seats == SetOf(seats)
    requires AllLockedBy(s, r.tenant, r.event, r.user, r.seats)
    requires At(s, s2, rid, r, Validating({}))
    ensures Run(c, s2, Middle(rid, bid) + (Releases(rid, seats) + [Finish(rid)])) ==
            if Conflict(s, r.tenant, r.event, r.seats, s.clock) then s
            else Booked(c, s, r.tenant, r.event, r.user, r.seats, bid)
  {
    hide Run, Middle, Releases, OnlyStepsOf, Apply, Distinct, Conflict, DropRequest, At;
    var tail := Releases(rid, seats) + [Finish(rid)];
    AtDropped(s, s2, rid, r, Validating({}));
    RunConcat(c, s2, Middle(rid, bid), tail);
    InHand(s, s2, rid, r, Validating({}));
    MiddleMeaning(c, s2, rid, bid);
    var s3 := Run(c, s2, Middle(rid, bid));
    ScriptOnly(rid, seats, bid);
    if Conflict(s, r.tenant, r.event, r.seats, s.clock) {
      GoneMeansNoSteps(c, s3, rid, tail);
    } else {
      AtAgain(s, s2, s3, rid, r, Validating({}), Releasing(r.seats, {}),
              s.bookings[bid := Booking(r.tenant, r.event, r.user, r.seats, PENDING, s.clock + c.bookingTtl)]);
      ReleaseAndFinish(c, s, s3, rid, r, seats, bid);
    }
  }

  lemma InHand(s: State, t: State, rid: Id, r: Request, phase: Phase)
    requires At(s, t, rid, r, phase)
    ensures rid in t.requests && t.requests[rid].phase == phase
  {}

  lemma AtAgain(s: State, t: State, u: State, rid: Id, r: Request, mid: Phase, end: Phase, bookings: map<Id, Booking>)
    requires At(s, t, rid, r, mid) && At(t.(bookings := bookings), u, rid, t.requests[rid], end)
    ensures At(s.(bookings := bookings), u, rid, r, end)
  {
    assert u.requests == s.requests[rid := u.requests[rid]];
  }

  lemma ReleaseAndFinish(c: Config, s: State, s3: State, rid: Id, r: Request, seats: seq<Id>, bid: Id)
    requires rid !in s.requests && Distinct(seats) && r.seats == SetOf(seats)
    requires AllLockedBy(s, r.tenant, r.event, r.user, r.seats)
    requires At(s.(bookings := s.bookings[bid := Booking(r.tenant, r.event, r.user, r.seats, PENDING, s.clock + c.bookingTtl)]),
                s3, rid, r, Releasing(r.seats, {}))
    ensures Run(c, s3, Releases(rid, seats) + [Finish(rid)]) == Booked(c, s, r.tenant, r.event, r.user, r.seats, bid)
  {
    hide Run, Releases, Apply, Distinct;
    RunConcat(c, s3, Releases(rid, seats), [Finish(rid)]);
    forall x | x in seats ensures LiveLock(s3, s3.requests[rid].Key(x)) {
      assert x in r.seats;
      assert LockedBy(s, r.Key(x), r.user);
    }
    ReleasesMeaning(c, s3, rid, seats);
    var s4 := Run(c, s3, Releases(rid, seats));
    RunCons(c, s4, Finish(rid), []);
    assert [Finish(rid)] + [] == [Finish(rid)];
    assert s4.requests[rid].phase == Releasing({}, {});
    FinishMeaning(c, s4, rid);
    RunNothing(c, DropRequest(s4, rid));
    assert s4.requests - {rid} == s.requests;
    var end := DropRequest(s4, rid);
    assert end.locks == s.locks - KeysOf(r.tenant, r.event, r.seats);
  }

  // ------------------------------------------------------------ the handlers, uninterrupted

  lemma RunTwo(c: Config, s: State, a: Action, b: Action)
    ensures Run(c, s, [a, b]) == Apply(c, Apply(c, s, a), b)
  {
    hide Apply;
    assert [a, b] == [a] + [b] && [b] == [b] + [];
    RunCons(c, s, a, [b]);
    RunCons(c, Apply(c, s, a), b, []);
    RunNothing(c, Apply(c, Apply(c, s, a), b));
  }

  /** A payment confirms its booking exactly when that is PENDING, and changes nothing else. */
  lemma UninterruptedConfirmation(c: Config, s: State, d: Id, bid: Id)
    requires d !in s.confirming
    ensures Run(c, s, [WebhookRead(d, bid), WebhookConfirm(d)]) ==
            if bid in s.bookings && s.bookings[bid].status == PENDING
            then s.(bookings := s.bookings[bid := s.bookings[bid].(status := CONFIRMED)]) else s
  {
    hide Run;
    RunTwo(c, s, WebhookRead(d, bid), WebhookConfirm(d));
    assert s.confirming[d := bid] - {d} == s.confirming;
  }

  /** The expiry job ends a booking exactly when that is PENDING and its time is up. */
  lemma UninterruptedExpiry(c: Config, s: State, j: Id, bid: Id)
    requires j !in s.expiring
    ensures Run(c, s, [ExpireRead(j, bid), ExpireWrite(j)]) ==
            if bid in s.bookings && s.bookings[bid].status == PENDING && s.bookings[bid].expiresAt <= s.clock
            then s.(bookings := s.bookings[bid := s.bookings[bid].(status := EXPIRED)]) else s
  {
    hide Run;
    RunTwo(c, s, ExpireRead(j, bid), ExpireWrite(j));
    assert s.expiring[j := bid] - {j} == s.expiring;
  }

  /** A user's own unlock takes the key away exactly when its live lock is the user's. */
  lemma UninterruptedUnlock(c: Config, s: State, rid: Id, key: LockKey, user: Id)
    requires rid !in s.requests
    ensures Run(c, s, [UnlockGet(rid, key, user), UnlockDel(rid)]) ==
            if key in s.locks && s.locks[key].expires > s.clock && s.locks[key].user == user then s.(locks := s.locks - {key}) else s
  {
    hide Run;
    RunTwo(c, s, UnlockGet(rid, key, user), UnlockDel(rid));
    var t := Apply(c, s, UnlockGet(rid, key, user));
    if LockedBy(s, key, user) {
      var r := t.requests[rid];
      assert (set x | x in r.seats :: r.Key(x)) == {key};
      assert t.requests - {rid} == s.requests;
    }
  }

  // ------------------------------------------------------------ the services over the stores

  datatype Rejection = SeatAlreadyLocked | NotYourLock | EventNotFound | InvalidSeats | SeatsNotLocked | SeatsUnavailable

  /** x occurs before any y. */
  predicate Before(xs: seq<Id>, x: Id, y: Id) { exists p | 0 <= p < |xs| :: xs[p] == x && y !in xs[..p + 1] }

  /** `[...new Set(ids)]`: each element once, in the order of first occurrences. */
  function Dedup(xs: seq<Id>): (r: seq<Id>)
    ensures Distinct(r) && SetOf(r) == SetOf(xs)
    ensures forall i, j | 0 <= i < j < |r| :: Before(xs, r[i], r[j])
  {
    if xs == [] then []
    else
      var init, last := xs[..|xs| - 1], xs[|xs| - 1];
      assert xs == init + [last];
      var r := Dedup(init);
      assert SetOf(xs) == SetOf(init) + {last};
      BeforeStays(init, last);
      assert last !in r ==> forall i | 0 <= i < |r| :: Before(xs, r[i], last) by {
        assert forall i | 0 <= i < |r| :: r[i] in SetOf(r);
        if last !in r {
          assert last !in SetOf(init);
          NewComesLast(init, last);
        }
      }
      if last in r then r else r + [last]
  }

  lemma BeforeStays(init: seq<Id>, last: Id)
    ensures forall x, y | Before(init, x, y) :: Before(init + [last], x, y)
  {
    var xs := init + [last];
    forall x, y | Before(init, x, y) ensures Before(xs, x, y) {
      var p :| 0 <= p < |init| && init[p] == x && y !in init[..p + 1];
      assert xs[p] == x && xs[..p + 1] == init[..p + 1];
    }
  }

  lemma NewComesLast(init: seq<Id>, last: Id)
    requires last !in init
    ensures forall x | x in init :: Before(init + [last], x, last)
  {
    var xs := init + [last];
    forall x | x in init ensures Before(xs, x, last) {
      var p :| 0 <= p < |init| && init[p] == x;
      assert xs[p] == x && xs[..p + 1] == init[..p + 1];
    }
  }

  /** The key is there, its lease has not run out, and it is the user's. */
  predicate HeldNow(locks: map<LockKey, SeatLock>, clock: int, key: LockKey, user: Id) {
    key in locks && locks[key].expires > clock && locks[key].user == user
  }

  /** The booking is of this event, shares one of the seats, and is CONFIRMED or PENDING and not yet
      expired. */
  predicate Takes(b: Booking, tenant: Id, event: Id, seats: seq<Id>, clock: int) {
    && b.tenant == tenant && b.event == event && (exists i | 0 <= i < |seats| :: seats[i] in b.seats)
    && (b.status == CONFIRMED || (b.status == PENDING && b.expiresAt > clock))
  }

  lemma GuardsMean(s: State, tenant: Id, event: Id, user: Id, seats: seq<Id>)
    ensures AllLockedBy(s, tenant, event, user, SetOf(seats)) <==> forall x | x in seats :: HeldNow(s.locks, s.clock, LockKey(tenant, event, x), user)
    ensures Conflict(s, tenant, event, SetOf(seats), s.clock) <==> exists b | b in s.bookings :: Takes(s.bookings[b], tenant, event, seats, s.clock)
  {
    assert forall x :: x in SetOf(seats) <==> x in seats;
    forall b | b in s.bookings
      ensures s.bookings[b].seats * SetOf(seats) != {} <==> exists i | 0 <= i < |seats| :: seats[i] in s.bookings[b].seats
    {
      if i :| 0 <= i < |seats| && seats[i] in s.bookings[b].seats {
        assert seats[i] in s.bookings[b].seats * SetOf(seats);
      }
      if x :| x in s.bookings[b].seats * SetOf(seats) {
        var i :| 0 <= i < |seats| && seats[i] == x;
      }
    }
  }

  lemma OwnedAreLive(s: State, tenant: Id, event: Id, user: Id, seats: set<Id>)
    requires AllLockedBy(s, tenant, event, user, seats)
    ensures LiveKeysOf(s, tenant, event, seats) == KeysOf(tenant, event, seats)
  {
    assert forall x | x in seats :: LockedBy(s, LockKey(tenant, event, x), user);
  }

  lemma BookedMeans(c: Config, s: State, tenant: Id, event: Id, user: Id, seats: seq<Id>, bid: Id)
    ensures var t := Booked(c, s, tenant, event, user, SetOf(seats), bid);
      && t.bookings == s.bookings[bid := Booking(tenant, event, user, (set x | x in seats), PENDING, s.clock + c.bookingTtl)]
      && t.clock == s.clock
      && (forall k :: k in t.locks <==> k in s.locks && !(k.tenant == tenant && k.event == event && k.seat in seats))
      && (forall k | k in t.locks :: t.locks[k] == s.locks[k])
  {
    assert SetOf(seats) == set x | x in seats;
    forall k: LockKey ensures k in KeysOf(tenant, event, SetOf(seats)) <==> k.tenant == tenant && k.event == event && k.seat in seats {
      if k.tenant == tenant && k.event == event && k.seat in seats {
        assert k.seat in SetOf(seats) && k == LockKey(tenant, event, k.seat);
      }
    }
  }

  /** The Redis lock store and the booking table, with nothing else in flight. */
  class ReservationStores {
    const config: Config
    var clock: int
    var locks: map<LockKey, SeatLock>
    var bookings: map<Id, Booking>

    constructor (config: Config, clock: int)
      ensures this.config == config && Stores() == State(clock, map[], map[], map[], map[], map[], map[])
    {
      this.config, this.clock, locks, bookings := config, clock, map[], map[];
    }

    ghost function Stores(): State
      reads this
    {
      State(clock, locks, bookings, map[], map[], map[], map[])
    }

    /** `SET key value PX ttl NX`. */
    method LockSeat(key: LockKey, user: Id, token: Id) returns (r: Result<(), Rejection>)
      modifies this`locks
      ensures Stores() == Apply(config, old(Stores()), SeatReservation.LockSeat(key, user, token))
      ensures r == Err(SeatAlreadyLocked) <==> key in old(locks) && old(locks)[key].expires > clock
      ensures r.Err? ==> r.error == SeatAlreadyLocked && locks == old(locks)
      ensures r.Ok? ==> locks == old(locks)[key := SeatLock(user, token, clock + config.lockTtl)]
      ensures r.Ok? && config.lockTtl > 0 ==> LockedBy(Stores(), key, user)
    {
      if key in locks && locks[key].expires > clock {
        return Err(SeatAlreadyLocked);
      }
      locks := locks[key := SeatLock(user, token, clock + config.lockTtl)];
      return Ok(());
    }

    /** The result says whether a key was deleted. */
    method UnlockSeat(key: LockKey, user: Id, force: bool) returns (r: Result<bool, Rejection>)
      modifies this`locks
      ensures r == Ok(false) <==> !(key in old(locks) && old(locks)[key].expires > clock)
      ensures r == Ok(true) <==> key in old(locks) && old(locks)[key].expires > clock && (force || old(locks)[key].user == user)
      ensures r.Err? ==> r.error == NotYourLock
      ensures Stores() == if r == Ok(true) then old(Stores()).(locks := old(locks) - {key}) else old(Stores())
      ensures !force ==> Stores() == Run(config, old(Stores()), [UnlockGet("request", key, user), UnlockDel("request")])
    {
      hide Run;
      UninterruptedUnlock(config, Stores(), "request", key, user);
      if key !in locks || locks[key].expires <= clock {
        return Ok(false);
      }
      if !force && locks[key].user != user {
        return Err(NotYourLock);
      }
      locks := locks - {key};
      return Ok(true);
    }

    method ValidateLocksOwned(tenant: Id, event: Id, seats: seq<Id>, user: Id) returns (owned: bool)
      ensures owned == AllLockedBy(Stores(), tenant, event, user, SetOf(seats))
      ensures owned <==> forall i | 0 <= i < |seats| ::
        var key := LockKey(tenant, event, seats[i]);
        key in locks && locks[key].expires > clock && locks[key].user == user
    {
      owned := true;
      for i := 0 to |seats|
        invariant owned == forall j | 0 <= j < i :: LockedBy(Stores(), LockKey(tenant, event, seats[j]), user)
      {
        var key := LockKey(tenant, event, seats[i]);
        if !(key in locks && locks[key].expires > clock && locks[key].user == user) {
          owned := false;
        }
      }
    }

    /** Forced release: every key of these seats that is still there goes, whoever holds it. */
    method ReleaseMany(tenant: Id, event: Id, seats: seq<Id>, user: Id)
      modifies this`locks
      ensures Stores() == old(Stores()).(locks := old(locks) - old(LiveKeysOf(Stores(), tenant, event, SetOf(seats))))
      ensures forall k :: k in locks <==>
        k in old(locks) && !(k.tenant == tenant && k.event == event && k.seat in seats && old(locks)[k].expires > clock)
      ensures forall k | k in locks :: locks[k] == old(locks)[k]
    {
      assert locks - LiveKeysOf(Stores(), tenant, event, SetOf(seats[..0])) == locks;
      for i := 0 to |seats|
        invariant locks == old(locks) - old(LiveKeysOf(Stores(), tenant, event, SetOf(seats[..i])))
      {
        var key := LockKey(tenant, event, seats[i]);
        assert SetOf(seats[..i + 1]) == SetOf(seats[..i]) + {seats[i]};
        var _ := UnlockSeat(key, user, true);
        assert old(LiveKeysOf(Stores(), tenant, event, SetOf(seats[..i + 1]))) ==
               old(LiveKeysOf(Stores(), tenant, event, SetOf(seats[..i]))) + (if old(LiveLock(Stores(), key)) then {key} else {});
      }
      assert seats[..|seats|] == seats;
    }

    /** As many rows come back for the seats and the event as there are seats. */
    method SeatsBelong(event: Id, seats: seq<Id>) returns (belong: bool)
      ensures belong <==> forall x | x in SetOf(seats) :: x in config.seatEvent && config.seatEvent[x] == event
    {
      belong := forall x | x in seats :: x in config.seatEvent && config.seatEvent[x] == event;
      assert forall x | x in seats :: x in SetOf(seats);
    }

    /** The query for live bookings of these seats. */
    method SeatsTaken(tenant: Id, event: Id, seats: set<Id>, now: int) returns (taken: bool)
      ensures taken == Conflict(Stores(), tenant, event, seats, now)
    {
      taken := exists id | id in bookings ::
        bookings[id].tenant == tenant && bookings[id].event == event && bookings[id].seats * seats != {} && Live(bookings[id], now);
    }

    /** The last two writes: the PENDING booking, and its seat locks given back. */
    method Book(tenant: Id, event: Id, user: Id, seats: seq<Id>, bid: Id, now: int)
      requires now == clock && AllLockedBy(Stores(), tenant, event, user, SetOf(seats))
      modifies this`bookings, this`locks
      ensures Stores() == Booked(config, old(Stores()), tenant, event, user, SetOf(seats), bid)
    {
      hide LiveKeysOf, KeysOf;
      bookings := bookings[bid := Booking(tenant, event, user, SetOf(seats), PENDING, now + config.bookingTtl)];
      OwnedAreLive(Stores(), tenant, event, user, SetOf(seats));
      ReleaseMany(tenant, event, seats, user);
    }

    /** The whole of `initiateBooking`, uninterrupted: the rejections in the order the code tests
        them, and the stores exactly as the protocol's run of the same call leaves them. */
    method InitiateBooking(tenant: Id, event: Id, user: Id, seatIds: seq<Id>, bid: Id) returns (r: Result<Id, Rejection>)
      requires bid !in bookings
      modifies this
      ensures Stores() == Run(config, old(Stores()), Script("request", tenant, event, user, Dedup(seatIds), bid))
      ensures r.Ok? <==> Accepted(config, old(Stores()), tenant, event, user, SetOf(seatIds))
      ensures r.Ok? ==> r.value == bid && Stores() == Booked(config, old(Stores()), tenant, event, user, SetOf(seatIds), bid)
      ensures r.Err? ==> Stores() == old(Stores())
      ensures r == Err(EventNotFound) <==> !(event in config.eventTenant && config.eventTenant[event] == tenant)
      ensures r == Err(InvalidSeats) <==> r != Err(EventNotFound) && !OnSale(config, tenant, event, SetOf(seatIds))
      ensures r == Err(SeatsNotLocked) <==> OnSale(config, tenant, event, SetOf(seatIds)) && !AllLockedBy(old(Stores()), tenant, event, user, SetOf(seatIds))
      ensures r == Err(SeatsUnavailable) <==>
        OnSale(config, tenant, event, SetOf(seatIds)) && AllLockedBy(old(Stores()), tenant, event, user, SetOf(seatIds))
        && old(Conflict(Stores(), tenant, event, SetOf(seatIds), clock))
      ensures var known := event in config.eventTenant && config.eventTenant[event] == tenant;
        var belong := forall x | x in seatIds :: x in config.seatEvent && config.seatEvent[x] == event;
        var owned := forall x | x in seatIds :: HeldNow(old(locks), old(clock), LockKey(tenant, event, x), user);
        var taken := exists b | b in old(bookings) :: Takes(old(bookings)[b], tenant, event, seatIds, old(clock));
        r == if !known then Err(EventNotFound) else if !belong then Err(InvalidSeats) else if !owned then Err(SeatsNotLocked)
             else if taken then Err(SeatsUnavailable) else Ok(bid)
      ensures r.Err? ==> bookings == old(bookings) && locks == old(locks)
      ensures r.Ok? ==>
        bookings == old(bookings)[bid := Booking(tenant, event, user, (set x | x in seatIds), PENDING, old(clock) + config.bookingTtl)]
      ensures r.Ok? ==> forall k :: k in locks <==> k in old(locks) && !(k.tenant == tenant && k.event == event && k.seat in seatIds)
      ensures r.Ok? ==> forall k | k in locks :: locks[k] == old(locks)[k]
      ensures clock == old(clock)
    {
      hide Run, Script, Dedup, Before, Distinct, Conflict, HeldNow, Takes, AllLockedBy, Booked;
      var seats := Dedup(seatIds);
      ghost var before := Stores();
      GuardsMean(before, tenant, event, user, seatIds);
      UninterruptedBooking(config, before, "request", tenant, event, user, seats, bid);
      if event !in config.eventTenant || config.eventTenant[event] != tenant {
        return Err(EventNotFound);
      }
      var valid := SeatsBelong(event, seats);
      if !valid {
        return Err(InvalidSeats);
      }
      var owned := ValidateLocksOwned(tenant, event, seats, user);
      if !owned {
        return Err(SeatsNotLocked);
      }
      var now := clock;
      var taken := SeatsTaken(tenant, event, SetOf(seats), now);
      if taken {
        return Err(SeatsUnavailable);
      }
      Book(tenant, event, user, seats, bid, now);
      BookedMeans(config, before, tenant, event, user, seatIds, bid);
      return Ok(bid);
    }
  }
}
