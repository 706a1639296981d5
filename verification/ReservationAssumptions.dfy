/** Why the four assumptions of module SeatReservation are there: without any one of them, and
    with the other three kept, a seat is sold twice. */
module ReservationAssumptions {
  import opened BookingStatuses
  import opened SeatReservation

  const SHOP := Config(map["event" := "tenant"], map["seat" := "event"], 10, 100)
  const EMPTY := State(0, map[], map[], map[], map[], map[], map[])
  const KEY := LockKey("tenant", "event", "seat")

  ghost predicate Reached(acts: seq<Action>, hs: set<Assumption>, s: State) {
    RunRespects(SHOP, EMPTY, acts, hs) && Run(SHOP, EMPTY, acts) == s
  }

  lemma {:induction false} RunSnoc(c: Config, s: State, acts: seq<Action>, a: Action, hs: set<Assumption>)
    requires RunRespects(c, s, acts, hs) && forall h | h in hs :: Respects(Run(c, s, acts), a, h)
    ensures RunRespects(c, s, acts + [a], hs) && Run(c, s, acts + [a]) == Apply(c, Run(c, s, acts), a)
    decreases |acts|
  {
    if acts == [] {
      assert [a][1..] == [];
      assert acts + [a] == [a];
    } else {
      assert (acts + [a])[1..] == acts[1..] + [a];
      RunSnoc(c, Apply(c, s, acts[0]), acts[1..], a, hs);
    }
  }

  lemma Go(acts: seq<Action>, hs: set<Assumption>, s: State, a: Action, t: State) returns (acts': seq<Action>)
    requires Reached(acts, hs, s) && t == Apply(SHOP, s, a) && forall h | h in hs :: Respects(s, a, h)
    ensures Reached(acts', hs, t)
  {
    RunSnoc(SHOP, EMPTY, acts, a, hs);
    acts' := acts + [a];
  }

  function Waiting(user: Id, held: map<Id, int>, phase: Phase): Request {
    Request("tenant", "event", user, {"seat"}, phase, held)
  }

  lemma Validated(acts: seq<Action>, hs: set<Assumption>, s: State, rid: Id, user: Id) returns (acts': seq<Action>, t: State)
    requires Reached(acts, hs, s) && rid !in s.requests && LockedBy(s, KEY, user)
    requires OneRequest in hs ==> forall q | q in s.requests :: s.requests[q].user != user
    ensures t == SetRequest(s, rid, Waiting(user, map["seat" := s.locks[KEY].expires], Validating({})))
    ensures Reached(acts', hs, t)
  {
    hide Run, RunRespects;
    var s1 := SetRequest(s, rid, Waiting(user, map[], Validating({"seat"})));
    acts' := Go(acts, hs, s, Arrive(rid, "tenant", "event", user, {"seat"}), s1);
    t := SetRequest(s, rid, Waiting(user, map["seat" := s.locks[KEY].expires], Validating({})));
    assert ApplyReadLock(s1, rid, "seat") == t by {
      assert s1.requests[rid].Key("seat") == KEY;
      assert {"seat"} - {"seat"} == {};
    }
    acts' := Go(acts', hs, s1, ReadLock(rid, "seat"), t);
  }

  /** From an idle request slot to `Ordering`: lock already taken, nothing conflicting. */
  lemma UpToOrdering(acts: seq<Action>, hs: set<Assumption>, s: State, rid: Id, user: Id) returns (acts': seq<Action>, t: State)
    requires Reached(acts, hs, s) && rid !in s.requests && LockedBy(s, KEY, user)
    requires !Conflict(s, "tenant", "event", {"seat"}, s.clock)
    requires OneRequest in hs ==> forall q | q in s.requests :: s.requests[q].user != user
    ensures t == SetRequest(s, rid, Waiting(user, map["seat" := s.locks[KEY].expires], Ordering(s.clock)))
    ensures Reached(acts', hs, t)
  {
    hide Run, RunRespects, Conflict, Reached;
    var held := map["seat" := s.locks[KEY].expires];
    var s2; acts', s2 := Validated(acts, hs, s, rid, user);
    var s3 := SetRequest(s, rid, Waiting(user, held, Querying(s.clock)));
    acts' := Go(acts', hs, s2, CaptureNow(rid), s3);
    t := SetRequest(s, rid, Waiting(user, held, Ordering(s.clock)));
    SameBookings(s, s3);
    acts' := Go(acts', hs, s3, QueryLive(rid), t);
  }

  lemma SameBookings(s: State, t: State)
    requires t.bookings == s.bookings
    ensures Conflict(t, "tenant", "event", {"seat"}, s.clock) == Conflict(s, "tenant", "event", {"seat"}, s.clock)
  {}

  function AnnsLock(expires: int): map<LockKey, SeatLock> { map[KEY := SeatLock("ann", "1", expires)] }

  /** Ann locks the seat and her request gets to `Ordering`. */
  lemma AnnOrdering(acts: seq<Action>, hs: set<Assumption>, s: State) returns (acts': seq<Action>, t: State)
    requires Reached(acts, hs, s) && s.locks.Keys <= {KEY} && !LiveLock(s, KEY) && s.requests == map[] && s.bookings == map[]
    requires QuietExpiry in hs ==> s.jobs == map[]
    ensures t == s.(locks := AnnsLock(s.clock + 10), requests := map["r1" := Waiting("ann", map["seat" := s.clock + 10], Ordering(s.clock))])
    ensures Reached(acts', hs, t)
  {
    hide Run, RunRespects;
    var s1 := s.(locks := AnnsLock(s.clock + 10));
    assert s.locks[KEY := SeatLock("ann", "1", s.clock + 10)] == s1.locks;
    acts' := Go(acts, hs, s, LockSeat(KEY, "ann", "1"), s1);
    acts', t := UpToOrdering(acts', hs, s1, "r1", "ann");
  }

  /** Ann's request is at `Ordering`, her lock is gone; Bob locks the seat and gets there too. */
  lemma BobToo(acts: seq<Action>, hs: set<Assumption>, s: State, start: int) returns (acts': seq<Action>)
    requires Reached(acts, hs, s) && !LiveLock(s, KEY) && s.bookings == map[] && start <= s.clock <= start + 10
    requires s.requests == map["r1" := Waiting("ann", map["seat" := start + 10], Ordering(start))]
    requires QuietExpiry in hs ==> s.jobs == map[]
    ensures RunRespects(SHOP, EMPTY, acts', hs) && !NoDoubleBooking(Run(SHOP, EMPTY, acts'))
  {
    hide Run, RunRespects;
    var s1 := s.(locks := s.locks[KEY := SeatLock("bob", "2", s.clock + 10)]);
    acts' := Go(acts, hs, s, LockSeat(KEY, "bob", "2"), s1);
    var s2; acts', s2 := UpToOrdering(acts', hs, s1, "r2", "bob");
    var s3; acts', s3 := BothCreate(acts', hs, s2);
  }

  /** Both requests stand at `Ordering` for the same seat: both bookings are created. */
  lemma BothCreate(acts: seq<Action>, hs: set<Assumption>, s: State) returns (acts': seq<Action>, t: State)
    requires Reached(acts, hs, s) && s.bookings == map[] && "r1" in s.requests && "r2" in s.requests
    requires s.requests["r1"].phase.Ordering? && s.requests["r2"].phase.Ordering?
    requires s.requests["r1"].seats == {"seat"} && s.requests["r2"].seats == {"seat"}
    requires s.requests["r1"].phase.now + 100 > s.clock && s.requests["r2"].phase.now + 100 > s.clock
    ensures Reached(acts', hs, t) && !NoDoubleBooking(t)
  {
    hide Run, RunRespects;
    var s1 := ApplyCreate(SHOP, s, "r1", "b1");
    acts' := Go(acts, hs, s, CreateBooking("r1", "b1"), s1);
    t := ApplyCreate(SHOP, s1, "r2", "b2");
    acts' := Go(acts', hs, s1, CreateBooking("r2", "b2"), t);
    assert t.bookings["b1"] == s1.bookings["b1"];
    assert "seat" in t.bookings["b1"].seats && "seat" in t.bookings["b2"].seats;
    assert Live(t.bookings["b1"], t.clock) && Live(t.bookings["b2"], t.clock);
  }

  /** A request slower than its lock: the lapsed lock is taken by another user in between. */
  lemma InLeaseIsNeeded() returns (acts: seq<Action>)
    ensures Init(SHOP, EMPTY) && RunRespects(SHOP, EMPTY, acts, ALL_ASSUMPTIONS - {InLease})
    ensures !NoDoubleBooking(Run(SHOP, EMPTY, acts))
  {
    var hs := ALL_ASSUMPTIONS - {InLease};
    assert Reached([], hs, EMPTY);
    hide Run, RunRespects;
    var s1; acts, s1 := AnnOrdering([], hs, EMPTY);
    var s2 := s1.(clock := 10);
    acts := Go(acts, hs, s1, Tick(10), s2);
    acts := BobToo(acts, hs, s2, 0);
  }

  /** Two tabs of one user: both requests pass the check of the one lock. */
  lemma OneRequestIsNeeded() returns (acts: seq<Action>)
    ensures Init(SHOP, EMPTY) && RunRespects(SHOP, EMPTY, acts, ALL_ASSUMPTIONS - {OneRequest})
    ensures !NoDoubleBooking(Run(SHOP, EMPTY, acts))
  {
    var hs := ALL_ASSUMPTIONS - {OneRequest};
    assert Reached([], hs, EMPTY);
    hide Run, RunRespects;
    var s1; acts, s1 := AnnOrdering([], hs, EMPTY);
    var s2; acts, s2 := UpToOrdering(acts, hs, s1, "r2", "ann");
    var s3; acts, s3 := BothCreate(acts, hs, s2);
  }

  /** An old lock's expiry job: its GET still sees the lock, its PTTL no longer does, and its DEL
      comes after Ann locked the key. */
  lemma QuietExpiryIsNeeded() returns (acts: seq<Action>)
    ensures Init(SHOP, EMPTY) && RunRespects(SHOP, EMPTY, acts, ALL_ASSUMPTIONS - {QuietExpiry})
    ensures !NoDoubleBooking(Run(SHOP, EMPTY, acts))
  {
    var hs := ALL_ASSUMPTIONS - {QuietExpiry};
    assert Reached([], hs, EMPTY);
    hide Run, RunRespects;
    var s1; acts, s1 := OldJob([], hs);
    var s2; acts, s2 := AnnOrdering(acts, hs, s1);
    var s3 := s2.(jobs := s2.jobs - {"0"}, locks := s2.locks - {KEY});
    acts := Go(acts, hs, s2, JobDelete("0"), s3);
    acts := BobToo(acts, hs, s3, 10);
  }

  /** Cat locks the seat and lets the lease lapse between her job's GET and its PTTL. */
  lemma OldJob(acts: seq<Action>, hs: set<Assumption>) returns (acts': seq<Action>, t: State)
    requires Reached(acts, hs, EMPTY)
    ensures t == EMPTY.(clock := 10, locks := map[KEY := SeatLock("cat", "0", 10)], jobs := map["0" := Deleting(KEY)])
    ensures Reached(acts', hs, t)
  {
    hide Run, RunRespects, Reached;
    var s1 := EMPTY.(locks := map[KEY := SeatLock("cat", "0", 10)]);
    acts' := Go(acts, hs, EMPTY, LockSeat(KEY, "cat", "0"), s1);
    var s2 := s1.(jobs := map["0" := Seen(KEY)]);
    acts' := Go(acts', hs, s1, JobGet("0", KEY), s2);
    var s3 := s2.(clock := 10);
    acts' := Go(acts', hs, s2, Tick(10), s3);
    t := s3.(jobs := map["0" := Deleting(KEY)]);
    acts' := Go(acts', hs, s3, JobPttl("0"), t);
  }

  /** A payment confirmed after its booking ran out and the seat was sold again. */
  lemma PromptPaymentIsNeeded() returns (acts: seq<Action>)
    ensures Init(SHOP, EMPTY) && RunRespects(SHOP, EMPTY, acts, ALL_ASSUMPTIONS - {PromptPayment})
    ensures !NoDoubleBooking(Run(SHOP, EMPTY, acts))
  {
    var hs := ALL_ASSUMPTIONS - {PromptPayment};
    assert Reached([], hs, EMPTY);
    hide Run, RunRespects, NoDoubleBooking, Init;
    var s1; acts, s1 := AnnOrdering([], hs, EMPTY);
    var s2; acts, s2 := WaitForPayment(acts, hs, s1);
    var s3; acts, s3 := SoldToBob(acts, hs, s2);
    var t := SetStatus(s3, "b1", CONFIRMED).(confirming := s3.confirming - {"d"});
    acts := Go(acts, hs, s3, WebhookConfirm("d"), t);
    SoldTwice(t);
    EmptyShop();
  }

  lemma EmptyShop()
    ensures Init(SHOP, EMPTY)
  {}

  lemma SoldTwice(t: State)
    requires "b1" in t.bookings && "b2" in t.bookings && "seat" in t.bookings["b1"].seats && "seat" in t.bookings["b2"].seats
    requires Live(t.bookings["b1"], t.clock) && Live(t.bookings["b2"], t.clock)
    ensures !NoDoubleBooking(t)
  {
    assert "seat" in t.bookings["b1"].seats * t.bookings["b2"].seats;
  }

  const ANNS_BOOKING := Booking("tenant", "event", "ann", {"seat"}, PENDING, 100)

  /** Ann's booking is created, its webhook has read it, and its time runs out. */
  lemma WaitForPayment(acts: seq<Action>, hs: set<Assumption>, s: State) returns (acts': seq<Action>, t: State)
    requires Reached(acts, hs, s) && InLease in hs
    requires s == EMPTY.(locks := AnnsLock(10), requests := map["r1" := Waiting("ann", map["seat" := 10], Ordering(0))])
    ensures t == State(100, AnnsLock(10), map["b1" := ANNS_BOOKING], map[], map[], map["d" := "b1"], map[])
    ensures Reached(acts', hs, t)
  {
    hide Run, RunRespects;
    var s1 := ApplyCreate(SHOP, s, "r1", "b1");
    acts' := Go(acts, hs, s, CreateBooking("r1", "b1"), s1);
    var s2 := State(0, AnnsLock(10), map["b1" := ANNS_BOOKING], map[], map[], map[], map[]);
    assert DropRequest(s1, "r1") == s2 by {
      assert s1.bookings == map["b1" := ANNS_BOOKING];
      assert s1.requests - {"r1"} == map[];
    }
    acts' := Go(acts', hs, s1, Abort("r1"), s2);
    acts', t := PaymentPending(acts', hs, s2);
  }

  lemma PaymentPending(acts: seq<Action>, hs: set<Assumption>, s: State) returns (acts': seq<Action>, t: State)
    requires Reached(acts, hs, s)
    requires s == State(0, AnnsLock(10), map["b1" := ANNS_BOOKING], map[], map[], map[], map[])
    ensures t == s.(clock := 100, confirming := map["d" := "b1"])
    ensures Reached(acts', hs, t)
  {
    hide Run, RunRespects;
    var s1 := s.(confirming := map["d" := "b1"]);
    acts' := Go(acts, hs, s, WebhookRead("d", "b1"), s1);
    t := s1.(clock := 100);
    acts' := Go(acts', hs, s1, Tick(100), t);
  }

  lemma SoldToBob(acts: seq<Action>, hs: set<Assumption>, s: State) returns (acts': seq<Action>, t: State)
    requires Reached(acts, hs, s)
    requires s == State(100, AnnsLock(10), map["b1" := ANNS_BOOKING], map[], map[], map["d" := "b1"], map[])
    ensures t.clock == 100 && t.confirming == map["d" := "b1"]
    ensures t.bookings == map["b1" := ANNS_BOOKING, "b2" := Booking("tenant", "event", "bob", {"seat"}, PENDING, 200)]
    ensures Reached(acts', hs, t)
  {
    hide Run, RunRespects;
    var s1 := s.(locks := s.locks[KEY := SeatLock("bob", "2", 110)]);
    acts' := Go(acts, hs, s, LockSeat(KEY, "bob", "2"), s1);
    var s2; acts', s2 := UpToOrdering(acts', hs, s1, "r2", "bob");
    t := ApplyCreate(SHOP, s2, "r2", "b2");
    acts' := Go(acts', hs, s2, CreateBooking("r2", "b2"), t);
  }
}
