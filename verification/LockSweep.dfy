/** The seat-lock sweeper: expired locks are released in batches, oldest first, and the result
    is that of one bulk release. */
module LockSweep {
  import opened Lifecycle
  import opened Outcomes
  import opened Sequences

  type Id = string

  datatype LockStatus = LOCKED | CONFIRMED | RELEASED
  datatype Lock = Lock(booking: Id, status: LockStatus, expires: int)

  /** A row of bookingSeat; an empty `show` is a missing one. */
  datatype SeatRow = SeatRow(seat: Id, show: Id, status: Status)

  datatype Place = Place(show: Id, seat: Id)
  datatype SeatStatus = AVAILABLE | LOCKED | BOOKED
  datatype Availability = Availability(status: SeatStatus, until: Option<int>, user: Option<Id>)

  datatype DB = DB(
    locks: map<Id, Lock>,
    bookings: map<Id, Status>,
    seats: map<Id, seq<SeatRow>>,              // bookingSeat rows, by booking
    places: map<Place, Availability>)          // seatAvailability

  const FREE := Availability(AVAILABLE, None, None)

  // ---------------------------------------------------------------- one bulk release

  function Expired(locks: map<Id, Lock>, now: int): set<Id> {
    set i | i in locks && locks[i].status == LockStatus.LOCKED && locks[i].expires <= now
  }

  function BookingsOf(locks: map<Id, Lock>, ids: set<Id>): set<Id> {
    set i | i in ids && i in locks :: locks[i].booking
  }

  /** The seat rows the code acts on: some, and the first one names its show. */
  predicate Frees(rows: seq<SeatRow>) { rows != [] && rows[0].show != "" }

  predicate FreesPlace(rows: seq<SeatRow>, p: Place) {
    Frees(rows) && p.show == rows[0].show && exists i | 0 <= i < |rows| :: rows[i].seat == p.seat
  }

  function ExpireRows(rows: seq<SeatRow>): seq<SeatRow> {
    if Frees(rows) then seq(|rows|, i requires 0 <= i < |rows| => rows[i].(status := EXPIRED)) else rows
  }

  function ReleaseLocks(locks: map<Id, Lock>, ids: set<Id>): map<Id, Lock> {
    map i | i in locks :: if i in ids then locks[i].(status := RELEASED) else locks[i]
  }

  function ExpireBookings(bookings: map<Id, Status>, bs: set<Id>): map<Id, Status> {
    map b | b in bookings :: if b in bs && bookings[b] == Status.LOCKED then EXPIRED else bookings[b]
  }

  function ExpireSeats(seats: map<Id, seq<SeatRow>>, bs: set<Id>): map<Id, seq<SeatRow>> {
    map b | b in seats :: if b in bs then ExpireRows(seats[b]) else seats[b]
  }

  predicate Freed(seats: map<Id, seq<SeatRow>>, bs: set<Id>, p: Place) {
    exists b | b in bs && b in seats :: FreesPlace(seats[b], p)
  }

  function FreePlaces(places: map<Place, Availability>, seats: map<Id, seq<SeatRow>>, bs: set<Id>): map<Place, Availability> {
    map p | p in places :: if places[p].status == SeatStatus.LOCKED && Freed(seats, bs, p) then FREE else places[p]
  }

  /** Release the locks `ids`, and everything their bookings hold, all at once. */
  function Release(db: DB, ids: set<Id>): DB {
    var bs := BookingsOf(db.locks, ids);
    DB(ReleaseLocks(db.locks, ids), ExpireBookings(db.bookings, bs), ExpireSeats(db.seats, bs), FreePlaces(db.places, db.seats, bs))
  }

  // ---------------------------------------------------------------- batches compose

  lemma SameSeats(seats: map<Id, seq<SeatRow>>, xs: set<Id>, bs: set<Id>, p: Place)
    ensures Freed(ExpireSeats(seats, xs), bs, p) <==> Freed(seats, bs, p)
  {
    var after := ExpireSeats(seats, xs);
    forall b | b in seats ensures FreesPlace(after[b], p) <==> FreesPlace(seats[b], p) {
      SameRows(seats[b], p);
    }
  }

  lemma SameRows(rows: seq<SeatRow>, p: Place)
    ensures FreesPlace(ExpireRows(rows), p) <==> FreesPlace(rows, p)
    ensures ExpireRows(ExpireRows(rows)) == ExpireRows(rows)
  {
    var after := ExpireRows(rows);
    assert forall i | 0 <= i < |rows| :: after[i].seat == rows[i].seat && after[i].show == rows[i].show;
  }

  lemma SeatsTwice(seats: map<Id, seq<SeatRow>>, xs: set<Id>, bs: set<Id>)
    ensures ExpireSeats(ExpireSeats(seats, xs), bs) == ExpireSeats(seats, xs + bs)
  {
    forall b | b in seats ensures ExpireRows(ExpireRows(seats[b])) == ExpireRows(seats[b]) {
      SameRows(seats[b], Place("", ""));
    }
  }

  lemma PlacesTwice(places: map<Place, Availability>, seats: map<Id, seq<SeatRow>>, xs: set<Id>, bs: set<Id>)
    ensures FreePlaces(FreePlaces(places, seats, xs), ExpireSeats(seats, xs), bs) == FreePlaces(places, seats, xs + bs)
  {
    hide FreesPlace, ExpireSeats;
    forall p | p in places
      ensures Freed(ExpireSeats(seats, xs), bs, p) <==> Freed(seats, bs, p)
      ensures Freed(seats, xs + bs, p) <==> Freed(seats, xs, p) || Freed(seats, bs, p)
    {
      SameSeats(seats, xs, bs, p);
    }
  }

  lemma BookingsAfter(locks: map<Id, Lock>, xs: set<Id>, ys: set<Id>)
    ensures BookingsOf(ReleaseLocks(locks, xs), ys) == BookingsOf(locks, ys)
    ensures BookingsOf(locks, xs + ys) == BookingsOf(locks, xs) + BookingsOf(locks, ys)
  {
    var after := ReleaseLocks(locks, xs);
    assert forall i | i in locks :: after[i].booking == locks[i].booking;
    assert after.Keys == locks.Keys;
  }

  /** Two batches, one after the other, are one batch of both: the second sees the rows the
      first has already changed, and that makes no difference. */
  lemma BatchesCompose(db: DB, xs: set<Id>, ys: set<Id>)
    ensures Release(Release(db, xs), ys) == Release(db, xs + ys)
  {
    hide ExpireSeats, FreePlaces, BookingsOf;
    var first, second := BookingsOf(db.locks, xs), BookingsOf(db.locks, ys);
    BookingsAfter(db.locks, xs, ys);
    SeatsTwice(db.seats, first, second);
    PlacesTwice(db.places, db.seats, first, second);
    assert ReleaseLocks(ReleaseLocks(db.locks, xs), ys) == ReleaseLocks(db.locks, xs + ys);
    assert ExpireBookings(ExpireBookings(db.bookings, first), second) == ExpireBookings(db.bookings, first + second);
  }

  lemma ExpiredAfter(locks: map<Id, Lock>, ids: set<Id>, now: int)
    ensures Expired(ReleaseLocks(locks, ids), now) == Expired(locks, now) - ids
  {}

  lemma NothingReleased(db: DB)
    ensures Release(db, {}) == db
  {
    assert BookingsOf(db.locks, {}) == {};
    assert ReleaseLocks(db.locks, {}) == db.locks && ExpireBookings(db.bookings, {}) == db.bookings;
    assert ExpireSeats(db.seats, {}) == db.seats && FreePlaces(db.places, db.seats, {}) == db.places;
  }

  /** Sweeping again at the same instant finds nothing and does nothing. */
  lemma SweepIsIdempotent(db: DB, now: int)
    ensures var swept := Release(db, Expired(db.locks, now));
            Expired(swept.locks, now) == {} && Release(swept, Expired(swept.locks, now)) == swept
  {
    ExpiredAfter(db.locks, Expired(db.locks, now), now);
    NothingReleased(Release(db, Expired(db.locks, now)));
  }

  // ---------------------------------------------------------------- what a release means

  /** Row by row: the seat rows of the bookings `bs` are EXPIRED, and the LOCKED places they name are
      AVAILABLE to anybody; a booking without rows, or whose first row names no show, is passed over. */
  ghost predicate SeatsFreed(seats: map<Id, seq<SeatRow>>, places: map<Place, Availability>,
                             seats': map<Id, seq<SeatRow>>, places': map<Place, Availability>, bs: set<Id>)
  {
    && seats'.Keys == seats.Keys && places'.Keys == places.Keys
    && (forall b | b in seats :: |seats'[b]| == |seats[b]|)
    && (forall b, k | b in seats && 0 <= k < |seats[b]| ::
          seats'[b][k] == SeatRow(seats[b][k].seat, seats[b][k].show, if b in bs && seats[b][0].show != "" then EXPIRED else seats[b][k].status))
    && (forall p | p in places && Named(seats, bs, p) && places[p].status == SeatStatus.LOCKED :: places'[p] == Availability(AVAILABLE, None, None))
    && (forall p | p in places && !(Named(seats, bs, p) && places[p].status == SeatStatus.LOCKED) :: places'[p] == places[p])
  }

  /** A seat row of one of the bookings, whose first row has this show, names this seat. */
  ghost predicate Named(seats: map<Id, seq<SeatRow>>, bs: set<Id>, p: Place) {
    exists b, k | b in bs && b in seats && 0 <= k < |seats[b]| :: seats[b][0].show == p.show != "" && seats[b][k].seat == p.seat
  }

  /** Row by row: the locks `ids` are RELEASED, their LOCKED bookings EXPIRED, their seats freed, and
      nothing else has changed. */
  ghost predicate ReleasedExactly(was: DB, now: DB, ids: set<Id>) {
    && now.locks.Keys == was.locks.Keys && now.bookings.Keys == was.bookings.Keys
    && (forall i | i in was.locks ::
          now.locks[i] == if i in ids then Lock(was.locks[i].booking, LockStatus.RELEASED, was.locks[i].expires) else was.locks[i])
    && var bs := set i | i in ids && i in was.locks :: was.locks[i].booking;
    && (forall b | b in was.bookings :: now.bookings[b] == if b in bs && was.bookings[b] == Status.LOCKED then EXPIRED else was.bookings[b])
    && SeatsFreed(was.seats, was.places, now.seats, now.places, bs)
  }

  lemma NamedIsFreed(seats: map<Id, seq<SeatRow>>, bs: set<Id>, p: Place)
    ensures Named(seats, bs, p) <==> Freed(seats, bs, p)
  {
    if Freed(seats, bs, p) {
      var b :| b in bs && b in seats && FreesPlace(seats[b], p);
      var k :| 0 <= k < |seats[b]| && seats[b][k].seat == p.seat;
    }
    if Named(seats, bs, p) {
      var b, k :| b in bs && b in seats && 0 <= k < |seats[b]| && seats[b][0].show == p.show != "" && seats[b][k].seat == p.seat;
      assert FreesPlace(seats[b], p);
    }
  }

  lemma FreeingMeans(seats: map<Id, seq<SeatRow>>, places: map<Place, Availability>, bs: set<Id>)
    ensures SeatsFreed(seats, places, ExpireSeats(seats, bs), FreePlaces(places, seats, bs), bs)
  {
    forall p | p in places ensures Named(seats, bs, p) <==> Freed(seats, bs, p) { NamedIsFreed(seats, bs, p); }
    hide Named, Freed;
    assert ExpireSeats(seats, bs).Keys == seats.Keys && FreePlaces(places, seats, bs).Keys == places.Keys;
  }

  lemma ReleaseMeans(db: DB, ids: set<Id>)
    ensures ReleasedExactly(db, Release(db, ids), ids)
  {
    FreeingMeans(db.seats, db.places, BookingsOf(db.locks, ids));
    hide SeatsFreed, ExpireSeats, FreePlaces;
    assert BookingsOf(db.locks, ids) == set i | i in ids && i in db.locks :: db.locks[i].booking;
  }

  // ---------------------------------------------------------------- what a release touches

  /** Locks that are unexpired or not LOCKED, bookings that are not LOCKED, and bookings none of
      whose locks expired keep all their rows. */
  lemma Untouched(db: DB, now: int)
    ensures var after := Release(db, Expired(db.locks, now));
            after.locks.Keys == db.locks.Keys && after.bookings.Keys == db.bookings.Keys && after.seats.Keys == db.seats.Keys
    ensures var after := Release(db, Expired(db.locks, now));
            forall i | i in db.locks && (db.locks[i].expires > now || db.locks[i].status != LockStatus.LOCKED) :: after.locks[i] == db.locks[i]
    ensures var after := Release(db, Expired(db.locks, now));
            forall b | b in db.bookings && db.bookings[b] != Status.LOCKED :: after.bookings[b] == db.bookings[b]
    ensures var after := Release(db, Expired(db.locks, now));
            forall p | p in db.places && db.places[p].status != SeatStatus.LOCKED :: after.places[p] == db.places[p]
  {}

  /** The seat rows follow the locks, not the booking: a booking keeps its seat rows exactly when
      none of its locks is LOCKED and expired, or its rows are ones the code passes over, or
      they are EXPIRED already.  The booking's own status plays no part. */
  lemma SeatRowsKeptExactlyWhen(db: DB, now: int, b: Id)
    requires b in db.seats
    ensures Release(db, Expired(db.locks, now)).seats[b] == db.seats[b]
       <==> (forall i | i in db.locks && db.locks[i].booking == b :: i !in Expired(db.locks, now))
            || !Frees(db.seats[b])
            || forall k | 0 <= k < |db.seats[b]| :: db.seats[b][k].status == EXPIRED
  {
    var rows, after := db.seats[b], ExpireRows(db.seats[b]);
    if Frees(rows) {
      assert forall k | 0 <= k < |rows| :: after[k] == rows[k].(status := EXPIRED);
      assert after == rows <==> forall k | 0 <= k < |rows| :: after[k] == rows[k];
    }
    assert b in BookingsOf(db.locks, Expired(db.locks, now)) <==> exists i | i in Expired(db.locks, now) :: db.locks[i].booking == b;
  }

  // ---------------------------------------------------------------- a confirmation in the gap

  /** The transaction of `processPaymentSuccess` on these tables: booking, LOCKED locks and seat
      rows become CONFIRMED. */
  function Confirm(db: DB, b: Id): DB
    requires b in db.bookings
  {
    DB(map i | i in db.locks :: if db.locks[i].booking == b && db.locks[i].status == LockStatus.LOCKED then db.locks[i].(status := LockStatus.CONFIRMED) else db.locks[i],
       db.bookings[b := Status.CONFIRMED],
       map x | x in db.seats :: if x == b then seq(|db.seats[b]|, i requires 0 <= i < |db.seats[b]| => db.seats[b][i].(status := Status.CONFIRMED)) else db.seats[x],
       db.places)
  }

  /** A confirmation that commits before the listing is safe: none of the booking's locks is
      listed any more, and the sweep leaves its seat rows alone. */
  lemma ConfirmedBeforeListing(db: DB, now: int, b: Id)
    requires b in db.bookings && b in db.seats
    ensures var c := Confirm(db, b);
            (forall i | i in Expired(c.locks, now) :: c.locks[i].booking != b)
            && Release(c, Expired(c.locks, now)).seats[b] == c.seats[b]
  {
    SeatRowsKeptExactlyWhen(Confirm(db, b), now, b);
  }

  /** One that commits between the listing and the release's transaction is not: locks are released
      by id alone.  The booking stays CONFIRMED; its seat rows stay CONFIRMED exactly when none of
      its locks was on the list, or they are rows the code passes over. */
  lemma ConfirmedAfterListing(db: DB, now: int, listed: set<Id>, b: Id)
    requires b in db.bookings && b in db.seats && listed <= Expired(db.locks, now)
    ensures var end := Release(Confirm(db, b), listed);
            end.bookings[b] == Status.CONFIRMED
            && (forall i | i in listed :: end.locks[i].status == LockStatus.RELEASED)
            && ((forall k | 0 <= k < |end.seats[b]| :: end.seats[b][k].status == Status.CONFIRMED)
                <==> (forall i | i in listed :: db.locks[i].booking != b) || !Frees(db.seats[b]))
  {
    var c := Confirm(db, b);
    var end := Release(c, listed);
    assert BookingsOf(c.locks, listed) == BookingsOf(db.locks, listed);
    assert b in BookingsOf(db.locks, listed) <==> exists i | i in listed :: db.locks[i].booking == b;
    assert |c.seats[b]| == |db.seats[b]| && (db.seats[b] != [] ==> c.seats[b][0].show == db.seats[b][0].show);
    if Frees(db.seats[b]) && b in BookingsOf(db.locks, listed) {
      assert end.seats[b][0].status == EXPIRED;
    }
  }

  // ---------------------------------------------------------------- oldest first

  function Expiries(locks: map<Id, Lock>): map<Id, int> { map i | i in locks :: locks[i].expires }

  lemma MoreReleased(now: int, before: DB, done: set<Id>, batch: set<Id>)
    requires done <= Expired(before.locks, now)
    requires batch <= Expired(before.locks, now) - done
    requires OldestFirst(Expiries(before.locks), done, Expired(before.locks, now))
    requires OldestFirst(Expiries(before.locks), batch, Expired(before.locks, now) - done)
    ensures done + batch <= Expired(before.locks, now) && |done + batch| == |done| + |batch|
    ensures OldestFirst(Expiries(before.locks), done + batch, Expired(before.locks, now))
    ensures Release(Release(before, done), batch) == Release(before, done + batch)
  {
    hide Release;
    BatchesCompose(before, done, batch);
    assert done !! batch;
  }

  lemma ReleaseKeepsExpiries(locks: map<Id, Lock>, ids: set<Id>)
    ensures Expiries(ReleaseLocks(locks, ids)) == Expiries(locks)
  {}

  // ---------------------------------------------------------------- the worker

  function SeatIds(rows: seq<SeatRow>): set<Id> { set k | 0 <= k < |rows| :: rows[k].seat }

  lemma FreedByOne(seats: map<Id, seq<SeatRow>>, b: Id, p: Place)
    requires b in seats && Frees(seats[b])
    ensures Freed(seats, {b}, p) <==> p.show == seats[b][0].show && p.seat in SeatIds(seats[b])
  {
    assert Freed(seats, {b}, p) <==> FreesPlace(seats[b], p);
  }

  class SeatLockWorker {
    const batchSize: nat
    var isSweeping: bool
    var locks: map<Id, Lock>
    var bookings: map<Id, Status>
    var seats: map<Id, seq<SeatRow>>
    var places: map<Place, Availability>

    ghost function Tables(): DB
      reads this
    {
      DB(locks, bookings, seats, places)
    }

    constructor (batchSize: nat, locks: map<Id, Lock>, bookings: map<Id, Status>, seats: map<Id, seq<SeatRow>>, places: map<Place, Availability>)
      ensures this.batchSize == batchSize && !isSweeping && Tables() == DB(locks, bookings, seats, places)
    {
      this.batchSize, isSweeping := batchSize, false;
      this.locks, this.bookings, this.seats, this.places := locks, bookings, seats, places;
    }

    /** `findMany` with `take` and `orderBy expiresAt asc`. */
    method FindExpired(now: int) returns (found: seq<Id>)
      ensures Oldest(Expiries(locks), Expired(locks, now), batchSize, found)
    {
      found := TakeOldest(Expiries(locks), Expired(locks, now), batchSize);
    }

    /** The bookings of a batch's locks, each once. */
    method AffectedBookings(lockIds: seq<Id>) returns (bookingIds: seq<Id>)
      requires SetOf(lockIds) <= locks.Keys
      ensures Distinct(bookingIds) && SetOf(bookingIds) == BookingsOf(locks, SetOf(lockIds))
    {
      bookingIds := [];
      for i := 0 to |lockIds|
        invariant Distinct(bookingIds) && SetOf(bookingIds) == BookingsOf(locks, SetOf(lockIds[..i]))
      {
        assert lockIds[i] in SetOf(lockIds);
        assert SetOf(lockIds[..i + 1]) == SetOf(lockIds[..i]) + {lockIds[i]};
        var b := locks[lockIds[i]].booking;
        assert BookingsOf(locks, SetOf(lockIds[..i + 1])) == BookingsOf(locks, SetOf(lockIds[..i])) + {b};
        if b !in bookingIds {
          assert SetOf(bookingIds + [b]) == SetOf(bookingIds) + {b};
          bookingIds := bookingIds + [b];
        } else {
          assert b in SetOf(bookingIds);
        }
      }
      assert lockIds[..|lockIds|] == lockIds;
    }

    /** The transaction of one batch, table by table. */
    method ReleaseBatch(lockIds: seq<Id>)
      requires SetOf(lockIds) <= locks.Keys
      modifies this
      ensures Tables() == Release(old(Tables()), SetOf(lockIds)) && isSweeping == old(isSweeping)
      ensures ReleasedExactly(old(Tables()), Tables(), SetOf(lockIds))
    {
      hide ReleasedExactly, Distinct, SeatsFreed;
      ReleaseMeans(Tables(), SetOf(lockIds));
      var bookingIds := AffectedBookings(lockIds);
      locks := map i | i in locks :: if i in lockIds then locks[i].(status := RELEASED) else locks[i];
      bookings := map b | b in bookings :: if b in bookingIds && bookings[b] == Status.LOCKED then EXPIRED else bookings[b];
      assert locks == ReleaseLocks(old(locks), SetOf(lockIds));
      assert bookings == ExpireBookings(old(bookings), SetOf(bookingIds));
      FreeSeats(bookingIds);
    }

    /** The loop over the affected bookings: physical seats freed, seat rows expired. */
    method FreeSeats(bookingIds: seq<Id>)
      modifies this`seats, this`places
      ensures seats == ExpireSeats(old(seats), SetOf(bookingIds))
      ensures places == FreePlaces(old(places), old(seats), SetOf(bookingIds))
      ensures SeatsFreed(old(seats), old(places), seats, places, SetOf(bookingIds))
    {
      hide SeatsFreed;
      FreeingMeans(seats, places, SetOf(bookingIds));
      NothingFreed(seats, places);
      for i := 0 to |bookingIds|
        invariant seats == ExpireSeats(old(seats), SetOf(bookingIds[..i]))
        invariant places == FreePlaces(old(places), old(seats), SetOf(bookingIds[..i]))
      {
        hide ExpireSeats, FreePlaces;
        var b := bookingIds[i];
        FreeSeatsOf(b);
        SeatsTwice(old(seats), SetOf(bookingIds[..i]), {b});
        PlacesTwice(old(places), old(seats), SetOf(bookingIds[..i]), {b});
        assert SetOf(bookingIds[..i + 1]) == SetOf(bookingIds[..i]) + {b};
      }
      assert bookingIds[..|bookingIds|] == bookingIds;
    }

    method FreeSeatsOf(b: Id)
      modifies this`seats, this`places
      ensures seats == ExpireSeats(old(seats), {b})
      ensures places == FreePlaces(old(places), old(seats), {b})
    {
      if b in seats && seats[b] != [] && seats[b][0].show != "" {
        var rows := seats[b];
        var show := rows[0].show;
        var seatIds := SeatIds(rows);
        forall p: Place ensures Freed(old(seats), {b}, p) <==> p.show == show && p.seat in seatIds {
          FreedByOne(old(seats), b, p);
        }
        hide Freed, SeatIds;
        places := map p | p in places ::
          if p.show == show && p.seat in seatIds && places[p].status == SeatStatus.LOCKED then Availability(AVAILABLE, None, None) else places[p];
        seats := seats[b := seq(|rows|, k requires 0 <= k < |rows| => rows[k].(status := EXPIRED))];
      } else {
        assert forall p: Place :: !Freed(old(seats), {b}, p);
      }
      hide Freed, FreesPlace, SeatIds;
      assert seats == ExpireSeats(old(seats), {b});
      assert places == FreePlaces(old(places), old(seats), {b});
    }

    /** One turn of the sweep's loop: find a batch and release it. */
    method SweepBatch(now: int, ghost before: DB, ghost released: set<Id>) returns (count: nat, ghost more: set<Id>)
      requires Swept(before, now, released, Tables())
      modifies this
      ensures Swept(before, now, more, Tables()) && isSweeping == old(isSweeping)
      ensures released <= more && |more| == |released| + count && count <= batchSize
      ensures count < batchSize ==> more == Expired(before.locks, now)
    {
      hide Release, Expired, OldestFirst, Distinct, ReleaseLocks, Expiries;
      ReleasedLocks(before, released, now);
      var expiredLocks := FindExpired(now);
      DistinctSize(expiredLocks);
      ghost var batch := SetOf(expiredLocks);
      ReleaseKeepsExpiries(before.locks, released);
      MoreReleased(now, before, released, batch);
      if |expiredLocks| == 0 {
        assert batch == {};
        return 0, released;
      }
      ReleaseBatch(expiredLocks);
      return |expiredLocks|, released + batch;
    }

    /** One sweep.  `outage` is the number of the batch whose transaction throws, if any does.
        Without an outage the batches add up to one bulk release of every expired lock; with one,
        to a bulk release of the oldest of them.  Termination is the loop's: fewer LOCKED and
        expired locks after every batch. */
    method ReleaseExpiredLocks(now: int, outage: Option<nat>) returns (total: nat, ghost released: set<Id>)
      requires batchSize >= 1
      modifies this
      ensures old(isSweeping) ==> released == {} && isSweeping && Tables() == old(Tables())
      ensures !old(isSweeping) ==> !isSweeping && Tables() == Release(old(Tables()), released)
      ensures ReleasedExactly(old(Tables()), Tables(), released)
      ensures forall i | i in released :: i in old(locks) && old(locks)[i].status == LockStatus.LOCKED && old(locks)[i].expires <= now
      ensures !old(isSweeping) && outage.None? ==>
        forall i | i in old(locks) && old(locks)[i].status == LockStatus.LOCKED && old(locks)[i].expires <= now :: i in released
      ensures released <= Expired(old(locks), now) && total == |released|
      ensures OldestFirst(Expiries(old(locks)), released, Expired(old(locks), now))
      ensures !old(isSweeping) && outage.None? ==> released == Expired(old(locks), now)
      ensures !old(isSweeping) && outage.Some? ==>
        released == Expired(old(locks), now) || |released| == outage.value * batchSize
    {
      hide Release, Expired, OldestFirst, ReleaseLocks, Expiries, ReleasedExactly;
      total, released := 0, {};
      NoneReleased(locks, now);
      ExpiredMeans(locks, now);
      NothingReleased(Tables());
      ReleaseMeans(Tables(), {});
      if isSweeping { return; }
      isSweeping := true;
      var round: nat := 0;
      while true
        invariant isSweeping && Swept(old(Tables()), now, released, Tables())
        invariant total == |released| == round * batchSize
        decreases |Expired(old(locks), now)| - |released|
      {
        if outage == Some(round) { break; }
        SizesOrdered(released, Expired(old(locks), now));
        var count;
        count, released := SweepBatch(now, old(Tables()), released);
        SizesOrdered(released, Expired(old(locks), now));
        total := total + count;
        round := round + 1;
        if count < batchSize { break; }
      }
      ReleaseMeans(old(Tables()), released);
      isSweeping := false;
    }
  }

  /** How far a sweep of `before` has come when exactly `released` are done. */
  ghost predicate Swept(before: DB, now: int, released: set<Id>, tables: DB) {
    && tables == Release(before, released) && released <= Expired(before.locks, now)
    && OldestFirst(Expiries(before.locks), released, Expired(before.locks, now))
  }

  lemma NoneReleased(locks: map<Id, Lock>, now: int)
    ensures OldestFirst(Expiries(locks), {}, Expired(locks, now))
  {}

  lemma ExpiredMeans(locks: map<Id, Lock>, now: int)
    ensures forall i :: i in Expired(locks, now) <==> i in locks && locks[i].status == LockStatus.LOCKED && locks[i].expires <= now
  {}

  lemma ReleasedLocks(db: DB, ids: set<Id>, now: int)
    ensures Release(db, ids).locks == ReleaseLocks(db.locks, ids) && Release(db, ids).locks.Keys == db.locks.Keys
    ensures Expired(Release(db, ids).locks, now) == Expired(db.locks, now) - ids
    ensures Expired(db.locks, now) <= db.locks.Keys
  {}

  lemma NothingFreed(seats: map<Id, seq<SeatRow>>, places: map<Place, Availability>)
    ensures ExpireSeats(seats, SetOf([])) == seats && FreePlaces(places, seats, SetOf([])) == places
  {
    assert ExpireSeats(seats, SetOf([])) == seats;
    assert FreePlaces(places, seats, SetOf([])) == places;
  }
}
