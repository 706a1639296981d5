/** The two booking sweeps: LOCKED bookings past their expiry become EXPIRED, PENDING bookings
    older than a quarter of an hour become FAILED, a hundred per tick, oldest first, each in its
    own transaction that looks at the row again. */
module ExpirySweep {
  import opened Lifecycle
  import opened Outcomes
  import opened Sequences

  type Id = string

  datatype Booking = Booking(status: Status, expires: int, created: int, payment: Option<string>)

  datatype Kind = Expiry | Cleanup

  type Table = map<Id, Booking>

  const BATCH := 100
  const PENDING_MS := 15 * 60 * 1000

  // ---------------------------------------------------------------- one row

  /** The listing query. */
  predicate Due(kind: Kind, b: Booking, now: int) {
    match kind
    case Expiry => b.status == LOCKED && b.expires < now && b.payment == None
    case Cleanup => b.status == PENDING && b.created < now - PENDING_MS
  }

  /** The re-check inside the transaction: neither clock nor age, and an empty payment id counts
      as none. */
  predicate StillDue(kind: Kind, b: Booking) {
    match kind
    case Expiry => b.status == LOCKED && (b.payment.None? || b.payment.value == "")
    case Cleanup => b.status == PENDING
  }

  function Closed(kind: Kind, b: Booking): Booking {
    b.(status := match kind case Expiry => EXPIRED case Cleanup => FAILED)
  }

  function Age(kind: Kind, b: Booking): int { match kind case Expiry => b.expires case Cleanup => b.created }

  /** One transaction; `done` lists the bookings it wrote, for which the expiry sweep also
      releases the seats. */
  datatype DB = DB(table: Table, done: seq<Id>)

  function CloseOne(kind: Kind, db: DB, id: Id): DB {
    if id in db.table && StillDue(kind, db.table[id])
    then DB(db.table[id := Closed(kind, db.table[id])], db.done + [id])
    else db
  }

  /** The loop over the listed bookings; the transactions of `failing` ones throw and are skipped. */
  function CloseEach(kind: Kind, db: DB, ids: seq<Id>, failing: set<Id>): DB
    decreases |ids|
  {
    if ids == [] then db
    else
      var n := |ids| - 1;
      var before := CloseEach(kind, db, ids[..n], failing);
      if ids[n] in failing then before else CloseOne(kind, before, ids[n])
  }

  // ---------------------------------------------------------------- one tick

  function DueSet(kind: Kind, t: Table, now: int): set<Id> { set i | i in t && Due(kind, t[i], now) }

  function Ages(kind: Kind, t: Table): map<Id, int> { map i | i in t :: Age(kind, t[i]) }

  /** What the listing query may answer. */
  predicate Listing(kind: Kind, t: Table, now: int, ids: seq<Id>) {
    Oldest(Ages(kind, t), DueSet(kind, t, now), BATCH, ids)
  }

  function CloseSet(kind: Kind, t: Table, ids: set<Id>): Table {
    map i | i in t :: if i in ids then Closed(kind, t[i]) else t[i]
  }

  function Without(ids: seq<Id>, failing: set<Id>): seq<Id> {
    if ids == [] then []
    else
      var n := |ids| - 1;
      if ids[n] in failing then Without(ids[..n], failing) else Without(ids[..n], failing) + [ids[n]]
  }

  lemma {:induction false} WithoutSet(ids: seq<Id>, failing: set<Id>)
    ensures SetOf(Without(ids, failing)) == SetOf(ids) - failing
  {
    if ids != [] {
      var n := |ids| - 1;
      WithoutSet(ids[..n], failing);
      assert ids == ids[..n] + [ids[n]];
      assert SetOf(ids) == SetOf(ids[..n]) + {ids[n]};
      assert SetOf(Without(ids[..n], failing) + [ids[n]]) == SetOf(Without(ids[..n], failing)) + {ids[n]};
    }
  }

  lemma CloseNext(kind: Kind, t: Table, done: set<Id>, id: Id)
    requires id in t && id !in done
    ensures var before := CloseSet(kind, t, done);
            before.Keys == t.Keys && before[id] == t[id] && before[id := Closed(kind, t[id])] == CloseSet(kind, t, done + {id})
  {}

  /** Undisturbed, the loop closes exactly the listed bookings whose transactions commit, all at
      once as far as the table can tell, and each is reported once. */
  lemma {:induction false} LoopIsOneUpdate(kind: Kind, db: DB, ids: seq<Id>, failing: set<Id>)
    requires Distinct(ids) && forall i | 0 <= i < |ids| :: ids[i] in db.table && StillDue(kind, db.table[ids[i]])
    ensures CloseEach(kind, db, ids, failing) == DB(CloseSet(kind, db.table, SetOf(ids) - failing), db.done + Without(ids, failing))
    decreases |ids|
  {
    if ids == [] {
      assert CloseSet(kind, db.table, {}) == db.table;
      assert SetOf(ids) - failing == {} && db.done + [] == db.done;
    } else {
      var n := |ids| - 1;
      LoopIsOneUpdate(kind, db, ids[..n], failing);
      hide StillDue, Closed, CloseSet, Distinct;
      var before := SetOf(ids[..n]) - failing;
      assert ids == ids[..n] + [ids[n]];
      assert SetOf(ids) == SetOf(ids[..n]) + {ids[n]};
      if ids[n] in failing {
        assert SetOf(ids) - failing == before;
      } else {
        assert ids[n] !in before by { LastIsNew(ids); }
        assert SetOf(ids) - failing == before + {ids[n]};
        CloseNext(kind, db.table, before, ids[n]);
        assert (db.done + Without(ids[..n], failing)) + [ids[n]] == db.done + Without(ids, failing);
      }
    }
  }

  lemma LastIsNew(ids: seq<Id>)
    requires Distinct(ids) && ids != []
    ensures ids[|ids| - 1] !in ids[..|ids| - 1]
  {}

  lemma DueIsStillDue(kind: Kind, t: Table, now: int, ids: seq<Id>)
    requires SetOf(ids) <= DueSet(kind, t, now)
    ensures forall i | 0 <= i < |ids| :: ids[i] in t && StillDue(kind, t[ids[i]])
  {
    forall i | 0 <= i < |ids| ensures ids[i] in t && StillDue(kind, t[ids[i]]) {
      assert ids[i] in SetOf(ids);
    }
  }

  lemma ListedAreStillDue(kind: Kind, t: Table, now: int, ids: seq<Id>)
    requires Listing(kind, t, now, ids)
    ensures forall i | 0 <= i < |ids| :: ids[i] in t && StillDue(kind, t[ids[i]])
  {
    hide Oldest;
    ListingIsDue(kind, t, now, ids);
    DueIsStillDue(kind, t, now, ids);
  }

  lemma ListingIsDue(kind: Kind, t: Table, now: int, ids: seq<Id>)
    requires Listing(kind, t, now, ids)
    ensures Distinct(ids) && SetOf(ids) <= DueSet(kind, t, now) && |SetOf(ids)| == |ids| <= BATCH
  {
    DistinctSize(ids);
  }

  // ---------------------------------------------------------------- draining a backlog

  /** An undisturbed tick at `now`: list, then the loop, with the transactions of `failing`
      bookings throwing. */
  ghost predicate Tick(kind: Kind, before: Table, after: Table, now: int, failing: set<Id>) {
    exists ids :: Listing(kind, before, now, ids) && after == CloseEach(kind, DB(before, []), ids, failing).table
  }

  /** What a tick does to the table. */
  lemma TickCloses(kind: Kind, before: Table, after: Table, now: int, failing: set<Id>) returns (ids: seq<Id>)
    requires Tick(kind, before, after, now, failing)
    ensures Listing(kind, before, now, ids) && after == CloseSet(kind, before, SetOf(ids) - failing)
  {
    ids :| Listing(kind, before, now, ids) && after == CloseEach(kind, DB(before, []), ids, failing).table;
    ListedAreStillDue(kind, before, now, ids);
    ListingIsDue(kind, before, now, ids);
    LoopIsOneUpdate(kind, DB(before, []), ids, failing);
  }

  /** Tables before the first tick and after each one, no transaction failing. */
  ghost predicate Ticks(kind: Kind, trace: seq<Table>, nows: seq<int>) {
    && |trace| == |nows| + 1
    && forall k | 0 <= k < |nows| :: Tick(kind, trace[k], trace[k + 1], nows[k], {})
  }

  /** Nothing becomes due after the first tick. */
  ghost predicate NothingNew(kind: Kind, t: Table, nows: seq<int>) {
    forall k | 0 <= k < |nows| :: DueSet(kind, t, nows[k]) == DueSet(kind, t, nows[0])
  }

  lemma DueAfter(kind: Kind, t: Table, ids: set<Id>, now: int)
    ensures DueSet(kind, CloseSet(kind, t, ids), now) == DueSet(kind, t, now) - ids
  {}

  lemma ClosedTwice(kind: Kind, t: Table, xs: set<Id>, ys: set<Id>)
    ensures CloseSet(kind, CloseSet(kind, t, xs), ys) == CloseSet(kind, t, xs + ys)
  {}

  ghost predicate Progress(kind: Kind, t: Table, all: set<Id>, closed: set<Id>, k: nat, now: Table) {
    && closed <= all && now == CloseSet(kind, t, closed) && OldestFirst(Ages(kind, t), closed, all)
    && |closed| == if BATCH * k <= |all| then BATCH * k else |all|
  }

  lemma CloseKeepsAges(kind: Kind, t: Table, ids: set<Id>)
    ensures Ages(kind, CloseSet(kind, t, ids)) == Ages(kind, t)
  {}

  lemma OneMoreTick(kind: Kind, t: Table, all: set<Id>, closed: set<Id>, k: nat, before: Table, after: Table, now: int, ids: seq<Id>)
    requires all == DueSet(kind, t, now) && Progress(kind, t, all, closed, k, before)
    requires Listing(kind, before, now, ids) && after == CloseSet(kind, before, SetOf(ids))
    ensures Progress(kind, t, all, closed + SetOf(ids), k + 1, after)
  {
    hide Due, Age, CloseSet, Ages;
    DueAfter(kind, t, closed, now);
    ClosedTwice(kind, t, closed, SetOf(ids));
    CloseKeepsAges(kind, t, closed);
    DistinctSize(ids);
    SizesOrdered(SetOf(ids), all - closed);
    SplitSize(all, closed);
    assert |closed + SetOf(ids)| == |closed| + |ids|;
  }

  /** After k ticks the 100·k oldest are closed, or all of them, and nothing else has changed. */
  lemma {:induction false} AfterTicks(kind: Kind, trace: seq<Table>, nows: seq<int>, k: nat) returns (closed: set<Id>)
    requires Ticks(kind, trace, nows) && nows != [] && NothingNew(kind, trace[0], nows) && k <= |nows|
    ensures Progress(kind, trace[0], DueSet(kind, trace[0], nows[0]), closed, k, trace[k])
  {
    var all := DueSet(kind, trace[0], nows[0]);
    if k == 0 {
      closed := {};
      assert CloseSet(kind, trace[0], {}) == trace[0];
    } else {
      closed := AfterTicks(kind, trace, nows, k - 1);
      hide Progress, Listing, CloseSet, DueSet, Tick;
      assert Tick(kind, trace[k - 1], trace[(k - 1) + 1], nows[k - 1], {});
      var ids := TickCloses(kind, trace[k - 1], trace[k], nows[k - 1], {});
      assert SetOf(ids) - {} == SetOf(ids);
      OneMoreTick(kind, trace[0], all, closed, k - 1, trace[k - 1], trace[k], nows[k - 1], ids);
      closed := closed + SetOf(ids);
    }
  }

  lemma FullSubset(part: set<Id>, all: set<Id>)
    requires part <= all && |part| == |all|
    ensures part == all
  {
    SplitSize(all, part);
  }

  /** A backlog of n is gone after exactly ceil(n/100) ticks: the k-th tick leaves nothing due if
      and only if 100·k is at least n, and then every booking of the backlog is closed and no
      other booking has changed. */
  lemma DrainBound(kind: Kind, trace: seq<Table>, nows: seq<int>, k: nat)
    requires Ticks(kind, trace, nows) && nows != [] && NothingNew(kind, trace[0], nows) && k <= |nows|
    ensures var backlog := DueSet(kind, trace[0], nows[0]);
            (DueSet(kind, trace[k], nows[0]) == {} <==> BATCH * k >= |backlog|)
            && (BATCH * k >= |backlog| ==> trace[k] == CloseSet(kind, trace[0], backlog))
  {
    var backlog := DueSet(kind, trace[0], nows[0]);
    var closed := AfterTicks(kind, trace, nows, k);
    hide DueSet, CloseSet, Ticks, NothingNew, OldestFirst;
    DueAfter(kind, trace[0], closed, nows[0]);
    if BATCH * k >= |backlog| {
      FullSubset(closed, backlog);
      assert backlog - closed == {};
    } else {
      SplitSize(backlog, closed);
      assert |backlog - closed| > 0;
    }
  }

  /** Oldest first: whatever is still due after some ticks is no older than what is closed. */
  lemma ClosedAreOldest(kind: Kind, trace: seq<Table>, nows: seq<int>, k: nat, x: Id, y: Id)
    requires Ticks(kind, trace, nows) && nows != [] && NothingNew(kind, trace[0], nows) && k <= |nows|
    requires x in trace[0] && y in trace[0] && x in trace[k] && trace[k][x] != trace[0][x] && y in DueSet(kind, trace[k], nows[0])
    ensures Age(kind, trace[0][x]) <= Age(kind, trace[0][y])
  {
    var closed := AfterTicks(kind, trace, nows, k);
    hide Ticks, NothingNew, Age;
    DueAfter(kind, trace[0], closed, nows[0]);
  }

  // ---------------------------------------------------------------- failing bookings at the head

  /** Due now or at some later time. */
  predicate Open(kind: Kind, b: Booking) {
    match kind
    case Expiry => b.status == LOCKED && b.payment == None
    case Cleanup => b.status == PENDING
  }

  /** The open bookings older than x. */
  function Ahead(kind: Kind, t: Table, x: Id): set<Id>
    requires x in t
  {
    set y | y in t && Open(kind, t[y]) && Age(kind, t[y]) < Age(kind, t[x])
  }

  /** No other open booking is exactly as old as x. */
  predicate NoTie(kind: Kind, t: Table, x: Id)
    requires x in t
  {
    forall y | y in t && y != x && Open(kind, t[y]) :: Age(kind, t[y]) != Age(kind, t[x])
  }

  lemma DueIsOpen(kind: Kind, t: Table, now: int, x: Id)
    requires x in DueSet(kind, t, now)
    ensures Open(kind, t[x]) && Ahead(kind, t, x) <= DueSet(kind, t, now)
    ensures NoTie(kind, t, x) ==> forall y | y in DueSet(kind, t, now) && y != x && y !in Ahead(kind, t, x) :: Age(kind, t[y]) > Age(kind, t[x])
  {}

  /** A due booking is listed unless a full batch is ahead of it, and then the batch is all ahead. */
  lemma ListedUnlessCrowdedOut(kind: Kind, t: Table, now: int, ids: seq<Id>, x: Id)
    requires Listing(kind, t, now, ids) && x in DueSet(kind, t, now) && NoTie(kind, t, x)
    ensures x in SetOf(ids) ==> Ahead(kind, t, x) <= SetOf(ids)
    ensures x !in SetOf(ids) ==> SetOf(ids) <= Ahead(kind, t, x) && |ids| == BATCH
  {
    var born, all := Ages(kind, t), DueSet(kind, t, now);
    DueIsOpen(kind, t, now, x);
    assert all <= born.Keys && forall y | y in all :: born[y] == Age(kind, t[y]);
    hide Due, Age, Open, Distinct;
    if x in SetOf(ids) {
      forall y | y in Ahead(kind, t, x) ensures y in SetOf(ids) {
        assert y in all && born[y] < born[x];
      }
    } else {
      forall y | y in SetOf(ids) ensures y in Ahead(kind, t, x) {
        assert y in all && born[y] <= born[x];
      }
    }
  }

  lemma CloseShrinksAhead(kind: Kind, t: Table, ids: set<Id>, x: Id)
    requires x in t && x !in ids
    ensures var after := CloseSet(kind, t, ids);
            x in after && after[x] == t[x] && Ahead(kind, after, x) == Ahead(kind, t, x) - ids
            && (NoTie(kind, t, x) ==> NoTie(kind, after, x))
  {}

  /** Tables before the first tick and after every one, for ever; the clock never runs backwards
      and the transactions of the `failing` bookings throw every time. */
  ghost predicate Forever(kind: Kind, trace: nat -> Table, nows: nat -> int, failing: set<Id>) {
    forall k: nat :: Tick(kind, trace(k), trace(k + 1), nows(k), failing) && nows(k) <= nows(k + 1)
  }

  lemma {:induction false} ClockOnlyAdvances(kind: Kind, trace: nat -> Table, nows: nat -> int, failing: set<Id>, k: nat)
    requires Forever(kind, trace, nows, failing)
    ensures nows(0) <= nows(k)
  {
    if k > 0 { ClockOnlyAdvances(kind, trace, nows, failing, k - 1); }
  }

  lemma DueLater(kind: Kind, t: Table, x: Id, now: int, later: int)
    requires x in DueSet(kind, t, now) && now <= later
    ensures x in DueSet(kind, t, later)
  {}

  /** x waits, its row as it was at the start, behind `failing` and at least as few others as before. */
  ghost predicate Waits(kind: Kind, start: Table, t: Table, x: Id, failing: set<Id>, left: int)
    requires x in start
  {
    && x in t && t[x] == start[x] && NoTie(kind, t, x)
    && Ahead(kind, t, x) * failing == Ahead(kind, start, x) * failing
    && |Ahead(kind, t, x) - failing| <= left
  }

  /** How many healthy ones a full batch taken from ahead of x closes. */
  lemma HealthyInBatch(ahead: set<Id>, failing: set<Id>, ids: set<Id>)
    requires ids <= ahead && |ids| == BATCH
    ensures var gone := ids - failing;
            (ahead - gone) * failing == ahead * failing
            && |(ahead - gone) - failing| == |ahead - failing| - |gone| && |gone| >= BATCH - |ahead * failing|
  {
    var gone := ids - failing;
    assert (ahead - gone) * failing == ahead * failing && (ahead - gone) - failing == (ahead - failing) - gone;
    SplitSize(ahead - failing, gone);
    SplitSize(ids, ids * failing);
    assert ids - ids * failing == gone;
    SizesOrdered(ids * failing, ahead * failing);
  }

  lemma StillWaits(kind: Kind, start: Table, t: Table, ids: set<Id>, failing: set<Id>, x: Id, left: int)
    requires x in start && Waits(kind, start, t, x, failing, left)
    requires ids <= Ahead(kind, t, x) && |ids| == BATCH
    ensures var after, stuck := CloseSet(kind, t, ids - failing), |Ahead(kind, start, x) * failing|;
            Waits(kind, start, after, x, failing, left) && Waits(kind, start, after, x, failing, left - (BATCH - stuck))
  {
    hide NoTie, CloseSet;
    assert x !in ids by { NotAheadOfItself(kind, t, x); }
    hide Ahead;
    CloseShrinksAhead(kind, t, ids - failing, x);
    HealthyInBatch(Ahead(kind, t, x), failing, ids);
  }

  /** One tick seen from x: it is closed, or still waits behind fewer healthy bookings. */
  lemma TickFor(kind: Kind, start: Table, t: Table, after: Table, now: int, failing: set<Id>, x: Id, left: int)
    requires x in start && Waits(kind, start, t, x, failing, left) && x in DueSet(kind, t, now) && Tick(kind, t, after, now, failing)
    requires x !in failing
    ensures |Ahead(kind, start, x) * failing| >= BATCH ==> Waits(kind, start, after, x, failing, left)
    ensures |Ahead(kind, start, x) * failing| < BATCH ==>
              (x in after && !Open(kind, after[x])) || Waits(kind, start, after, x, failing, left - (BATCH - |Ahead(kind, start, x) * failing|))
  {
    hide Tick, Listing, DueSet, NoTie, Ahead, CloseSet;
    var ids := TickCloses(kind, t, after, now, failing);
    ListedUnlessCrowdedOut(kind, t, now, ids, x);
    ListingIsDue(kind, t, now, ids);
    if x in SetOf(ids) {
      var stuck := Ahead(kind, t, x) * failing;
      NotAheadOfItself(kind, t, x);
      SizesOrdered(stuck + {x}, SetOf(ids));
      ClosedIsNotOpen(kind, t, SetOf(ids) - failing, x);
    } else {
      StillWaits(kind, start, t, SetOf(ids), failing, x, left);
    }
  }

  lemma NotAheadOfItself(kind: Kind, t: Table, x: Id)
    requires x in t
    ensures x !in Ahead(kind, t, x)
  {}

  lemma ClosedIsNotOpen(kind: Kind, t: Table, ids: set<Id>, x: Id)
    requires x in ids && x in t
    ensures x in CloseSet(kind, t, ids) && !Open(kind, CloseSet(kind, t, ids)[x])
  {}

  /** With a hundred or more failing bookings ahead of it, x is never listed, let alone closed. */
  lemma {:induction false} StuckForever(kind: Kind, trace: nat -> Table, nows: nat -> int, failing: set<Id>, x: Id, k: nat)
    requires Forever(kind, trace, nows, failing)
    requires x in DueSet(kind, trace(0), nows(0)) && x !in failing && NoTie(kind, trace(0), x)
    requires |Ahead(kind, trace(0), x) * failing| >= BATCH
    ensures Waits(kind, trace(0), trace(k), x, failing, |Ahead(kind, trace(0), x) - failing|)
  {
    hide Tick, Ahead, NoTie;
    if k > 0 {
      StuckForever(kind, trace, nows, failing, x, k - 1);
      ClockOnlyAdvances(kind, trace, nows, failing, k - 1);
      SameRowDue(kind, trace(0), trace(k - 1), x, nows(0), nows(k - 1));
      assert Tick(kind, trace(k - 1), trace((k - 1) + 1), nows(k - 1), failing);
      TickFor(kind, trace(0), trace(k - 1), trace(k), nows(k - 1), failing, x, |Ahead(kind, trace(0), x) - failing|);
    }
  }

  lemma SameRowDue(kind: Kind, start: Table, t: Table, x: Id, now: int, later: int)
    requires x in DueSet(kind, start, now) && x in t && t[x] == start[x] && now <= later
    ensures x in DueSet(kind, t, later)
  {}

  lemma {:induction false} ClosedOrCloser(kind: Kind, trace: nat -> Table, nows: nat -> int, failing: set<Id>, x: Id, k: nat)
      returns (at: nat)
    requires Forever(kind, trace, nows, failing)
    requires x in DueSet(kind, trace(0), nows(0)) && x !in failing && NoTie(kind, trace(0), x)
    requires |Ahead(kind, trace(0), x) * failing| < BATCH
    ensures at <= k
    ensures (x in trace(at) && !Open(kind, trace(at)[x]))
            || Waits(kind, trace(0), trace(k), x, failing,
                     |Ahead(kind, trace(0), x) - failing| - k * (BATCH - |Ahead(kind, trace(0), x) * failing|))
  {
    hide Tick, Ahead, NoTie;
    var healthy, rate := |Ahead(kind, trace(0), x) - failing|, BATCH - |Ahead(kind, trace(0), x) * failing|;
    if k == 0 {
      at := 0;
    } else {
      at := ClosedOrCloser(kind, trace, nows, failing, x, k - 1);
      if !(x in trace(at) && !Open(kind, trace(at)[x])) {
        ClockOnlyAdvances(kind, trace, nows, failing, k - 1);
        SameRowDue(kind, trace(0), trace(k - 1), x, nows(0), nows(k - 1));
        assert Tick(kind, trace(k - 1), trace((k - 1) + 1), nows(k - 1), failing);
        TickFor(kind, trace(0), trace(k - 1), trace(k), nows(k - 1), failing, x, healthy - (k - 1) * rate);
        assert healthy - (k - 1) * rate - rate == healthy - k * rate;
        if x in trace(k) && !Open(kind, trace(k)[x]) { at := k; }
      }
    }
  }

  /** How long a due, healthy booking can wait behind fewer than a hundred failing ones: every tick
      clears at least 100 - failing of the healthy bookings ahead of it. */
  lemma ClosedInTime(kind: Kind, trace: nat -> Table, nows: nat -> int, failing: set<Id>, x: Id, k: nat) returns (at: nat)
    requires Forever(kind, trace, nows, failing)
    requires x in DueSet(kind, trace(0), nows(0)) && x !in failing && NoTie(kind, trace(0), x)
    requires |Ahead(kind, trace(0), x) * failing| < BATCH
    requires k * (BATCH - |Ahead(kind, trace(0), x) * failing|) > |Ahead(kind, trace(0), x) - failing|
    ensures at <= k && x in trace(at) && !Open(kind, trace(at)[x])
  {
    hide Forever, NoTie, Ahead;
    at := ClosedOrCloser(kind, trace, nows, failing, x, k);
  }

  /** Head of line, exactly: a due booking whose own transaction commits is closed at some tick if
      and only if fewer than a hundred failing bookings are older than it. */
  lemma ClosedExactlyWhen(kind: Kind, trace: nat -> Table, nows: nat -> int, failing: set<Id>, x: Id)
    requires Forever(kind, trace, nows, failing)
    requires x in DueSet(kind, trace(0), nows(0)) && x !in failing && NoTie(kind, trace(0), x)
    ensures (exists k: nat :: x in trace(k) && !Open(kind, trace(k)[x])) <==> |Ahead(kind, trace(0), x) * failing| < BATCH
  {
    DueIsOpen(kind, trace(0), nows(0), x);
    hide Forever, NoTie, Ahead, DueSet, Open;
    if |Ahead(kind, trace(0), x) * failing| < BATCH {
      var k := |Ahead(kind, trace(0), x) - failing| + 1;
      var rate := BATCH - |Ahead(kind, trace(0), x) * failing|;
      assert k * rate >= k by { AtLeast(k, rate); }
      var at := ClosedInTime(kind, trace, nows, failing, x, k);
    } else {
      forall k: nat ensures x in trace(k) && Open(kind, trace(k)[x]) {
        StuckForever(kind, trace, nows, failing, x, k);
      }
    }
  }

  lemma AtLeast(k: nat, rate: nat)
    requires rate >= 1
    ensures k * rate >= k
  {}

  // ---------------------------------------------------------------- a queue that is stuck

  function Name(n: nat): Id { seq(n, i => 'b') }

  function Names(n: nat): set<Id> { set i | 0 <= i < n :: Name(i) }

  lemma {:induction false} NamesSize(n: nat)
    ensures |Names(n)| == n
  {
    if n > 0 {
      NamesSize(n - 1);
      assert Names(n) == Names(n - 1) + {Name(n - 1)};
      assert forall i | 0 <= i < n - 1 :: |Name(i)| == i;
      assert |Name(n - 1)| == n - 1;
      assert Name(n - 1) !in Names(n - 1);
    }
  }

  /** A hundred bookings that fail, and a healthy one that ran out a moment later. */
  function Jam(): Table {
    map x | x in Names(BATCH + 1) :: Booking(LOCKED, |x|, 0, None)
  }

  /** The concrete case: in this queue the healthy booking, due from the start, is LOCKED after any
      number of ticks. */
  lemma YoungerWaitsForever(trace: nat -> Table, nows: nat -> int, k: nat)
    requires Forever(Expiry, trace, nows, Names(BATCH)) && trace(0) == Jam() && nows(0) > BATCH
    ensures Name(BATCH) in DueSet(Expiry, trace(0), nows(0)) && Name(BATCH) !in Names(BATCH)
    ensures Name(BATCH) in trace(k) && trace(k)[Name(BATCH)].status == LOCKED
  {
    var x := Name(BATCH);
    assert forall i | 0 <= i <= BATCH :: |Name(i)| == i;
    assert x in Names(BATCH + 1) && x !in Names(BATCH);
    assert forall y | y in Jam() && y != x :: y in Names(BATCH);
    assert Ahead(Expiry, Jam(), x) == Names(BATCH);
    assert Names(BATCH) * Names(BATCH) == Names(BATCH);
    NamesSize(BATCH);
    hide Forever;
    StuckForever(Expiry, trace, nows, Names(BATCH), x, k);
  }

  function FirstNames(n: nat): seq<Id> { seq(n, i requires 0 <= i < n => Name(i)) }

  lemma FirstNamesAre(n: nat)
    ensures Distinct(FirstNames(n)) && SetOf(FirstNames(n)) == Names(n)
    ensures forall i | 0 <= i < n :: FirstNames(n)[i] == Name(i) && |Name(i)| == i
  {
    assert forall i | 0 <= i < n :: |Name(i)| == i && FirstNames(n)[i] == Name(i);
    assert forall i | 0 <= i < n :: Name(i) in FirstNames(n);
  }

  lemma JamFacts()
    ensures Jam().Keys == Names(BATCH + 1) && DueSet(Expiry, Jam(), BATCH + 1) == Names(BATCH + 1)
    ensures forall y | y in Jam() :: Ages(Expiry, Jam())[y] == |y|
    ensures forall y | y in Names(BATCH + 1) :: (y in Names(BATCH) && |y| < BATCH) || |y| == BATCH
  {
    assert forall i | 0 <= i <= BATCH :: |Name(i)| == i;
  }

  lemma JamListing()
    ensures Listing(Expiry, Jam(), BATCH + 1, FirstNames(BATCH))
  {
    FirstNamesAre(BATCH);
    JamFacts();
    hide Names, Name, Jam, DueSet, Ages, FirstNames;
    NamesGrow();
  }

  lemma NamesGrow()
    ensures Names(BATCH) <= Names(BATCH + 1)
  {}

  /** And the queue does run: the hundred failing bookings are listed again and again. */
  lemma JamRuns()
    ensures Forever(Expiry, (k: nat) => Jam(), (k: nat) => BATCH + 1, Names(BATCH))
  {
    var ids := FirstNames(BATCH);
    FirstNamesAre(BATCH);
    JamListing();
    hide Jam, Listing, Names, FirstNames;
    ListedAreStillDue(Expiry, Jam(), BATCH + 1, ids);
    LoopIsOneUpdate(Expiry, DB(Jam(), []), ids, Names(BATCH));
    assert SetOf(ids) - Names(BATCH) == {};
    assert CloseSet(Expiry, Jam(), {}) == Jam();
  }

  // ---------------------------------------------------------------- interference

  /** Other parts of the system write rows between the listing and each transaction. */
  datatype Action =
    | Start(kind: Kind, now: int, batch: seq<Id>)
    | Next(kind: Kind, throws: bool)
    | Finish(kind: Kind)
    | Write(id: Id, row: Booking)

  /** `running` holds the guard flags and, for a running sweep, the bookings still to visit. */
  datatype State = State(table: Table, running: map<Kind, seq<Id>>)

  function Apply(s: State, a: Action): State {
    match a
    case Start(kind, now, batch) =>
      if kind !in s.running && Listing(kind, s.table, now, batch) then s.(running := s.running[kind := batch]) else s
    case Next(kind, throws) =>
      if kind in s.running && s.running[kind] != [] then
        var id := s.running[kind][0];
        State(if throws then s.table else CloseOne(kind, DB(s.table, []), id).table, s.running[kind := s.running[kind][1..]])
      else s
    case Finish(kind) => if kind in s.running && s.running[kind] == [] then s.(running := s.running - {kind}) else s
    case Write(id, row) => s.(table := s.table[id := row])
  }

  function Run(s: State, acts: seq<Action>): State
    decreases |acts|
  {
    if acts == [] then s else Run(Apply(s, acts[0]), acts[1..])
  }

  /** Out of both sweeps' reach: not PENDING, and not LOCKED without a payment id. */
  predicate Settled(b: Booking) { b.status != PENDING && (b.status == LOCKED ==> Truthy(b.payment)) }

  /** The row after the writes of everybody but the sweeps. */
  function LastWrite(b: Booking, acts: seq<Action>, id: Id): Booking
    decreases |acts|
  {
    if acts == [] then b
    else LastWrite(if acts[0].Write? && acts[0].id == id then acts[0].row else b, acts[1..], id)
  }

  /** A booking that has left LOCKED and PENDING, or gained a payment id, is never written by a
      sweep again, however long ago that sweep listed it and whatever happens in between. */
  lemma {:induction false} SettledIsNeverSwept(s: State, acts: seq<Action>, id: Id)
    requires id in s.table && Settled(s.table[id])
    requires forall a | a in acts && a.Write? && a.id == id :: Settled(a.row)
    ensures id in Run(s, acts).table && Run(s, acts).table[id] == LastWrite(s.table[id], acts, id)
    decreases |acts|
  {
    if acts != [] {
      assert acts[0] in acts;
      var next := Apply(s, acts[0]);
      assert id in next.table && next.table[id] == (if acts[0].Write? && acts[0].id == id then acts[0].row else s.table[id]);
      SettledIsNeverSwept(next, acts[1..], id);
    }
  }

  // ---------------------------------------------------------------- the sweeps, row by row

  /** The oldest by `age` of those that are due, each once, no more than a hundred, and all of them
      when fewer are listed. */
  ghost predicate OldestOf(t: Table, listed: seq<Id>, due: Booking -> bool, age: Booking -> int) {
    && (forall i, j | 0 <= i < j < |listed| :: listed[i] != listed[j])
    && (forall i | i in listed :: i in t && due(t[i]))
    && (forall i, j | 0 <= i < j < |listed| && listed[i] in t && listed[j] in t :: age(t[listed[i]]) <= age(t[listed[j]]))
    && (forall x, y | x in listed && x in t && y in t && due(t[y]) && y !in listed :: age(t[x]) <= age(t[y]))
    && |listed| <= 100
    && (|listed| < 100 ==> forall y | y in t && due(t[y]) :: y in listed)
  }

  /** Listed rows whose transactions commit get the status, and nothing else changes. */
  predicate Becomes(was: Table, now: Table, listed: seq<Id>, failing: set<Id>, status: Status) {
    && now.Keys == was.Keys
    && forall i | i in was :: now[i] == if i in listed && i !in failing then was[i].(status := status) else was[i]
  }

  lemma ExpiryListing(t: Table, now: int, listed: seq<Id>)
    requires Listing(Expiry, t, now, listed)
    ensures OldestOf(t, listed, (b: Booking) => b.status == LOCKED && b.expires < now && b.payment == None, (b: Booking) => b.expires)
  {
    assert forall i :: i in SetOf(listed) <==> i in listed;
  }

  lemma CleanupListing(t: Table, now: int, listed: seq<Id>)
    requires Listing(Cleanup, t, now, listed)
    ensures OldestOf(t, listed, (b: Booking) => b.status == PENDING && b.created < now - 15 * 60 * 1000, (b: Booking) => b.created)
  {
    assert forall i :: i in SetOf(listed) <==> i in listed;
  }

  lemma ClosingMeans(kind: Kind, t: Table, listed: seq<Id>, failing: set<Id>)
    ensures Becomes(t, CloseSet(kind, t, SetOf(listed) - failing), listed, failing, match kind case Expiry => EXPIRED case Cleanup => FAILED)
  {
    assert forall i :: i in SetOf(listed) <==> i in listed;
  }

  lemma {:induction false} WithoutMeans(listed: seq<Id>, failing: set<Id>)
    requires Distinct(listed)
    ensures Distinct(Without(listed, failing)) && forall i :: i in Without(listed, failing) <==> i in listed && i !in failing
  {
    if listed != [] {
      var n := |listed| - 1;
      WithoutMeans(listed[..n], failing);
      LastIsNew(listed);
      assert listed == listed[..n] + [listed[n]];
    }
  }

  // ---------------------------------------------------------------- the service

  class BookingExpiryService {
    var table: Table
    var seatsReleased: seq<Id>            // calls to releaseSeatsSafely
    var isExpiryRunning: bool
    var isCleanupRunning: bool

    constructor (table: Table)
      ensures this.table == table && seatsReleased == [] && !isExpiryRunning && !isCleanupRunning
    {
      this.table, seatsReleased, isExpiryRunning, isCleanupRunning := table, [], false, false;
    }

    method FindOldest(kind: Kind, now: int) returns (found: seq<Id>)
      ensures Listing(kind, table, now, found)
    {
      found := TakeOldest(Ages(kind, table), DueSet(kind, table, now), BATCH);
    }

    /** Cron 1, undisturbed: the oldest stale bookings whose transactions commit are EXPIRED, and
        the seats of exactly those are released, once each. */
    method HandleAutoExpiry(now: int, failing: set<Id>) returns (listed: seq<Id>)
      modifies this
      ensures old(isExpiryRunning) ==> listed == [] && table == old(table) && seatsReleased == old(seatsReleased)
      ensures !old(isExpiryRunning) ==> Listing(Expiry, old(table), now, listed)
      ensures table == CloseSet(Expiry, old(table), SetOf(listed) - failing)
      ensures seatsReleased == old(seatsReleased) + Without(listed, failing)
      ensures !old(isExpiryRunning) ==>
        OldestOf(old(table), listed, (b: Booking) => b.status == LOCKED && b.expires < now && b.payment == None, (b: Booking) => b.expires)
      ensures Becomes(old(table), table, listed, failing, EXPIRED)
      ensures var released := seatsReleased[|old(seatsReleased)|..];
              Distinct(released) && forall i :: i in released <==> i in listed && i !in failing
      ensures isExpiryRunning == old(isExpiryRunning) && isCleanupRunning == old(isCleanupRunning)
    {
      listed := [];
      hide OldestOf, Becomes, Listing;
      LoopIsOneUpdate(Expiry, DB(table, seatsReleased), [], failing);
      ClosingMeans(Expiry, table, [], failing);
      if isExpiryRunning { return; }
      isExpiryRunning := true;
      listed := FindOldest(Expiry, now);
      ghost var start := DB(table, seatsReleased);
      for i := 0 to |listed|
        invariant isExpiryRunning && isCleanupRunning == old(isCleanupRunning)
        invariant DB(table, seatsReleased) == CloseEach(Expiry, start, listed[..i], failing)
      {
        var id := listed[i];
        assert listed[..i + 1][..i] == listed[..i] && listed[..i + 1][i] == id;
        if id !in failing {
          if id in table && table[id].status == LOCKED && (table[id].payment.None? || table[id].payment.value == "") {
            table := table[id := table[id].(status := EXPIRED)];
            seatsReleased := seatsReleased + [id];
          }
        }
      }
      assert listed[..|listed|] == listed;
      ListedAreStillDue(Expiry, old(table), now, listed);
      ListingIsDue(Expiry, old(table), now, listed);
      LoopIsOneUpdate(Expiry, start, listed, failing);
      ExpiryListing(old(table), now, listed);
      ClosingMeans(Expiry, old(table), listed, failing);
      WithoutMeans(listed, failing);
      assert seatsReleased[|old(seatsReleased)|..] == Without(listed, failing);
      isExpiryRunning := false;
    }

    /** Cron 2, undisturbed. */
    method HandleInitiatedCleanup(now: int, failing: set<Id>) returns (listed: seq<Id>)
      modifies this`table, this`isCleanupRunning
      ensures old(isCleanupRunning) ==> listed == []
      ensures !old(isCleanupRunning) ==> Listing(Cleanup, old(table), now, listed)
      ensures table == CloseSet(Cleanup, old(table), SetOf(listed) - failing)
      ensures !old(isCleanupRunning) ==>
        OldestOf(old(table), listed, (b: Booking) => b.status == PENDING && b.created < now - 15 * 60 * 1000, (b: Booking) => b.created)
      ensures Becomes(old(table), table, listed, failing, FAILED)
      ensures isCleanupRunning == old(isCleanupRunning)
    {
      listed := [];
      hide OldestOf, Becomes, Listing;
      LoopIsOneUpdate(Cleanup, DB(table, []), [], failing);
      ClosingMeans(Cleanup, table, [], failing);
      if isCleanupRunning { return; }
      isCleanupRunning := true;
      listed := FindOldest(Cleanup, now);
      ghost var start := DB(table, []);
      for i := 0 to |listed|
        invariant isCleanupRunning && table == CloseEach(Cleanup, start, listed[..i], failing).table
      {
        var id := listed[i];
        assert listed[..i + 1][..i] == listed[..i] && listed[..i + 1][i] == id;
        if id !in failing && id in table && table[id].status == PENDING {
          table := table[id := table[id].(status := FAILED)];
        }
      }
      assert listed[..|listed|] == listed;
      ListedAreStillDue(Cleanup, old(table), now, listed);
      ListingIsDue(Cleanup, old(table), now, listed);
      LoopIsOneUpdate(Cleanup, start, listed, failing);
      CleanupListing(old(table), now, listed);
      ClosingMeans(Cleanup, old(table), listed, failing);
      isCleanupRunning := false;
    }
  }
}
