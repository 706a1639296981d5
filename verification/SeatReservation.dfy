/** The seat reservation protocol: Redis seat locks with a lease (`SET NX PX`), booking
    initiation, payment confirmation and delayed expiry.

    Every await of the service is an interleaving point: one `Action` is what runs between two
    awaits, and `Apply` is its effect on the shared stores.  An action whose guard is not met
    leaves the state alone.  Times are milliseconds. */
module SeatReservation {
  import opened BookingStatuses

  type Id = string

  datatype LockKey = LockKey(tenant: Id, event: Id, seat: Id)
  datatype SeatLock = SeatLock(user: Id, token: Id, expires: int)

  datatype Booking = Booking(
    tenant: Id, event: Id, user: Id, seats: set<Id>, status: BookingStatus, expiresAt: int)

  /** What never changes: which seats belong to which event, which events to which tenant, and
      the two configured lifetimes. */
  datatype Config = Config(
    eventTenant: map<Id, Id>, seatEvent: map<Id, Id>, lockTtl: nat, bookingTtl: nat)

  /** Where an in-flight request stands. */
  datatype Phase =
    | Validating(toRead: set<Id>)                   // validateLocksOwned: keys still to read
    | Querying(now: int)                            // `now` captured, live bookings not yet read
    | Ordering(now: int)                            // no live booking seen, gateway order pending
    | Created                                       // booking row written, expiry job pending
    | Releasing(toGet: set<Id>, toDel: set<Id>)     // releaseMany: GET and DEL per seat
    | Unlocking                                     // a user's own unlock, between GET and DEL

  /** `held` records the seats whose lock this request has read as its user's own and has not
      yet deleted, with the expiry it saw.  No branch of the code looks at it; the assumptions
      below do. */
  datatype Request = Request(
    tenant: Id, event: Id, user: Id, seats: set<Id>, phase: Phase, held: map<Id, int>)
  {
    function Key(seat: Id): LockKey { LockKey(tenant, event, seat) }
  }

  /** A lock-expiry job after its GET, which found its own token, and after its PTTL. */
  datatype ExpiryJob = Seen(key: LockKey) | Deleting(key: LockKey)

  datatype State = State(
    clock: int,
    locks: map<LockKey, SeatLock>,
    bookings: map<Id, Booking>,
    requests: map<Id, Request>,
    jobs: map<Id, ExpiryJob>,        // lock-expiry jobs at work, by the token of their lock
    confirming: map<Id, Id>,         // webhook deliveries that read their booking as PENDING
    expiring: map<Id, Id>)           // booking-expiry jobs that read their booking as due

  datatype Action =
    | LockSeat(key: LockKey, user: Id, token: Id)
    | Arrive(rid: Id, tenant: Id, event: Id, user: Id, seats: set<Id>)
    | ReadLock(rid: Id, seat: Id)
    | CaptureNow(rid: Id)
    | QueryLive(rid: Id)
    | CreateBooking(rid: Id, bid: Id)
    | EnqueueExpiry(rid: Id)
    | ReleaseGet(rid: Id, seat: Id)
    | ReleaseDel(rid: Id, seat: Id)
    | Finish(rid: Id)
    | Abort(rid: Id)
    | UnlockGet(rid: Id, key: LockKey, user: Id)
    | UnlockDel(rid: Id)
    | JobGet(token: Id, key: LockKey)
    | JobPttl(job: Id)
    | JobDelete(job: Id)
    | WebhookRead(delivery: Id, bid: Id)
    | WebhookConfirm(delivery: Id)
    | ExpireRead(job: Id, bid: Id)
    | ExpireWrite(job: Id)
    | Tick(now: int)

  // ---------------------------------------------------------------- reading the stores

  /** Redis drops a key when its lease runs out. */
  predicate LiveLock(s: State, key: LockKey) {
    key in s.locks && s.locks[key].expires > s.clock
  }

  predicate LockedBy(s: State, key: LockKey, user: Id) {
    LiveLock(s, key) && s.locks[key].user == user
  }

  /** A booking that takes its seats off sale at time `now`. */
  predicate Live(b: Booking, now: int) {
    b.status == CONFIRMED || (b.status == PENDING && b.expiresAt > now)
  }

  /** The conflict query of `initiateBooking`, with the `now` the caller captured. */
  predicate Conflict(s: State, tenant: Id, event: Id, seats: set<Id>, now: int) {
    exists id | id in s.bookings ::
      var b := s.bookings[id];
      b.tenant == tenant && b.event == event && b.seats * seats != {} && Live(b, now)
  }

  predicate OnSale(c: Config, tenant: Id, event: Id, seats: set<Id>) {
    && event in c.eventTenant && c.eventTenant[event] == tenant
    && forall x | x in seats :: x in c.seatEvent && c.seatEvent[x] == event
  }

  // ---------------------------------------------------------------- the steps

  function SetRequest(s: State, rid: Id, r: Request): State {
    s.(requests := s.requests[rid := r])
  }

  function DropRequest(s: State, rid: Id): State {
    s.(requests := s.requests - {rid})
  }

  function SetStatus(s: State, bid: Id, status: BookingStatus): State
    requires bid in s.bookings
  {
    s.(bookings := s.bookings[bid := s.bookings[bid].(status := status)])
  }

  function Apply(c: Config, s: State, a: Action): State {
    match a
    case LockSeat(key, user, token) =>
      if LiveLock(s, key) then s
      else s.(locks := s.locks[key := SeatLock(user, token, s.clock + c.lockTtl)])
    case Arrive(rid, tenant, event, user, seats) =>
      if rid !in s.requests && OnSale(c, tenant, event, seats)
      then SetRequest(s, rid, Request(tenant, event, user, seats, Validating(seats), map[]))
      else s
    case ReadLock(rid, seat) => ApplyReadLock(s, rid, seat)
    case CaptureNow(rid) =>
      if rid in s.requests && s.requests[rid].phase == Validating({})
      then SetRequest(s, rid, s.requests[rid].(phase := Querying(s.clock)))
      else s
    case QueryLive(rid) => ApplyQuery(s, rid)
    case CreateBooking(rid, bid) => ApplyCreate(c, s, rid, bid)
    case EnqueueExpiry(rid) =>
      if rid in s.requests && s.requests[rid].phase.Created?
      then SetRequest(s, rid, s.requests[rid].(phase := Releasing(s.requests[rid].seats, {})))
      else s
    case ReleaseGet(rid, seat) => ApplyReleaseGet(s, rid, seat)
    case ReleaseDel(rid, seat) => ApplyReleaseDel(s, rid, seat)
    case Finish(rid) =>
      if rid in s.requests && s.requests[rid].phase == Releasing({}, {}) then DropRequest(s, rid) else s
    case Abort(rid) => DropRequest(s, rid)
    case UnlockGet(rid, key, user) =>
      if rid !in s.requests && LockedBy(s, key, user)
      then SetRequest(s, rid, Request(key.tenant, key.event, user, {key.seat}, Unlocking,
                                      map[key.seat := s.locks[key].expires]))
      else s
    case UnlockDel(rid) =>
      if rid in s.requests && s.requests[rid].phase.Unlocking?
      then var r := s.requests[rid];
           DropRequest(s, rid).(locks := s.locks - (set x | x in r.seats :: r.Key(x)))
      else s
    case JobGet(token, key) =>
      if token !in s.jobs && LiveLock(s, key) && s.locks[key].token == token
      then s.(jobs := s.jobs[token := Seen(key)]) else s
    case JobPttl(job) => ApplyPttl(s, job)
    case JobDelete(job) =>
      if job in s.jobs && s.jobs[job].Deleting?
      then s.(jobs := s.jobs - {job}, locks := s.locks - {s.jobs[job].key}) else s
    case WebhookRead(d, bid) =>
      if d !in s.confirming && bid in s.bookings && s.bookings[bid].status == PENDING
      then s.(confirming := s.confirming[d := bid])
      else s
    case WebhookConfirm(d) =>
      if d in s.confirming && s.confirming[d] in s.bookings
      then SetStatus(s, s.confirming[d], CONFIRMED).(confirming := s.confirming - {d})
      else s
    case ExpireRead(j, bid) =>
      if j !in s.expiring && bid in s.bookings && s.bookings[bid].status == PENDING
         && s.bookings[bid].expiresAt <= s.clock
      then s.(expiring := s.expiring[j := bid])
      else s
    case ExpireWrite(j) =>
      if j in s.expiring && s.expiring[j] in s.bookings
      then SetStatus(s, s.expiring[j], EXPIRED).(expiring := s.expiring - {j})
      else s
    case Tick(now) => if s.clock <= now then s.(clock := now) else s
  }

  /** One GET of `validateLocksOwned`: a missing or foreign lock makes the whole request throw. */
  function ApplyReadLock(s: State, rid: Id, seat: Id): State {
    if rid in s.requests && s.requests[rid].phase.Validating? && seat in s.requests[rid].phase.toRead then
      var r := s.requests[rid];
      if LockedBy(s, r.Key(seat), r.user) then
        SetRequest(s, rid, r.(phase := Validating(r.phase.toRead - {seat}),
                              held := r.held[seat := s.locks[r.Key(seat)].expires]))
      else DropRequest(s, rid)
    else s
  }

  /** PTTL looks at whatever the key holds by now: nothing any more, and the job goes on to delete. */
  function ApplyPttl(s: State, job: Id): State {
    if job in s.jobs && s.jobs[job].Seen? then
      if LiveLock(s, s.jobs[job].key) then s.(jobs := s.jobs - {job})
      else s.(jobs := s.jobs[job := Deleting(s.jobs[job].key)])
    else s
  }

  function ApplyQuery(s: State, rid: Id): State {
    if rid in s.requests && s.requests[rid].phase.Querying? then
      var r := s.requests[rid];
      if Conflict(s, r.tenant, r.event, r.seats, r.phase.now) then DropRequest(s, rid)
      else SetRequest(s, rid, r.(phase := Ordering(r.phase.now)))
    else s
  }

  function ApplyCreate(c: Config, s: State, rid: Id, bid: Id): State {
    if rid in s.requests && s.requests[rid].phase.Ordering? && bid !in s.bookings then
      var r := s.requests[rid];
      var b := Booking(r.tenant, r.event, r.user, r.seats, PENDING, r.phase.now + c.bookingTtl);
      SetRequest(s, rid, r.(phase := Created)).(bookings := s.bookings[bid := b])
    else s
  }

  function ApplyReleaseGet(s: State, rid: Id, seat: Id): State {
    if rid in s.requests && s.requests[rid].phase.Releasing? && seat in s.requests[rid].phase.toGet then
      var r := s.requests[rid];
      var toGet := r.phase.toGet - {seat};
      if LiveLock(s, r.Key(seat)) then
        SetRequest(s, rid, r.(phase := Releasing(toGet, r.phase.toDel + {seat})))
      else SetRequest(s, rid, r.(phase := Releasing(toGet, r.phase.toDel), held := r.held - {seat}))
    else s
  }

  /** The forced DEL: the key goes, whoever holds it by now. */
  function ApplyReleaseDel(s: State, rid: Id, seat: Id): State {
    if rid in s.requests && s.requests[rid].phase.Releasing? && seat in s.requests[rid].phase.toDel then
      var r := s.requests[rid];
      SetRequest(s, rid, r.(phase := Releasing(r.phase.toGet, r.phase.toDel - {seat}),
                            held := r.held - {seat})).(locks := s.locks - {r.Key(seat)})
    else s
  }

  function Run(c: Config, s: State, acts: seq<Action>): State
    decreases |acts|
  {
    if acts == [] then s else Run(c, Apply(c, s, acts[0]), acts[1..])
  }

  // ---------------------------------------------------------------- the assumptions

  /** What the deployment has to guarantee for the protocol to be safe. */
  datatype Assumption =
    | InLease        // no lock read by an in-flight request lapses before that request deletes it
    | OneRequest     // a user has at most one booking or unlock request in flight
    | PromptPayment  // a webhook's confirming write lands before the booking's expiresAt
    | QuietExpiry    // nobody locks a key again between an expiry job's PTTL and its DEL

  predicate Respects(s: State, a: Action, h: Assumption) {
    match h
    case InLease => a.Tick? ==>
      forall rid, x | rid in s.requests && x in s.requests[rid].held :: a.now < s.requests[rid].held[x]
    case OneRequest => (a.Arrive? || a.UnlockGet?) ==>
      forall rid | rid in s.requests :: s.requests[rid].user != a.user
    case PromptPayment => a.WebhookConfirm? && a.delivery in s.confirming && s.confirming[a.delivery] in s.bookings ==>
      s.clock < s.bookings[s.confirming[a.delivery]].expiresAt
    case QuietExpiry => a.LockSeat? ==> forall j | j in s.jobs && s.jobs[j].Deleting? :: s.jobs[j].key != a.key
  }

  /** Every step of the run respects every assumption in `hs`. */
  ghost predicate RunRespects(c: Config, s: State, acts: seq<Action>, hs: set<Assumption>)
    decreases |acts|
  {
    acts == [] ||
    ((forall h | h in hs :: Respects(s, acts[0], h)) && RunRespects(c, Apply(c, s, acts[0]), acts[1..], hs))
  }

  const ALL_ASSUMPTIONS: set<Assumption> := {InLease, OneRequest, PromptPayment, QuietExpiry}

  // ---------------------------------------------------------------- safety

  /** No seat is in two live bookings. */
  ghost predicate NoDoubleBooking(s: State) {
    forall i, j | i in s.bookings && j in s.bookings && i != j
                  && Live(s.bookings[i], s.clock) && Live(s.bookings[j], s.clock) ::
      s.bookings[i].seats !! s.bookings[j].seats
  }

  /** Two requests never both stand between reading and deleting the lock of one seat. */
  ghost predicate ExclusiveWindows(s: State) {
    forall p, q, x | p in s.requests && q in s.requests && p != q
                     && x in s.requests[p].held && x in s.requests[q].held ::
      s.requests[p].Key(x) != s.requests[q].Key(x)
  }

  ghost predicate BookingsOnSale(c: Config, s: State) {
    forall i | i in s.bookings ::
      OnSale(c, s.bookings[i].tenant, s.bookings[i].event, s.bookings[i].seats)
  }

  /** The service starts with nothing in flight, over any locks and any conflict-free bookings. */
  ghost predicate Init(c: Config, s: State) {
    && s.requests == map[] && s.jobs == map[] && s.confirming == map[] && s.expiring == map[]
    && BookingsOnSale(c, s) && NoDoubleBooking(s)
  }

  /** An in-flight request still owns every lock it has read. */
  ghost predicate OwnsWhatItHolds(s: State, r: Request) {
    forall x | x in r.held ::
      LockedBy(s, r.Key(x), r.user) && s.locks[r.Key(x)].expires == r.held[x]
  }

  predicate PhaseShape(c: Config, r: Request) {
    match r.phase
    case Validating(toRead) => toRead <= r.seats && r.held.Keys == r.seats - toRead && OnSale(c, r.tenant, r.event, r.seats)
    case Querying(_) => r.held.Keys == r.seats && OnSale(c, r.tenant, r.event, r.seats)
    case Ordering(_) => r.held.Keys == r.seats && OnSale(c, r.tenant, r.event, r.seats)
    case Created => r.held.Keys == r.seats && OnSale(c, r.tenant, r.event, r.seats)
    case Releasing(toGet, toDel) => toGet !! toDel && r.held.Keys == toGet + toDel
    case Unlocking => r.held.Keys == r.seats
  }

  ghost predicate QueryStillHolds(s: State, r: Request) {
    r.phase.Ordering? ==>
      forall i | i in s.bookings && Live(s.bookings[i], s.clock) :: s.bookings[i].seats !! r.seats
  }

  ghost predicate RequestsFine(c: Config, s: State) {
    && (forall rid | rid in s.requests ::
          OwnsWhatItHolds(s, s.requests[rid]) && PhaseShape(c, s.requests[rid]) && QueryStillHolds(s, s.requests[rid]))
    && (forall rid | rid in s.requests && s.requests[rid].phase.Querying? :: s.requests[rid].phase.now <= s.clock)
    && (forall p, q | p in s.requests && q in s.requests && p != q :: s.requests[p].user != s.requests[q].user)
  }

  ghost predicate JobsFine(s: State) {
    && (forall j | j in s.jobs && s.jobs[j].Deleting? :: !LiveLock(s, s.jobs[j].key))
    && (forall d | d in s.confirming ::
          s.confirming[d] in s.bookings
          && var b := s.bookings[s.confirming[d]];
             b.status == PENDING || b.status == CONFIRMED || b.expiresAt <= s.clock)
    && (forall j | j in s.expiring ::
          s.expiring[j] in s.bookings && s.bookings[s.expiring[j]].expiresAt <= s.clock)
  }

  ghost predicate Inv(c: Config, s: State) {
    NoDoubleBooking(s) && BookingsOnSale(c, s) && RequestsFine(c, s) && JobsFine(s)
  }

  ghost predicate RespectsAll(s: State, a: Action) {
    forall h | h in ALL_ASSUMPTIONS :: Respects(s, a, h)
  }

  // ---------------------------------------------------------------- every step keeps the invariant

  /** One request rewrites its own bookkeeping; nothing shared changes. */
  lemma RequestStepKeepsInv(c: Config, s: State, rid: Id, r: Request)
    requires Inv(c, s)
    requires OwnsWhatItHolds(s, r) && PhaseShape(c, r) && QueryStillHolds(s, r)
    requires r.phase.Querying? ==> r.phase.now <= s.clock
    requires forall q | q in s.requests && q != rid :: s.requests[q].user != r.user
    ensures Inv(c, SetRequest(s, rid, r))
  {
    var t := SetRequest(s, rid, r);
    forall q | q in t.requests
      ensures OwnsWhatItHolds(t, t.requests[q]) && PhaseShape(c, t.requests[q]) && QueryStillHolds(t, t.requests[q])
    {
      assert t.requests[q] == if q == rid then r else s.requests[q];
    }
  }

  ghost predicate KeepsHeldLocks(s: State, t: State) {
    forall q, x | q in t.requests && x in t.requests[q].held ::
      var k := t.requests[q].Key(x);
      k in s.locks && k in t.locks && t.locks[k] == s.locks[k] && t.locks[k].expires > t.clock
  }

  ghost predicate NoNewLiveBooking(s: State, t: State) {
    && t.bookings.Keys == s.bookings.Keys
    && forall i | i in t.bookings ::
         var b, b' := s.bookings[i], t.bookings[i];
         b'.tenant == b.tenant && b'.event == b.event && b'.seats == b.seats && (Live(b', t.clock) ==> Live(b, s.clock))
  }

  /** A step that starts no request, keeps the held locks and adds no live booking is harmless. */
  lemma QuietStepKeepsInv(c: Config, s: State, t: State)
    requires Inv(c, s) && JobsFine(t) && s.clock <= t.clock
    requires forall q | q in t.requests :: q in s.requests && t.requests[q] == s.requests[q]
    requires KeepsHeldLocks(s, t) && NoNewLiveBooking(s, t)
    ensures Inv(c, t)
  {
    forall q | q in t.requests
      ensures OwnsWhatItHolds(t, t.requests[q]) && PhaseShape(c, t.requests[q]) && QueryStillHolds(t, t.requests[q])
    {
      var r := s.requests[q];
      assert OwnsWhatItHolds(s, r) && QueryStillHolds(s, r);
      assert forall x | x in r.held :: LockedBy(s, r.Key(x), r.user);
    }
  }

  lemma HeldLocksAreLive(c: Config, s: State)
    requires Inv(c, s)
    ensures forall q, x | q in s.requests && x in s.requests[q].held ::
              LockedBy(s, s.requests[q].Key(x), s.requests[q].user)
              && s.locks[s.requests[q].Key(x)].expires == s.requests[q].held[x]
  {
    forall q | q in s.requests ensures OwnsWhatItHolds(s, s.requests[q]) {}
  }

  /** The key lemma: a lock held by two requests would have two users, and a user has one request. */
  lemma InvGivesExclusiveWindows(c: Config, s: State)
    requires Inv(c, s)
    ensures ExclusiveWindows(s)
  {
    HeldLocksAreLive(c, s);
  }

  lemma JobsKept(s: State, t: State)
    requires JobsFine(s) && s.clock <= t.clock && t.bookings == s.bookings
    requires t.jobs == s.jobs && t.confirming == s.confirming && t.expiring == s.expiring
    requires forall k | LiveLock(t, k) :: LiveLock(s, k)
    ensures JobsFine(t)
  {
    assert forall j | j in s.jobs && s.jobs[j].Deleting? :: !LiveLock(s, s.jobs[j].key);
  }

  lemma DropKeepsInv(c: Config, s: State, rid: Id)
    requires Inv(c, s)
    ensures Inv(c, DropRequest(s, rid))
  {
    hide JobsFine, RequestsFine, BookingsOnSale, NoDoubleBooking;
    HeldLocksAreLive(c, s);
    JobsKept(s, DropRequest(s, rid));
    QuietStepKeepsInv(c, s, DropRequest(s, rid));
  }

  /** Deleting keys no in-flight request holds. */
  lemma DeleteKeepsInv(c: Config, s: State, keys: set<LockKey>)
    requires Inv(c, s)
    requires forall q, x | q in s.requests && x in s.requests[q].held :: s.requests[q].Key(x) !in keys
    ensures Inv(c, s.(locks := s.locks - keys))
  {
    hide JobsFine, RequestsFine, BookingsOnSale, NoDoubleBooking;
    HeldLocksAreLive(c, s);
    JobsKept(s, s.(locks := s.locks - keys));
    QuietStepKeepsInv(c, s, s.(locks := s.locks - keys));
  }

  lemma TickKeepsInv(c: Config, s: State, now: int)
    requires Inv(c, s) && s.clock <= now && Respects(s, Tick(now), InLease)
    ensures Inv(c, s.(clock := now))
  {
    hide JobsFine, RequestsFine, BookingsOnSale, NoDoubleBooking;
    HeldLocksAreLive(c, s);
    JobsKept(s, s.(clock := now));
    QuietStepKeepsInv(c, s, s.(clock := now));
  }

  ghost predicate SubMap(m: map<Id, Id>, n: map<Id, Id>) {
    forall k | k in m :: k in n && m[k] == n[k]
  }

  lemma StatusKeepsJobs(s: State, bid: Id, status: BookingStatus, confirming: map<Id, Id>, expiring: map<Id, Id>)
    requires JobsFine(s) && bid in s.bookings && SubMap(confirming, s.confirming) && SubMap(expiring, s.expiring)
    requires status == CONFIRMED || s.bookings[bid].expiresAt <= s.clock
    ensures JobsFine(SetStatus(s, bid, status).(confirming := confirming, expiring := expiring))
  {
    var t := SetStatus(s, bid, status).(confirming := confirming, expiring := expiring);
    assert forall j | j in s.jobs && s.jobs[j].Deleting? :: !LiveLock(t, s.jobs[j].key) by {
      assert forall j | j in s.jobs && s.jobs[j].Deleting? :: !LiveLock(s, s.jobs[j].key);
    }
    forall d | d in t.confirming ensures t.confirming[d] in t.bookings
      && var b := t.bookings[t.confirming[d]]; b.status == PENDING || b.status == CONFIRMED || b.expiresAt <= s.clock
    {
      assert d in s.confirming && s.confirming[d] == t.confirming[d];
    }
    forall j | j in t.expiring ensures t.expiring[j] in t.bookings && t.bookings[t.expiring[j]].expiresAt <= s.clock {
      assert j in s.expiring && s.expiring[j] == t.expiring[j];
    }
  }

  /** A status write that adds no live booking, as its webhook or job leaves the stage. */
  lemma StatusKeepsInv(c: Config, s: State, bid: Id, status: BookingStatus, confirming: map<Id, Id>, expiring: map<Id, Id>)
    requires Inv(c, s) && bid in s.bookings && SubMap(confirming, s.confirming) && SubMap(expiring, s.expiring)
    requires Live(s.bookings[bid].(status := status), s.clock) ==> Live(s.bookings[bid], s.clock)
    requires status == CONFIRMED || s.bookings[bid].expiresAt <= s.clock
    ensures Inv(c, SetStatus(s, bid, status).(confirming := confirming, expiring := expiring))
  {
    hide JobsFine, RequestsFine, BookingsOnSale, NoDoubleBooking;
    HeldLocksAreLive(c, s);
    StatusKeepsJobs(s, bid, status, confirming, expiring);
    QuietStepKeepsInv(c, s, SetStatus(s, bid, status).(confirming := confirming, expiring := expiring));
  }

  /** Webhook and expiry-job bookkeeping, and the lock-expiry job's decision. */
  lemma JobBookkeepingKeepsInv(c: Config, s: State, t: State)
    requires Inv(c, s) && JobsFine(t)
    requires t == s.(jobs := t.jobs, confirming := t.confirming, expiring := t.expiring)
    ensures Inv(c, t)
  {
    HeldLocksAreLive(c, s);
    QuietStepKeepsInv(c, s, t);
  }

  lemma SameSeatSameEvent(c: Config, t1: Id, e1: Id, seats1: set<Id>, t2: Id, e2: Id, seats2: set<Id>)
    requires OnSale(c, t1, e1, seats1) && OnSale(c, t2, e2, seats2)
    ensures seats1 * seats2 == {} || (t1 == t2 && e1 == e2)
  {
    if t1 != t2 || e1 != e2 {
      forall x | x in seats1 ensures x !in seats2 {}
    }
  }

  lemma QueryKeepsInv(c: Config, s: State, rid: Id)
    requires Inv(c, s)
    ensures Inv(c, ApplyQuery(s, rid))
  {
    if rid in s.requests && s.requests[rid].phase.Querying? {
      var r := s.requests[rid];
      assert OwnsWhatItHolds(s, r) && PhaseShape(c, r);
      if Conflict(s, r.tenant, r.event, r.seats, r.phase.now) {
        DropKeepsInv(c, s, rid);
      } else {
        forall i | i in s.bookings && Live(s.bookings[i], s.clock)
          ensures s.bookings[i].seats !! r.seats
        {
          var b := s.bookings[i];
          assert r.phase.now <= s.clock;
          assert !(b.tenant == r.tenant && b.event == r.event && b.seats * r.seats != {} && Live(b, r.phase.now));
          SameSeatSameEvent(c, b.tenant, b.event, b.seats, r.tenant, r.event, r.seats);
          forall x | x in b.seats ensures x !in r.seats {
            assert x in b.seats * r.seats <==> x in r.seats;
          }
        }
        RequestStepKeepsInv(c, s, rid, r.(phase := Ordering(r.phase.now)));
      }
    }
  }

  /** Two requests that both hold all their seats want different seats. */
  lemma HoldersAreDisjoint(c: Config, s: State, p: Id, q: Id)
    requires Inv(c, s) && p in s.requests && q in s.requests && p != q
    requires s.requests[p].held.Keys == s.requests[p].seats && s.requests[q].held.Keys == s.requests[q].seats
    requires OnSale(c, s.requests[p].tenant, s.requests[p].event, s.requests[p].seats)
    requires OnSale(c, s.requests[q].tenant, s.requests[q].event, s.requests[q].seats)
    ensures s.requests[p].seats !! s.requests[q].seats
  {
    InvGivesExclusiveWindows(c, s);
    var r, r' := s.requests[p], s.requests[q];
    SameSeatSameEvent(c, r.tenant, r.event, r.seats, r'.tenant, r'.event, r'.seats);
    forall x | x in r.seats ensures x !in r'.seats {
      assert x in r.held;
      assert x in r'.held ==> r.Key(x) != r'.Key(x);
    }
  }

  lemma CreateKeepsInv(c: Config, s: State, rid: Id, bid: Id)
    requires Inv(c, s)
    ensures Inv(c, ApplyCreate(c, s, rid, bid))
  {
    if rid in s.requests && s.requests[rid].phase.Ordering? && bid !in s.bookings {
      var r := s.requests[rid];
      assert OwnsWhatItHolds(s, r) && PhaseShape(c, r) && QueryStillHolds(s, r);
      var t := ApplyCreate(c, s, rid, bid);
      forall q | q in t.requests
        ensures OwnsWhatItHolds(t, t.requests[q]) && PhaseShape(c, t.requests[q]) && QueryStillHolds(t, t.requests[q])
      {
        CreateKeepsRequest(c, s, rid, bid, q);
      }
      CreateKeepsBookings(c, s, rid, bid);
      CreateKeepsJobs(c, s, rid, bid);
    }
  }

  lemma CreateKeepsJobs(c: Config, s: State, rid: Id, bid: Id)
    requires Inv(c, s) && rid in s.requests && s.requests[rid].phase.Ordering? && bid !in s.bookings
    ensures JobsFine(ApplyCreate(c, s, rid, bid))
  {
    var t := ApplyCreate(c, s, rid, bid);
    assert forall i | i in s.bookings :: i in t.bookings && t.bookings[i] == s.bookings[i];
    assert forall j | j in t.jobs && t.jobs[j].Deleting? :: !LiveLock(t, t.jobs[j].key) by {
      assert forall j | j in s.jobs && s.jobs[j].Deleting? :: !LiveLock(s, s.jobs[j].key);
    }
  }

  lemma CreateKeepsBookings(c: Config, s: State, rid: Id, bid: Id)
    requires Inv(c, s) && rid in s.requests && s.requests[rid].phase.Ordering? && bid !in s.bookings
    ensures var t := ApplyCreate(c, s, rid, bid);
            NoDoubleBooking(t) && BookingsOnSale(c, t)
  {
    var t := ApplyCreate(c, s, rid, bid);
    var r := s.requests[rid];
    assert PhaseShape(c, r) && QueryStillHolds(s, r);
    assert forall i | i in t.bookings && i != bid :: i in s.bookings && t.bookings[i] == s.bookings[i];
    assert t.bookings[bid].seats == r.seats;
    forall i, j | i in t.bookings && j in t.bookings && i != j && Live(t.bookings[i], t.clock) && Live(t.bookings[j], t.clock)
      ensures t.bookings[i].seats !! t.bookings[j].seats
    {
      assert i == bid || t.bookings[i] == s.bookings[i];
      assert j == bid || t.bookings[j] == s.bookings[j];
    }
  }

  lemma CreateKeepsRequest(c: Config, s: State, rid: Id, bid: Id, q: Id)
    requires Inv(c, s) && rid in s.requests && s.requests[rid].phase.Ordering? && bid !in s.bookings
    requires q in s.requests
    ensures var t := ApplyCreate(c, s, rid, bid);
            OwnsWhatItHolds(t, t.requests[q]) && PhaseShape(c, t.requests[q]) && QueryStillHolds(t, t.requests[q])
  {
    HeldLocksAreLive(c, s);
    var t := ApplyCreate(c, s, rid, bid);
    assert PhaseShape(c, s.requests[rid]) && PhaseShape(c, s.requests[q]) && QueryStillHolds(s, s.requests[q]);
    assert t.requests[q].held == s.requests[q].held;
    if t.requests[q].phase.Ordering? {
      HoldersAreDisjoint(c, s, rid, q);
      forall i | i in t.bookings && Live(t.bookings[i], t.clock)
        ensures t.bookings[i].seats !! t.requests[q].seats
      {
        assert i == bid || t.bookings[i] == s.bookings[i];
      }
    }
  }

  lemma ReadLockKeepsInv(c: Config, s: State, rid: Id, seat: Id)
    requires Inv(c, s)
    ensures Inv(c, ApplyReadLock(s, rid, seat))
  {
    if rid in s.requests && s.requests[rid].phase.Validating? && seat in s.requests[rid].phase.toRead {
      var r := s.requests[rid];
      assert OwnsWhatItHolds(s, r) && PhaseShape(c, r);
      if LockedBy(s, r.Key(seat), r.user) {
        RequestStepKeepsInv(c, s, rid, r.(phase := Validating(r.phase.toRead - {seat}),
                                          held := r.held[seat := s.locks[r.Key(seat)].expires]));
      } else {
        DropKeepsInv(c, s, rid);
      }
    }
  }

  lemma ReleaseGetKeepsInv(c: Config, s: State, rid: Id, seat: Id)
    requires Inv(c, s)
    ensures Inv(c, ApplyReleaseGet(s, rid, seat))
  {
    if rid in s.requests && s.requests[rid].phase.Releasing? && seat in s.requests[rid].phase.toGet {
      var r := s.requests[rid];
      assert OwnsWhatItHolds(s, r) && PhaseShape(c, r);
      assert LockedBy(s, r.Key(seat), r.user);
      RequestStepKeepsInv(c, s, rid, r.(phase := Releasing(r.phase.toGet - {seat}, r.phase.toDel + {seat})));
    }
  }

  /** The forced delete only ever removes the request's own lock. */
  lemma ReleaseDelKeepsInv(c: Config, s: State, rid: Id, seat: Id)
    requires Inv(c, s)
    ensures Inv(c, ApplyReleaseDel(s, rid, seat))
  {
    if rid in s.requests && s.requests[rid].phase.Releasing? && seat in s.requests[rid].phase.toDel {
      var r := s.requests[rid];
      assert OwnsWhatItHolds(s, r) && PhaseShape(c, r);
      var r' := r.(phase := Releasing(r.phase.toGet, r.phase.toDel - {seat}), held := r.held - {seat});
      RequestStepKeepsInv(c, s, rid, r');
      InvGivesExclusiveWindows(c, s);
      var t := SetRequest(s, rid, r');
      forall q, x | q in t.requests && x in t.requests[q].held
        ensures t.requests[q].Key(x) !in {r.Key(seat)}
      {
        if q != rid {
          assert x in s.requests[q].held;
          assert x == seat ==> s.requests[q].Key(x) != r.Key(x);
        }
      }
      DeleteKeepsInv(c, t, {r.Key(seat)});
    }
  }

  lemma UnlockDelKeepsInv(c: Config, s: State, rid: Id)
    requires Inv(c, s)
    ensures Inv(c, Apply(c, s, UnlockDel(rid)))
  {
    if rid in s.requests && s.requests[rid].phase.Unlocking? {
      var r := s.requests[rid];
      assert PhaseShape(c, r);
      InvGivesExclusiveWindows(c, s);
      DropKeepsInv(c, s, rid);
      var t := DropRequest(s, rid);
      var gone := set x | x in r.seats :: r.Key(x);
      forall q, x | q in t.requests && x in t.requests[q].held
        ensures t.requests[q].Key(x) !in gone
      {
        assert x in s.requests[q].held;
        forall y | y in r.seats ensures r.Key(y) != t.requests[q].Key(x) {
          assert y in r.held;
          assert y == x ==> s.requests[q].Key(x) != r.Key(x);
        }
      }
      DeleteKeepsInv(c, t, gone);
    }
  }

  lemma LockSeatKeepsInv(c: Config, s: State, key: LockKey, user: Id, token: Id)
    requires Inv(c, s) && Respects(s, LockSeat(key, user, token), QuietExpiry)
    ensures Inv(c, Apply(c, s, LockSeat(key, user, token)))
  {
    if !LiveLock(s, key) {
      HeldLocksAreLive(c, s);
      var t := Apply(c, s, LockSeat(key, user, token));
      assert forall j | j in s.jobs && s.jobs[j].Deleting? :: !LiveLock(t, s.jobs[j].key) by {
        assert forall j | j in s.jobs && s.jobs[j].Deleting? :: !LiveLock(s, s.jobs[j].key);
      }
      QuietStepKeepsInv(c, s, t);
    }
  }

  lemma JobGetKeepsInv(c: Config, s: State, token: Id, key: LockKey)
    requires Inv(c, s)
    ensures Inv(c, Apply(c, s, JobGet(token, key)))
  {
    if token !in s.jobs && LiveLock(s, key) && s.locks[key].token == token {
      var t := s.(jobs := s.jobs[token := Seen(key)]);
      assert forall j | j in t.jobs && t.jobs[j].Deleting? :: !LiveLock(t, t.jobs[j].key) by {
        assert forall j | j in s.jobs && s.jobs[j].Deleting? :: !LiveLock(s, s.jobs[j].key);
      }
      JobBookkeepingKeepsInv(c, s, t);
    }
  }

  lemma JobPttlKeepsInv(c: Config, s: State, job: Id)
    requires Inv(c, s)
    ensures Inv(c, Apply(c, s, JobPttl(job)))
  {
    if job in s.jobs && s.jobs[job].Seen? {
      var t := ApplyPttl(s, job);
      assert forall j | j in t.jobs && t.jobs[j].Deleting? :: !LiveLock(t, t.jobs[j].key) by {
        assert forall j | j in s.jobs && s.jobs[j].Deleting? :: !LiveLock(s, s.jobs[j].key);
      }
      JobBookkeepingKeepsInv(c, s, t);
    }
  }

  /** A lock-expiry job that found a dead key deletes nothing anyone holds. */
  lemma JobDeleteKeepsInv(c: Config, s: State, job: Id)
    requires Inv(c, s)
    ensures Inv(c, Apply(c, s, JobDelete(job)))
  {
    if job in s.jobs && s.jobs[job].Deleting? {
      var key := s.jobs[job].key;
      HeldLocksAreLive(c, s);
      assert !LiveLock(s, key);
      DeleteKeepsInv(c, s, {key});
      var t0 := s.(locks := s.locks - {key});
      var t := t0.(jobs := s.jobs - {job});
      assert forall j | j in t.jobs && t.jobs[j].Deleting? :: !LiveLock(t, t.jobs[j].key) by {
        assert forall j | j in t0.jobs && t0.jobs[j].Deleting? :: !LiveLock(t0, t0.jobs[j].key);
      }
      JobBookkeepingKeepsInv(c, t0, t);
    }
  }

  lemma WebhookReadKeepsInv(c: Config, s: State, d: Id, bid: Id)
    requires Inv(c, s)
    ensures Inv(c, Apply(c, s, WebhookRead(d, bid)))
  {
    if d !in s.confirming && bid in s.bookings && s.bookings[bid].status == PENDING {
      var t := s.(confirming := s.confirming[d := bid]);
      assert forall j | j in t.jobs && t.jobs[j].Deleting? :: !LiveLock(t, t.jobs[j].key) by {
        assert forall j | j in s.jobs && s.jobs[j].Deleting? :: !LiveLock(s, s.jobs[j].key);
      }
      JobBookkeepingKeepsInv(c, s, t);
    }
  }

  lemma ExpireReadKeepsInv(c: Config, s: State, j: Id, bid: Id)
    requires Inv(c, s)
    ensures Inv(c, Apply(c, s, ExpireRead(j, bid)))
  {
    if j !in s.expiring && bid in s.bookings && s.bookings[bid].status == PENDING && s.bookings[bid].expiresAt <= s.clock {
      var t := s.(expiring := s.expiring[j := bid]);
      assert forall j | j in t.jobs && t.jobs[j].Deleting? :: !LiveLock(t, t.jobs[j].key) by {
        assert forall j | j in s.jobs && s.jobs[j].Deleting? :: !LiveLock(s, s.jobs[j].key);
      }
      JobBookkeepingKeepsInv(c, s, t);
    }
  }

  lemma WriterFacts(c: Config, s: State, w: Id)
    requires Inv(c, s)
    ensures w in s.confirming ==> s.confirming[w] in s.bookings
    ensures w in s.confirming ==> var b := s.bookings[s.confirming[w]]; b.status == PENDING || b.status == CONFIRMED || b.expiresAt <= s.clock
    ensures w in s.expiring ==> s.expiring[w] in s.bookings && s.bookings[s.expiring[w]].expiresAt <= s.clock
  {}

  /** A prompt confirmation finds its booking still live. */
  lemma ConfirmKeepsInv(c: Config, s: State, d: Id)
    requires Inv(c, s) && Respects(s, WebhookConfirm(d), PromptPayment)
    ensures Inv(c, Apply(c, s, WebhookConfirm(d)))
  {
    hide Inv;
    WriterFacts(c, s, d);
    if d in s.confirming && s.confirming[d] in s.bookings {
      assert s.clock < s.bookings[s.confirming[d]].expiresAt;
      StatusKeepsInv(c, s, s.confirming[d], CONFIRMED, s.confirming - {d}, s.expiring);
    }
  }

  /** An expiry job only ever overwrites a booking whose time is up. */
  lemma ExpireKeepsInv(c: Config, s: State, j: Id)
    requires Inv(c, s)
    ensures Inv(c, Apply(c, s, ExpireWrite(j)))
  {
    hide Inv;
    WriterFacts(c, s, j);
    if j in s.expiring && s.expiring[j] in s.bookings {
      StatusKeepsInv(c, s, s.expiring[j], EXPIRED, s.confirming, s.expiring - {j});
    }
  }

  lemma ArriveKeepsInv(c: Config, s: State, a: Action)
    requires a.Arrive? && Inv(c, s) && Respects(s, a, OneRequest)
    ensures Inv(c, Apply(c, s, a))
  {
    if a.rid !in s.requests && OnSale(c, a.tenant, a.event, a.seats) {
      RequestStepKeepsInv(c, s, a.rid, Request(a.tenant, a.event, a.user, a.seats, Validating(a.seats), map[]));
    }
  }

  lemma UnlockGetKeepsInv(c: Config, s: State, a: Action)
    requires a.UnlockGet? && Inv(c, s) && Respects(s, a, OneRequest)
    ensures Inv(c, Apply(c, s, a))
  {
    if a.rid !in s.requests && LockedBy(s, a.key, a.user) {
      RequestStepKeepsInv(c, s, a.rid, Request(a.key.tenant, a.key.event, a.user, {a.key.seat}, Unlocking,
                                               map[a.key.seat := s.locks[a.key].expires]));
    }
  }

  lemma CaptureNowKeepsInv(c: Config, s: State, rid: Id)
    requires Inv(c, s)
    ensures Inv(c, Apply(c, s, CaptureNow(rid)))
  {
    if rid in s.requests && s.requests[rid].phase == Validating({}) {
      assert OwnsWhatItHolds(s, s.requests[rid]) && PhaseShape(c, s.requests[rid]);
      RequestStepKeepsInv(c, s, rid, s.requests[rid].(phase := Querying(s.clock)));
    }
  }

  lemma EnqueueKeepsInv(c: Config, s: State, rid: Id)
    requires Inv(c, s)
    ensures Inv(c, Apply(c, s, EnqueueExpiry(rid)))
  {
    if rid in s.requests && s.requests[rid].phase.Created? {
      assert OwnsWhatItHolds(s, s.requests[rid]) && PhaseShape(c, s.requests[rid]);
      RequestStepKeepsInv(c, s, rid, s.requests[rid].(phase := Releasing(s.requests[rid].seats, {})));
    }
  }

  lemma StepKeepsInv(c: Config, s: State, a: Action)
    requires Inv(c, s) && RespectsAll(s, a)
    ensures Inv(c, Apply(c, s, a))
  {
    hide Inv;
    assert Respects(s, a, InLease) && Respects(s, a, OneRequest) && Respects(s, a, PromptPayment) && Respects(s, a, QuietExpiry);
    match a
    case LockSeat(key, user, token) => LockSeatKeepsInv(c, s, key, user, token);
    case Arrive(_, _, _, _, _) => ArriveKeepsInv(c, s, a);
    case ReadLock(rid, seat) => ReadLockKeepsInv(c, s, rid, seat);
    case CaptureNow(rid) => CaptureNowKeepsInv(c, s, rid);
    case QueryLive(rid) => QueryKeepsInv(c, s, rid);
    case CreateBooking(rid, bid) => CreateKeepsInv(c, s, rid, bid);
    case EnqueueExpiry(rid) => EnqueueKeepsInv(c, s, rid);
    case ReleaseGet(rid, seat) => ReleaseGetKeepsInv(c, s, rid, seat);
    case ReleaseDel(rid, seat) => ReleaseDelKeepsInv(c, s, rid, seat);
    case Finish(rid) => DropKeepsInv(c, s, rid);
    case Abort(rid) => DropKeepsInv(c, s, rid);
    case UnlockGet(_, _, _) => UnlockGetKeepsInv(c, s, a);
    case UnlockDel(rid) => UnlockDelKeepsInv(c, s, rid);
    case JobGet(token, key) => JobGetKeepsInv(c, s, token, key);
    case JobPttl(job) => JobPttlKeepsInv(c, s, job);
    case JobDelete(job) => JobDeleteKeepsInv(c, s, job);
    case WebhookRead(d, bid) => WebhookReadKeepsInv(c, s, d, bid);
    case WebhookConfirm(d) => ConfirmKeepsInv(c, s, d);
    case ExpireRead(j, bid) => ExpireReadKeepsInv(c, s, j, bid);
    case ExpireWrite(j) => ExpireKeepsInv(c, s, j);
    case Tick(now) => if s.clock <= now { TickKeepsInv(c, s, now); }
  }

  lemma {:induction false} RunKeepsInv(c: Config, s: State, acts: seq<Action>)
    requires Inv(c, s) && RunRespects(c, s, acts, ALL_ASSUMPTIONS)
    ensures Inv(c, Run(c, s, acts))
    decreases |acts|
  {
    if acts != [] {
      StepKeepsInv(c, s, acts[0]);
      RunKeepsInv(c, Apply(c, s, acts[0]), acts[1..]);
    }
  }

  /** Main result: in every run that respects the four assumptions, whatever the number of
      clients, seats and steps, no seat is ever in two live bookings, and no two requests stand
      between reading and deleting the lock of one seat. */
  lemma NeverDoubleBooked(c: Config, s: State, acts: seq<Action>)
    requires Init(c, s) && RunRespects(c, s, acts, ALL_ASSUMPTIONS)
    ensures NoDoubleBooking(Run(c, s, acts))
    ensures ExclusiveWindows(Run(c, s, acts))
  {
    RunKeepsInv(c, s, acts);
    InvGivesExclusiveWindows(c, Run(c, s, acts));
  }
}
