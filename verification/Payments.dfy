/** Payments, the append-only ledger and refunds.

    The captured webhook with its dedup table, the reconciliation and refund sweeps, the refund
    webhooks and the status jobs all write `booking.status` and the ledger.  Every `$transaction`
    is one step; every other await is an interleaving point.  Amounts are whole paise. */
module Payments {
  import opened Outcomes
  import opened Lifecycle

  type Id = string

  datatype Kind = PAYMENT | REFUND
  datatype RowState = SUCCESS | INITIATED | UNSUCCESSFUL
  datatype Row = Row(booking: Id, kind: Kind, state: RowState, gatewayId: Id, amount: nat)

  datatype Booking = Booking(
    tenant: Id, status: Status, orderId: Option<Id>, paymentId: Option<Id>,
    finalPaise: nat,        // finalAmount, 0 until a discount is applied
    totalPaise: nat, discountPaise: nat, created: int)
  {
    /** What the processor and the refund service take for the amount: `finalAmount || totalAmount`.
        Both are decimal columns, read as objects, and an object is truthy even at zero. */
    function Due(): nat { finalPaise }

    /** What the order charges the customer. */
    function Charged(): nat { if discountPaise > 0 then finalPaise else totalPaise }
  }

  datatype DB = DB(bookings: map<Id, Booking>, ledger: seq<Row>)

  // ---------------------------------------------------------------- the transactions

  datatype PaymentError = BookingNotFound | TenantMismatch

  function SetStatus(db: DB, bid: Id, status: Status): DB
    requires bid in db.bookings
  {
    db.(bookings := db.bookings[bid := db.bookings[bid].(status := status)])
  }

  function SetPaid(db: DB, bid: Id, status: Status, payment: Id): DB
    requires bid in db.bookings
  {
    db.(bookings := db.bookings[bid := db.bookings[bid].(status := status, paymentId := Some(payment))])
  }

  function Append(db: DB, rows: seq<Row>): DB { db.(ledger := db.ledger + rows) }

  function PaidRow(bid: Id, payment: Id, amount: nat): Row { Row(bid, PAYMENT, SUCCESS, payment, amount) }

  function PaidThenRefund(bid: Id, payment: Id, amount: nat): seq<Row> {
    [PaidRow(bid, payment, amount), Row(bid, REFUND, INITIATED, payment, amount)]
  }

  /** processPaymentSuccess. */
  function Captured(db: DB, bid: Id, payment: Id, tenant: Id): Result<DB, PaymentError> {
    if bid !in db.bookings then Err(BookingNotFound)
    else if db.bookings[bid].tenant != tenant then Err(TenantMismatch)
    else
      var b := db.bookings[bid];
      if b.status == PAYMENT_IN_PROGRESS || b.status == LOCKED then
        Ok(Append(SetPaid(db, bid, CONFIRMED, payment), [PaidRow(bid, payment, b.Due())]))
      else if b.status == EXPIRED then Ok(Append(db, PaidThenRefund(bid, payment, b.Due())))
      else Ok(db)
  }

  /** The sweep's transaction for a payment the ledger does not know. */
  function Synced(db: DB, bid: Id, payment: Id, finalPaise: nat): DB {
    if bid !in db.bookings then db
    else
      var status := db.bookings[bid].status;
      if status == PAYMENT_IN_PROGRESS then
        Append(SetPaid(db, bid, CONFIRMED, payment), [PaidRow(bid, payment, finalPaise)])
      else if status in {EXPIRED, CANCELLED, FAILED} then
        Append(SetPaid(db, bid, REFUND_INITIATED, payment), PaidThenRefund(bid, payment, finalPaise))
      else db
  }

  /** A guarded status write: `from` is re-checked inside the transaction. */
  function Moved(db: DB, bid: Id, from: Status, to: Status): DB {
    if bid in db.bookings && db.bookings[bid].status == from then SetStatus(db, bid, to) else db
  }

  /** After the gateway refunded: the ledger row is written whatever the status is by now. */
  function RefundSettled(db: DB, bid: Id, gatewayId: Id, amount: nat): DB {
    Append(Moved(db, bid, REFUND_INITIATED, REFUNDED), [Row(bid, REFUND, SUCCESS, gatewayId, amount)])
  }

  /** handleRefundFailure. */
  function RefundRejected(db: DB, bid: Id, payment: Id, amount: nat): DB {
    Append(Moved(db, bid, REFUND_INITIATED, REFUND_FAILED), [Row(bid, REFUND, UNSUCCESSFUL, payment, amount)])
  }

  // ---------------------------------------------------------------- the protocol

  datatype Stale = Stale(bid: Id, orderId: Option<Id>, finalPaise: nat)

  datatype Looking = Fetching | Fetched(payment: Option<Id>) | Looked(found: Id, recorded: bool)
  datatype Refunding = Reading | Calling(payment: Id, amount: nat) | Accepted(gatewayId: Id, amount: nat) | Declined(payment: Id, amount: nat)

  /** The one sweep `isReconciling` admits. */
  datatype Sweep =
    | Idle
    | Reconciling(todo: seq<Stale>, at: Looking)
    | Paying(pending: seq<Id>, stage: Refunding)

  /** An outer webhook transaction that has inserted its event id but not committed. */
  datatype Delivery = Delivery(event: Id, bid: Id, payment: Id, tenant: Id)

  datatype State = State(
    db: DB,
    seenEvents: set<Id>,                 // committed rows of the dedup table
    open: map<Id, Delivery>,             // outer webhook transactions in flight
    refundedHooks: map<Id, Id>,          // refund.processed deliveries that read REFUND_INITIATED
    failedHooks: map<Id, Id>,            // refund.failed deliveries that found their booking
    sweep: Sweep,
    gatewayRefunds: map<Id, nat>)        // refunds the gateway has really made, per booking

  datatype Action =
    | Open(d: Id, delivery: Delivery)            // begin the outer transaction
    | Process(d: Id)                             // the processor's own transaction commits
    | Commit(d: Id)
    | Rollback(d: Id)
    | StartSweep(stale: seq<Id>)
    | Fetch(payment: Option<Id>)
    | FetchFails
    | LookUp
    | Settle                                     // the write that ends one booking's reconciliation
    | StartRefunds(bids: seq<Id>)
    | ReadRefund
    | GatewayAccepts(refundId: Option<Id>)
    | GatewayDeclines
    | RecordRefund
    | LoseRefund                                 // the gateway refunded, the transaction failed
    | EndSweep
    | CrashSweep
    | RefundProcessedRead(d: Id, bid: Id)
    | RefundProcessedWrite(d: Id)
    | RefundFailedRead(d: Id, bid: Id)
    | RefundFailedWrite(d: Id)
    | AddBooking(bid: Id, booking: Booking)
    | CreateOrder(bid: Id, order: Id)
    | ExpireLocked(bid: Id)                      // handleAutoExpiry
    | ReleaseLocked(bid: Id)                     // seat-lock worker
    | FailPending(bid: Id)                       // handleInitiatedCleanup
    | Elsewhere(bid: Id, to: Status)             // services that are not part of this model

  predicate Recorded(db: DB, payment: Id) {
    exists i | 0 <= i < |db.ledger| :: db.ledger[i].gatewayId == payment && db.ledger[i].state == SUCCESS
  }

  predicate HasPaid(db: DB, bid: Id) {
    exists i | 0 <= i < |db.ledger| :: db.ledger[i].booking == bid && db.ledger[i].kind == PAYMENT && db.ledger[i].state == SUCCESS
  }

  function Rest(s: State): State
    requires s.sweep.Reconciling? && s.sweep.todo != []
  {
    s.(sweep := Reconciling(s.sweep.todo[1..], Fetching))
  }

  function RestRefunds(s: State): State
    requires s.sweep.Paying? && s.sweep.pending != []
  {
    s.(sweep := Paying(s.sweep.pending[1..], Reading))
  }

  function GatewayRefunds(s: State, bid: Id): nat {
    if bid in s.gatewayRefunds then s.gatewayRefunds[bid] else 0
  }

  function StaleOf(db: DB, ids: seq<Id>): seq<Stale>
    requires forall i | 0 <= i < |ids| :: ids[i] in db.bookings
  {
    seq(|ids|, i requires 0 <= i < |ids| => Stale(ids[i], db.bookings[ids[i]].orderId, db.bookings[ids[i]].finalPaise))
  }

  function ApplyWebhook(s: State, a: Action): State {
    match a
    case Open(d, del) =>
      if d !in s.open && del.event !in s.seenEvents && (forall e | e in s.open :: s.open[e].event != del.event)
      then s.(open := s.open[d := del]) else s
    case Process(d) =>
      if d in s.open then
        var r := Captured(s.db, s.open[d].bid, s.open[d].payment, s.open[d].tenant);
        if r.Ok? then s.(db := r.value) else s.(open := s.open - {d})
      else s
    case Commit(d) =>
      if d in s.open then s.(seenEvents := s.seenEvents + {s.open[d].event}, open := s.open - {d}) else s
    case Rollback(d) => s.(open := s.open - {d})
    case RefundProcessedRead(d, bid) =>
      if d !in s.refundedHooks && bid in s.db.bookings && s.db.bookings[bid].paymentId.Some?
         && s.db.bookings[bid].status == REFUND_INITIATED
      then s.(refundedHooks := s.refundedHooks[d := bid]) else s
    case RefundProcessedWrite(d) =>
      if d in s.refundedHooks && s.refundedHooks[d] in s.db.bookings
      then s.(db := SetStatus(s.db, s.refundedHooks[d], REFUNDED), refundedHooks := s.refundedHooks - {d}) else s
    case RefundFailedRead(d, bid) =>
      if d !in s.failedHooks && bid in s.db.bookings && s.db.bookings[bid].paymentId.Some?
      then s.(failedHooks := s.failedHooks[d := bid]) else s
    case RefundFailedWrite(d) =>
      if d in s.failedHooks && s.failedHooks[d] in s.db.bookings
      then s.(db := SetStatus(s.db, s.failedHooks[d], REFUND_FAILED), failedHooks := s.failedHooks - {d}) else s
    case _ => s
  }

  /** The write that ends the reconciliation of the booking at the head of the list. */
  function SettleHead(db: DB, head: Stale, at: Looking): DB {
    if head.orderId.None? then (if head.bid in db.bookings then SetStatus(db, head.bid, FAILED) else db)
    else match at
      case Fetching => db
      case Fetched(payment) => if payment.None? then Moved(db, head.bid, PAYMENT_IN_PROGRESS, FAILED) else db
      case Looked(payment, recorded) =>
        if recorded then Moved(db, head.bid, PAYMENT_IN_PROGRESS, CONFIRMED)
        else Synced(db, head.bid, payment, head.finalPaise)
  }

  /** The head is ready for its write: no order id, nothing captured, or the ledger consulted. */
  predicate ReadyToSettle(s: State) {
    s.sweep.Reconciling? && s.sweep.todo != []
    && (s.sweep.todo[0].orderId.None? || s.sweep.at == Fetched(None) || s.sweep.at.Looked?)
  }

  function ApplySweep(s: State, a: Action): State {
    match a
    case StartSweep(stale) =>
      if s.sweep.Idle? && stale != [] && (forall b | b in stale :: b in s.db.bookings && s.db.bookings[b].status == PAYMENT_IN_PROGRESS)
      then s.(sweep := Reconciling(StaleOf(s.db, stale), Fetching)) else s
    case Fetch(payment) =>
      if s.sweep.Reconciling? && s.sweep.todo != [] && s.sweep.at.Fetching? && s.sweep.todo[0].orderId.Some?
      then s.(sweep := s.sweep.(at := Fetched(payment))) else s
    case FetchFails =>
      if s.sweep.Reconciling? && s.sweep.todo != [] && s.sweep.at.Fetching? then Rest(s) else s
    case LookUp =>
      if s.sweep.Reconciling? && s.sweep.todo != [] && s.sweep.at.Fetched? && s.sweep.at.payment.Some?
      then s.(sweep := s.sweep.(at := Looked(s.sweep.at.payment.value, Recorded(s.db, s.sweep.at.payment.value)))) else s
    case Settle =>
      if ReadyToSettle(s) then Rest(s).(db := SettleHead(s.db, s.sweep.todo[0], s.sweep.at)) else s
    case StartRefunds(bids) =>
      if s.sweep.Reconciling? && s.sweep.todo == [] && (forall b | b in bids :: b in s.db.bookings && s.db.bookings[b].status == REFUND_INITIATED)
      then s.(sweep := Paying(bids, Reading)) else s
    case EndSweep => if s.sweep.Paying? && s.sweep.pending == [] then s.(sweep := Idle) else s
    case CrashSweep => s.(sweep := Idle)
    case _ => s
  }

  function ApplyRefund(s: State, a: Action): State {
    if !(s.sweep.Paying? && s.sweep.pending != []) then s
    else
      var bid := s.sweep.pending[0];
      match a
      case ReadRefund =>
        if s.sweep.stage != Reading then s
        else if bid in s.db.bookings && s.db.bookings[bid].paymentId.Some? && s.db.bookings[bid].status == REFUND_INITIATED
        then s.(sweep := s.sweep.(stage := Calling(s.db.bookings[bid].paymentId.value, s.db.bookings[bid].Due())))
        else RestRefunds(s)
      case GatewayAccepts(refundId) =>
        if s.sweep.stage.Calling?
        then s.(sweep := s.sweep.(stage := Accepted(if refundId.Some? then refundId.value else s.sweep.stage.payment, s.sweep.stage.amount)),
                gatewayRefunds := s.gatewayRefunds[bid := GatewayRefunds(s, bid) + 1])
        else s
      case GatewayDeclines =>
        if s.sweep.stage.Calling? then s.(sweep := s.sweep.(stage := Declined(s.sweep.stage.payment, s.sweep.stage.amount))) else s
      case RecordRefund =>
        if s.sweep.stage.Accepted? then RestRefunds(s).(db := RefundSettled(s.db, bid, s.sweep.stage.gatewayId, s.sweep.stage.amount))
        else if s.sweep.stage.Declined? then RestRefunds(s).(db := RefundRejected(s.db, bid, s.sweep.stage.payment, s.sweep.stage.amount))
        else s
      case LoseRefund => if s.sweep.stage.Accepted? then RestRefunds(s) else s
      case _ => s
  }

  predicate EnterableElsewhere(db: DB, bid: Id, to: Status) {
    && bid in db.bookings && to in Next(db.bookings[bid].status)
    && to !in {PAYMENT_IN_PROGRESS, CONFIRMED, REFUNDED, REFUND_FAILED}
    && (to == REFUND_INITIATED ==> HasPaid(db, bid))
  }

  function ApplyJob(db: DB, a: Action): DB {
    match a
    case AddBooking(bid, b) =>
      if bid !in db.bookings && b.status in {PENDING, LOCKED} && b.orderId.None? && b.paymentId.None?
      then db.(bookings := db.bookings[bid := b]) else db
    case CreateOrder(bid, order) =>
      if bid in db.bookings && db.bookings[bid].status == LOCKED
      then db.(bookings := db.bookings[bid := db.bookings[bid].(status := PAYMENT_IN_PROGRESS, orderId := Some(order))]) else db
    case ExpireLocked(bid) =>
      if bid in db.bookings && db.bookings[bid].paymentId.None? then Moved(db, bid, LOCKED, EXPIRED) else db
    case ReleaseLocked(bid) => Moved(db, bid, LOCKED, EXPIRED)
    case FailPending(bid) => Moved(db, bid, PENDING, FAILED)
    case Elsewhere(bid, to) => if EnterableElsewhere(db, bid, to) then SetStatus(db, bid, to) else db
    case _ => db
  }

  function Apply(s: State, a: Action): State {
    if a.Open? || a.Process? || a.Commit? || a.Rollback? || a.RefundProcessedRead? || a.RefundProcessedWrite?
       || a.RefundFailedRead? || a.RefundFailedWrite? then ApplyWebhook(s, a)
    else if a.StartSweep? || a.Fetch? || a.FetchFails? || a.LookUp? || a.Settle? || a.StartRefunds? || a.EndSweep? || a.CrashSweep?
    then ApplySweep(s, a)
    else if a.ReadRefund? || a.GatewayAccepts? || a.GatewayDeclines? || a.RecordRefund? || a.LoseRefund? then ApplyRefund(s, a)
    else s.(db := ApplyJob(s.db, a))
  }

  function Run(s: State, acts: seq<Action>): State
    decreases |acts|
  {
    if acts == [] then s else Run(Apply(s, acts[0]), acts[1..])
  }

  // ---------------------------------------------------------------- assumptions on the world outside

  datatype Assumption =
    | OwnIds          // a payment or refund id belongs to one booking (the gateway's `owner`)
    | FailedInCycle   // refund.failed is written only on REFUND_INITIATED or REFUND_FAILED
    | NoLateFailure   // ... and not for a booking whose refund is in flight or was really made
    | RefundCommits   // the transaction after a gateway refund commits

  predicate InFlight(s: State, bid: Id) {
    s.sweep.Paying? && s.sweep.pending != [] && s.sweep.pending[0] == bid && (s.sweep.stage.Calling? || s.sweep.stage.Accepted?)
  }

  predicate Owns(owner: map<Id, Id>, id: Id, bid: Id) { id in owner && owner[id] == bid }

  predicate Respects(owner: map<Id, Id>, s: State, a: Action, h: Assumption) {
    match h
    case OwnIds =>
      && (a.Open? ==> Owns(owner, a.delivery.payment, a.delivery.bid))
      && (a.Fetch? && a.payment.Some? && s.sweep.Reconciling? && s.sweep.todo != [] ==> Owns(owner, a.payment.value, s.sweep.todo[0].bid))
      && (a.GatewayAccepts? && a.refundId.Some? && s.sweep.Paying? && s.sweep.pending != [] ==> Owns(owner, a.refundId.value, s.sweep.pending[0]))
    case FailedInCycle =>
      a.RefundFailedWrite? && a.d in s.failedHooks && s.failedHooks[a.d] in s.db.bookings ==>
        s.db.bookings[s.failedHooks[a.d]].status in {REFUND_INITIATED, REFUND_FAILED}
    case NoLateFailure =>
      a.RefundFailedWrite? && a.d in s.failedHooks ==>
        GatewayRefunds(s, s.failedHooks[a.d]) == 0 && !InFlight(s, s.failedHooks[a.d])
    case RefundCommits =>
      a.LoseRefund? || a.CrashSweep? ==> !(s.sweep.Paying? && s.sweep.stage.Accepted?)
  }

  ghost predicate RunRespects(owner: map<Id, Id>, s: State, acts: seq<Action>, hs: set<Assumption>)
    decreases |acts|
  {
    acts == [] ||
    ((forall h | h in hs :: Respects(owner, s, acts[0], h)) && RunRespects(owner, Apply(s, acts[0]), acts[1..], hs))
  }

  ghost predicate Init(s: State) {
    s == State(DB(map[], []), {}, map[], map[], map[], Idle, map[])
  }

  // ---------------------------------------------------------------- counting ledger rows

  datatype Tally = AnyRow | PaymentsMade | RefundsMade

  predicate Tallied(row: Row, bid: Id, what: Tally) {
    row.booking == bid && match what
      case AnyRow => true
      case PaymentsMade => row.kind == PAYMENT && row.state == SUCCESS
      case RefundsMade => row.kind == REFUND && row.state == SUCCESS
  }

  function Count(rows: seq<Row>, bid: Id, what: Tally): nat {
    if rows == [] then 0
    else (if Tallied(rows[0], bid, what) then 1 else 0) + Count(rows[1..], bid, what)
  }

  function Sum(rows: seq<Row>, bid: Id, what: Tally): nat {
    if rows == [] then 0
    else (if Tallied(rows[0], bid, what) then rows[0].amount else 0) + Sum(rows[1..], bid, what)
  }

  lemma {:induction false} CountAppend(rows: seq<Row>, more: seq<Row>, bid: Id, what: Tally)
    ensures Count(rows + more, bid, what) == Count(rows, bid, what) + Count(more, bid, what)
  {
    if rows == [] {
      assert rows + more == more;
    } else {
      assert (rows + more)[1..] == rows[1..] + more;
      CountAppend(rows[1..], more, bid, what);
    }
  }

  lemma {:induction false} CountWitness(rows: seq<Row>, bid: Id, what: Tally)
    ensures Count(rows, bid, what) > 0 <==> exists i | 0 <= i < |rows| :: Tallied(rows[i], bid, what)
  {
    if rows != [] {
      CountWitness(rows[1..], bid, what);
      if i :| 0 <= i < |rows| && Tallied(rows[i], bid, what) {
        assert i > 0 ==> Tallied(rows[1..][i - 1], bid, what);
      }
      if i :| 0 <= i < |rows[1..]| && Tallied(rows[1..][i], bid, what) {
        assert Tallied(rows[i + 1], bid, what);
      }
    }
  }

  lemma {:induction false} CountOrder(rows: seq<Row>, bid: Id)
    ensures Count(rows, bid, PaymentsMade) + Count(rows, bid, RefundsMade) <= Count(rows, bid, AnyRow)
  {
    if rows != [] { CountOrder(rows[1..], bid); }
  }
}
