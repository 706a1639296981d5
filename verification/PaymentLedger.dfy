/** What the payment protocol keeps over every run: the ledger agrees with the status, every
    status history is a chain of the transition table, and money is conserved. */
module PaymentLedger {
  import opened Outcomes
  import opened Lifecycle
  import opened Payments

  const EARLY: set<Status> := {PENDING, LOCKED, PAYMENT_IN_PROGRESS}
  const REFUNDS: set<Status> := {REFUND_INITIATED, REFUND_FAILED, REFUNDED}

  // ---------------------------------------------------------------- ledger and status

  /** One booking's ledger rows against its status. */
  ghost predicate Agrees(db: DB, bid: Id)
    requires bid in db.bookings
  {
    var b, rows, paid := db.bookings[bid], Count(db.ledger, bid, AnyRow), Count(db.ledger, bid, PaymentsMade);
    && (b.status in EARLY ==> rows == 0 && b.paymentId.None?)
    && (b.status == PAYMENT_IN_PROGRESS ==> b.orderId.Some?)
    && (b.status == CONFIRMED ==> rows == 1 && paid == 1)
    && (b.status in REFUNDS || b.paymentId.Some? ==> paid >= 1)
  }

  /** Both payment rows and refund rows carry the booking's final amount. */
  predicate RowFine(owner: map<Id, Id>, db: DB, row: Row) {
    && row.booking in db.bookings && Owns(owner, row.gatewayId, row.booking)
    && (row.state == SUCCESS ==> row.amount == db.bookings[row.booking].Due())
  }

  ghost predicate TablesFine(owner: map<Id, Id>, db: DB) {
    && (forall bid | bid in db.bookings :: Agrees(db, bid))
    && (forall i | 0 <= i < |db.ledger| :: RowFine(owner, db, db.ledger[i]))
    && (forall bid | bid in db.bookings && db.bookings[bid].paymentId.Some? :: Owns(owner, db.bookings[bid].paymentId.value, bid))
  }

  ghost predicate HooksFine(owner: map<Id, Id>, s: State) {
    && (forall d | d in s.open :: Owns(owner, s.open[d].payment, s.open[d].bid))
    && (forall d | d in s.refundedHooks :: s.refundedHooks[d] in s.db.bookings && s.db.bookings[s.refundedHooks[d]].status in REFUNDS)
    && (forall d | d in s.failedHooks :: s.failedHooks[d] in s.db.bookings && s.db.bookings[s.failedHooks[d]].paymentId.Some?)
  }

  ghost predicate StaleFine(db: DB, st: Stale) {
    st.bid in db.bookings && st.orderId.Some? && st.finalPaise == db.bookings[st.bid].finalPaise
  }

  ghost predicate InHand(owner: map<Id, Id>, db: DB, pending: seq<Id>, id: Id, amount: nat) {
    pending != [] && pending[0] in db.bookings && Owns(owner, id, pending[0])
    && amount == db.bookings[pending[0]].Due() && db.bookings[pending[0]].status in REFUNDS
  }

  ghost predicate SweepFine(owner: map<Id, Id>, s: State) {
    match s.sweep
    case Idle => true
    case Reconciling(todo, at) =>
      && (forall i | 0 <= i < |todo| :: StaleFine(s.db, todo[i]))
      && (at.Fetched? && at.payment.Some? ==> todo != [] && Owns(owner, at.payment.value, todo[0].bid))
      && (at.Looked? ==> todo != [] && Owns(owner, at.found, todo[0].bid))
      && (at.Looked? && at.recorded ==> Count(s.db.ledger, todo[0].bid, AnyRow) > 0)
    case Paying(pending, stage) =>
      match stage
      case Reading => true
      case Calling(payment, amount) => InHand(owner, s.db, pending, payment, amount)
      case Accepted(id, amount) => InHand(owner, s.db, pending, id, amount)
      case Declined(payment, amount) => InHand(owner, s.db, pending, payment, amount)
  }

  ghost predicate LedgerInv(owner: map<Id, Id>, s: State) {
    TablesFine(owner, s.db) && HooksFine(owner, s) && SweepFine(owner, s)
  }

  // ---------------------------------------------------------------- one transaction on one booking

  /** `db'` differs from `db` in the row of booking `bid` and in ledger rows about it. */
  ghost predicate Touches(db: DB, db': DB, bid: Id, rows: seq<Row>) {
    && bid in db.bookings && db'.bookings.Keys == db.bookings.Keys
    && (forall x | x in db.bookings && x != bid :: db'.bookings[x] == db.bookings[x])
    && db'.ledger == db.ledger + rows
    && (forall i | 0 <= i < |rows| :: rows[i].booking == bid)
    && db'.bookings[bid].finalPaise == db.bookings[bid].finalPaise
    && (db.bookings[bid].paymentId.Some? ==> db'.bookings[bid].paymentId.Some?)
    && (db.bookings[bid].status in REFUNDS ==> db'.bookings[bid].status in REFUNDS)
  }

  lemma {:induction false} NoneTallied(rows: seq<Row>, bid: Id, what: Tally)
    requires forall i | 0 <= i < |rows| :: rows[i].booking != bid
    ensures Count(rows, bid, what) == 0
  {
    if rows != [] { NoneTallied(rows[1..], bid, what); }
  }

  lemma TouchesOthers(db: DB, db': DB, bid: Id, rows: seq<Row>, x: Id, what: Tally)
    requires Touches(db, db', bid, rows)
    ensures Count(db'.ledger, x, what) == Count(db.ledger, x, what) + Count(rows, x, what)
    ensures x != bid ==> Count(db'.ledger, x, what) == Count(db.ledger, x, what)
  {
    CountAppend(db.ledger, rows, x, what);
    if x != bid { NoneTallied(rows, x, what); }
  }

  /** The frame: a transaction on one booking that leaves that booking and its new rows in order. */
  lemma TouchKeepsTables(owner: map<Id, Id>, db: DB, db': DB, bid: Id, rows: seq<Row>)
    requires TablesFine(owner, db) && Touches(db, db', bid, rows) && Agrees(db', bid)
    requires forall i | 0 <= i < |rows| :: RowFine(owner, db', rows[i])
    requires db'.bookings[bid].paymentId.Some? ==> Owns(owner, db'.bookings[bid].paymentId.value, bid)
    ensures TablesFine(owner, db')
  {
    forall x | x in db'.bookings ensures Agrees(db', x) {
      TouchesOthers(db, db', bid, rows, x, AnyRow);
      TouchesOthers(db, db', bid, rows, x, PaymentsMade);
      if x != bid { assert Agrees(db, x); }
    }
    forall i | 0 <= i < |db'.ledger| ensures RowFine(owner, db', db'.ledger[i]) {
      if i < |db.ledger| {
        assert RowFine(owner, db, db.ledger[i]) && db'.ledger[i] == db.ledger[i];
      } else {
        assert db'.ledger[i] == rows[i - |db.ledger|];
      }
    }
  }

  lemma TouchKeepsHooksAndSweep(owner: map<Id, Id>, s: State, db': DB, bid: Id, rows: seq<Row>)
    requires LedgerInv(owner, s) && Touches(s.db, db', bid, rows)
    ensures HooksFine(owner, s.(db := db')) && SweepFine(owner, s.(db := db'))
  {
    var t := s.(db := db');
    if s.sweep.Reconciling? {
      forall i | 0 <= i < |s.sweep.todo| ensures StaleFine(db', s.sweep.todo[i]) {
        assert StaleFine(s.db, s.sweep.todo[i]);
      }
      if s.sweep.todo != [] { TouchesOthers(s.db, db', bid, rows, s.sweep.todo[0].bid, AnyRow); }
    }
  }

  lemma TouchKeepsInv(owner: map<Id, Id>, s: State, db': DB, bid: Id, rows: seq<Row>)
    requires LedgerInv(owner, s) && Touches(s.db, db', bid, rows) && Agrees(db', bid)
    requires forall i | 0 <= i < |rows| :: RowFine(owner, db', rows[i])
    requires db'.bookings[bid].paymentId.Some? ==> Owns(owner, db'.bookings[bid].paymentId.value, bid)
    ensures LedgerInv(owner, s.(db := db'))
  {
    TouchKeepsTables(owner, s.db, db', bid, rows);
    TouchKeepsHooksAndSweep(owner, s, db', bid, rows);
  }

  lemma FactsOf(owner: map<Id, Id>, s: State, bid: Id)
    requires LedgerInv(owner, s) && bid in s.db.bookings
    ensures Agrees(s.db, bid)
    ensures s.db.bookings[bid].paymentId.Some? ==> Owns(owner, s.db.bookings[bid].paymentId.value, bid)
    ensures Count(s.db.ledger, bid, PaymentsMade) <= Count(s.db.ledger, bid, AnyRow)
  {
    CountOrder(s.db.ledger, bid);
  }

  /** A status write inside one booking, no ledger row. */
  lemma StatusWrite(owner: map<Id, Id>, s: State, bid: Id, b: Booking)
    requires LedgerInv(owner, s) && bid in s.db.bookings
    requires var old_ := s.db.bookings[bid];
             b.finalPaise == old_.finalPaise && b.paymentId == old_.paymentId
             && (old_.status in REFUNDS ==> b.status in REFUNDS)
             && (b.status in EARLY ==> old_.status in EARLY) && (b.status == CONFIRMED ==> old_.status == CONFIRMED)
             && (b.status == PAYMENT_IN_PROGRESS ==> b.orderId.Some?)
             && (b.status in REFUNDS ==> old_.status == CONFIRMED || old_.status in REFUNDS || old_.paymentId.Some? || HasPaid(s.db, bid))
    ensures LedgerInv(owner, s.(db := s.db.(bookings := s.db.bookings[bid := b])))
  {
    hide LedgerInv;
    var db' := s.db.(bookings := s.db.bookings[bid := b]);
    assert s.db.ledger + [] == s.db.ledger;
    assert Touches(s.db, db', bid, []);
    FactsOf(owner, s, bid);
    CountWitness(s.db.ledger, bid, PaymentsMade);
    if HasPaid(s.db, bid) {
      var i :| 0 <= i < |s.db.ledger| && s.db.ledger[i].booking == bid && s.db.ledger[i].kind == PAYMENT && s.db.ledger[i].state == SUCCESS;
      assert Tallied(s.db.ledger[i], bid, PaymentsMade);
    }
    TouchKeepsInv(owner, s, db', bid, []);
  }

  lemma CountOne(row: Row, bid: Id, what: Tally)
    ensures Count([row], bid, what) == if Tallied(row, bid, what) then 1 else 0
  {
    assert Count([row][1..], bid, what) == 0;
  }

  lemma CountTwo(a: Row, b: Row, bid: Id, what: Tally)
    ensures Count([a, b], bid, what) == (if Tallied(a, bid, what) then 1 else 0) + (if Tallied(b, bid, what) then 1 else 0)
  {
    assert [a, b][1..] == [b];
    CountOne(b, bid, what);
  }

  /** The webhook processor's transaction. */
  lemma CapturedKeepsInv(owner: map<Id, Id>, s: State, bid: Id, payment: Id, tenant: Id)
    requires LedgerInv(owner, s) && Owns(owner, payment, bid)
    ensures var r := Captured(s.db, bid, payment, tenant); r.Ok? ==> LedgerInv(owner, s.(db := r.value))
  {
    hide LedgerInv;
    var r := Captured(s.db, bid, payment, tenant);
    if r.Ok? && r.value != s.db {
      var b := s.db.bookings[bid];
      var paid := PaidRow(bid, payment, b.Due());
      var two := PaidThenRefund(bid, payment, b.Due());
      var rows := if b.status == EXPIRED then two else [paid];
      FactsOf(owner, s, bid);
      assert Touches(s.db, r.value, bid, rows);
      TouchesOthers(s.db, r.value, bid, rows, bid, AnyRow);
      TouchesOthers(s.db, r.value, bid, rows, bid, PaymentsMade);
      CountOne(paid, bid, AnyRow);
      CountOne(paid, bid, PaymentsMade);
      TouchKeepsInv(owner, s, r.value, bid, rows);
    }
  }

  /** The sweep's recovery transaction. */
  lemma SyncedKeepsInv(owner: map<Id, Id>, s: State, bid: Id, payment: Id)
    requires LedgerInv(owner, s) && bid in s.db.bookings && Owns(owner, payment, bid)
    ensures LedgerInv(owner, s.(db := Synced(s.db, bid, payment, s.db.bookings[bid].finalPaise)))
  {
    hide LedgerInv;
    var b := s.db.bookings[bid];
    var db' := Synced(s.db, bid, payment, b.finalPaise);
    if db' != s.db {
      var paid := PaidRow(bid, payment, b.finalPaise);
      var two := PaidThenRefund(bid, payment, b.finalPaise);
      var rows := if b.status == PAYMENT_IN_PROGRESS then [paid] else two;
      FactsOf(owner, s, bid);
      assert Touches(s.db, db', bid, rows);
      TouchesOthers(s.db, db', bid, rows, bid, AnyRow);
      TouchesOthers(s.db, db', bid, rows, bid, PaymentsMade);
      CountOne(paid, bid, AnyRow);
      CountOne(paid, bid, PaymentsMade);
      CountTwo(two[0], two[1], bid, PaymentsMade);
      TouchKeepsInv(owner, s, db', bid, rows);
    }
  }

  /** The transactions that end a refund attempt. */
  lemma RefundKeepsInv(owner: map<Id, Id>, s: State, bid: Id, to: Status, row: Row)
    requires LedgerInv(owner, s) && bid in s.db.bookings && to in REFUNDS && s.db.bookings[bid].status in REFUNDS
    requires row.booking == bid && row.kind == REFUND && RowFine(owner, s.db, row)
    ensures LedgerInv(owner, s.(db := Append(Moved(s.db, bid, REFUND_INITIATED, to), [row])))
  {
    hide LedgerInv;
    var db' := Append(Moved(s.db, bid, REFUND_INITIATED, to), [row]);
    FactsOf(owner, s, bid);
    assert Touches(s.db, db', bid, [row]);
    TouchesOthers(s.db, db', bid, [row], bid, AnyRow);
    TouchesOthers(s.db, db', bid, [row], bid, PaymentsMade);
    TouchKeepsInv(owner, s, db', bid, [row]);
  }

  // ---------------------------------------------------------------- every step keeps the ledger invariant

  lemma DropHook(owner: map<Id, Id>, s: State, d: Id)
    requires LedgerInv(owner, s)
    ensures LedgerInv(owner, s.(refundedHooks := s.refundedHooks - {d})) && LedgerInv(owner, s.(failedHooks := s.failedHooks - {d}))
    ensures LedgerInv(owner, s.(open := s.open - {d}))
  {}

  lemma RefundHookKeepsLedger(owner: map<Id, Id>, s: State, a: Action)
    requires LedgerInv(owner, s) && (a.RefundProcessedWrite? || a.RefundFailedWrite?)
    ensures LedgerInv(owner, ApplyWebhook(s, a))
  {
    var hooks := if a.RefundProcessedWrite? then s.refundedHooks else s.failedHooks;
    if a.d in hooks {
      var bid := hooks[a.d];
      var b := s.db.bookings[bid].(status := if a.RefundProcessedWrite? then REFUNDED else REFUND_FAILED);
      StatusWrite(owner, s, bid, b);
      hide LedgerInv;
      DropHook(owner, s.(db := s.db.(bookings := s.db.bookings[bid := b])), a.d);
    }
  }

  lemma WebhookKeepsLedger(owner: map<Id, Id>, s: State, a: Action)
    requires LedgerInv(owner, s) && Respects(owner, s, a, OwnIds)
    ensures LedgerInv(owner, ApplyWebhook(s, a))
  {
    if a.RefundProcessedWrite? || a.RefundFailedWrite? {
      RefundHookKeepsLedger(owner, s, a);
    } else if a.Process? && a.d in s.open {
      CapturedKeepsInv(owner, s, s.open[a.d].bid, s.open[a.d].payment, s.open[a.d].tenant);
      DropHook(owner, s, a.d);
    }
  }

  /** A SUCCESS row for a payment of this booking is a row of this booking. */
  lemma RecordedMeansRows(owner: map<Id, Id>, db: DB, payment: Id, bid: Id)
    requires TablesFine(owner, db) && Owns(owner, payment, bid) && Recorded(db, payment)
    ensures Count(db.ledger, bid, AnyRow) > 0
  {
    var i :| 0 <= i < |db.ledger| && db.ledger[i].gatewayId == payment && db.ledger[i].state == SUCCESS;
    assert RowFine(owner, db, db.ledger[i]);
    assert Tallied(db.ledger[i], bid, AnyRow);
    CountWitness(db.ledger, bid, AnyRow);
  }

  /** The branch that only syncs the status never finds anything to sync. */
  lemma ForceSyncChangesNothing(owner: map<Id, Id>, s: State)
    requires LedgerInv(owner, s) && ReadyToSettle(s) && s.sweep.at.Looked? && s.sweep.at.recorded
    ensures Apply(s, Settle).db == s.db
  {
    var st := s.sweep.todo[0];
    assert StaleFine(s.db, st) && Agrees(s.db, st.bid);
  }

  /** The write for a booking without an order id is never reached: a listed booking has one. */
  lemma NoOrderlessWrite(owner: map<Id, Id>, s: State)
    requires LedgerInv(owner, s) && ReadyToSettle(s)
    ensures s.sweep.todo[0].orderId.Some?
  {
    assert StaleFine(s.db, s.sweep.todo[0]);
  }

  lemma SettleKeepsLedger(owner: map<Id, Id>, s: State)
    requires LedgerInv(owner, s) && ReadyToSettle(s)
    ensures LedgerInv(owner, ApplySweep(s, Settle))
  {
    var st, at := s.sweep.todo[0], s.sweep.at;
    assert StaleFine(s.db, st) && Agrees(s.db, st.bid);
    var db' := SettleHead(s.db, st, at);
    if at.Looked? && !at.recorded {
      SyncedKeepsInv(owner, s, st.bid, at.found);
    } else if at.Looked? {
      ForceSyncChangesNothing(owner, s);
    } else if s.db.bookings[st.bid].status == PAYMENT_IN_PROGRESS {
      StatusWrite(owner, s, st.bid, s.db.bookings[st.bid].(status := FAILED));
    }
    var t := s.(db := db');
    assert LedgerInv(owner, t);
    assert ApplySweep(s, Settle) == Rest(t);
    RestKeepsLedger(owner, t);
  }

  lemma RestKeepsLedger(owner: map<Id, Id>, s: State)
    requires LedgerInv(owner, s) && s.sweep.Reconciling? && s.sweep.todo != []
    ensures LedgerInv(owner, Rest(s))
  {
    forall i | 0 <= i < |s.sweep.todo[1..]| ensures StaleFine(s.db, s.sweep.todo[1..][i]) {
      assert StaleFine(s.db, s.sweep.todo[i + 1]);
    }
  }

  lemma StartKeepsLedger(owner: map<Id, Id>, s: State, stale: seq<Id>)
    requires LedgerInv(owner, s)
    ensures LedgerInv(owner, ApplySweep(s, StartSweep(stale)))
  {
    if s.sweep.Idle? && stale != [] && (forall b | b in stale :: b in s.db.bookings && s.db.bookings[b].status == PAYMENT_IN_PROGRESS) {
      var todo := StaleOf(s.db, stale);
      forall i | 0 <= i < |todo| ensures StaleFine(s.db, todo[i]) {
        assert stale[i] in stale && Agrees(s.db, stale[i]);
      }
    }
  }

  lemma LookUpKeepsLedger(owner: map<Id, Id>, s: State)
    requires LedgerInv(owner, s)
    ensures LedgerInv(owner, ApplySweep(s, LookUp))
  {
    if s.sweep.Reconciling? && s.sweep.todo != [] && s.sweep.at.Fetched? && s.sweep.at.payment.Some?
       && Recorded(s.db, s.sweep.at.payment.value) {
      RecordedMeansRows(owner, s.db, s.sweep.at.payment.value, s.sweep.todo[0].bid);
    }
  }

  /** Replies of the gateway, and the ends of the two phases. */
  lemma QuietSweepKeepsLedger(owner: map<Id, Id>, s: State, a: Action)
    requires LedgerInv(owner, s) && Respects(owner, s, a, OwnIds)
    requires a.Fetch? || a.StartRefunds? || a.EndSweep? || a.CrashSweep?
    ensures LedgerInv(owner, ApplySweep(s, a))
  {
    hide TablesFine, StaleFine;
  }

  lemma SweepKeepsLedger(owner: map<Id, Id>, s: State, a: Action)
    requires LedgerInv(owner, s) && Respects(owner, s, a, OwnIds)
    ensures LedgerInv(owner, ApplySweep(s, a))
  {
    hide LedgerInv, SettleHead, Recorded;
    match a
    case StartSweep(stale) => StartKeepsLedger(owner, s, stale);
    case FetchFails =>
      if s.sweep.Reconciling? && s.sweep.todo != [] { RestKeepsLedger(owner, s); }
    case LookUp => LookUpKeepsLedger(owner, s);
    case Settle => if ReadyToSettle(s) { SettleKeepsLedger(owner, s); }
    case Fetch(_) => QuietSweepKeepsLedger(owner, s, a);
    case StartRefunds(_) => QuietSweepKeepsLedger(owner, s, a);
    case EndSweep => QuietSweepKeepsLedger(owner, s, a);
    case CrashSweep => QuietSweepKeepsLedger(owner, s, a);
    case _ =>
  }

  lemma RestRefundsKeepsLedger(owner: map<Id, Id>, s: State)
    requires LedgerInv(owner, s) && s.sweep.Paying? && s.sweep.pending != []
    ensures LedgerInv(owner, RestRefunds(s))
  {}

  lemma RecordKeepsLedger(owner: map<Id, Id>, s: State)
    requires LedgerInv(owner, s)
    ensures LedgerInv(owner, ApplyRefund(s, RecordRefund))
  {
    if s.sweep.Paying? && s.sweep.pending != [] && (s.sweep.stage.Accepted? || s.sweep.stage.Declined?) {
      var bid, stage := s.sweep.pending[0], s.sweep.stage;
      var row := if stage.Accepted? then Row(bid, REFUND, SUCCESS, stage.gatewayId, stage.amount)
                 else Row(bid, REFUND, UNSUCCESSFUL, stage.payment, stage.amount);
      var to := if stage.Accepted? then REFUNDED else REFUND_FAILED;
      RefundKeepsInv(owner, s, bid, to, row);
      hide LedgerInv;
      RestRefundsKeepsLedger(owner, s.(db := Append(Moved(s.db, bid, REFUND_INITIATED, to), [row])));
    }
  }

  lemma RefundStepKeepsLedger(owner: map<Id, Id>, s: State, a: Action)
    requires LedgerInv(owner, s) && Respects(owner, s, a, OwnIds)
    ensures LedgerInv(owner, ApplyRefund(s, a))
  {
    if a.RecordRefund? {
      RecordKeepsLedger(owner, s);
    } else if s.sweep.Paying? && s.sweep.pending != [] && s.sweep.pending[0] in s.db.bookings {
      FactsOf(owner, s, s.sweep.pending[0]);
    }
  }

  lemma JobKeepsLedger(owner: map<Id, Id>, s: State, a: Action)
    requires LedgerInv(owner, s) && (a.CreateOrder? || a.ExpireLocked? || a.ReleaseLocked? || a.FailPending? || a.Elsewhere?)
    ensures LedgerInv(owner, s.(db := ApplyJob(s.db, a)))
  {
    var db' := ApplyJob(s.db, a);
    if db' != s.db {
      assert Agrees(s.db, a.bid);
      StatusWrite(owner, s, a.bid, db'.bookings[a.bid]);
    }
  }

  lemma AddKeepsLedger(owner: map<Id, Id>, s: State, bid: Id, b: Booking)
    requires LedgerInv(owner, s)
    ensures LedgerInv(owner, s.(db := ApplyJob(s.db, AddBooking(bid, b))))
  {
    var db' := ApplyJob(s.db, AddBooking(bid, b));
    if db' != s.db {
      forall i | 0 <= i < |s.db.ledger| ensures s.db.ledger[i].booking != bid && RowFine(owner, db', s.db.ledger[i]) {
        assert RowFine(owner, s.db, s.db.ledger[i]);
      }
      NoneTallied(s.db.ledger, bid, AnyRow);
      forall x | x in db'.bookings ensures Agrees(db', x) {
        if x != bid { assert Agrees(s.db, x); }
      }
      if s.sweep.Reconciling? {
        forall i | 0 <= i < |s.sweep.todo| ensures StaleFine(db', s.sweep.todo[i]) {
          assert StaleFine(s.db, s.sweep.todo[i]);
        }
      }
    }
  }

  lemma StepKeepsLedger(owner: map<Id, Id>, s: State, a: Action)
    requires LedgerInv(owner, s) && Respects(owner, s, a, OwnIds)
    ensures LedgerInv(owner, Apply(s, a))
  {
    hide LedgerInv;
    WebhookKeepsLedger(owner, s, a);
    SweepKeepsLedger(owner, s, a);
    RefundStepKeepsLedger(owner, s, a);
    if a.AddBooking? {
      AddKeepsLedger(owner, s, a.bid, a.booking);
    } else if a.CreateOrder? || a.ExpireLocked? || a.ReleaseLocked? || a.FailPending? || a.Elsewhere? {
      JobKeepsLedger(owner, s, a);
    }
  }
}
