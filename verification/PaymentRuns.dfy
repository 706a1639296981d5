/** The payment protocol over whole runs: status histories, and conservation of money. */
module PaymentRuns {
  import opened Outcomes
  import opened Lifecycle
  import opened Payments
  import opened PaymentLedger

  // ---------------------------------------------------------------- status histories

  /** Booking `bid` is still there and has moved along the table. */
  predicate Moves(db: DB, db': DB, bid: Id)
    requires bid in db.bookings
  {
    bid in db'.bookings && Later(db.bookings[bid].status, db'.bookings[bid].status)
  }

  lemma TransactionsMove(db: DB, x: Id, payment: Id, tenant: Id, amount: nat, bid: Id)
    requires bid in db.bookings
    ensures var r := Captured(db, x, payment, tenant); r.Ok? ==> Moves(db, r.value, bid)
    ensures Moves(db, Synced(db, x, payment, amount), bid)
  {}

  lemma WriteMoves(db: DB, x: Id, from: Status, to: Status, bid: Id)
    requires bid in db.bookings && Later(from, to)
    ensures Moves(db, Moved(db, x, from, to), bid)
  {}

  lemma HookFacts(owner: map<Id, Id>, s: State, d: Id)
    requires LedgerInv(owner, s)
    ensures d in s.refundedHooks ==> s.refundedHooks[d] in s.db.bookings && s.db.bookings[s.refundedHooks[d]].status in REFUNDS
  {}

  lemma WebhookMoves(owner: map<Id, Id>, s: State, a: Action, bid: Id)
    requires LedgerInv(owner, s) && Respects(owner, s, a, FailedInCycle) && bid in s.db.bookings
    ensures Moves(s.db, ApplyWebhook(s, a).db, bid)
  {
    hide LedgerInv, Captured;
    if a.RefundProcessedWrite? {
      HookFacts(owner, s, a.d);
    }
    if a.Process? && a.d in s.open {
      TransactionsMove(s.db, s.open[a.d].bid, s.open[a.d].payment, s.open[a.d].tenant, 0, bid);
    }
  }

  lemma SettleMoves(owner: map<Id, Id>, s: State, bid: Id)
    requires LedgerInv(owner, s) && ReadyToSettle(s) && bid in s.db.bookings
    ensures Moves(s.db, SettleHead(s.db, s.sweep.todo[0], s.sweep.at), bid)
  {
    NoOrderlessWrite(owner, s);
    hide LedgerInv, Synced, Moved;
    var st, at := s.sweep.todo[0], s.sweep.at;
    TransactionsMove(s.db, st.bid, if at.Looked? then at.found else "", "", st.finalPaise, bid);
    WriteMoves(s.db, st.bid, PAYMENT_IN_PROGRESS, FAILED, bid);
    WriteMoves(s.db, st.bid, PAYMENT_IN_PROGRESS, CONFIRMED, bid);
  }

  lemma RefundMoves(s: State, a: Action, bid: Id)
    requires bid in s.db.bookings
    ensures Moves(s.db, ApplyRefund(s, a).db, bid)
  {}

  lemma JobMoves(db: DB, a: Action, bid: Id)
    requires bid in db.bookings
    ensures Moves(db, ApplyJob(db, a), bid)
  {}

  /** One step: the new status of every booking is reachable from its old one in the table. */
  lemma StepFollowsTable(owner: map<Id, Id>, s: State, a: Action, bid: Id)
    requires LedgerInv(owner, s) && Respects(owner, s, a, FailedInCycle) && bid in s.db.bookings
    ensures Moves(s.db, Apply(s, a).db, bid)
  {
    hide LedgerInv, ApplyWebhook, ApplyRefund, ApplyJob, SettleHead;
    WebhookMoves(owner, s, a, bid);
    RefundMoves(s, a, bid);
    JobMoves(s.db, a, bid);
    if a.Settle? && ReadyToSettle(s) {
      SettleMoves(owner, s, bid);
    }
  }

  lemma LaterIsTransitive(a: Status, b: Status, c: Status)
    requires Later(a, b) && Later(b, c)
    ensures Later(a, c)
  {
    ReachIsLater(a, b);
    ReachIsLater(b, c);
    ReachTransitive(a, b, c);
    ReachIsLater(a, c);
  }

  const LIFECYCLE: set<Assumption> := {OwnIds, FailedInCycle}

  lemma {:induction false} RunFollowsTable(owner: map<Id, Id>, s: State, acts: seq<Action>, bid: Id)
    requires LedgerInv(owner, s) && RunRespects(owner, s, acts, LIFECYCLE) && bid in s.db.bookings
    ensures LedgerInv(owner, Run(s, acts)) && Moves(s.db, Run(s, acts).db, bid)
    decreases |acts|
  {
    if acts != [] {
      var t := Apply(s, acts[0]);
      assert Respects(owner, s, acts[0], OwnIds) && Respects(owner, s, acts[0], FailedInCycle);
      hide LedgerInv;
      StepKeepsLedger(owner, s, acts[0]);
      StepFollowsTable(owner, s, acts[0], bid);
      RunFollowsTable(owner, t, acts[1..], bid);
      LaterIsTransitive(s.db.bookings[bid].status, t.db.bookings[bid].status, Run(t, acts[1..]).db.bookings[bid].status);
    }
  }

  lemma {:induction false} RunKeepsLedger(owner: map<Id, Id>, s: State, acts: seq<Action>, hs: set<Assumption>)
    requires LedgerInv(owner, s) && RunRespects(owner, s, acts, hs) && OwnIds in hs
    ensures LedgerInv(owner, Run(s, acts))
    decreases |acts|
  {
    if acts != [] {
      assert Respects(owner, s, acts[0], OwnIds);
      StepKeepsLedger(owner, s, acts[0]);
      RunKeepsLedger(owner, Apply(s, acts[0]), acts[1..], hs);
    }
  }

  lemma InitFine(owner: map<Id, Id>, s: State)
    requires Init(s)
    ensures LedgerInv(owner, s) && forall bid :: MoneyFine(s, bid)
  {}

  /** Ledger and status: over every interleaving, a LOCKED or PAYMENT_IN_PROGRESS booking has no
      successful payment row, a CONFIRMED one exactly one, a booking in the refund cycle at least
      one; and the sweep's status-only write changes nothing. */
  lemma LedgerMatchesStatus(owner: map<Id, Id>, s: State, acts: seq<Action>)
    requires Init(s) && RunRespects(owner, s, acts, {OwnIds})
    ensures var t := Run(s, acts);
      && (forall bid | bid in t.db.bookings ::
            var status, paid := t.db.bookings[bid].status, Count(t.db.ledger, bid, PaymentsMade);
            && (status in {PENDING, LOCKED, PAYMENT_IN_PROGRESS} ==> paid == 0)
            && (status == CONFIRMED ==> paid == 1)
            && (status in REFUNDS ==> paid >= 1))
      && (ReadyToSettle(t) && t.sweep.at.Looked? && t.sweep.at.recorded ==> Apply(t, Settle).db == t.db)
  {
    RunKeepsLedger(owner, s, acts, {OwnIds});
    var t := Run(s, acts);
    forall bid | bid in t.db.bookings
      ensures Agrees(t.db, bid) && Count(t.db.ledger, bid, PaymentsMade) <= Count(t.db.ledger, bid, AnyRow)
    {
      FactsOf(owner, t, bid);
    }
    if ReadyToSettle(t) && t.sweep.at.Looked? && t.sweep.at.recorded { ForceSyncChangesNothing(owner, t); }
  }

  /** Lifecycle: between any two moments of a run a booking has moved along the table, so it
      stays REFUNDED once REFUNDED and is never CONFIRMED again once it was and is not. */
  lemma HistoryFollowsTable(owner: map<Id, Id>, s: State, before: seq<Action>, after: seq<Action>, bid: Id)
    requires Init(s) && RunRespects(owner, s, before, LIFECYCLE) && RunRespects(owner, Run(s, before), after, LIFECYCLE)
    requires bid in Run(s, before).db.bookings
    ensures bid in Run(Run(s, before), after).db.bookings
    ensures var x, y := Run(s, before).db.bookings[bid].status, Run(Run(s, before), after).db.bookings[bid].status;
            Reach(x, y) && (x == REFUNDED ==> y == REFUNDED)
            && (y == CONFIRMED ==> x == CONFIRMED || x.PENDING? || x.LOCKED? || x.PAYMENT_IN_PROGRESS?)
  {
    InitFine(owner, s);
    hide LedgerInv, Run, RunRespects, Init, Reach;
    RunKeepsLedger(owner, s, before, LIFECYCLE);
    RunFollowsTable(owner, Run(s, before), after, bid);
    var x, y := Run(s, before).db.bookings[bid].status, Run(Run(s, before), after).db.bookings[bid].status;
    ReachIsLater(x, y);
  }

  // ---------------------------------------------------------------- money

  predicate CallingFor(s: State, bid: Id) {
    s.sweep.Paying? && s.sweep.pending != [] && s.sweep.pending[0] == bid && s.sweep.stage.Calling?
  }

  predicate AcceptedFor(s: State, bid: Id) {
    s.sweep.Paying? && s.sweep.pending != [] && s.sweep.pending[0] == bid && s.sweep.stage.Accepted?
  }

  /** A refund the gateway made is in the ledger or about to be, and it was the only one. */
  ghost predicate MoneyFine(s: State, bid: Id) {
    var made := GatewayRefunds(s, bid);
    && Count(s.db.ledger, bid, RefundsMade) + (if AcceptedFor(s, bid) then 1 else 0) == made
    && made <= 1
    && (made == 1 || CallingFor(s, bid) ==> bid in s.db.bookings && s.db.bookings[bid].status in {REFUND_INITIATED, REFUNDED})
    && (made == 1 && s.db.bookings[bid].status == REFUND_INITIATED ==> AcceptedFor(s, bid))
    && (CallingFor(s, bid) ==> made == 0)
  }

  const ALL_ASSUMPTIONS: set<Assumption> := {OwnIds, FailedInCycle, NoLateFailure, RefundCommits}

  /** Rows that are not a successful refund leave the tally alone. */
  lemma NoRefundRows(db: DB, rows: seq<Row>, bid: Id)
    requires |rows| <= 2 && forall i | 0 <= i < |rows| :: !Tallied(rows[i], bid, RefundsMade)
    ensures Count(db.ledger + rows, bid, RefundsMade) == Count(db.ledger, bid, RefundsMade)
  {
    CountAppend(db.ledger, rows, bid, RefundsMade);
    if |rows| == 2 {
      assert rows == [rows[0], rows[1]];
      CountTwo(rows[0], rows[1], bid, RefundsMade);
    } else if |rows| == 1 {
      assert rows == [rows[0]];
      CountOne(rows[0], bid, RefundsMade);
    } else {
      assert rows == [];
    }
  }

  lemma CapturedKeepsMoney(s: State, d: Id, bid: Id)
    requires MoneyFine(s, bid) && d in s.open
    ensures MoneyFine(ApplyWebhook(s, Process(d)), bid)
  {
    var del := s.open[d];
    var r := Captured(s.db, del.bid, del.payment, del.tenant);
    if r.Ok? {
      var due := s.db.bookings[del.bid].Due();
      NoRefundRows(s.db, [PaidRow(del.bid, del.payment, due)], bid);
      NoRefundRows(s.db, PaidThenRefund(del.bid, del.payment, due), bid);
    }
  }

  lemma WebhookKeepsMoney(owner: map<Id, Id>, s: State, a: Action, bid: Id)
    requires LedgerInv(owner, s) && MoneyFine(s, bid) && forall h | h in ALL_ASSUMPTIONS :: Respects(owner, s, a, h)
    ensures MoneyFine(ApplyWebhook(s, a), bid)
  {
    assert Respects(owner, s, a, FailedInCycle) && Respects(owner, s, a, NoLateFailure);
    hide LedgerInv;
    if a.Process? && a.d in s.open {
      CapturedKeepsMoney(s, a.d, bid);
    }
  }

  lemma SettleKeepsMoney(owner: map<Id, Id>, s: State, bid: Id)
    requires LedgerInv(owner, s) && MoneyFine(s, bid) && ReadyToSettle(s)
    ensures MoneyFine(ApplySweep(s, Settle), bid)
  {
    NoOrderlessWrite(owner, s);
    hide LedgerInv;
    var st := s.sweep.todo[0];
    if s.sweep.at.Looked? {
      NoRefundRows(s.db, [PaidRow(st.bid, s.sweep.at.found, st.finalPaise)], bid);
      NoRefundRows(s.db, PaidThenRefund(st.bid, s.sweep.at.found, st.finalPaise), bid);
    }
  }

  lemma SweepKeepsMoney(owner: map<Id, Id>, s: State, a: Action, bid: Id)
    requires LedgerInv(owner, s) && MoneyFine(s, bid) && Respects(owner, s, a, RefundCommits)
    ensures MoneyFine(ApplySweep(s, a), bid)
  {
    if a.Settle? && ReadyToSettle(s) {
      hide LedgerInv;
      SettleKeepsMoney(owner, s, bid);
    }
  }

  lemma RecordKeepsMoney(s: State, bid: Id)
    requires MoneyFine(s, bid) && s.sweep.Paying? && s.sweep.pending != []
    ensures MoneyFine(ApplyRefund(s, RecordRefund), bid)
  {
    var head, stage := s.sweep.pending[0], s.sweep.stage;
    if stage.Accepted? {
      var row := Row(head, REFUND, SUCCESS, stage.gatewayId, stage.amount);
      CountAppend(s.db.ledger, [row], bid, RefundsMade);
      CountOne(row, bid, RefundsMade);
    } else if stage.Declined? {
      NoRefundRows(s.db, [Row(head, REFUND, UNSUCCESSFUL, stage.payment, stage.amount)], bid);
    }
  }

  lemma RefundKeepsMoney(owner: map<Id, Id>, s: State, a: Action, bid: Id)
    requires MoneyFine(s, bid) && Respects(owner, s, a, RefundCommits)
    ensures MoneyFine(ApplyRefund(s, a), bid)
  {
    if s.sweep.Paying? && s.sweep.pending != [] && a.RecordRefund? {
      RecordKeepsMoney(s, bid);
    }
  }

  lemma JobKeepsMoney(s: State, a: Action, bid: Id)
    requires MoneyFine(s, bid)
    ensures MoneyFine(s.(db := ApplyJob(s.db, a)), bid)
  {}

  lemma StepKeepsMoney(owner: map<Id, Id>, s: State, a: Action, bid: Id)
    requires LedgerInv(owner, s) && MoneyFine(s, bid) && forall h | h in ALL_ASSUMPTIONS :: Respects(owner, s, a, h)
    ensures MoneyFine(Apply(s, a), bid)
  {
    hide MoneyFine, LedgerInv;
    assert Respects(owner, s, a, RefundCommits);
    WebhookKeepsMoney(owner, s, a, bid);
    SweepKeepsMoney(owner, s, a, bid);
    RefundKeepsMoney(owner, s, a, bid);
    JobKeepsMoney(s, a, bid);
  }

  lemma {:induction false} RunKeepsMoney(owner: map<Id, Id>, s: State, acts: seq<Action>, bid: Id)
    requires LedgerInv(owner, s) && MoneyFine(s, bid) && RunRespects(owner, s, acts, ALL_ASSUMPTIONS)
    ensures LedgerInv(owner, Run(s, acts)) && MoneyFine(Run(s, acts), bid)
    decreases |acts|
  {
    if acts != [] {
      assert Respects(owner, s, acts[0], OwnIds);
      StepKeepsLedger(owner, s, acts[0]);
      StepKeepsMoney(owner, s, acts[0], bid);
      RunKeepsMoney(owner, Apply(s, acts[0]), acts[1..], bid);
    }
  }

  /** Rows of one tally that all carry `due`. */
  ghost predicate AllCarry(rows: seq<Row>, bid: Id, due: nat) {
    forall i | 0 <= i < |rows| :: rows[i].booking == bid && rows[i].state == SUCCESS ==> rows[i].amount == due
  }

  lemma {:induction false} SumBounds(rows: seq<Row>, bid: Id, what: Tally, due: nat)
    requires AllCarry(rows, bid, due) && what != AnyRow
    ensures Count(rows, bid, what) == 0 ==> Sum(rows, bid, what) == 0
    ensures Count(rows, bid, what) == 1 ==> Sum(rows, bid, what) == due
    ensures Count(rows, bid, what) >= 1 ==> Sum(rows, bid, what) >= due
  {
    if rows != [] {
      assert rows[0].booking == bid && rows[0].state == SUCCESS ==> rows[0].amount == due;
      assert AllCarry(rows[1..], bid, due) by {
        forall i | 0 <= i < |rows[1..]| ensures rows[1..][i].booking == bid && rows[1..][i].state == SUCCESS ==> rows[1..][i].amount == due {
          assert rows[1..][i] == rows[i + 1];
        }
      }
      SumBounds(rows[1..], bid, what, due);
    }
  }

  /** Money: in every run a booking is refunded at most once, at the gateway and in the ledger,
      only after it was paid for, and never more than was paid, even when the refund.processed
      webhook overtakes the refund transaction. */
  lemma RefundsNeverExceedPayments(owner: map<Id, Id>, s: State, acts: seq<Action>, bid: Id)
    requires Init(s) && RunRespects(owner, s, acts, ALL_ASSUMPTIONS)
    ensures var t := Run(s, acts);
      && Count(t.db.ledger, bid, RefundsMade) <= GatewayRefunds(t, bid) <= 1
      && (GatewayRefunds(t, bid) == 1 ==> Count(t.db.ledger, bid, PaymentsMade) >= 1)
      && Sum(t.db.ledger, bid, RefundsMade) <= Sum(t.db.ledger, bid, PaymentsMade)
  {
    InitFine(owner, s);
    RunKeepsMoney(owner, s, acts, bid);
    var t := Run(s, acts);
    if bid in t.db.bookings {
      FactsOf(owner, t, bid);
      RowsCarryDue(owner, t, bid);
      SumBounds(t.db.ledger, bid, RefundsMade, t.db.bookings[bid].Due());
      SumBounds(t.db.ledger, bid, PaymentsMade, t.db.bookings[bid].Due());
    } else {
      NoRowsAtAll(owner, t, bid);
    }
  }

  lemma RowsCarryDue(owner: map<Id, Id>, s: State, bid: Id)
    requires LedgerInv(owner, s) && bid in s.db.bookings
    ensures AllCarry(s.db.ledger, bid, s.db.bookings[bid].Due())
  {
    forall i | 0 <= i < |s.db.ledger|
      ensures s.db.ledger[i].booking == bid && s.db.ledger[i].state == SUCCESS ==> s.db.ledger[i].amount == s.db.bookings[bid].Due()
    {
      assert RowFine(owner, s.db, s.db.ledger[i]);
    }
  }

  lemma NoRowsAtAll(owner: map<Id, Id>, s: State, bid: Id)
    requires LedgerInv(owner, s) && bid !in s.db.bookings
    ensures Sum(s.db.ledger, bid, RefundsMade) == 0 == Sum(s.db.ledger, bid, PaymentsMade)
  {
    forall i | 0 <= i < |s.db.ledger| ensures s.db.ledger[i].booking != bid {
      assert RowFine(owner, s.db, s.db.ledger[i]);
    }
    NoneToSum(s.db.ledger, bid, RefundsMade);
    NoneToSum(s.db.ledger, bid, PaymentsMade);
  }

  lemma {:induction false} NoneToSum(rows: seq<Row>, bid: Id, what: Tally)
    requires forall i | 0 <= i < |rows| :: rows[i].booking != bid
    ensures Sum(rows, bid, what) == 0
  {
    if rows != [] { NoneToSum(rows[1..], bid, what); }
  }

  /** What the ledger records against what the customer was charged: in every run, the recorded
      payment of a CONFIRMED booking is the amount its order charges exactly when a discount was
      applied or the final amount happens to equal the total.  A booking nobody discounted, whose
      final amount was left at its default of zero, is charged in full and recorded at nothing. */
  lemma RecordedIsChargedExactlyWhen(owner: map<Id, Id>, s: State, acts: seq<Action>, bid: Id)
    requires Init(s) && RunRespects(owner, s, acts, {OwnIds})
    requires bid in Run(s, acts).db.bookings && Run(s, acts).db.bookings[bid].status == CONFIRMED
    ensures var t := Run(s, acts);
            var b := t.db.bookings[bid];
            Sum(t.db.ledger, bid, PaymentsMade) == b.Charged() <==> b.discountPaise > 0 || b.finalPaise == b.totalPaise
  {
    RunKeepsLedger(owner, s, acts, {OwnIds});
    var t := Run(s, acts);
    hide Run, RunRespects, LedgerInv;
    FactsOf(owner, t, bid);
    RowsCarryDue(owner, t, bid);
    SumBounds(t.db.ledger, bid, PaymentsMade, t.db.bookings[bid].Due());
  }
}
