/** What a customer may rely on, over whole runs and whatever interleaves: a payment taken in is on
    the ledger for good, and REFUNDED means that money went back. */
module PaymentPromises {
  import opened Outcomes
  import opened Lifecycle
  import opened Payments

  // ---------------------------------------------------------------- payments stay on the ledger

  lemma StepGrowsLedger(s: State, a: Action)
    ensures s.db.ledger <= Apply(s, a).db.ledger
  {
    hide Recorded, HasPaid, StaleOf, Next, GatewayRefunds;
  }

  lemma {:induction false} LedgerOnlyGrows(s: State, acts: seq<Action>)
    ensures s.db.ledger <= Run(s, acts).db.ledger
    decreases |acts|
  {
    hide Apply;
    if acts != [] {
      StepGrowsLedger(s, acts[0]);
      LedgerOnlyGrows(Apply(s, acts[0]), acts[1..]);
    }
  }

  /** A captured payment of a booking still waiting for it, or already EXPIRED, is on the ledger
      from then on, with the booking's final amount; for the EXPIRED one so is the refund that is due. */
  lemma CapturedPaymentIsRecorded(s: State, d: Id, after: seq<Action>)
    requires d in s.open && s.open[d].bid in s.db.bookings
    requires s.db.bookings[s.open[d].bid].tenant == s.open[d].tenant
    requires s.db.bookings[s.open[d].bid].status in {LOCKED, PAYMENT_IN_PROGRESS, EXPIRED}
    ensures var bid, payment, b := s.open[d].bid, s.open[d].payment, s.db.bookings[s.open[d].bid];
            var ledger := Run(Apply(s, Process(d)), after).db.ledger;
            && |ledger| > |s.db.ledger| && ledger[|s.db.ledger|] == Row(bid, PAYMENT, SUCCESS, payment, b.finalPaise)
            && HasPaid(Run(Apply(s, Process(d)), after).db, bid)
            && (b.status == EXPIRED ==>
                  |ledger| > |s.db.ledger| + 1 && ledger[|s.db.ledger| + 1] == Row(bid, REFUND, INITIATED, payment, b.finalPaise))
  {
    hide Run;
    LedgerOnlyGrows(Apply(s, Process(d)), after);
    var n := |s.db.ledger|;
    var t := Apply(s, Process(d)).db.ledger;
    assert |t| > n && Run(Apply(s, Process(d)), after).db.ledger[n] == t[n];
  }

  predicate LookedFaithfully(s: State) {
    s.sweep.Reconciling? && s.sweep.at.Looked? && s.sweep.at.recorded ==> Recorded(s.db, s.sweep.at.found)
  }

  lemma StaysRecorded(db: DB, db': DB, payment: Id)
    requires Recorded(db, payment) && db.ledger <= db'.ledger
    ensures Recorded(db', payment)
  {
    var i :| 0 <= i < |db.ledger| && db.ledger[i].gatewayId == payment && db.ledger[i].state == SUCCESS;
    assert db'.ledger[i] == db.ledger[i];
  }

  lemma OthersDoNotLook(s: State, a: Action)
    ensures ApplyWebhook(s, a).sweep == s.sweep
    ensures ApplyRefund(s, a).sweep == s.sweep || ApplyRefund(s, a).sweep.Paying?
  {
    hide Captured, RefundSettled, RefundRejected, GatewayRefunds;
  }

  lemma LookUpLooks(s: State, a: Action)
    ensures var was, now := s.sweep, ApplySweep(s, a).sweep;
            now.Reconciling? && now.at.Looked? ==>
              (was.Reconciling? && now.at == was.at) || now.at.recorded == Recorded(s.db, now.at.found)
  {
    hide Recorded, SettleHead, StaleOf;
  }

  lemma StepLooksFaithfully(s: State, a: Action)
    requires LookedFaithfully(s)
    ensures LookedFaithfully(Apply(s, a))
  {
    hide Recorded, ApplyWebhook, ApplyRefund, ApplySweep, ApplyJob;
    StepGrowsLedger(s, a);
    OthersDoNotLook(s, a);
    LookUpLooks(s, a);
    var t := Apply(s, a);
    if t.sweep.Reconciling? && t.sweep.at.Looked? && t.sweep.at.recorded {
      StaysRecorded(s.db, t.db, t.sweep.at.found);
    }
  }

  lemma {:induction false} RunLooksFaithfully(s: State, acts: seq<Action>)
    requires LookedFaithfully(s)
    ensures LookedFaithfully(Run(s, acts))
    decreases |acts|
  {
    hide Apply, LookedFaithfully;
    if acts != [] {
      StepLooksFaithfully(s, acts[0]);
      RunLooksFaithfully(Apply(s, acts[0]), acts[1..]);
    }
  }

  /** Every payment the sweep finds captured for a booking that is still waiting for it, or gave up
      on it, is on the ledger once that booking is settled, and stays there. */
  lemma SweptPaymentIsRecorded(s: State, before: seq<Action>, after: seq<Action>)
    requires Init(s)
    requires var t := Run(s, before);
      && ReadyToSettle(t) && t.sweep.at.Looked? && t.sweep.todo[0].orderId.Some? && t.sweep.todo[0].bid in t.db.bookings
      && t.db.bookings[t.sweep.todo[0].bid].status in {PAYMENT_IN_PROGRESS, EXPIRED, CANCELLED, FAILED}
    ensures var t := Run(s, before);
      exists row | row in Run(Apply(t, Settle), after).db.ledger :: row.gatewayId == t.sweep.at.found && row.state == SUCCESS
  {
    RunLooksFaithfully(s, before);
    var t := Run(s, before);
    hide Run;
    var p := t.sweep.at.found;
    SettledIsRecorded(t);
    LedgerOnlyGrows(Apply(t, Settle), after);
    var end := Run(Apply(t, Settle), after).db;
    StaysRecorded(Apply(t, Settle).db, end, p);
    var i :| 0 <= i < |end.ledger| && end.ledger[i].gatewayId == p && end.ledger[i].state == SUCCESS;
    assert end.ledger[i] in end.ledger;
  }

  lemma SettledIsRecorded(t: State)
    requires LookedFaithfully(t)
    requires ReadyToSettle(t) && t.sweep.at.Looked? && t.sweep.todo[0].orderId.Some? && t.sweep.todo[0].bid in t.db.bookings
    requires t.db.bookings[t.sweep.todo[0].bid].status in {PAYMENT_IN_PROGRESS, EXPIRED, CANCELLED, FAILED}
    ensures Recorded(Apply(t, Settle).db, t.sweep.at.found)
  {
    var end := Apply(t, Settle).db;
    var p := t.sweep.at.found;
    StepGrowsLedger(t, Settle);
    if t.sweep.at.recorded {
      StaysRecorded(t.db, end, p);
    } else {
      assert end.ledger[|t.db.ledger|] == PaidRow(t.sweep.todo[0].bid, p, t.sweep.todo[0].finalPaise);
    }
  }

  // ---------------------------------------------------------------- REFUNDED means refunded

  /** A refund.processed webhook was written for the booking. */
  predicate Hooked(s: State, acts: seq<Action>, bid: Id)
    decreases |acts|
  {
    acts != [] &&
    ((acts[0].RefundProcessedWrite? && acts[0].d in s.refundedHooks && s.refundedHooks[acts[0].d] == bid)
     || Hooked(Apply(s, acts[0]), acts[1..], bid))
  }

  predicate IsRefunded(db: DB, bid: Id) { bid in db.bookings && db.bookings[bid].status == REFUNDED }

  /** A refund the gateway accepted was made, and so was that of a REFUNDED booking nobody else
      vouches for. */
  predicate Backed(s: State, bid: Id, vouched: bool) {
    && (IsRefunded(s.db, bid) ==> vouched || GatewayRefunds(s, bid) >= 1)
    && (s.sweep.Paying? && s.sweep.pending != [] && s.sweep.pending[0] == bid && s.sweep.stage.Accepted? ==> GatewayRefunds(s, bid) >= 1)
  }

  lemma WebhookKeepsBacked(s: State, a: Action, bid: Id, vouched: bool)
    requires Backed(s, bid, vouched)
    ensures Backed(ApplyWebhook(s, a), bid, vouched || (a.RefundProcessedWrite? && a.d in s.refundedHooks && s.refundedHooks[a.d] == bid))
  {}

  lemma SweepKeepsBacked(s: State, a: Action, bid: Id, vouched: bool)
    requires Backed(s, bid, vouched)
    ensures Backed(ApplySweep(s, a), bid, vouched)
  {
    hide StaleOf, Recorded;
  }

  lemma RefundKeepsBacked(s: State, a: Action, bid: Id, vouched: bool)
    requires Backed(s, bid, vouched)
    ensures Backed(ApplyRefund(s, a), bid, vouched)
  {}

  lemma JobKeepsBacked(s: State, a: Action, bid: Id, vouched: bool)
    requires Backed(s, bid, vouched)
    ensures Backed(s.(db := ApplyJob(s.db, a)), bid, vouched)
  {
    hide HasPaid;
  }

  lemma {:induction false} RunKeepsBacked(s: State, acts: seq<Action>, bid: Id, vouched: bool)
    requires Backed(s, bid, vouched)
    ensures Backed(Run(s, acts), bid, vouched || Hooked(s, acts, bid))
    decreases |acts|
  {
    hide Backed, ApplyWebhook, ApplySweep, ApplyRefund, ApplyJob;
    if acts != [] {
      var a := acts[0];
      WebhookKeepsBacked(s, a, bid, vouched);
      SweepKeepsBacked(s, a, bid, vouched);
      RefundKeepsBacked(s, a, bid, vouched);
      JobKeepsBacked(s, a, bid, vouched);
      var more := vouched || (a.RefundProcessedWrite? && a.d in s.refundedHooks && s.refundedHooks[a.d] == bid);
      RunKeepsBacked(Apply(s, a), acts[1..], bid, more);
    }
  }

  /** In every run, with no assumption at all, a booking is REFUNDED only if the gateway made its
      refund or a refund.processed webhook said so. */
  lemma RefundedMeansRefunded(s: State, acts: seq<Action>, bid: Id)
    requires Init(s)
    ensures var t := Run(s, acts);
            bid in t.db.bookings && t.db.bookings[bid].status == REFUNDED ==> GatewayRefunds(t, bid) >= 1 || Hooked(s, acts, bid)
  {
    hide Run, Hooked;
    RunKeepsBacked(s, acts, bid, false);
  }
}
