/** The payment services over their tables: webhook controller, processor, reconciliation worker
    and refund service.  Each call, uninterrupted, ends in the tables of a run of the interleaved
    protocol of module Payments. */
module PaymentService {
  import opened Outcomes
  import opened Lifecycle
  import opened Payments
  import opened Sequences

  /** What the gateway answers when the sweep asks for an order's payments. */
  datatype FetchReply = Unreachable | Payments(captured: Option<Id>)

  /** What the gateway answers to a refund request. */
  datatype RefundReply = Refunded(refundId: Option<Id>) | RefundError

  datatype WebhookError = MissingTenant | ProcessingFailed(reason: PaymentError)
  datatype WebhookOutcome = Duplicate | Processed | RolledBack

  /** Nothing in flight. */
  function Quiet(db: DB, seen: set<Id>): State { State(db, seen, map[], map[], map[], Idle, map[]) }

  // ---------------------------------------------------------------- the listings

  const LISTED := 50
  const STALE_MS := 10 * 60 * 1000

  function Created(db: DB): map<Id, int> { map b | b in db.bookings :: db.bookings[b].created }

  function StaleSet(db: DB, now: int): set<Id> {
    set b | b in db.bookings && db.bookings[b].status == PAYMENT_IN_PROGRESS && db.bookings[b].created < now - STALE_MS
  }

  function PendingSet(db: DB): set<Id> { set b | b in db.bookings && db.bookings[b].status == REFUND_INITIATED }

  /** The oldest bookings stuck in PAYMENT_IN_PROGRESS for more than ten minutes. */
  predicate StaleListing(db: DB, now: int, ids: seq<Id>) { Oldest(Created(db), StaleSet(db, now), LISTED, ids) }

  /** The oldest bookings waiting for their refund. */
  predicate PendingListing(db: DB, ids: seq<Id>) { Oldest(Created(db), PendingSet(db), LISTED, ids) }

  /** At most fifty bookings, each once, oldest first, none of the others that qualify older; all
      of them when fewer are listed. */
  ghost predicate OldestFifty(db: DB, due: set<Id>, ids: seq<Id>) {
    && |ids| <= 50 && Distinct(ids) && (forall b | b in ids :: b in due)
    && (forall i, j | 0 <= i < j < |ids| && ids[i] in db.bookings && ids[j] in db.bookings :: db.bookings[ids[i]].created <= db.bookings[ids[j]].created)
    && (forall x, y | x in ids && y in due && y !in ids && x in db.bookings && y in db.bookings :: db.bookings[x].created <= db.bookings[y].created)
    && (|ids| < 50 ==> forall y | y in due :: y in ids)
  }

  lemma ListingMeans(db: DB, due: set<Id>, ids: seq<Id>)
    requires due <= db.bookings.Keys && Oldest(Created(db), due, 50, ids)
    ensures OldestFifty(db, due, ids)
  {
    assert forall b :: b in SetOf(ids) <==> b in ids;
  }

  // ---------------------------------------------------------------- what one call does to the tables

  function Reply(replies: map<Id, FetchReply>, bid: Id): FetchReply { if bid in replies then replies[bid] else Unreachable }

  function RefundAnswer(replies: map<Id, RefundReply>, bid: Id): RefundReply { if bid in replies then replies[bid] else RefundError }

  /** One booking of the sweep. */
  function ReconcileOne(db: DB, st: Stale, reply: FetchReply): DB {
    if st.orderId.None? then SettleHead(db, st, Fetching)
    else match reply
      case Unreachable => db
      case Payments(None) => SettleHead(db, st, Fetched(None))
      case Payments(Some(p)) => SettleHead(db, st, Looked(p, Recorded(db, p)))
  }

  function ReconcileAll(db: DB, todo: seq<Stale>, replies: map<Id, FetchReply>): DB {
    if todo == [] then db
    else
      var init, last := todo[..|todo| - 1], todo[|todo| - 1];
      ReconcileOne(ReconcileAll(db, init, replies), last, Reply(replies, last.bid))
  }

  predicate Eligible(db: DB, bid: Id) {
    bid in db.bookings && db.bookings[bid].paymentId.Some? && db.bookings[bid].status == REFUND_INITIATED
  }

  /** One processRefund call for a booking of its own tenant. */
  function RefundOne(db: DB, bid: Id, reply: RefundReply): DB {
    if Eligible(db, bid) then
      var payment, amount := db.bookings[bid].paymentId.value, db.bookings[bid].Due();
      match reply
      case Refunded(refundId) => RefundSettled(db, bid, if refundId.Some? then refundId.value else payment, amount)
      case RefundError => RefundRejected(db, bid, payment, amount)
    else db
  }

  function RefundAll(db: DB, pending: seq<Id>, replies: map<Id, RefundReply>): DB {
    if pending == [] then db
    else
      var init, bid := pending[..|pending| - 1], pending[|pending| - 1];
      RefundOne(RefundAll(db, init, replies), bid, RefundAnswer(replies, bid))
  }

  // ---------------------------------------------------------------- the calls as runs of the protocol

  /** The payment.captured case; `commits` is whether the outer transaction does. */
  function CapturedScript(event: Id, bid: Id, payment: Id, tenant: Option<Id>, commits: bool): seq<Action> {
    if tenant.None? then []
    else [Open("hook", Delivery(event, bid, payment, tenant.value)), Process("hook"), if commits then Commit("hook") else Rollback("hook")]
  }

  function RefundedScript(bid: Option<Id>): seq<Action> {
    if bid.None? then [] else [RefundProcessedRead("hook", bid.value), RefundProcessedWrite("hook")]
  }

  function FailedScript(bid: Option<Id>): seq<Action> {
    if bid.None? then [] else [RefundFailedRead("hook", bid.value), RefundFailedWrite("hook")]
  }

  function ReconcileSteps(st: Stale, reply: FetchReply): seq<Action> {
    if st.orderId.None? then [Settle]
    else match reply
      case Unreachable => [FetchFails]
      case Payments(None) => [Fetch(None), Settle]
      case Payments(Some(p)) => [Fetch(Some(p)), LookUp, Settle]
  }

  function ReconcileScript(todo: seq<Stale>, replies: map<Id, FetchReply>): seq<Action> {
    if todo == [] then []
    else
      var init, last := todo[..|todo| - 1], todo[|todo| - 1];
      ReconcileScript(init, replies) + ReconcileSteps(last, Reply(replies, last.bid))
  }

  function RefundSteps(reply: RefundReply): seq<Action> {
    [ReadRefund, if reply.Refunded? then GatewayAccepts(reply.refundId) else GatewayDeclines, RecordRefund]
  }

  function RefundScript(pending: seq<Id>, replies: map<Id, RefundReply>): seq<Action> {
    if pending == [] then []
    else
      var init, bid := pending[..|pending| - 1], pending[|pending| - 1];
      RefundScript(init, replies) + RefundSteps(RefundAnswer(replies, bid))
  }

  /** One whole sweep: list, reconcile one by one, list the refunds, refund one by one. */
  function SweepScript(stale: seq<Id>, todo: seq<Stale>, replies: map<Id, FetchReply>, pending: seq<Id>, refundReplies: map<Id, RefundReply>): seq<Action> {
    [StartSweep(stale)] + (ReconcileScript(todo, replies) + ([StartRefunds(pending)] + (RefundScript(pending, refundReplies) + [EndSweep])))
  }

  lemma {:induction false} RunConcat(s: State, xs: seq<Action>, ys: seq<Action>)
    ensures Run(s, xs + ys) == Run(Run(s, xs), ys)
    decreases |xs|
  {
    hide Apply;
    if xs == [] {
      assert xs + ys == ys;
    } else {
      assert (xs + ys)[1..] == xs[1..] + ys;
      RunConcat(Apply(s, xs[0]), xs[1..], ys);
    }
  }

  lemma RunOne(s: State, a: Action)
    ensures Run(s, [a]) == Apply(s, a)
  {
    hide Apply;
    assert [a][1..] == [];
    assert Run(Apply(s, a), []) == Apply(s, a);
  }

  lemma RunTwo(s: State, a: Action, b: Action)
    ensures Run(s, [a, b]) == Apply(Apply(s, a), b)
  {
    hide Apply;
    assert [a, b] == [a] + [b];
    RunConcat(s, [a], [b]);
    RunOne(s, a);
    RunOne(Apply(s, a), b);
  }

  lemma RunThree(s: State, a: Action, b: Action, c: Action)
    ensures Run(s, [a, b, c]) == Apply(Apply(Apply(s, a), b), c)
  {
    hide Apply;
    assert [a, b, c] == [a, b] + [c];
    RunConcat(s, [a, b], [c]);
    RunTwo(s, a, b);
    RunOne(Apply(Apply(s, a), b), c);
  }

  /** The webhook's three steps: nothing for a repeated event or a missing tenant, the processor's
      work even when the outer transaction rolls back, the event id only when it commits. */
  lemma CapturedIsRun(db: DB, seen: set<Id>, event: Id, bid: Id, payment: Id, tenant: Option<Id>, commits: bool)
    ensures Run(Quiet(db, seen), CapturedScript(event, bid, payment, tenant, commits)) ==
            if event in seen || tenant.None? then Quiet(db, seen)
            else match Captured(db, bid, payment, tenant.value)
              case Err(_) => Quiet(db, seen)
              case Ok(after) => Quiet(after, seen + if commits then {event} else {})
  {
    hide Run, Captured;
    if tenant.None? {
      assert Run(Quiet(db, seen), []) == Quiet(db, seen) by { RunNothing(Quiet(db, seen)); }
    } else {
      var del := Delivery(event, bid, payment, tenant.value);
      RunThree(Quiet(db, seen), Open("hook", del), Process("hook"), if commits then Commit("hook") else Rollback("hook"));
      assert map["hook" := del] - {"hook"} == map[];
      var none: map<Id, Delivery> := map[];
      assert none - {"hook"} == none;
    }
  }

  lemma RunNothing(s: State)
    ensures Run(s, []) == s
  {}

  lemma RefundedIsRun(db: DB, seen: set<Id>, bid: Id)
    requires bid in db.bookings && db.bookings[bid].paymentId.Some?
    ensures Run(Quiet(db, seen), RefundedScript(Some(bid))) == Quiet(Moved(db, bid, REFUND_INITIATED, REFUNDED), seen)
  {
    hide Run;
    RunTwo(Quiet(db, seen), RefundProcessedRead("hook", bid), RefundProcessedWrite("hook"));
    assert map["hook" := bid] - {"hook"} == map[];
  }

  lemma FailedIsRun(db: DB, seen: set<Id>, bid: Id)
    requires bid in db.bookings && db.bookings[bid].paymentId.Some?
    ensures Run(Quiet(db, seen), FailedScript(Some(bid))) == Quiet(SetStatus(db, bid, REFUND_FAILED), seen)
  {
    hide Run;
    RunTwo(Quiet(db, seen), RefundFailedRead("hook", bid), RefundFailedWrite("hook"));
    assert map["hook" := bid] - {"hook"} == map[];
  }

  lemma SweepStep(s: State, a: Action)
    requires a.Fetch? || a.FetchFails? || a.LookUp? || a.Settle?
    ensures Apply(s, a) == ApplySweep(s, a)
  {}

  lemma SettleStep(s: State)
    requires ReadyToSettle(s)
    ensures ApplySweep(s, Settle) == Rest(s).(db := SettleHead(s.db, s.sweep.todo[0], s.sweep.at))
  {}

  lemma ReconcileOneIsRun(s: State, reply: FetchReply)
    requires s.sweep.Reconciling? && s.sweep.todo != [] && s.sweep.at == Fetching
    ensures Run(s, ReconcileSteps(s.sweep.todo[0], reply)) == Rest(s).(db := ReconcileOne(s.db, s.sweep.todo[0], reply))
  {
    hide Run, Apply, Recorded, SettleHead;
    var st := s.sweep.todo[0];
    SweepStep(s, Settle);
    SweepStep(s, FetchFails);
    if st.orderId.None? {
      RunOne(s, Settle);
      SettleStep(s);
    } else {
      match reply
      case Unreachable => RunOne(s, FetchFails);
      case Payments(captured) => FetchedIsRun(s, captured);
    }
  }

  lemma FetchedIsRun(s: State, captured: Option<Id>)
    requires s.sweep.Reconciling? && s.sweep.todo != [] && s.sweep.at == Fetching && s.sweep.todo[0].orderId.Some?
    ensures Run(s, ReconcileSteps(s.sweep.todo[0], Payments(captured))) == Rest(s).(db := ReconcileOne(s.db, s.sweep.todo[0], Payments(captured)))
  {
    hide Run, Apply, Recorded, SettleHead;
    SweepStep(s, Fetch(captured));
    var s1 := s.(sweep := s.sweep.(at := Fetched(captured)));
    if captured.None? {
      RunTwo(s, Fetch(None), Settle);
      SweepStep(s1, Settle);
      SettleStep(s1);
    } else {
      var p := captured.value;
      var s2 := s.(sweep := s.sweep.(at := Looked(p, Recorded(s.db, p))));
      RunThree(s, Fetch(Some(p)), LookUp, Settle);
      SweepStep(s1, LookUp);
      assert ApplySweep(s1, LookUp) == s2;
      SweepStep(s2, Settle);
      SettleStep(s2);
    }
  }

  lemma {:induction false} ReconcileAllIsRun(s: State, replies: map<Id, FetchReply>, n: nat)
    requires s.sweep.Reconciling? && s.sweep.at == Fetching && n <= |s.sweep.todo|
    ensures Run(s, ReconcileScript(s.sweep.todo[..n], replies)) ==
            s.(db := ReconcileAll(s.db, s.sweep.todo[..n], replies), sweep := Reconciling(s.sweep.todo[n..], Fetching))
    decreases n
  {
    hide Run, ReconcileOne, ReconcileSteps;
    var todo := s.sweep.todo;
    if n == 0 {
      RunNothing(s);
    } else {
      assert todo[..n][..n - 1] == todo[..n - 1] && todo[..n][n - 1] == todo[n - 1];
      ReconcileAllIsRun(s, replies, n - 1);
      var mid := Run(s, ReconcileScript(todo[..n - 1], replies));
      RunConcat(s, ReconcileScript(todo[..n - 1], replies), ReconcileSteps(todo[n - 1], Reply(replies, todo[n - 1].bid)));
      ReconcileOneIsRun(mid, Reply(replies, todo[n - 1].bid));
      assert todo[n - 1..][1..] == todo[n..];
    }
  }

  /** Equal but for the count of what the gateway has refunded. */
  predicate SameButGateway(s: State, t: State) { s.(gatewayRefunds := t.gatewayRefunds) == t }

  lemma RefundStep(s: State, a: Action)
    requires a.ReadRefund? || a.GatewayAccepts? || a.GatewayDeclines? || a.RecordRefund?
    ensures Apply(s, a) == ApplyRefund(s, a)
  {}

  /** The three steps for a booking whose refund is due. */
  lemma EligibleRefund(s: State, reply: RefundReply)
    requires s.sweep.Paying? && s.sweep.pending != [] && s.sweep.stage == Reading && Eligible(s.db, s.sweep.pending[0])
    ensures var asked := if reply.Refunded? then GatewayAccepts(reply.refundId) else GatewayDeclines;
            SameButGateway(ApplyRefund(ApplyRefund(ApplyRefund(s, ReadRefund), asked), RecordRefund),
                           RestRefunds(s).(db := RefundOne(s.db, s.sweep.pending[0], reply)))
  {
    hide RefundSettled, RefundRejected;
    var b := s.db.bookings[s.sweep.pending[0]];
    var s1 := ApplyRefund(s, ReadRefund);
    assert s1 == s.(sweep := Paying(s.sweep.pending, Calling(b.paymentId.value, b.Due())));
    if reply.Refunded? {
      var id := if reply.refundId.Some? then reply.refundId.value else b.paymentId.value;
      var s2 := ApplyRefund(s1, GatewayAccepts(reply.refundId));
      assert s2.sweep == Paying(s.sweep.pending, Accepted(id, b.Due())) && s2.db == s.db;
    } else {
      assert ApplyRefund(s1, GatewayDeclines).sweep == Paying(s.sweep.pending, Declined(b.paymentId.value, b.Due()));
    }
  }

  /** And for one whose refund is not: a gateway answer nobody asked for does nothing. */
  lemma SkippedRefund(s: State, reply: RefundReply)
    requires s.sweep.Paying? && s.sweep.pending != [] && s.sweep.stage == Reading && !Eligible(s.db, s.sweep.pending[0])
    ensures var asked := if reply.Refunded? then GatewayAccepts(reply.refundId) else GatewayDeclines;
            ApplyRefund(ApplyRefund(ApplyRefund(s, ReadRefund), asked), RecordRefund) == RestRefunds(s)
  {
    assert ApplyRefund(s, ReadRefund) == RestRefunds(s);
  }

  lemma RefundOneIsRun(s: State, reply: RefundReply)
    requires s.sweep.Paying? && s.sweep.pending != [] && s.sweep.stage == Reading
    ensures SameButGateway(Run(s, RefundSteps(reply)), RestRefunds(s).(db := RefundOne(s.db, s.sweep.pending[0], reply)))
  {
    hide Run, Apply, ApplyRefund;
    var asked := if reply.Refunded? then GatewayAccepts(reply.refundId) else GatewayDeclines;
    RunThree(s, ReadRefund, asked, RecordRefund);
    RefundStep(s, ReadRefund);
    RefundStep(ApplyRefund(s, ReadRefund), asked);
    RefundStep(ApplyRefund(ApplyRefund(s, ReadRefund), asked), RecordRefund);
    if Eligible(s.db, s.sweep.pending[0]) {
      EligibleRefund(s, reply);
    } else {
      SkippedRefund(s, reply);
    }
  }

  lemma {:induction false} RefundAllIsRun(s: State, replies: map<Id, RefundReply>, n: nat)
    requires s.sweep.Paying? && s.sweep.stage == Reading && n <= |s.sweep.pending|
    ensures SameButGateway(Run(s, RefundScript(s.sweep.pending[..n], replies)),
                           s.(db := RefundAll(s.db, s.sweep.pending[..n], replies), sweep := Paying(s.sweep.pending[n..], Reading)))
    decreases n
  {
    hide Run, RefundOne, RefundSteps;
    var pending := s.sweep.pending;
    if n == 0 {
      RunNothing(s);
    } else {
      assert pending[..n][..n - 1] == pending[..n - 1] && pending[..n][n - 1] == pending[n - 1];
      RefundAllIsRun(s, replies, n - 1);
      var mid := Run(s, RefundScript(pending[..n - 1], replies));
      RunConcat(s, RefundScript(pending[..n - 1], replies), RefundSteps(RefundAnswer(replies, pending[n - 1])));
      RefundOneIsRun(mid, RefundAnswer(replies, pending[n - 1]));
      assert pending[n - 1..][1..] == pending[n..];
    }
  }

  predicate AllHave(db: DB, ids: seq<Id>, status: Status) {
    forall b | b in ids :: b in db.bookings && db.bookings[b].status == status
  }

  /** A sweep nobody interferes with is a run of the protocol, whatever the gateway answers. */
  lemma SweepIsRun(db: DB, seen: set<Id>, stale: seq<Id>, replies: map<Id, FetchReply>, pending: seq<Id>, refundReplies: map<Id, RefundReply>)
    requires stale != [] && AllHave(db, stale, PAYMENT_IN_PROGRESS)
    requires AllHave(ReconcileAll(db, StaleOf(db, stale), replies), pending, REFUND_INITIATED)
    ensures SameButGateway(Run(Quiet(db, seen), SweepScript(stale, StaleOf(db, stale), replies, pending, refundReplies)),
                           Quiet(RefundAll(ReconcileAll(db, StaleOf(db, stale), replies), pending, refundReplies), seen))
  {
    hide Run, ReconcileAll, RefundAll, ReconcileScript, RefundScript, StaleOf;
    var todo := StaleOf(db, stale);
    var s0 := Quiet(db, seen);
    var rest2 := RefundScript(pending, refundReplies) + [EndSweep];
    var rest1 := ReconcileScript(todo, replies) + ([StartRefunds(pending)] + rest2);
    RunConcat(s0, [StartSweep(stale)], rest1);
    RunOne(s0, StartSweep(stale));
    var s1 := s0.(sweep := Reconciling(todo, Fetching));
    assert Apply(s0, StartSweep(stale)) == s1;
    RunConcat(s1, ReconcileScript(todo, replies), [StartRefunds(pending)] + rest2);
    ReconcileAllIsRun(s1, replies, |todo|);
    assert todo[..|todo|] == todo && todo[|todo|..] == [];
    var s2 := s1.(db := ReconcileAll(db, todo, replies), sweep := Reconciling([], Fetching));
    RunConcat(s2, [StartRefunds(pending)], rest2);
    RunOne(s2, StartRefunds(pending));
    RefundsAreRun(s2.(sweep := Paying(pending, Reading)), refundReplies);
  }

  lemma RefundsAreRun(s: State, replies: map<Id, RefundReply>)
    requires s.sweep.Paying? && s.sweep.stage == Reading
    ensures SameButGateway(Run(s, RefundScript(s.sweep.pending, replies) + [EndSweep]),
                           s.(db := RefundAll(s.db, s.sweep.pending, replies), sweep := Idle))
  {
    hide Run, RefundAll, RefundScript;
    var pending := s.sweep.pending;
    RunConcat(s, RefundScript(pending, replies), [EndSweep]);
    RefundAllIsRun(s, replies, |pending|);
    assert pending[..|pending|] == pending && pending[|pending|..] == [];
    RunOne(Run(s, RefundScript(pending, replies)), EndSweep);
  }

  // ---------------------------------------------------------------- what a sweep leaves behind

  /** The ledger rows of one booking, in order. */
  function RowsOf(rows: seq<Row>, bid: Id): seq<Row> {
    if rows == [] then []
    else
      var n := |rows| - 1;
      if rows[n].booking == bid then RowsOf(rows[..n], bid) + [rows[n]] else RowsOf(rows[..n], bid)
  }

  lemma OneRowMore(rows: seq<Row>, row: Row, bid: Id)
    ensures RowsOf(rows + [row], bid) == if row.booking == bid then RowsOf(rows, bid) + [row] else RowsOf(rows, bid)
  {
    assert (rows + [row])[..|rows|] == rows;
  }

  /** Row and ledger rows of the booking are the same. */
  predicate Kept(bid: Id, was: DB, now: DB) {
    && (bid in was.bookings <==> bid in now.bookings)
    && (bid in was.bookings ==> now.bookings[bid] == was.bookings[bid])
    && RowsOf(now.ledger, bid) == RowsOf(was.ledger, bid)
  }

  /** A booking listed for its refund: left alone without a payment id, REFUNDED with one ledger row
      when the gateway refunds, REFUND_FAILED with one when it does not. */
  predicate RefundedAs(bid: Id, was: DB, now: DB, reply: RefundReply) {
    && bid in was.bookings && bid in now.bookings
    && var b, after, rows, rowsNow := was.bookings[bid], now.bookings[bid], RowsOf(was.ledger, bid), RowsOf(now.ledger, bid);
    if b.paymentId.None? then after == b && rowsNow == rows
    else match reply
      case Refunded(id) =>
        && after == b.(status := REFUNDED)
        && rowsNow == rows + [Row(bid, REFUND, SUCCESS, if id.Some? then id.value else b.paymentId.value, b.finalPaise)]
      case RefundError =>
        && after == b.(status := REFUND_FAILED)
        && rowsNow == rows + [Row(bid, REFUND, UNSUCCESSFUL, b.paymentId.value, b.finalPaise)]
  }

  /** A booking listed as stale: FAILED when nothing was captured or it has no order, left alone when
      the gateway cannot be reached, CONFIRMED when it was paid: with the payment's id and ledger
      row if that payment is new (`isNew`), without them if the ledger had it. */
  predicate ReconciledAs(bid: Id, was: DB, now: DB, reply: FetchReply, isNew: bool) {
    && bid in was.bookings && bid in now.bookings
    && var b, after, rows, rowsNow := was.bookings[bid], now.bookings[bid], RowsOf(was.ledger, bid), RowsOf(now.ledger, bid);
    if b.orderId.None? || reply == Payments(None) then after == b.(status := FAILED) && rowsNow == rows
    else if reply.Unreachable? then after == b && rowsNow == rows
    else
      var p := reply.captured.value;
      var known := exists k | 0 <= k < |was.ledger| :: was.ledger[k].gatewayId == p && was.ledger[k].state == SUCCESS;
      var synced := after == b.(status := CONFIRMED) && rowsNow == rows;
      var paid := after == b.(status := CONFIRMED, paymentId := Some(p)) && rowsNow == rows + [Row(bid, PAYMENT, SUCCESS, p, b.finalPaise)];
      (synced || paid) && (known ==> synced) && (isNew ==> paid)
  }

  /** What the gateway says was captured for the i-th booking is not in the ledger, and was not
      reported for any other booking of the list. */
  predicate FreshCapture(rows: seq<Row>, stale: seq<Id>, replies: map<Id, FetchReply>, i: nat)
    requires i < |stale|
  {
    var reply := Reply(replies, stale[i]);
    && reply.Payments? && reply.captured.Some?
    && (forall k | 0 <= k < |rows| :: !(rows[k].gatewayId == reply.captured.value && rows[k].state == SUCCESS))
    && (forall j | 0 <= j < |stale| && j != i :: Reply(replies, stale[j]) != reply)
  }

  /** The rows written since `start` record payments reported for the first n bookings. */
  predicate FromReplies(start: seq<Row>, rows: seq<Row>, stale: seq<Id>, replies: map<Id, FetchReply>, n: nat)
    requires n <= |stale|
  {
    && start <= rows
    && forall k | |start| <= k < |rows| :: exists j | 0 <= j < n :: Reply(replies, stale[j]) == Payments(Some(rows[k].gatewayId))
  }

  lemma FreshStaysUnknown(start: seq<Row>, rows: seq<Row>, stale: seq<Id>, replies: map<Id, FetchReply>, n: nat)
    requires n < |stale| && FromReplies(start, rows, stale, replies, n) && FreshCapture(start, stale, replies, n)
    ensures forall k | 0 <= k < |rows| :: !(rows[k].gatewayId == Reply(replies, stale[n]).captured.value && rows[k].state == SUCCESS)
  {
    forall k | 0 <= k < |rows| ensures !(rows[k].gatewayId == Reply(replies, stale[n]).captured.value && rows[k].state == SUCCESS) {
      if k >= |start| {
        var row := rows[k];
        var j :| 0 <= j < n && Reply(replies, stale[j]) == Payments(Some(row.gatewayId));
      }
    }
  }

  lemma OneReplyMore(start: seq<Row>, rows: seq<Row>, row: Row, stale: seq<Id>, replies: map<Id, FetchReply>, n: nat)
    requires n < |stale| && FromReplies(start, rows, stale, replies, n)
    ensures FromReplies(start, rows, stale, replies, n + 1)
    ensures Reply(replies, stale[n]) == Payments(Some(row.gatewayId)) ==> FromReplies(start, rows + [row], stale, replies, n + 1)
  {
    forall k | |start| <= k < |rows| ensures exists j | 0 <= j < n + 1 :: Reply(replies, stale[j]) == Payments(Some(rows[k].gatewayId)) {
      var j :| 0 <= j < n && Reply(replies, stale[j]) == Payments(Some(rows[k].gatewayId));
    }
    if Reply(replies, stale[n]) == Payments(Some(row.gatewayId)) {
      var more := rows + [row];
      forall k | |start| <= k < |more| ensures exists j | 0 <= j < n + 1 :: Reply(replies, stale[j]) == Payments(Some(more[k].gatewayId)) {
        if k < |rows| {
          var j :| 0 <= j < n + 1 && Reply(replies, stale[j]) == Payments(Some(rows[k].gatewayId));
        }
      }
    }
  }

  /** The first n refunds are made and nothing else has happened. */
  ghost predicate RefundedUpTo(was: DB, now: DB, pending: seq<Id>, replies: map<Id, RefundReply>, n: nat)
    requires n <= |pending|
  {
    && (forall j | 0 <= j < n :: RefundedAs(pending[j], was, now, RefundAnswer(replies, pending[j])))
    && forall b | b !in pending[..n] :: Kept(b, was, now)
  }

  lemma OneRefundMore(was: DB, mid: DB, now: DB, pending: seq<Id>, replies: map<Id, RefundReply>, n: nat)
    requires n < |pending| && Distinct(pending) && RefundedUpTo(was, mid, pending, replies, n)
    requires RefundedAs(pending[n], mid, now, RefundAnswer(replies, pending[n])) && forall b | b != pending[n] :: Kept(b, mid, now)
    ensures RefundedUpTo(was, now, pending, replies, n + 1)
  {
    hide RowsOf, RefundAnswer;
    forall b | b !in pending[..n + 1] ensures Kept(b, was, now) {
      assert b !in pending[..n] && b != pending[n] by { assert pending[..n + 1] == pending[..n] + [pending[n]]; }
      assert Kept(b, was, mid) && Kept(b, mid, now);
    }
    assert pending[n] !in pending[..n];
    assert Kept(pending[n], was, mid);
    forall j | 0 <= j < n + 1 ensures RefundedAs(pending[j], was, now, RefundAnswer(replies, pending[j])) {
      if j < n { assert Kept(pending[j], mid, now); }
    }
  }

  /** The first n stale bookings are reconciled and nothing else has happened. */
  ghost predicate ReconciledUpTo(was: DB, now: DB, stale: seq<Id>, replies: map<Id, FetchReply>, n: nat)
    requires n <= |stale|
  {
    && FromReplies(was.ledger, now.ledger, stale, replies, n)
    && (forall j | 0 <= j < n :: ReconciledAs(stale[j], was, now, Reply(replies, stale[j]), FreshCapture(was.ledger, stale, replies, j)))
    && forall b | b !in stale[..n] :: Kept(b, was, now)
  }

  lemma OneBookingMore(was: DB, mid: DB, now: DB, stale: seq<Id>, replies: map<Id, FetchReply>, n: nat)
    requires n < |stale| && Distinct(stale) && ReconciledUpTo(was, mid, stale, replies, n)
    requires FromReplies(was.ledger, now.ledger, stale, replies, n + 1)
    requires ReconciledAs(stale[n], mid, now, Reply(replies, stale[n]), FreshCapture(was.ledger, stale, replies, n))
    requires forall b | b != stale[n] :: Kept(b, mid, now)
    ensures ReconciledUpTo(was, now, stale, replies, n + 1)
  {
    hide RowsOf, Reply, FreshCapture, FromReplies;
    forall b | b !in stale[..n + 1] ensures Kept(b, was, now) {
      assert b !in stale[..n] && b != stale[n] by { assert stale[..n + 1] == stale[..n] + [stale[n]]; }
      assert Kept(b, was, mid) && Kept(b, mid, now);
    }
    assert stale[n] !in stale[..n];
    PrefixOfReplies(was.ledger, mid.ledger, stale, replies, n);
    LaterReconciled(stale[n], was, mid, now, Reply(replies, stale[n]), FreshCapture(was.ledger, stale, replies, n));
    forall j | 0 <= j < n ensures ReconciledAs(stale[j], was, now, Reply(replies, stale[j]), FreshCapture(was.ledger, stale, replies, j)) {
      assert Kept(stale[j], mid, now);
    }
  }

  lemma PrefixOfReplies(start: seq<Row>, rows: seq<Row>, stale: seq<Id>, replies: map<Id, FetchReply>, n: nat)
    requires n <= |stale| && FromReplies(start, rows, stale, replies, n)
    ensures start <= rows
  {}

  lemma LaterReconciled(bid: Id, was: DB, mid: DB, now: DB, reply: FetchReply, isNew: bool)
    requires Kept(bid, was, mid) && was.ledger <= mid.ledger && ReconciledAs(bid, mid, now, reply, isNew)
    ensures ReconciledAs(bid, was, now, reply, isNew)
  {
    hide RowsOf;
    if k :| 0 <= k < |was.ledger| && reply.Payments? && reply.captured.Some?
            && was.ledger[k].gatewayId == reply.captured.value && was.ledger[k].state == SUCCESS {
      assert mid.ledger[k] == was.ledger[k];
    }
  }

  class PaymentTables {
    var bookings: map<Id, Booking>
    var ledger: seq<Row>
    var seenEvents: set<Id>
    var isReconciling: bool

    function Tables(): DB
      reads this
    {
      DB(bookings, ledger)
    }

    constructor ()
      ensures Tables() == DB(map[], []) && seenEvents == {} && !isReconciling
    {
      bookings, ledger, seenEvents, isReconciling := map[], [], {}, false;
    }

    /** The processor's transaction; `requiresRefund` flags a payment for an expired booking.  The
        outcomes, status by status, and that they are the protocol's. */
    method ProcessPaymentSuccess(bid: Id, payment: Id, tenant: Id)
      returns (r: Result<bool, PaymentError>, confirmed: Option<Id>)
      modifies this`bookings, this`ledger
      ensures r == Err(BookingNotFound) <==> bid !in old(bookings)
      ensures r == Err(TenantMismatch) <==> bid in old(bookings) && old(bookings)[bid].tenant != tenant
      ensures r.Err? ==> bookings == old(bookings) && ledger == old(ledger)
      ensures r.Ok? && old(bookings)[bid].status in {LOCKED, PAYMENT_IN_PROGRESS} ==>
        && bookings == old(bookings)[bid := old(bookings)[bid].(status := CONFIRMED, paymentId := Some(payment))]
        && ledger == old(ledger) + [Row(bid, PAYMENT, SUCCESS, payment, old(bookings)[bid].finalPaise)]
        && r == Ok(false) && confirmed == Some(bid)
      ensures r.Ok? && old(bookings)[bid].status == EXPIRED ==>
        && bookings == old(bookings)
        && ledger == old(ledger) + [Row(bid, PAYMENT, SUCCESS, payment, old(bookings)[bid].finalPaise),
                                    Row(bid, REFUND, INITIATED, payment, old(bookings)[bid].finalPaise)]
        && r == Ok(true) && confirmed == None
      ensures r.Ok? && old(bookings)[bid].status !in {LOCKED, PAYMENT_IN_PROGRESS, EXPIRED} ==>
        bookings == old(bookings) && ledger == old(ledger) && r == Ok(false) && confirmed == None
      ensures match old(Captured(Tables(), bid, payment, tenant))
        case Ok(db) => r.Ok? && Tables() == db
        case Err(e) => r == Err(e) && Tables() == old(Tables())
    {
      confirmed := None;
      if bid !in bookings { return Err(BookingNotFound), None; }
      var b := bookings[bid];
      if b.tenant != tenant { return Err(TenantMismatch), None; }
      var requiresRefund := false;
      if b.status == PAYMENT_IN_PROGRESS || b.status == LOCKED {
        bookings := bookings[bid := b.(status := CONFIRMED, paymentId := Some(payment))];
        ledger := ledger + [PaidRow(bid, payment, b.Due())];
        confirmed := Some(bid);
      } else if b.status == EXPIRED {
        requiresRefund := true;
        ledger := ledger + PaidThenRefund(bid, payment, b.Due());
      }
      r := Ok(requiresRefund);
    }

    /** The payment.captured case, its event id new to the dedup table or not.  When the outer
        transaction does not commit the event id is forgotten, but the processor's work stays. */
    method HandleCaptured(event: Id, bid: Id, payment: Id, tenant: Option<Id>, commits: bool)
      returns (r: Result<WebhookOutcome, WebhookError>)
      modifies this
      ensures Quiet(Tables(), seenEvents) == Run(Quiet(old(Tables()), old(seenEvents)), CapturedScript(event, bid, payment, tenant, commits))
      ensures r == Ok(Duplicate) <==> old(event in seenEvents)
      ensures r == Err(MissingTenant) <==> old(event !in seenEvents) && tenant.None?
      ensures r == Err(ProcessingFailed(BookingNotFound)) <==> old(event !in seenEvents) && tenant.Some? && bid !in old(bookings)
      ensures r == Err(ProcessingFailed(TenantMismatch)) <==>
        old(event !in seenEvents) && tenant.Some? && bid in old(bookings) && Some(old(bookings)[bid].tenant) != tenant
      ensures r == Ok(Processed) ==> commits && seenEvents == old(seenEvents) + {event} && bid in old(bookings)
      ensures r == Ok(RolledBack) ==> !commits && seenEvents == old(seenEvents) && bid in old(bookings)
      ensures r.Err? || r == Ok(Duplicate) ==> bookings == old(bookings) && ledger == old(ledger) && seenEvents == old(seenEvents)
      ensures r in {Ok(Processed), Ok(RolledBack)} && old(bookings)[bid].status in {LOCKED, PAYMENT_IN_PROGRESS} ==>
        && bookings == old(bookings)[bid := old(bookings)[bid].(status := CONFIRMED, paymentId := Some(payment))]
        && ledger == old(ledger) + [Row(bid, PAYMENT, SUCCESS, payment, old(bookings)[bid].finalPaise)]
      ensures r in {Ok(Processed), Ok(RolledBack)} && old(bookings)[bid].status == EXPIRED ==>
        && bookings == old(bookings)
        && ledger == old(ledger) + [Row(bid, PAYMENT, SUCCESS, payment, old(bookings)[bid].finalPaise),
                                    Row(bid, REFUND, INITIATED, payment, old(bookings)[bid].finalPaise)]
      ensures r in {Ok(Processed), Ok(RolledBack)} && old(bookings)[bid].status !in {LOCKED, PAYMENT_IN_PROGRESS, EXPIRED} ==>
        bookings == old(bookings) && ledger == old(ledger)
      ensures isReconciling == old(isReconciling)
    {
      hide Run, CapturedScript, Captured;
      CapturedIsRun(Tables(), seenEvents, event, bid, payment, tenant, commits);
      if event in seenEvents { return Ok(Duplicate); }
      if tenant.None? { return Err(MissingTenant); }
      var result, _ := ProcessPaymentSuccess(bid, payment, tenant.value);
      if result.Err? { return Err(ProcessingFailed(result.error)); }
      if !commits { return Ok(RolledBack); }
      seenEvents := seenEvents + {event};
      return Ok(Processed);
    }

    /** `findFirst` by payment id; an empty or missing one finds nothing. */
    method FindByPayment(payment: Option<Id>) returns (bid: Option<Id>)
      ensures bid.Some? <==> Truthy(payment) && exists b | b in bookings :: bookings[b].paymentId == payment
      ensures bid.Some? ==> bid.value in bookings && bookings[bid.value].paymentId == payment
    {
      if Truthy(payment) && exists b | b in bookings :: bookings[b].paymentId == payment {
        var b :| b in bookings && bookings[b].paymentId == payment;
        return Some(b);
      }
      return None;
    }

    /** The refund.processed case: the booking the refund's payment belongs to. */
    method HandleRefundProcessed(payment: Option<Id>) returns (bid: Option<Id>)
      modifies this`bookings
      ensures bid.Some? <==> Truthy(payment) && exists b | b in old(bookings) :: old(bookings)[b].paymentId == payment
      ensures bid.Some? ==> bid.value in old(bookings) && old(bookings)[bid.value].paymentId == payment
      ensures Quiet(Tables(), seenEvents) == Run(Quiet(old(Tables()), seenEvents), RefundedScript(bid))
      ensures bookings.Keys == old(bookings).Keys
      ensures forall b | b in bookings && bookings[b] != old(bookings)[b] ::
                Some(b) == bid && old(bookings)[b].status == REFUND_INITIATED && bookings[b] == old(bookings)[b].(status := REFUNDED)
      ensures bid.Some? && old(bookings)[bid.value].status == REFUND_INITIATED ==> bookings[bid.value].status == REFUNDED
    {
      hide Run;
      bid := FindByPayment(payment);
      if bid.None? {
        RunNothing(Quiet(Tables(), seenEvents));
        return;
      }
      RefundedIsRun(Tables(), seenEvents, bid.value);
      if bookings[bid.value].status != REFUND_INITIATED { return; }
      bookings := bookings[bid.value := bookings[bid.value].(status := REFUNDED)];
    }

    /** The refund.failed case: whatever the status was. */
    method HandleRefundFailed(payment: Option<Id>) returns (bid: Option<Id>)
      modifies this`bookings
      ensures bid.Some? <==> Truthy(payment) && exists b | b in old(bookings) :: old(bookings)[b].paymentId == payment
      ensures bid.Some? ==> bid.value in old(bookings) && old(bookings)[bid.value].paymentId == payment
      ensures Quiet(Tables(), seenEvents) == Run(Quiet(old(Tables()), seenEvents), FailedScript(bid))
      ensures bookings.Keys == old(bookings).Keys && (forall b | b in bookings && bookings[b] != old(bookings)[b] :: Some(b) == bid)
      ensures bid.Some? ==> bookings[bid.value] == old(bookings)[bid.value].(status := REFUND_FAILED)
    {
      hide Run;
      bid := FindByPayment(payment);
      if bid.None? {
        RunNothing(Quiet(Tables(), seenEvents));
        return;
      }
      FailedIsRun(Tables(), seenEvents, bid.value);
      bookings := bookings[bid.value := bookings[bid.value].(status := REFUND_FAILED)];
    }

    /** One booking of the sweep: what the gateway's answer does to it, case by case. */
    method ReconcileBooking(st: Stale, reply: FetchReply)
      modifies this`bookings, this`ledger
      ensures bookings.Keys == old(bookings).Keys && forall b | b in bookings && b != st.bid :: bookings[b] == old(bookings)[b]
      ensures st.bid !in old(bookings) ==> ledger == old(ledger)
      ensures st.bid in old(bookings) && st.orderId.None? ==>
        bookings[st.bid] == old(bookings)[st.bid].(status := FAILED) && ledger == old(ledger)
      ensures st.bid in old(bookings) && st.orderId.Some? && reply.Unreachable? ==>
        bookings[st.bid] == old(bookings)[st.bid] && ledger == old(ledger)
      ensures st.bid in old(bookings) && st.orderId.Some? && reply == Payments(None) ==>
        var was := old(bookings)[st.bid];
        bookings[st.bid] == (if was.status == PAYMENT_IN_PROGRESS then was.(status := FAILED) else was) && ledger == old(ledger)
      ensures st.bid in old(bookings) && st.orderId.Some? && reply.Payments? && reply.captured.Some? ==>
        var was, p := old(bookings)[st.bid], reply.captured.value;
        var known := exists i | 0 <= i < |old(ledger)| :: old(ledger)[i].gatewayId == p && old(ledger)[i].state == SUCCESS;
        if known then
          bookings[st.bid] == (if was.status == PAYMENT_IN_PROGRESS then was.(status := CONFIRMED) else was) && ledger == old(ledger)
        else if was.status == PAYMENT_IN_PROGRESS then
          && bookings[st.bid] == was.(status := CONFIRMED, paymentId := Some(p))
          && ledger == old(ledger) + [Row(st.bid, PAYMENT, SUCCESS, p, st.finalPaise)]
        else if was.status in {EXPIRED, CANCELLED, FAILED} then
          && bookings[st.bid] == was.(status := REFUND_INITIATED, paymentId := Some(p))
          && ledger == old(ledger) + [Row(st.bid, PAYMENT, SUCCESS, p, st.finalPaise), Row(st.bid, REFUND, INITIATED, p, st.finalPaise)]
        else bookings[st.bid] == was && ledger == old(ledger)
      ensures Tables() == old(ReconcileOne(Tables(), st, reply))
      ensures Tables() == Run(Quiet(old(Tables()), {}).(sweep := Reconciling([st], Fetching)), ReconcileSteps(st, reply)).db
    {
      hide Run;
      ReconcileOneIsRun(Quiet(Tables(), {}).(sweep := Reconciling([st], Fetching)), reply);
      if st.orderId.None? {
        if st.bid in bookings { bookings := bookings[st.bid := bookings[st.bid].(status := FAILED)]; }
        return;
      }
      if reply.Unreachable? { return; }
      var status := if st.bid in bookings then Some(bookings[st.bid].status) else None;
      if reply.captured.Some? {
        var payment := reply.captured.value;
        var existing := exists i | 0 <= i < |ledger| :: ledger[i].gatewayId == payment && ledger[i].state == SUCCESS;
        if existing {
          if status == Some(PAYMENT_IN_PROGRESS) {
            bookings := bookings[st.bid := bookings[st.bid].(status := CONFIRMED)];
          }
        } else if status == Some(PAYMENT_IN_PROGRESS) {
          var _ := ValidateTransition(PAYMENT_IN_PROGRESS, CONFIRMED);
          bookings := bookings[st.bid := bookings[st.bid].(status := CONFIRMED, paymentId := Some(payment))];
          ledger := ledger + [PaidRow(st.bid, payment, st.finalPaise)];
        } else if status in {Some(EXPIRED), Some(CANCELLED), Some(FAILED)} {
          bookings := bookings[st.bid := bookings[st.bid].(status := REFUND_INITIATED, paymentId := Some(payment))];
          ledger := ledger + PaidThenRefund(st.bid, payment, st.finalPaise);
        }
      } else if status == Some(PAYMENT_IN_PROGRESS) {
        bookings := bookings[st.bid := bookings[st.bid].(status := FAILED)];
      }
    }

    /** One refund: check, gateway call, transaction. */
    method ProcessRefund(bid: Id, tenant: Id, reply: RefundReply) returns (done: bool)
      modifies this`bookings, this`ledger
      ensures old(bid in bookings && bookings[bid].tenant == tenant) ==> Tables() == old(RefundOne(Tables(), bid, reply))
      ensures old(bid in bookings && bookings[bid].tenant == tenant) ==>
        Tables() == Run(Quiet(old(Tables()), {}).(sweep := Paying([bid], Reading)), RefundSteps(reply)).db
      ensures !old(bid in bookings && bookings[bid].tenant == tenant) ==> Tables() == old(Tables()) && !done
      ensures bookings.Keys == old(bookings).Keys && forall b | b in bookings && b != bid :: bookings[b] == old(bookings)[b]
      ensures var due := bid in old(bookings) && old(bookings)[bid].tenant == tenant && old(bookings)[bid].paymentId.Some?
                         && old(bookings)[bid].status == REFUND_INITIATED;
        && (done <==> due && reply.Refunded?)
        && (!due ==> bookings == old(bookings) && ledger == old(ledger))
        && (due && reply.Refunded? ==>
              var was := old(bookings)[bid];
              && bookings[bid] == was.(status := REFUNDED)
              && ledger == old(ledger) + [Row(bid, REFUND, SUCCESS, if reply.refundId.Some? then reply.refundId.value else was.paymentId.value, was.finalPaise)])
        && (due && reply.RefundError? ==>
              var was := old(bookings)[bid];
              && bookings[bid] == was.(status := REFUND_FAILED)
              && ledger == old(ledger) + [Row(bid, REFUND, UNSUCCESSFUL, was.paymentId.value, was.finalPaise)])
    {
      hide Run;
      RefundOneIsRun(Quiet(Tables(), {}).(sweep := Paying([bid], Reading)), reply);
      if bid !in bookings || bookings[bid].tenant != tenant { return false; }
      var b := bookings[bid];
      if b.paymentId.None? || b.status != REFUND_INITIATED { return false; }
      match reply {
        case RefundError =>
          bookings := bookings[bid := b.(status := REFUND_FAILED)];
          ledger := ledger + [Row(bid, REFUND, UNSUCCESSFUL, b.paymentId.value, b.Due())];
          return false;
        case Refunded(refundId) =>
          bookings := bookings[bid := b.(status := REFUNDED)];
          ledger := ledger + [Row(bid, REFUND, SUCCESS, if refundId.Some? then refundId.value else b.paymentId.value, b.Due())];
          return true;
      }
    }

    /** The query for the refunds due. */
    method FindPending() returns (pending: seq<Id>)
      ensures PendingListing(Tables(), pending) && Distinct(pending)
      ensures OldestFifty(Tables(), (set b | b in bookings && bookings[b].status == REFUND_INITIATED), pending)
      ensures forall b | b in pending :: b in bookings && bookings[b].status == REFUND_INITIATED
    {
      hide OldestFirst, OldestFifty;
      pending := TakeOldest(Created(Tables()), PendingSet(Tables()), LISTED);
      PendingHave(Tables(), pending);
      ListingMeans(Tables(), PendingSet(Tables()), pending);
    }

    /** Lists the oldest refunds due and makes them one after the other. */
    method SweepPendingRefunds(replies: map<Id, RefundReply>) returns (pending: seq<Id>)
      modifies this`bookings, this`ledger
      ensures PendingListing(old(Tables()), pending)
      ensures OldestFifty(old(Tables()), (set b | b in old(bookings) && old(bookings)[b].status == REFUND_INITIATED), pending)
      ensures Tables() == old(RefundAll(Tables(), pending, replies))
      ensures Tables() == Run(Quiet(old(Tables()), {}).(sweep := Paying(pending, Reading)), RefundScript(pending, replies) + [EndSweep]).db
      ensures forall b | b in pending :: b in old(bookings) && old(bookings)[b].status == REFUND_INITIATED
      ensures forall b | b in pending :: RefundedAs(b, old(Tables()), Tables(), if b in replies then replies[b] else RefundError)
      ensures forall b | b !in pending :: Kept(b, old(Tables()), Tables())
    {
      hide Run, RefundScript, RefundSteps, RefundOne, RefundedAs, Kept, Distinct, PendingListing, OldestFifty;
      pending := FindPending();
      RefundsAreRun(Quiet(Tables(), {}).(sweep := Paying(pending, Reading)), replies);
      RefundListed(pending, replies);
    }

    /** The loop over the listed refunds. */
    method RefundListed(pending: seq<Id>, replies: map<Id, RefundReply>)
      requires Distinct(pending) && AllHave(Tables(), pending, REFUND_INITIATED)
      modifies this`bookings, this`ledger
      ensures Tables() == old(RefundAll(Tables(), pending, replies))
      ensures forall b | b in pending :: RefundedAs(b, old(Tables()), Tables(), RefundAnswer(replies, b))
      ensures forall b | b !in pending :: Kept(b, old(Tables()), Tables())
    {
      hide Run, RefundSteps, RefundOne, RefundedAs, Kept, Distinct, RefundedUpTo;
      NothingRefunded(Tables(), pending, replies);
      for i := 0 to |pending|
        invariant Tables() == old(RefundAll(Tables(), pending[..i], replies))
        invariant RefundedUpTo(old(Tables()), Tables(), pending, replies, i)
      {
        assert pending[..i + 1][..i] == pending[..i] && pending[..i + 1][i] == pending[i];
        RefundIsDue(old(Tables()), Tables(), pending, replies, i);
        ghost var mid := Tables();
        RefundOneListed(pending[i], replies);
        OneRefundMore(old(Tables()), mid, Tables(), pending, replies, i);
      }
      AllRefunded(old(Tables()), Tables(), pending, replies);
      assert pending[..|pending|] == pending;
    }

    method RefundOneListed(bid: Id, replies: map<Id, RefundReply>)
      requires bid in bookings && bookings[bid].status == REFUND_INITIATED
      modifies this`bookings, this`ledger
      ensures Tables() == RefundOne(old(Tables()), bid, RefundAnswer(replies, bid))
      ensures RefundedAs(bid, old(Tables()), Tables(), RefundAnswer(replies, bid))
      ensures forall b | b != bid :: Kept(b, old(Tables()), Tables())
    {
      hide Run, RefundSteps, RefundOne, RowsOf;
      ghost var rows, was := ledger, bookings[bid];
      var reply := RefundAnswer(replies, bid);
      var _ := ProcessRefund(bid, bookings[bid].tenant, reply);
      if was.paymentId.Some? {
        forall b ensures RowsOf(ledger, b) == if b == bid then RowsOf(rows, b) + [ledger[|rows|]] else RowsOf(rows, b) {
          OneRowMore(rows, ledger[|rows|], b);
          assert ledger == rows + [ledger[|rows|]];
        }
      }
    }

    /** The query for the stale bookings. */
    method FindStale(now: int) returns (stale: seq<Id>)
      ensures StaleListing(Tables(), now, stale) && Distinct(stale)
      ensures OldestFifty(Tables(), (set b | b in bookings && bookings[b].status == PAYMENT_IN_PROGRESS && bookings[b].created < now - 10 * 60 * 1000), stale)
      ensures AllHave(Tables(), stale, PAYMENT_IN_PROGRESS)
    {
      hide OldestFirst, OldestFifty;
      stale := TakeOldest(Created(Tables()), StaleSet(Tables(), now), LISTED);
      ListedHave(Tables(), now, stale);
      ListingMeans(Tables(), StaleSet(Tables(), now), stale);
    }

    /** The loop over the stale bookings. */
    method ReconcileListed(stale: seq<Id>, replies: map<Id, FetchReply>)
      requires Distinct(stale) && AllHave(Tables(), stale, PAYMENT_IN_PROGRESS)
      modifies this`bookings, this`ledger
      ensures Tables() == old(ReconcileAll(Tables(), StaleOf(Tables(), stale), replies))
      ensures forall i | 0 <= i < |stale| ::
                ReconciledAs(stale[i], old(Tables()), Tables(), if stale[i] in replies then replies[stale[i]] else Unreachable,
                             FreshCapture(old(ledger), stale, replies, i))
      ensures forall b | b !in stale :: Kept(b, old(Tables()), Tables())
    {
      hide Run, ReconcileOne, ReconcileSteps, ReconciledAs, Kept, FreshCapture, FromReplies, Distinct, ReconciledUpTo;
      var todo := StaleOf(Tables(), stale);
      NothingReconciled(Tables(), stale, replies);
      for i := 0 to |stale|
        invariant Tables() == ReconcileAll(old(Tables()), todo[..i], replies)
        invariant ReconciledUpTo(old(Tables()), Tables(), stale, replies, i)
      {
        assert todo[..i + 1][..i] == todo[..i] && todo[..i + 1][i] == todo[i];
        StillStale(old(Tables()), Tables(), stale, replies, i);
        ghost var mid := Tables();
        ReconcileOneListed(old(ledger), stale, i, todo[i], replies);
        OneBookingMore(old(Tables()), mid, Tables(), stale, replies, i);
      }
      AllReconciled(old(Tables()), Tables(), stale, replies);
      assert todo[..|todo|] == todo;
    }

    method ReconcileOneListed(ghost start: seq<Row>, stale: seq<Id>, i: nat, st: Stale, replies: map<Id, FetchReply>)
      requires i < |stale| && stale[i] in bookings && bookings[stale[i]].status == PAYMENT_IN_PROGRESS
      requires st == Stale(stale[i], bookings[stale[i]].orderId, bookings[stale[i]].finalPaise)
      requires FromReplies(start, ledger, stale, replies, i)
      modifies this`bookings, this`ledger
      ensures Tables() == ReconcileOne(old(Tables()), st, Reply(replies, st.bid))
      ensures FromReplies(start, ledger, stale, replies, i + 1)
      ensures ReconciledAs(stale[i], old(Tables()), Tables(), Reply(replies, stale[i]), FreshCapture(start, stale, replies, i))
      ensures forall b | b != stale[i] :: Kept(b, old(Tables()), Tables())
    {
      hide Run, ReconcileOne, ReconcileSteps, RowsOf, FromReplies, FreshCapture;
      ghost var rows := ledger;
      var reply := Reply(replies, st.bid);
      if FreshCapture(start, stale, replies, i) {
        FreshStaysUnknown(start, rows, stale, replies, i);
      }
      ReconcileBooking(st, reply);
      if ledger == rows {
        OneReplyMore(start, rows, Row("", PAYMENT, SUCCESS, "", 0), stale, replies, i);
      } else {
        ghost var row := Row(st.bid, PAYMENT, SUCCESS, reply.captured.value, st.finalPaise);
        assert ledger == rows + [row];
        OneReplyMore(start, rows, row, stale, replies, i);
        forall b ensures RowsOf(ledger, b) == if b == st.bid then RowsOf(rows, b) + [row] else RowsOf(rows, b) {
          OneRowMore(rows, row, b);
        }
      }
    }

    /** The cron: skipped while a sweep runs; nothing stale means no refund sweep either.  The
        tables end up as the protocol's run of the sweep leaves them, and booking by booking as
        the gateway's answers say. */
    method HandleReconciliation(now: int, replies: map<Id, FetchReply>, refundReplies: map<Id, RefundReply>)
      returns (stale: seq<Id>, pending: seq<Id>)
      modifies this
      ensures old(isReconciling) ==> isReconciling && stale == []
      ensures !old(isReconciling) ==> !isReconciling && StaleListing(old(Tables()), now, stale)
      ensures !old(isReconciling) ==>
        OldestFifty(old(Tables()), (set b | b in old(bookings) && old(bookings)[b].status == PAYMENT_IN_PROGRESS && old(bookings)[b].created < now - 10 * 60 * 1000), stale)
      ensures stale == [] ==> pending == [] && Tables() == old(Tables())
      ensures stale != [] ==> AllHave(old(Tables()), stale, PAYMENT_IN_PROGRESS)
      ensures stale != [] ==> PendingListing(ReconcileAll(old(Tables()), StaleOf(old(Tables()), stale), replies), pending)
      ensures stale != [] ==>
        SameButGateway(Run(Quiet(old(Tables()), seenEvents), SweepScript(stale, StaleOf(old(Tables()), stale), replies, pending, refundReplies)),
                       Quiet(Tables(), seenEvents))
      ensures seenEvents == old(seenEvents)
      ensures forall i | 0 <= i < |stale| ::
                ReconciledAs(stale[i], old(Tables()), Tables(), if stale[i] in replies then replies[stale[i]] else Unreachable,
                             FreshCapture(old(ledger), stale, replies, i))
      ensures forall b | b in pending :: b !in stale && b in old(bookings) && old(bookings)[b].status == REFUND_INITIATED
      ensures forall b | b in pending :: RefundedAs(b, old(Tables()), Tables(), if b in refundReplies then refundReplies[b] else RefundError)
      ensures forall b | b !in stale && b !in pending :: Kept(b, old(Tables()), Tables())
    {
      hide Run, ReconcileAll, RefundAll, SweepScript, StaleListing, PendingListing, RefundedAs, ReconciledAs, Kept, FreshCapture, Distinct, OldestFifty;
      stale, pending := [], [];
      if isReconciling {
        KeptAsIs(Tables());
        return;
      }
      isReconciling := true;
      stale := FindStale(now);
      if stale == [] {
        KeptAsIs(Tables());
        isReconciling := false;
        return;
      }
      ReconcileListed(stale, replies);
      ghost var mid := Tables();
      pending := SweepPendingRefunds(refundReplies);
      SweptTogether(old(Tables()), mid, Tables(), stale, replies, pending, refundReplies);
      SweepIsRun(old(Tables()), seenEvents, stale, replies, pending, refundReplies);
      isReconciling := false;
    }
  }

  lemma KeptAsIs(db: DB)
    ensures forall b :: Kept(b, db, db)
  {}

  lemma NothingRefunded(db: DB, pending: seq<Id>, replies: map<Id, RefundReply>)
    ensures RefundedUpTo(db, db, pending, replies, 0)
  {
    KeptAsIs(db);
  }

  lemma NothingReconciled(db: DB, stale: seq<Id>, replies: map<Id, FetchReply>)
    ensures ReconciledUpTo(db, db, stale, replies, 0)
  {
    KeptAsIs(db);
  }

  /** The next refund is still due. */
  lemma RefundIsDue(was: DB, now: DB, pending: seq<Id>, replies: map<Id, RefundReply>, n: nat)
    requires n < |pending| && Distinct(pending) && AllHave(was, pending, REFUND_INITIATED)
    requires RefundedUpTo(was, now, pending, replies, n)
    ensures pending[n] in now.bookings && now.bookings[pending[n]] == was.bookings[pending[n]]
    ensures now.bookings[pending[n]].status == REFUND_INITIATED
  {
    assert pending[n] in pending && pending[n] !in pending[..n];
    assert Kept(pending[n], was, now);
  }

  /** The next stale booking is as it was listed. */
  lemma StillStale(was: DB, now: DB, stale: seq<Id>, replies: map<Id, FetchReply>, n: nat)
    requires n < |stale| && Distinct(stale) && AllHave(was, stale, PAYMENT_IN_PROGRESS)
    requires ReconciledUpTo(was, now, stale, replies, n)
    ensures stale[n] in was.bookings && stale[n] in now.bookings && now.bookings[stale[n]] == was.bookings[stale[n]]
    ensures now.bookings[stale[n]].status == PAYMENT_IN_PROGRESS
    ensures FromReplies(was.ledger, now.ledger, stale, replies, n)
  {
    assert stale[n] in stale && stale[n] !in stale[..n];
    assert Kept(stale[n], was, now);
  }

  lemma AllRefunded(was: DB, now: DB, pending: seq<Id>, replies: map<Id, RefundReply>)
    requires RefundedUpTo(was, now, pending, replies, |pending|)
    ensures forall b | b in pending :: RefundedAs(b, was, now, RefundAnswer(replies, b))
    ensures forall b | b !in pending :: Kept(b, was, now)
  {
    hide RefundedAs, Kept;
    assert pending[..|pending|] == pending;
  }

  lemma AllReconciled(was: DB, now: DB, stale: seq<Id>, replies: map<Id, FetchReply>)
    requires ReconciledUpTo(was, now, stale, replies, |stale|)
    ensures forall i | 0 <= i < |stale| :: ReconciledAs(stale[i], was, now, Reply(replies, stale[i]), FreshCapture(was.ledger, stale, replies, i))
    ensures forall b | b !in stale :: Kept(b, was, now)
  {
    hide ReconciledAs, Kept, FreshCapture, FromReplies;
    assert stale[..|stale|] == stale;
  }

  /** The refund sweep leaves the reconciled bookings alone: none of them is waiting for a refund. */
  lemma SweptTogether(was: DB, mid: DB, now: DB, stale: seq<Id>, replies: map<Id, FetchReply>, pending: seq<Id>, refundReplies: map<Id, RefundReply>)
    requires AllHave(was, stale, PAYMENT_IN_PROGRESS) && AllHave(mid, pending, REFUND_INITIATED)
    requires forall i | 0 <= i < |stale| :: ReconciledAs(stale[i], was, mid, Reply(replies, stale[i]), FreshCapture(was.ledger, stale, replies, i))
    requires forall b | b !in stale :: Kept(b, was, mid)
    requires forall b | b in pending :: RefundedAs(b, mid, now, RefundAnswer(refundReplies, b))
    requires forall b | b !in pending :: Kept(b, mid, now)
    ensures forall i | 0 <= i < |stale| :: ReconciledAs(stale[i], was, now, Reply(replies, stale[i]), FreshCapture(was.ledger, stale, replies, i))
    ensures forall b | b in pending :: b !in stale && b in was.bookings && was.bookings[b].status == REFUND_INITIATED
    ensures forall b | b in pending :: RefundedAs(b, was, now, RefundAnswer(refundReplies, b))
    ensures forall b | b !in stale && b !in pending :: Kept(b, was, now)
  {
    hide RowsOf, FreshCapture, Reply, RefundAnswer;
    forall i | 0 <= i < |stale|
      ensures stale[i] !in pending
      ensures ReconciledAs(stale[i], was, now, Reply(replies, stale[i]), FreshCapture(was.ledger, stale, replies, i))
    {
      assert stale[i] in stale;
      NotPending(stale[i], was, mid, Reply(replies, stale[i]), FreshCapture(was.ledger, stale, replies, i));
      assert Kept(stale[i], mid, now);
    }
    forall b | b in pending ensures RefundedAs(b, was, now, RefundAnswer(refundReplies, b)) {
      assert Kept(b, was, mid);
    }
  }

  lemma NotPending(bid: Id, was: DB, now: DB, reply: FetchReply, isNew: bool)
    requires bid in was.bookings && was.bookings[bid].status == PAYMENT_IN_PROGRESS && ReconciledAs(bid, was, now, reply, isNew)
    ensures bid in now.bookings && now.bookings[bid].status != REFUND_INITIATED
  {}

  lemma PendingHave(db: DB, pending: seq<Id>)
    requires PendingListing(db, pending)
    ensures AllHave(db, pending, REFUND_INITIATED) && Distinct(pending)
  {
    forall b | b in pending ensures b in PendingSet(db) {
      assert b in SetOf(pending);
    }
  }

  lemma ListedHave(db: DB, now: int, stale: seq<Id>)
    requires StaleListing(db, now, stale)
    ensures AllHave(db, stale, PAYMENT_IN_PROGRESS) && Distinct(stale)
  {
    forall b | b in stale ensures b in StaleSet(db, now) {
      assert b in SetOf(stale);
    }
  }
}
