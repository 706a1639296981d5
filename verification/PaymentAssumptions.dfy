/** Why the assumptions of the payment protocol are there: concrete runs in which dropping one of
    them breaks the result it serves. */
module PaymentAssumptions {
  import opened Outcomes
  import opened Lifecycle
  import opened Payments
  import opened PaymentLedger
  import opened PaymentRuns

  const OWNER: map<Id, Id> := map["pay" := "b", "refund" := "b"]
  const EMPTY := State(DB(map[], []), {}, map[], map[], map[], Idle, map[])

  const FRESH := Booking("tenant", LOCKED, None, None, 5, 5, 0, 0)
  const WAITING := Booking("tenant", PAYMENT_IN_PROGRESS, Some("order"), None, 5, 5, 0, 0)

  /** Booking "b" at `status`, paid with "pay"; booking "c" waits for its payment. */
  function Shop(status: Status, ledger: seq<Row>): DB {
    DB(map["b" := FRESH.(status := status, paymentId := Some("pay")), "c" := WAITING], ledger)
  }

  ghost predicate Reached(acts: seq<Action>, hs: set<Assumption>, s: State) {
    RunRespects(OWNER, EMPTY, acts, hs) && Run(EMPTY, acts) == s
  }

  lemma {:induction false} RunSnoc(s: State, acts: seq<Action>, a: Action, hs: set<Assumption>)
    requires RunRespects(OWNER, s, acts, hs) && forall h | h in hs :: Respects(OWNER, Run(s, acts), a, h)
    ensures RunRespects(OWNER, s, acts + [a], hs) && Run(s, acts + [a]) == Apply(Run(s, acts), a)
    decreases |acts|
  {
    if acts == [] {
      assert [a][1..] == [];
      assert acts + [a] == [a];
    } else {
      assert (acts + [a])[1..] == acts[1..] + [a];
      RunSnoc(Apply(s, acts[0]), acts[1..], a, hs);
    }
  }

  lemma Go(acts: seq<Action>, hs: set<Assumption>, s: State, a: Action, t: State) returns (acts': seq<Action>)
    requires Reached(acts, hs, s) && t == Apply(s, a) && forall h | h in hs :: Respects(OWNER, s, a, h)
    ensures Reached(acts', hs, t) && acts' == acts + [a]
  {
    RunSnoc(EMPTY, acts, a, hs);
    acts' := acts + [a];
  }

  /** Steps no assumption says anything about. */
  predicate Free(a: Action) {
    !(a.Open? || a.Fetch? || a.GatewayAccepts? || a.RefundFailedWrite? || a.LoseRefund? || a.CrashSweep?)
  }

  lemma FreeRespects(hs: set<Assumption>, s: State, a: Action)
    requires Free(a)
    ensures forall h | h in hs :: Respects(OWNER, s, a, h)
  {}

  lemma GoJob(acts: seq<Action>, hs: set<Assumption>, s: State, a: Action, t: State) returns (acts': seq<Action>)
    requires Reached(acts, hs, s) && t == s.(db := ApplyJob(s.db, a))
    requires a.AddBooking? || a.CreateOrder? || a.Elsewhere?
    ensures Reached(acts', hs, t)
  {
    hide ApplyJob, Reached, Respects;
    FreeRespects(hs, s, a);
    acts' := Go(acts, hs, s, a, t);
  }

  lemma GoHook(acts: seq<Action>, hs: set<Assumption>, s: State, a: Action, t: State) returns (acts': seq<Action>)
    requires Reached(acts, hs, s) && t == ApplyWebhook(s, a)
    requires a.Process? || a.Rollback? || a.RefundProcessedRead? || a.RefundProcessedWrite? || a.RefundFailedRead?
    ensures Reached(acts', hs, t) && acts' == acts + [a]
  {
    hide ApplyWebhook, Reached, Respects;
    FreeRespects(hs, s, a);
    acts' := Go(acts, hs, s, a, t);
  }

  lemma GoSweep(acts: seq<Action>, hs: set<Assumption>, s: State, a: Action, t: State) returns (acts': seq<Action>)
    requires Reached(acts, hs, s) && t == ApplySweep(s, a)
    requires a.StartSweep? || a.FetchFails? || a.LookUp? || a.Settle? || a.StartRefunds? || a.EndSweep?
    ensures Reached(acts', hs, t)
  {
    hide ApplySweep, Reached, Respects;
    FreeRespects(hs, s, a);
    acts' := Go(acts, hs, s, a, t);
  }

  lemma GoRefund(acts: seq<Action>, hs: set<Assumption>, s: State, a: Action, t: State) returns (acts': seq<Action>)
    requires Reached(acts, hs, s) && t == ApplyRefund(s, a) && (a.ReadRefund? || a.RecordRefund?)
    ensures Reached(acts', hs, t)
  {
    hide ApplyRefund, Reached, Respects;
    FreeRespects(hs, s, a);
    acts' := Go(acts, hs, s, a, t);
  }

  function AtDB(db: DB): State { EMPTY.(db := db) }

  /** Two bookings, "c" already waiting for its payment. */
  lemma TwoBookings(hs: set<Assumption>) returns (acts: seq<Action>)
    ensures Reached(acts, hs, AtDB(DB(map["b" := FRESH,
              "c" := WAITING], [])))
  {
    assert Reached([], hs, EMPTY);
    hide Reached;
    var b := FRESH;
    acts := GoJob([], hs, EMPTY, AddBooking("b", b), AtDB(DB(map["b" := b], [])));
    acts := WaitingC(acts, hs, b);
  }

  lemma WaitingC(acts: seq<Action>, hs: set<Assumption>, b: Booking) returns (acts': seq<Action>)
    requires Reached(acts, hs, AtDB(DB(map["b" := b], [])))
    ensures Reached(acts', hs, AtDB(DB(map["b" := b, "c" := WAITING], [])))
  {
    hide Reached;
    var db := DB(map["b" := b, "c" := FRESH], []);
    acts' := GoJob(acts, hs, AtDB(DB(map["b" := b], [])), AddBooking("c", FRESH), AtDB(db));
    var c := WAITING;
    acts' := GoJob(acts', hs, AtDB(db), CreateOrder("c", "order"), AtDB(DB(map["b" := b, "c" := c], [])));
  }

  /** "b" is paid by webhook, then cancelled into a refund elsewhere. */
  lemma PaidAndRefundDue(hs: set<Assumption>) returns (acts: seq<Action>, s: State)
    ensures s.db == Shop(REFUND_INITIATED, [PaidRow("b", "pay", 5)])
    ensures s == AtDB(s.db)
    ensures Reached(acts, hs, s)
  {
    hide Run, RunRespects;
    acts := TwoBookings(hs);
    var db0 := DB(map["b" := FRESH, "c" := WAITING], []);
    var del := Delivery("event", "b", "pay", "tenant");
    var s1 := AtDB(db0).(open := map["d" := del]);
    acts := Go(acts, hs, AtDB(db0), Open("d", del), s1);
    var paid := Shop(CONFIRMED, [PaidRow("b", "pay", 5)]);
    assert Captured(db0, "b", "pay", "tenant") == Ok(paid) by {
      assert SetPaid(db0, "b", CONFIRMED, "pay").bookings == paid.bookings;
      assert [] + [PaidRow("b", "pay", 5)] == [PaidRow("b", "pay", 5)];
    }
    var s2 := s1.(db := paid);
    acts := GoHook(acts, hs, s1, Process("d"), s2);
    acts, s := CancelledIntoRefund(acts, hs, s2);
  }

  /** The outer webhook transaction rolls back; the status and the ledger row stay. */
  lemma CancelledIntoRefund(acts: seq<Action>, hs: set<Assumption>, s: State) returns (acts': seq<Action>, t: State)
    requires Reached(acts, hs, s)
    requires s == AtDB(Shop(CONFIRMED, [PaidRow("b", "pay", 5)])).(open := map["d" := Delivery("event", "b", "pay", "tenant")])
    ensures t == AtDB(Shop(REFUND_INITIATED, [PaidRow("b", "pay", 5)])) && Reached(acts', hs, t)
  {
    hide Run, RunRespects;
    var s1 := s.(open := map[]);
    assert s.open - {"d"} == map[];
    acts' := GoHook(acts, hs, s, Rollback("d"), s1);
    acts', t := RefundDue(acts', hs, s1);
  }

  /** The cancellation service asks for the refund of the confirmed booking. */
  lemma RefundDue(acts: seq<Action>, hs: set<Assumption>, s: State)
    returns (acts': seq<Action>, t: State)
    requires Reached(acts, hs, s) && s.db == Shop(CONFIRMED, [PaidRow("b", "pay", 5)])
    ensures t == s.(db := Shop(REFUND_INITIATED, [PaidRow("b", "pay", 5)])) && Reached(acts', hs, t)
  {
    hide Run, RunRespects;
    t := s.(db := Shop(REFUND_INITIATED, [PaidRow("b", "pay", 5)]));
    assert HasPaid(s.db, "b") by { assert s.db.ledger[0] == PaidRow("b", "pay", 5); }
    assert SetStatus(s.db, "b", REFUND_INITIATED).bookings == t.db.bookings;
    acts' := GoJob(acts, hs, s, Elsewhere("b", REFUND_INITIATED), t);
  }

  /** A sweep whose payment lookup for "c" fails gets to the refund of "b" and pays it. */
  lemma SweepPays(acts: seq<Action>, hs: set<Assumption>, s: State) returns (acts': seq<Action>, t: State)
    requires Reached(acts, hs, s) && s.sweep.Idle? && "b" in s.db.bookings && "c" in s.db.bookings
    requires s.db.bookings["c"].status == PAYMENT_IN_PROGRESS
    requires s.db.bookings["b"].status == REFUND_INITIATED && s.db.bookings["b"].paymentId == Some("pay")
    ensures t == s.(sweep := Paying(["b"], Accepted("refund", s.db.bookings["b"].Due())),
                    gatewayRefunds := s.gatewayRefunds["b" := GatewayRefunds(s, "b") + 1])
    ensures Reached(acts', hs, t)
  {
    hide Run, RunRespects;
    var s1 := s.(sweep := Reconciling(StaleOf(s.db, ["c"]), Fetching));
    acts' := GoSweep(acts, hs, s, StartSweep(["c"]), s1);
    var s2 := s.(sweep := Reconciling([], Fetching));
    assert StaleOf(s.db, ["c"])[1..] == [];
    acts' := GoSweep(acts', hs, s1, FetchFails, s2);
    acts', t := PayOut(acts', hs, s2);
  }

  lemma PayOut(acts: seq<Action>, hs: set<Assumption>, s: State) returns (acts': seq<Action>, t: State)
    requires Reached(acts, hs, s) && s.sweep == Reconciling([], Fetching) && "b" in s.db.bookings
    requires s.db.bookings["b"].status == REFUND_INITIATED && s.db.bookings["b"].paymentId == Some("pay")
    ensures t == s.(sweep := Paying(["b"], Accepted("refund", s.db.bookings["b"].Due())),
                    gatewayRefunds := s.gatewayRefunds["b" := GatewayRefunds(s, "b") + 1])
    ensures Reached(acts', hs, t)
  {
    hide Run, RunRespects;
    var s1 := s.(sweep := Paying(["b"], Reading));
    acts' := GoSweep(acts, hs, s, StartRefunds(["b"]), s1);
    var s2 := s.(sweep := Paying(["b"], Calling("pay", s.db.bookings["b"].Due())));
    acts' := GoRefund(acts', hs, s1, ReadRefund, s2);
    t := s.(sweep := Paying(["b"], Accepted("refund", s.db.bookings["b"].Due())),
            gatewayRefunds := s.gatewayRefunds["b" := GatewayRefunds(s, "b") + 1]);
    acts' := Go(acts', hs, s2, GatewayAccepts(Some("refund")), t);
  }

  /** A refund that the gateway made but the database lost is made again by the next sweep. */
  lemma RefundCommitsIsNeeded() returns (acts: seq<Action>)
    ensures RunRespects(OWNER, EMPTY, acts, ALL_ASSUMPTIONS - {RefundCommits})
    ensures GatewayRefunds(Run(EMPTY, acts), "b") == 2
  {
    var hs := ALL_ASSUMPTIONS - {RefundCommits};
    hide Run, RunRespects;
    var s; acts, s := PaidAndRefundDue(hs);
    var s1; acts, s1 := SweepPays(acts, hs, s);
    var s2 := s1.(sweep := Paying([], Reading));
    assert ["b"][1..] == [];
    acts := Go(acts, hs, s1, LoseRefund, s2);
    var s3 := s2.(sweep := Idle);
    acts := GoSweep(acts, hs, s2, EndSweep, s3);
    var s4; acts, s4 := SweepPays(acts, hs, s3);
  }

  /** A refund.failed that arrives between the gateway's refund and its transaction leads, after
      the retry, to a second refund. */
  lemma NoLateFailureIsNeeded() returns (acts: seq<Action>)
    ensures RunRespects(OWNER, EMPTY, acts, ALL_ASSUMPTIONS - {NoLateFailure})
    ensures GatewayRefunds(Run(EMPTY, acts), "b") == 2
  {
    var hs := ALL_ASSUMPTIONS - {NoLateFailure};
    hide Run, RunRespects;
    var s; acts, s := PaidAndRefundDue(hs);
    var s1; acts, s1 := SweepPays(acts, hs, s);
    var s2 := s1.(failedHooks := map["f" := "b"]);
    acts := GoHook(acts, hs, s1, RefundFailedRead("f", "b"), s2);
    var s3 := s2.(db := SetStatus(s2.db, "b", REFUND_FAILED), failedHooks := map[]);
    assert s2.failedHooks - {"f"} == map[];
    acts := Go(acts, hs, s2, RefundFailedWrite("f"), s3);
    var s4; acts, s4 := RecordAndRetry(acts, hs, s3);
    var s5; acts, s5 := SweepPays(acts, hs, s4);
  }

  lemma RecordAndRetry(acts: seq<Action>, hs: set<Assumption>, s: State) returns (acts': seq<Action>, t: State)
    requires Reached(acts, hs, s) && s.sweep.Paying? && s.sweep.pending == ["b"] && s.sweep.stage.Accepted?
    requires s.db == Shop(REFUND_FAILED, [PaidRow("b", "pay", 5)])
    ensures t.sweep == Idle && t.gatewayRefunds == s.gatewayRefunds && Reached(acts', hs, t)
    ensures t.db.bookings == Shop(REFUND_INITIATED, []).bookings
  {
    hide Run, RunRespects;
    var row := Row("b", REFUND, SUCCESS, s.sweep.stage.gatewayId, s.sweep.stage.amount);
    var s1 := s.(sweep := Paying([], Reading), db := Append(s.db, [row]));
    assert ["b"][1..] == [];
    acts' := GoRefund(acts, hs, s, RecordRefund, s1);
    var s2 := s1.(sweep := Idle);
    acts' := GoSweep(acts', hs, s1, EndSweep, s2);
    t := s2.(db := SetStatus(s2.db, "b", REFUND_INITIATED));
    assert HasPaid(s2.db, "b") by { assert s2.db.ledger[0] == PaidRow("b", "pay", 5); }
    assert ApplyJob(s2.db, Elsewhere("b", REFUND_INITIATED)) == t.db;
    acts' := GoJob(acts', hs, s2, Elsewhere("b", REFUND_INITIATED), t);
  }

  lemma RefundedByWebhook(hs: set<Assumption>) returns (acts: seq<Action>, t: State)
    ensures Reached(acts, hs, t) && t == AtDB(Shop(REFUNDED, [PaidRow("b", "pay", 5)]))
  {
    hide Run, RunRespects;
    var s; acts, s := PaidAndRefundDue(hs);
    var s1 := s.(refundedHooks := map["r" := "b"]);
    acts := GoHook(acts, hs, s, RefundProcessedRead("r", "b"), s1);
    t := s1.(db := Shop(REFUNDED, [PaidRow("b", "pay", 5)]), refundedHooks := map[]);
    assert s1.refundedHooks - {"r"} == map[];
    assert SetStatus(s1.db, "b", REFUNDED).bookings == t.db.bookings;
    acts := GoHook(acts, hs, s1, RefundProcessedWrite("r"), t);
  }

  /** refund.failed overwrites whatever is there, REFUNDED included. */
  lemma FailedInCycleIsNeeded() returns (before: seq<Action>, acts: seq<Action>)
    ensures acts == before + [RefundFailedRead("f", "b")] + [RefundFailedWrite("f")]
    ensures RunRespects(OWNER, EMPTY, acts, ALL_ASSUMPTIONS - {FailedInCycle})
    ensures "b" in Run(EMPTY, before).db.bookings && Run(EMPTY, before).db.bookings["b"].status == REFUNDED
    ensures "b" in Run(EMPTY, acts).db.bookings && Run(EMPTY, acts).db.bookings["b"].status == REFUND_FAILED
  {
    var hs := ALL_ASSUMPTIONS - {FailedInCycle};
    hide Run, RunRespects;
    var s; before, s := RefundedByWebhook(hs);
    var s1 := s.(failedHooks := map["f" := "b"]);
    acts := GoHook(before, hs, s, RefundFailedRead("f", "b"), s1);
    acts := OverwriteRefunded(acts, hs, s1);
  }

  lemma OverwriteRefunded(acts: seq<Action>, hs: set<Assumption>, s: State) returns (acts': seq<Action>)
    requires Reached(acts, hs, s) && FailedInCycle !in hs && s.gatewayRefunds == map[] && s.sweep == Idle
    requires s.failedHooks == map["f" := "b"] && "b" in s.db.bookings
    ensures acts' == acts + [RefundFailedWrite("f")] && RunRespects(OWNER, EMPTY, acts', hs)
    ensures "b" in Run(EMPTY, acts').db.bookings && Run(EMPTY, acts').db.bookings["b"].status == REFUND_FAILED
  {
    hide Run, RunRespects;
    acts' := Go(acts, hs, s, RefundFailedWrite("f"), ApplyWebhook(s, RefundFailedWrite("f")));
  }
}
