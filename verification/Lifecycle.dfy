/** The booking lifecycle: the transition table, and exactly what it lets a booking become. */
module Lifecycle {
  import opened Outcomes

  datatype Status =
    | PENDING | LOCKED | PAYMENT_IN_PROGRESS | CONFIRMED | FAILED | EXPIRED | CANCELLED
    | REFUND_INITIATED | REFUNDED | REFUND_FAILED

  /** ALLOWED_TRANSITIONS. */
  function Next(s: Status): set<Status> {
    match s
    case PENDING => {LOCKED}
    case LOCKED => {PAYMENT_IN_PROGRESS, EXPIRED, FAILED, CANCELLED}
    case PAYMENT_IN_PROGRESS => {CONFIRMED, FAILED, REFUND_INITIATED}
    case CONFIRMED => {CANCELLED, REFUND_INITIATED}
    case FAILED => {REFUND_INITIATED}
    case EXPIRED => {REFUND_INITIATED}
    case CANCELLED => {REFUND_INITIATED}
    case REFUND_INITIATED => {REFUNDED, REFUND_FAILED}
    case REFUNDED => {}
    case REFUND_FAILED => {REFUND_INITIATED}
  }

  /** A history in which every two neighbours are a transition of the table. */
  ghost predicate Chain(p: seq<Status>) {
    p != [] && forall i | 0 <= i < |p| - 1 :: p[i + 1] in Next(p[i])
  }

  /** The reflexive-transitive closure of the table. */
  ghost predicate Reach(a: Status, b: Status) {
    exists p :: Chain(p) && p[0] == a && p[|p| - 1] == b
  }

  predicate InRefundCycle(s: Status) { s.REFUND_INITIATED? || s.REFUND_FAILED? || s.REFUNDED? }

  /** What a booking in status `a` can still become: `ReachIsLater` shows this is `Reach`. */
  predicate Later(a: Status, b: Status) {
    a == b || match a
      case PENDING => true
      case LOCKED => !b.PENDING?
      case PAYMENT_IN_PROGRESS => b.CONFIRMED? || b.FAILED? || b.CANCELLED? || InRefundCycle(b)
      case CONFIRMED => b.CANCELLED? || InRefundCycle(b)
      case REFUNDED => false
      case _ => InRefundCycle(b)
  }

  lemma {:induction false} ChainStaysLater(p: seq<Status>)
    requires Chain(p)
    ensures Later(p[0], p[|p| - 1])
    decreases |p|
  {
    if |p| > 1 {
      assert p[0 + 1] in Next(p[0]);
      forall i | 0 <= i < |p[1..]| - 1 ensures p[1..][i + 1] in Next(p[1..][i]) {
        assert p[(i + 1) + 1] in Next(p[i + 1]);
      }
      ChainStaysLater(p[1..]);
    }
  }

  lemma ReachNext(a: Status, b: Status, c: Status)
    requires Reach(a, b) && c in Next(b)
    ensures Reach(a, c)
  {
    var p :| Chain(p) && p[0] == a && p[|p| - 1] == b;
    var q := p + [c];
    forall i | 0 <= i < |q| - 1 ensures q[i + 1] in Next(q[i]) {
      if i < |p| - 1 { assert p[i + 1] in Next(p[i]); }
    }
    assert Chain(q) && q[0] == a && q[|q| - 1] == c;
  }

  lemma ReachSelf(a: Status)
    ensures Reach(a, a)
  {
    assert Chain([a]) && [a][0] == a;
  }

  /** From REFUND_INITIATED onwards. */
  lemma ReachRefunds(a: Status)
    requires Reach(a, REFUND_INITIATED)
    ensures Reach(a, REFUND_FAILED) && Reach(a, REFUNDED)
  {
    ReachNext(a, REFUND_INITIATED, REFUND_FAILED);
    ReachNext(a, REFUND_INITIATED, REFUNDED);
  }

  lemma LaterIsReached(a: Status, b: Status)
    requires Later(a, b)
    ensures Reach(a, b)
  {
    hide Reach, Chain;
    ReachSelf(a);
    match a
    case PENDING => ReachNext(a, PENDING, LOCKED); FromLocked(a);
    case LOCKED => FromLocked(a);
    case PAYMENT_IN_PROGRESS =>
      ReachNext(a, a, CONFIRMED); ReachNext(a, a, FAILED); ReachNext(a, a, REFUND_INITIATED);
      ReachNext(a, CONFIRMED, CANCELLED); ReachRefunds(a);
    case CONFIRMED => ReachNext(a, a, CANCELLED); ReachNext(a, a, REFUND_INITIATED); ReachRefunds(a);
    case FAILED => ReachNext(a, a, REFUND_INITIATED); ReachRefunds(a);
    case EXPIRED => ReachNext(a, a, REFUND_INITIATED); ReachRefunds(a);
    case CANCELLED => ReachNext(a, a, REFUND_INITIATED); ReachRefunds(a);
    case REFUND_INITIATED => ReachRefunds(a);
    case REFUND_FAILED => ReachNext(a, a, REFUND_INITIATED); ReachRefunds(a);
    case REFUNDED =>
  }

  lemma FromLocked(a: Status)
    requires Reach(a, LOCKED)
    ensures forall b | Later(LOCKED, b) :: Reach(a, b)
  {
    hide Reach, Chain;
    ReachNext(a, LOCKED, PAYMENT_IN_PROGRESS); ReachNext(a, LOCKED, EXPIRED);
    ReachNext(a, LOCKED, FAILED); ReachNext(a, LOCKED, CANCELLED);
    ReachNext(a, PAYMENT_IN_PROGRESS, CONFIRMED); ReachNext(a, FAILED, REFUND_INITIATED);
    ReachRefunds(a);
  }

  /** The closure of the table, in closed form. */
  lemma ReachIsLater(a: Status, b: Status)
    ensures Reach(a, b) <==> Later(a, b)
  {
    if Reach(a, b) {
      var p :| Chain(p) && p[0] == a && p[|p| - 1] == b;
      ChainStaysLater(p);
    }
    if Later(a, b) { LaterIsReached(a, b); }
  }

  lemma ReachTransitive(a: Status, b: Status, c: Status)
    requires Reach(a, b) && Reach(b, c)
    ensures Reach(a, c)
  {
    ReachIsLater(a, b);
    ReachIsLater(b, c);
    ReachIsLater(a, c);
  }

  lemma PairsEqual(a: Status, b: Status, x: Status, y: Status)
    ensures {a, b} == {x, y} <==> (a == x && b == y) || (a == y && b == x)
  {
    if {a, b} == {x, y} {
      assert x in {a, b} && y in {a, b} && a in {x, y} && b in {x, y};
    }
  }

  /** Two different statuses reach each other only in the refund retry cycle. */
  lemma OnlyCycle(a: Status, b: Status)
    requires a != b
    ensures Reach(a, b) && Reach(b, a) <==> {a, b} == {REFUND_INITIATED, REFUND_FAILED}
  {
    hide Reach;
    assert {a, b} == {REFUND_INITIATED, REFUND_FAILED} <==> (a == REFUND_INITIATED && b == REFUND_FAILED) || (a == REFUND_FAILED && b == REFUND_INITIATED) by {
      PairsEqual(a, b, REFUND_INITIATED, REFUND_FAILED);
    }
    ReachIsLater(a, b);
    ReachIsLater(b, a);
  }

  /** REFUNDED is absorbing, and CONFIRMED once left is never entered again. */
  lemma FinalStatuses(a: Status, b: Status)
    requires Reach(a, b)
    ensures a == REFUNDED ==> b == REFUNDED
    ensures b == CONFIRMED ==> a in {PENDING, LOCKED, PAYMENT_IN_PROGRESS, CONFIRMED}
    ensures a == CONFIRMED && b != CONFIRMED ==> !Reach(b, CONFIRMED)
  {
    ReachIsLater(a, b);
    ReachIsLater(b, CONFIRMED);
  }

  lemma ChainOfTwo(a: Status, b: Status)
    ensures Chain([a, b]) <==> b in Next(a)
  {
    var p := [a, b];
    assert p[0 + 1] == b && p[0] == a;
  }

  datatype TransitionError = InvalidTransition(from: Status, to: Status)

  /** Throws unless the table has the step. */
  function ValidateTransition(from: Status, to: Status): (r: Result<(), TransitionError>)
    ensures r.Ok? <==> Chain([from, to])
    ensures r.Ok? ==> Reach(from, to)
    ensures r.Err? ==> r.error == InvalidTransition(from, to)
  {
    ChainOfTwo(from, to);
    if to in Next(from) then
      ReachSelf(from);
      ReachNext(from, from, to);
      Ok(())
    else Err(InvalidTransition(from, to))
  }
}
