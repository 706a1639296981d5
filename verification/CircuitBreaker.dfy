/** The circuit breaker in front of the payment gateway, against the history of what it saw. */
module CircuitBreaker {

  const THRESHOLD := 5
  const COOLDOWN := 120000
  const WINDOW := 60000

  /** Checks before a gateway call, and the outcomes of calls, in the order they are recorded.
      Calls overlap freely: an outcome may come long after its check. */
  datatype Event = Check(time: int) | Failure(time: int) | Success(time: int)

  datatype CircuitState = CLOSED | OPEN | HALF_OPEN
  datatype Circuit = Circuit(state: CircuitState, failures: nat, lastError: int)

  const FRESH := Circuit(CLOSED, 0, 0)

  function Step(c: Circuit, e: Event): Circuit {
    match e
    case Check(now) => if c.state == OPEN && now - c.lastError > COOLDOWN then c.(state := HALF_OPEN) else c
    case Failure(now) =>
      var failures := (if now - c.lastError > WINDOW then 0 else c.failures) + 1;
      Circuit(if failures >= THRESHOLD then OPEN else c.state, failures, now)
    case Success(_) => c.(state := CLOSED, failures := 0)
  }

  /** `checkCircuit` throws. */
  predicate Rejects(c: Circuit, now: int) { c.state == OPEN && now - c.lastError <= COOLDOWN }

  function After(h: seq<Event>): Circuit {
    if h == [] then FRESH else Step(After(h[..|h| - 1]), h[|h| - 1])
  }

  // ---------------------------------------------------------------- reading the history

  predicate Monotone(h: seq<Event>) { forall i, j | 0 <= i <= j < |h| :: h[i].time <= h[j].time }

  /** Times of the failures recorded since the last success. */
  function FailuresSinceSuccess(h: seq<Event>): seq<int> {
    if h == [] then []
    else
      var n := |h| - 1;
      match h[n]
      case Success(_) => []
      case Failure(t) => FailuresSinceSuccess(h[..n]) + [t]
      case Check(_) => FailuresSinceSuccess(h[..n])
  }

  /** The last k of these failures follow one another within the window, and k is the most there are. */
  predicate LongestStreak(f: seq<int>, k: nat) {
    && k <= |f| && (f != [] ==> k >= 1)
    && (forall i | |f| - k < i < |f| :: f[i] - f[i - 1] <= 60000)
    && (0 < k < |f| ==> f[|f| - k] - f[|f| - k - 1] > 60000)
  }

  ghost predicate StreakReaches(f: seq<int>, n: nat) { exists k: nat :: LongestStreak(f, k) && k >= n }

  /** When the last failure was; the breaker starts out as if it had been at 0. */
  function LastFailure(h: seq<Event>): int {
    if h == [] then 0 else if h[|h| - 1].Failure? then h[|h| - 1].time else LastFailure(h[..|h| - 1])
  }

  function FailureCount(h: seq<Event>): nat {
    if h == [] then 0 else FailureCount(h[..|h| - 1]) + if h[|h| - 1].Failure? then 1 else 0
  }

  /** At index i a failure made a streak of five or more. */
  ghost predicate OpensAt(h: seq<Event>, i: nat) {
    i < |h| && h[i].Failure? && StreakReaches(FailuresSinceSuccess(h[..i + 1]), 5)
  }

  /** From index i on nothing has let the breaker off: no success, and no check more than the
      cooldown after the failure before it. */
  predicate HeldSince(h: seq<Event>, i: nat) {
    forall j | i < j < |h| ::
      !h[j].Success? && (h[j].Check? ==> h[j].time - LastFailure(h[..j]) <= 120000)
  }

  ghost predicate Tripped(h: seq<Event>) { exists i: nat :: OpensAt(h, i) && HeldSince(h, i) }

  // ---------------------------------------------------------------- the count is the streak

  lemma {:induction false} LastErrorIsLastFailure(h: seq<Event>)
    ensures After(h).lastError == LastFailure(h)
  {
    if h != [] { LastErrorIsLastFailure(h[..|h| - 1]); }
  }

  lemma {:induction false} RecentFailureIsLast(h: seq<Event>)
    ensures FailuresSinceSuccess(h) != [] ==>
              LastFailure(h) == FailuresSinceSuccess(h)[|FailuresSinceSuccess(h)| - 1]
  {
    if h != [] { RecentFailureIsLast(h[..|h| - 1]); }
  }

  lemma StreakIsUnique(f: seq<int>, j: nat, k: nat)
    requires LongestStreak(f, j) && LongestStreak(f, k)
    ensures j == k
  {}

  lemma StreakGrows(f: seq<int>, k: nat, t: int)
    requires LongestStreak(f, k)
    ensures LongestStreak(f + [t], if f != [] && t - f[|f| - 1] <= 60000 then k + 1 else 1)
  {
    var g := f + [t];
    assert forall i | 0 <= i < |f| :: g[i] == f[i];
  }

  /** The counter is the length of the current failure streak, after every history. */
  lemma {:induction false} CountIsStreak(h: seq<Event>)
    ensures LongestStreak(FailuresSinceSuccess(h), After(h).failures)
  {
    if h != [] {
      var n := |h| - 1;
      var before := h[..n];
      var f, k := FailuresSinceSuccess(before), After(before).failures;
      CountIsStreak(before);
      LastErrorIsLastFailure(before);
      RecentFailureIsLast(before);
      Unfold(h);
      hide LongestStreak, LastFailure, After, FailuresSinceSuccess;
      NoFailureNoStreak(f, k);
      NothingIsAStreak();
      if h[n].Failure? { StreakGrows(f, k, h[n].time); }
    } else {
      NothingIsAStreak();
    }
  }

  lemma Unfold(h: seq<Event>)
    requires h != []
    ensures var n := |h| - 1;
            After(h) == Step(After(h[..n]), h[n])
            && (h[n].Failure? ==> FailuresSinceSuccess(h) == FailuresSinceSuccess(h[..n]) + [h[n].time])
            && (h[n].Success? ==> FailuresSinceSuccess(h) == [])
            && (h[n].Check? ==> FailuresSinceSuccess(h) == FailuresSinceSuccess(h[..n]))
  {}

  lemma NoFailureNoStreak(f: seq<int>, k: nat)
    requires LongestStreak(f, k)
    ensures f == [] ==> k == 0
  {}

  lemma NothingIsAStreak()
    ensures LongestStreak([], 0)
  {}

  // ---------------------------------------------------------------- when calls are rejected

  lemma Prefixes(h: seq<Event>, n: nat, i: nat)
    requires n == |h| - 1 && i < n
    ensures OpensAt(h, i) <==> OpensAt(h[..n], i)
    ensures HeldSince(h, i) <==> HeldSince(h[..n], i) && !h[n].Success? && (h[n].Check? ==> h[n].time - LastFailure(h[..n]) <= 120000)
  {
    hide LongestStreak, FailuresSinceSuccess, LastFailure;
    assert h[..n][..i + 1] == h[..i + 1];
    forall j | i < j < n ensures h[..n][j] == h[j] && h[..n][..j] == h[..j] {}
  }

  lemma OpensAtLast(h: seq<Event>)
    requires h != []
    ensures OpensAt(h, |h| - 1) <==> h[|h| - 1].Failure? && After(h).failures >= 5
    ensures HeldSince(h, |h| - 1)
  {
    hide LongestStreak, FailuresSinceSuccess, After;
    assert h[..|h| - 1 + 1] == h;
    CountIsStreak(h);
    forall k: nat | LongestStreak(FailuresSinceSuccess(h), k) ensures k == After(h).failures {
      StreakIsUnique(FailuresSinceSuccess(h), k, After(h).failures);
    }
  }

  /** The breaker is open exactly when some failure made a streak of five and nothing has let
      it off since. */
  lemma {:induction false} OpenExactlyWhenTripped(h: seq<Event>)
    ensures After(h).state == OPEN <==> Tripped(h)
  {
    if h != [] {
      var n := |h| - 1;
      var before := h[..n];
      OpenExactlyWhenTripped(before);
      LastErrorIsLastFailure(before);
      hide OpensAt, HeldSince, LastFailure;
      OpensAtLast(h);
      forall i: nat | i < n
        ensures OpensAt(h, i) <==> OpensAt(before, i)
        ensures HeldSince(h, i) <==> HeldSince(before, i) && !h[n].Success? && (h[n].Check? ==> h[n].time - LastFailure(before) <= 120000)
      {
        Prefixes(h, n, i);
      }
      OpensInside(h);
      OpensInside(before);
    }
  }

  lemma OpensInside(h: seq<Event>)
    ensures forall i: nat | OpensAt(h, i) :: i < |h|
  {}

  /** A call is rejected exactly when the breaker has tripped and not been let off, and the
      cooldown since the last failure is not over; it is admitted in every other case. */
  lemma RejectedExactlyWhen(h: seq<Event>, now: int)
    ensures Rejects(After(h), now) <==> Tripped(h) && now - LastFailure(h) <= 120000
  {
    OpenExactlyWhenTripped(h);
    LastErrorIsLastFailure(h);
  }

  /** It opens only on a failure that makes the streak at least five. */
  lemma OpensOnlyOnAStreak(h: seq<Event>, e: Event)
    requires After(h).state != OPEN && After(h + [e]).state == OPEN
    ensures e.Failure? && After(h + [e]).failures >= 5
    ensures LongestStreak(FailuresSinceSuccess(h + [e]), After(h + [e]).failures)
  {
    assert (h + [e])[..|h|] == h;
    CountIsStreak(h + [e]);
  }

  /** At index j the breaker is let off: a success, or a check later than the cooldown. */
  predicate LetOffAt(h: seq<Event>, j: nat) {
    j < |h| && (h[j].Success? || (h[j].Check? && h[j].time - LastFailure(h[..j]) > COOLDOWN))
  }

  lemma LetOffEarlier(h: seq<Event>, n: nat, j: nat)
    requires n == |h| - 1 && j < n
    ensures LetOffAt(h, j) <==> LetOffAt(h[..n], j)
  {
    assert h[..n][..j] == h[..j];
  }

  /** What closes an open breaker in one event. */
  lemma ClosedByLettingOff(h: seq<Event>, e: Event)
    requires After(h).state == OPEN && After(h + [e]).state != OPEN
    ensures LetOffAt(h + [e], |h|)
  {
    LastErrorIsLastFailure(h);
    assert (h + [e])[..|h|] == h;
  }

  /** Once open, a call gets through only after a success, or after some check that came more
      than the cooldown after the failure before it: this call's own check, if no other. */
  lemma {:induction false} AdmissionAfterOpening(h: seq<Event>, rest: seq<Event>, now: int)
    requires After(h).state == OPEN && !Rejects(After(h + rest), now)
    ensures (exists j: nat :: j >= |h| && LetOffAt(h + rest, j)) || now - LastFailure(h + rest) > 120000
  {
    LastErrorIsLastFailure(h + rest);
    if After(h + rest).state != OPEN { ClosedOnTheWay(h, rest); }
  }

  lemma {:induction false} ClosedOnTheWay(h: seq<Event>, rest: seq<Event>)
    requires After(h).state == OPEN && After(h + rest).state != OPEN
    ensures exists j: nat :: j >= |h| && LetOffAt(h + rest, j)
    decreases |rest|
  {
    hide After, LetOffAt;
    assert h + [] == h;
    if rest != [] {
      var n := |rest| - 1;
      var before := h + rest[..n];
      assert h + rest == before + [rest[n]] && (h + rest)[..|h + rest| - 1] == before;
      if After(before).state == OPEN {
        ClosedByLettingOff(before, rest[n]);
      } else {
        ClosedOnTheWay(h, rest[..n]);
        var j: nat :| j >= |h| && LetOffAt(before, j);
        LetOffInside(before, j);
        LetOffEarlier(h + rest, |before|, j);
      }
    }
  }

  lemma LetOffInside(h: seq<Event>, j: nat)
    requires LetOffAt(h, j)
    ensures j < |h|
  {}

  // ---------------------------------------------------------------- reopening

  /** Failures recorded after the first `k` events. */
  function FailuresAfter(h: seq<Event>, k: nat): int
    requires k <= |h|
  {
    FailureCount(h) - FailureCount(h[..k])
  }

  /** Since the check at index k let calls through again, the counter has only counted new failures. */
  lemma {:induction false} CountsAnew(h: seq<Event>, k: nat)
    requires Monotone(h) && k < |h| && h[k].Check? && After(h[..k]).state == OPEN && After(h[..k + 1]).state == HALF_OPEN
    ensures FailuresAfter(h, k + 1) >= 0
    ensures FailuresAfter(h, k + 1) == 0 ==> After(h).lastError < h[k].time - 120000
    ensures FailuresAfter(h, k + 1) > 0 ==> After(h).failures <= FailuresAfter(h, k + 1)
    ensures FailuresAfter(h, k + 1) < 5 ==> After(h).state != OPEN
    decreases |h|
  {
    if k + 1 == |h| {
      assert h[..k + 1] == h && h[..|h| - 1] == h[..k];
    } else {
      var n := |h| - 1;
      assert h[..n][..k] == h[..k] && h[..n][..k + 1] == h[..k + 1];
      CountsAnew(h[..n], k);
      assert h[k].time <= h[n].time;
    }
  }

  /** After a half-open trial, opening again takes five further failures. */
  lemma ReopeningTakesFiveFailures(h: seq<Event>, k: nat)
    requires Monotone(h) && k < |h| && h[k].Check? && After(h[..k]).state == OPEN && After(h[..k + 1]).state == HALF_OPEN
    requires After(h).state == OPEN
    ensures FailuresAfter(h, k + 1) >= 5
  {
    CountsAnew(h, k);
  }

  lemma AfterNext(h: seq<Event>, e: Event)
    ensures After(h + [e]) == Step(After(h), e)
  {
    assert (h + [e])[..|h|] == h;
  }

  /** In particular a failed trial does not reopen the breaker: the next call is admitted at once,
      however recent the failure. */
  lemma FailedTrialDoesNotReopen(h: seq<Event>, trial: int, failed: int, now: int)
    requires After(h).state == OPEN && trial - LastFailure(h) > 120000 && trial <= failed
    ensures !Rejects(After(h + [Check(trial)] + [Failure(failed)]), now)
  {
    LastErrorIsLastFailure(h);
    AfterNext(h, Check(trial));
    AfterNext(h + [Check(trial)], Failure(failed));
  }

  // ---------------------------------------------------------------- the service

  class PaymentCircuit {
    var circuitState: CircuitState
    var failureCount: nat
    var lastErrorTime: int
    ghost var history: seq<Event>

    ghost predicate Valid()
      reads this
    {
      Circuit(circuitState, failureCount, lastErrorTime) == After(history)
    }

    constructor ()
      ensures Valid() && history == []
    {
      circuitState, failureCount, lastErrorTime, history := CLOSED, 0, 0, [];
    }

    method CheckCircuit(now: int) returns (admitted: bool)
      requires Valid()
      modifies this
      ensures Valid() && history == old(history) + [Check(now)]
      ensures !admitted <==> Tripped(old(history)) && now - LastFailure(old(history)) <= 120000
      ensures failureCount == old(failureCount) && lastErrorTime == old(lastErrorTime)
    {
      RejectedExactlyWhen(history, now);
      AfterNext(history, Check(now));
      history := history + [Check(now)];
      if circuitState == OPEN {
        if now - lastErrorTime > COOLDOWN {
          circuitState := HALF_OPEN;
        } else {
          return false;
        }
      }
      return true;
    }

    method RecordFailure(now: int)
      requires Valid()
      modifies this
      ensures Valid() && history == old(history) + [Failure(now)] && lastErrorTime == now
      ensures LongestStreak(FailuresSinceSuccess(history), failureCount)
      ensures circuitState == if failureCount >= 5 then OPEN else old(circuitState)
    {
      AfterNext(history, Failure(now));
      history := history + [Failure(now)];
      if now - lastErrorTime > WINDOW { failureCount := 0; }
      failureCount := failureCount + 1;
      lastErrorTime := now;
      if failureCount >= THRESHOLD { circuitState := OPEN; }
      CountIsStreak(history);
    }

    method RecordSuccess(now: int)
      requires Valid()
      modifies this
      ensures Valid() && history == old(history) + [Success(now)]
      ensures circuitState == CLOSED && failureCount == 0 && lastErrorTime == old(lastErrorTime)
      ensures !Tripped(history)
    {
      AfterNext(history, Success(now));
      history := history + [Success(now)];
      failureCount := 0;
      circuitState := CLOSED;
      OpenExactlyWhenTripped(history);
    }
  }
}
