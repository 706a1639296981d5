/** Booking and failure rates per tenant, from lists pruned to the last minute, against the
    complete history of events. */
module AnomalyWindow {

  type Id = string

  datatype Kind = Booking | Failure

  /** Something recorded for a tenant at a time in milliseconds. */
  datatype Event = Event(tenant: Id, kind: Kind, at: int)

  datatype Metrics = Metrics(bookings: seq<int>, failures: seq<int>)
  datatype Health = Health(anomaly: bool, bookings: nat, failures: nat)

  const WINDOW := 60000
  const BOOKINGS_PER_MINUTE := 50
  const FAILURES_PER_MINUTE := 30

  function Recent(times: seq<int>, since: int): seq<int> {
    if times == [] then []
    else
      var n := |times| - 1;
      if times[n] > since then Recent(times[..n], since) + [times[n]] else Recent(times[..n], since)
  }

  // ---------------------------------------------------------------- the complete history

  function Times(h: seq<Event>, tenant: Id, kind: Kind): seq<int> {
    if h == [] then []
    else
      var n := |h| - 1;
      if h[n].tenant == tenant && h[n].kind == kind then Times(h[..n], tenant, kind) + [h[n].at] else Times(h[..n], tenant, kind)
  }

  /** How many events of a kind the whole history holds for the minute before `now`. */
  function Rate(h: seq<Event>, tenant: Id, kind: Kind, now: int): nat {
    |Recent(Times(h, tenant, kind), now - WINDOW)|
  }

  predicate Anomalous(h: seq<Event>, tenant: Id, now: int) {
    Rate(h, tenant, Booking, now) > BOOKINGS_PER_MINUTE || Rate(h, tenant, Failure, now) > FAILURES_PER_MINUTE
  }

  function OnlyOf(h: seq<Event>, tenant: Id): seq<Event> {
    if h == [] then []
    else
      var n := |h| - 1;
      if h[n].tenant == tenant then OnlyOf(h[..n], tenant) + [h[n]] else OnlyOf(h[..n], tenant)
  }

  lemma {:induction false} TimesOfOwnEvents(h: seq<Event>, tenant: Id, kind: Kind)
    ensures Times(OnlyOf(h, tenant), tenant, kind) == Times(h, tenant, kind)
  {
    if h != [] {
      var n := |h| - 1;
      TimesOfOwnEvents(h[..n], tenant, kind);
      assert (OnlyOf(h[..n], tenant) + [h[n]])[..|OnlyOf(h[..n], tenant)|] == OnlyOf(h[..n], tenant);
    }
  }

  /** What other tenants do never shows in a tenant's rates or flag. */
  lemma RatesIgnoreOthers(h1: seq<Event>, h2: seq<Event>, tenant: Id, now: int)
    requires OnlyOf(h1, tenant) == OnlyOf(h2, tenant)
    ensures Rate(h1, tenant, Booking, now) == Rate(h2, tenant, Booking, now)
    ensures Rate(h1, tenant, Failure, now) == Rate(h2, tenant, Failure, now)
    ensures Anomalous(h1, tenant, now) <==> Anomalous(h2, tenant, now)
  {
    TimesOfOwnEvents(h1, tenant, Booking);
    TimesOfOwnEvents(h2, tenant, Booking);
    TimesOfOwnEvents(h1, tenant, Failure);
    TimesOfOwnEvents(h2, tenant, Failure);
  }

  /** The events of the last minute, by their places in the history. */
  function LastMinute(h: seq<Event>, tenant: Id, kind: Kind, now: int): set<nat> {
    set i: nat | i < |h| && h[i].tenant == tenant && h[i].kind == kind && h[i].at > now - 60000
  }

  lemma OneEventMore(h: seq<Event>, e: Event, tenant: Id, kind: Kind, now: int)
    ensures var before := LastMinute(h, tenant, kind, now);
            |LastMinute(h + [e], tenant, kind, now)| == |before| + if e.tenant == tenant && e.kind == kind && e.at > now - 60000 then 1 else 0
  {
    var before, after := LastMinute(h, tenant, kind, now), LastMinute(h + [e], tenant, kind, now);
    assert forall i: nat | i < |h| :: (h + [e])[i] == h[i];
    if e.tenant == tenant && e.kind == kind && e.at > now - 60000 {
      assert after == before + {|h|} && |h| !in before;
    } else {
      assert after == before;
    }
  }

  lemma OneTimeMore(h: seq<Event>, e: Event, tenant: Id, kind: Kind, now: int)
    ensures Rate(h + [e], tenant, kind, now) ==
            Rate(h, tenant, kind, now) + if e.tenant == tenant && e.kind == kind && e.at > now - 60000 then 1 else 0
  {
    assert (h + [e])[..|h|] == h;
    var times := Times(h, tenant, kind);
    assert (times + [e.at])[..|times|] == times;
  }

  /** The rates count exactly those. */
  lemma {:induction false} RateCounts(h: seq<Event>, tenant: Id, kind: Kind, now: int)
    ensures Rate(h, tenant, kind, now) == |LastMinute(h, tenant, kind, now)|
  {
    if h == [] {
      assert LastMinute(h, tenant, kind, now) == {};
    } else {
      var n := |h| - 1;
      hide Rate, LastMinute;
      RateCounts(h[..n], tenant, kind, now);
      OneEventMore(h[..n], h[n], tenant, kind, now);
      OneTimeMore(h[..n], h[n], tenant, kind, now);
      assert h == h[..n] + [h[n]];
    }
  }

  // ---------------------------------------------------------------- pruning

  lemma {:induction false} RecentIsRecent(times: seq<int>, since: int)
    ensures forall i | 0 <= i < |Recent(times, since)| :: Recent(times, since)[i] > since
    ensures forall t | t in Recent(times, since) :: t in times
    ensures |Recent(times, since)| <= |times|
    ensures forall t | t in times && t > since :: t in Recent(times, since)
  {
    if times != [] { RecentIsRecent(times[..|times| - 1], since); }
  }

  /** Pruning loses nothing that a later cut-off would keep. */
  lemma {:induction false} PruneThenCount(times: seq<int>, cut: int, since: int)
    requires cut <= since
    ensures Recent(Recent(times, cut), since) == Recent(times, since)
  {
    if times != [] {
      var n := |times| - 1;
      var kept := Recent(times[..n], cut);
      PruneThenCount(times[..n], cut, since);
      assert (kept + [times[n]])[..|kept|] == kept;
    }
  }

  /** Pruned at `cut` and counted from `since`, a list gives the full answer exactly when it has
      nothing after `since` but not after `cut`: so a clock that steps back after a pruning can
      make the answer wrong. */
  lemma {:induction false} PruneExactlyWhen(times: seq<int>, cut: int, since: int)
    ensures Recent(Recent(times, cut), since) == Recent(times, since)
       <==> forall t | t in times && t > since :: t > cut
  {
    if cut <= since {
      PruneThenCount(times, cut, since);
    } else {
      RecentIsRecent(Recent(times, cut), since);
      RecentIsRecent(times, since);
      RecentIsRecent(times, cut);
      if forall t | t in times && t > since :: t > cut {
        SameRecent(times, cut, since);
        KeepAll(Recent(times, cut), since);
      }
    }
  }

  lemma {:induction false} SameRecent(times: seq<int>, cut: int, since: int)
    requires cut >= since && forall t | t in times && t > since :: t > cut
    ensures Recent(times, cut) == Recent(times, since)
  {
    if times != [] {
      var n := |times| - 1;
      assert times[n] in times && forall t | t in times[..n] :: t in times;
      SameRecent(times[..n], cut, since);
    }
  }

  lemma {:induction false} KeepAll(times: seq<int>, since: int)
    requires forall t | t in times :: t > since
    ensures Recent(times, since) == times
  {
    if times != [] {
      var n := |times| - 1;
      assert times[n] in times && forall t | t in times[..n] :: t in times;
      KeepAll(times[..n], since);
      assert times[..n] + [times[n]] == times;
    }
  }

  /** The list may stand in for the full times from `from` on. */
  ghost predicate StandsIn(list: seq<int>, full: seq<int>, from: int) {
    forall since | since >= from :: Recent(list, since) == Recent(full, since)
  }

  lemma StandsInLater(list: seq<int>, full: seq<int>, from: int, later: int)
    requires StandsIn(list, full, from) && from <= later
    ensures StandsIn(list, full, later)
    ensures StandsIn(Recent(list, later), full, later)
  {
    forall since | since >= later ensures Recent(Recent(list, later), since) == Recent(full, since) {
      PruneThenCount(list, later, since);
    }
  }

  lemma StandsInPush(list: seq<int>, full: seq<int>, from: int, t: int)
    requires StandsIn(list, full, from)
    ensures StandsIn(list + [t], full + [t], from)
  {
    assert (list + [t])[..|list|] == list && (full + [t])[..|full|] == full;
  }

  // ---------------------------------------------------------------- the service

  function Of(m: map<Id, Metrics>, tenant: Id, kind: Kind): seq<int> {
    if tenant !in m then [] else match kind case Booking => m[tenant].bookings case Failure => m[tenant].failures
  }

  /** Every tenant's lists may stand in for its complete history from `from` on. */
  ghost predicate Faithful(m: map<Id, Metrics>, h: seq<Event>, from: int) {
    forall tenant: Id, kind: Kind :: StandsIn(Of(m, tenant, kind), Times(h, tenant, kind), from)
  }

  class AnomalyDetectionService {
    var metrics: map<Id, Metrics>
    ghost var history: seq<Event>
    ghost var clock: int                   // the latest time any call has seen

    ghost predicate Valid()
      reads this
    {
      Faithful(metrics, history, clock - WINDOW)
    }

    constructor (ghost now: int)
      ensures Valid() && history == [] && clock == now
    {
      metrics, history, clock := map[], [], now;
    }

    /** `pushed` and `now` are the clock at the push and, a moment later, in `evaluate`. */
    method TrackBooking(tenant: Id, pushed: int, now: int) returns (anomaly: bool)
      requires Valid() && clock <= pushed <= now
      modifies this
      ensures Valid() && clock == now && history == old(history) + [Event(tenant, Booking, pushed)]
      ensures anomaly <==> Anomalous(history, tenant, now)
      ensures anomaly <==> |LastMinute(history, tenant, Booking, now)| > 50 || |LastMinute(history, tenant, Failure, now)| > 30
    {
      GetMetrics(tenant);
      var own := metrics[tenant];
      own := own.(bookings := own.bookings + [pushed]);
      anomaly := Evaluate(tenant, own, Booking, pushed, now);
      RateCounts(history, tenant, Booking, now);
      RateCounts(history, tenant, Failure, now);
    }

    method TrackFailure(tenant: Id, pushed: int, now: int) returns (anomaly: bool)
      requires Valid() && clock <= pushed <= now
      modifies this
      ensures Valid() && clock == now && history == old(history) + [Event(tenant, Failure, pushed)]
      ensures anomaly <==> Anomalous(history, tenant, now)
      ensures anomaly <==> |LastMinute(history, tenant, Booking, now)| > 50 || |LastMinute(history, tenant, Failure, now)| > 30
    {
      GetMetrics(tenant);
      var own := metrics[tenant];
      own := own.(failures := own.failures + [pushed]);
      anomaly := Evaluate(tenant, own, Failure, pushed, now);
      RateCounts(history, tenant, Booking, now);
      RateCounts(history, tenant, Failure, now);
    }

    method GetHealth(tenant: Id, now: int) returns (h: Health)
      requires Valid() && clock <= now
      ensures h == Health(Anomalous(history, tenant, now), Rate(history, tenant, Booking, now), Rate(history, tenant, Failure, now))
      ensures var bookings, failures := |LastMinute(history, tenant, Booking, now)|, |LastMinute(history, tenant, Failure, now)|;
              h == Health(bookings > 50 || failures > 30, bookings, failures)
    {
      RateCounts(history, tenant, Booking, now);
      RateCounts(history, tenant, Failure, now);
      var minuteAgo := now - WINDOW;
      assert Recent(Of(metrics, tenant, Booking), minuteAgo) == Recent(Times(history, tenant, Booking), minuteAgo);
      assert Recent(Of(metrics, tenant, Failure), minuteAgo) == Recent(Times(history, tenant, Failure), minuteAgo);
      if tenant !in metrics { return Health(false, 0, 0); }
      var bookings := Prune(metrics[tenant].bookings, minuteAgo);
      var failures := Prune(metrics[tenant].failures, minuteAgo);
      return Health(|bookings| > BOOKINGS_PER_MINUTE || |failures| > FAILURES_PER_MINUTE, |bookings|, |failures|);
    }

    method GetMetrics(tenant: Id)
      requires Valid()
      modifies this`metrics
      ensures Valid() && metrics == old(if tenant in metrics then metrics else metrics[tenant := Metrics([], [])])
    {
      if tenant !in metrics {
        metrics := metrics[tenant := Metrics([], [])];
        assert forall t: Id, kind: Kind :: Of(metrics, t, kind) == Of(old(metrics), t, kind);
      }
    }

    /** Prunes both lists of the tenant, then compares what is left with the thresholds. */
    method Evaluate(tenant: Id, own: Metrics, ghost kind: Kind, ghost pushed: int, now: int) returns (anomaly: bool)
      requires Valid() && clock <= pushed <= now && tenant in metrics
      requires own == if kind == Booking then metrics[tenant].(bookings := metrics[tenant].bookings + [pushed])
                      else metrics[tenant].(failures := metrics[tenant].failures + [pushed])
      modifies this
      ensures Valid() && clock == now && history == old(history) + [Event(tenant, kind, pushed)]
      ensures anomaly <==> Anomalous(history, tenant, now)
    {
      hide Recent, Faithful, Times;
      var minuteAgo := now - WINDOW;
      var bookings := Prune(own.bookings, minuteAgo);
      var failures := Prune(own.failures, minuteAgo);
      metrics := metrics[tenant := Metrics(bookings, failures)];
      anomaly := |bookings| > BOOKINGS_PER_MINUTE || |failures| > FAILURES_PER_MINUTE;
      history := history + [Event(tenant, kind, pushed)];
      clock := now;
      Evaluated(old(metrics), own, old(history), Event(tenant, kind, pushed), old(clock) - WINDOW, minuteAgo);
    }
  }

  /** One tenant's list of one kind, after another event was recorded and its tenant pruned. */
  lemma StillStandsIn(before: map<Id, Metrics>, own: Metrics, h: seq<Event>, e: Event, from: int, later: int, t: Id, k: Kind)
    requires e.tenant in before && from <= later && StandsIn(Of(before, t, k), Times(h, t, k), from)
    requires own == if e.kind == Booking then before[e.tenant].(bookings := before[e.tenant].bookings + [e.at])
                    else before[e.tenant].(failures := before[e.tenant].failures + [e.at])
    ensures StandsIn(Of(before[e.tenant := Metrics(Recent(own.bookings, later), Recent(own.failures, later))], t, k), Times(h + [e], t, k), later)
  {
    hide Recent, StandsIn;
    assert (h + [e])[..|h|] == h;
    var list, full := Of(before, t, k), Times(h, t, k);
    StandsInPush(list, full, from, e.at);
    StandsInLater(list, full, from, later);
    StandsInLater(list + [e.at], full + [e.at], from, later);
  }

  /** All lists after that, and what is left of the tenant's own. */
  lemma Evaluated(before: map<Id, Metrics>, own: Metrics, h: seq<Event>, e: Event, from: int, later: int)
    requires e.tenant in before && from <= later && Faithful(before, h, from)
    requires own == if e.kind == Booking then before[e.tenant].(bookings := before[e.tenant].bookings + [e.at])
                    else before[e.tenant].(failures := before[e.tenant].failures + [e.at])
    ensures Faithful(before[e.tenant := Metrics(Recent(own.bookings, later), Recent(own.failures, later))], h + [e], later)
    ensures Recent(own.bookings, later) == Recent(Times(h + [e], e.tenant, Booking), later)
    ensures Recent(own.failures, later) == Recent(Times(h + [e], e.tenant, Failure), later)
  {
    var after := before[e.tenant := Metrics(Recent(own.bookings, later), Recent(own.failures, later))];
    hide Recent, StandsIn, Times;
    forall t: Id, k: Kind ensures StandsIn(Of(after, t, k), Times(h + [e], t, k), later) {
      StillStandsIn(before, own, h, e, from, later, t, k);
    }
    PrunedStandsIn(own.bookings, Times(h + [e], e.tenant, Booking), later);
    PrunedStandsIn(own.failures, Times(h + [e], e.tenant, Failure), later);
  }

  lemma PrunedStandsIn(list: seq<int>, full: seq<int>, since: int)
    ensures StandsIn(Recent(list, since), full, since) ==> Recent(list, since) == Recent(full, since)
  {
    PruneThenCount(list, since, since);
  }

  /** The filter, as a loop. */
  method Prune(times: seq<int>, since: int) returns (kept: seq<int>)
    ensures kept == Recent(times, since)
  {
    kept := [];
    for i := 0 to |times|
      invariant kept == Recent(times[..i], since)
    {
      assert times[..i + 1][..i] == times[..i];
      if times[i] > since { kept := kept + [times[i]]; }
    }
    assert times[..|times|] == times;
  }
}
