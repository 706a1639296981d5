/** Offline batch upload: replaying any part of a batch, at any later time, changes nothing. */
module OfflineSync {
  import opened Outcomes
  import opened Scans

  datatype Offline = Offline(token: string, at: int)

  /** The batch, one transaction per scan, in order. */
  function SyncAll(c: Config, db: DB, uploader: Id, tenant: Id, scans: seq<Offline>): DB
    decreases |scans|
  {
    if scans == [] then db
    else
      var n := |scans| - 1;
      SyncOne(c, SyncAll(c, db, uploader, tenant, scans[..n]), uploader, tenant, scans[n].token, scans[n].at)
  }

  predicate RecordedScan(c: Config, db: DB, uploader: Id, tenant: Id, scan: Offline) {
    Recorded(c, db, uploader, tenant, scan.token, scan.at)
  }

  /** What time can do to the tables without issuing tickets: rows are added, tickets keep
      their hash, id and tenant. */
  ghost predicate Grows(before: DB, after: DB) {
    && before.logs <= after.logs && before.queue <= after.queue
    && (forall k | k in before.tickets :: k in after.tickets && after.tickets[k].id == before.tickets[k].id
                                          && after.tickets[k].tenant == before.tickets[k].tenant)
  }

  lemma SyncGrows(c: Config, db: DB, uploader: Id, tenant: Id, token: string, at: int)
    ensures var after := SyncOne(c, db, uploader, tenant, token, at);
            Grows(db, after) && after.tickets.Keys == db.tickets.Keys
  {}

  /** A scan that would write nothing still writes nothing later. */
  lemma StaysSettled(c: Config, before: DB, after: DB, uploader: Id, tenant: Id, scan: Offline)
    requires Grows(before, after) && !RecordedScan(c, before, uploader, tenant, scan)
    requires c.hash(scan.token) in after.tickets ==> c.hash(scan.token) in before.tickets
    ensures !RecordedScan(c, after, uploader, tenant, scan)
  {
    if c.validate(scan.token).Some? {
      var t := c.validate(scan.token).value.t;
      if SeenBefore(before, t, uploader, scan.at) {
        assert SeenBefore(after, t, uploader, scan.at) by {
          assert forall i | 0 <= i < |before.logs| :: after.logs[i] == before.logs[i];
          assert forall i | 0 <= i < |before.queue| :: after.queue[i] == before.queue[i];
        }
      }
    }
  }

  /** A scan that has just been processed is settled: the audit rows carry the token's own ticket. */
  lemma SyncSettles(c: Config, db: DB, uploader: Id, tenant: Id, scan: Offline)
    requires TokensNameTickets(c, db.tickets)
    ensures !RecordedScan(c, SyncOne(c, db, uploader, tenant, scan.token, scan.at), uploader, tenant, scan)
  {
    if RecordedScan(c, db, uploader, tenant, scan) {
      var after := SyncOne(c, db, uploader, tenant, scan.token, scan.at);
      assert after.queue[|db.queue|].ticket == c.validate(scan.token).value.t;
    }
  }

  lemma {:induction false} BatchSettles(c: Config, db: DB, uploader: Id, tenant: Id, scans: seq<Offline>)
    requires TokensNameTickets(c, db.tickets)
    ensures var after := SyncAll(c, db, uploader, tenant, scans);
            Grows(db, after) && after.tickets.Keys == db.tickets.Keys && TokensNameTickets(c, after.tickets)
            && forall i | 0 <= i < |scans| :: !RecordedScan(c, after, uploader, tenant, scans[i])
    decreases |scans|
  {
    if scans != [] {
      var n := |scans| - 1;
      var mid := SyncAll(c, db, uploader, tenant, scans[..n]);
      var after := SyncAll(c, db, uploader, tenant, scans);
      BatchSettles(c, db, uploader, tenant, scans[..n]);
      hide Recorded, TokensNameTickets;
      SyncGrows(c, mid, uploader, tenant, scans[n].token, scans[n].at);
      SyncSettles(c, mid, uploader, tenant, scans[n]);
      NamesKept(c, mid.tickets, after.tickets);
      forall i | 0 <= i < n ensures !RecordedScan(c, after, uploader, tenant, scans[i]) {
        assert scans[..n][i] == scans[i];
        StaysSettled(c, mid, after, uploader, tenant, scans[i]);
      }
    }
  }

  lemma {:induction false} SettledBatchIsNoOp(c: Config, db: DB, uploader: Id, tenant: Id, scans: seq<Offline>)
    requires forall i | 0 <= i < |scans| :: !RecordedScan(c, db, uploader, tenant, scans[i])
    ensures SyncAll(c, db, uploader, tenant, scans) == db
    decreases |scans|
  {
    if scans != [] {
      var n := |scans| - 1;
      forall i | 0 <= i < n ensures !RecordedScan(c, db, uploader, tenant, scans[..n][i]) {
        assert scans[..n][i] == scans[i];
      }
      SettledBatchIsNoOp(c, db, uploader, tenant, scans[..n]);
    }
  }

  lemma {:induction false} SyncConcat(c: Config, db: DB, uploader: Id, tenant: Id, xs: seq<Offline>, ys: seq<Offline>)
    ensures SyncAll(c, db, uploader, tenant, xs + ys) == SyncAll(c, SyncAll(c, db, uploader, tenant, xs), uploader, tenant, ys)
    decreases |ys|
  {
    if ys == [] {
      assert xs + ys == xs;
    } else {
      var n := |ys| - 1;
      assert (xs + ys)[..|xs + ys| - 1] == xs + ys[..n];
      SyncConcat(c, db, uploader, tenant, xs, ys[..n]);
    }
  }

  /** Crash and retry: an upload cut short after any number of scans, then repeated in full,
      leaves tickets, queue and logs exactly as one upload does. */
  lemma RetryEqualsOneUpload(c: Config, db: DB, uploader: Id, tenant: Id, scans: seq<Offline>, done: nat)
    requires TokensNameTickets(c, db.tickets) && done <= |scans|
    ensures SyncAll(c, SyncAll(c, db, uploader, tenant, scans[..done]), uploader, tenant, scans)
            == SyncAll(c, db, uploader, tenant, scans)
  {
    var mid := SyncAll(c, db, uploader, tenant, scans[..done]);
    BatchSettles(c, db, uploader, tenant, scans[..done]);
    SettledBatchIsNoOp(c, mid, uploader, tenant, scans[..done]);
    assert scans == scans[..done] + scans[done..];
    SyncConcat(c, mid, uploader, tenant, scans[..done], scans[done..]);
    SyncConcat(c, db, uploader, tenant, scans[..done], scans[done..]);
  }

  // ---------------------------------------------------------------- scans whose transaction throws

  /** Of the first n scans, those whose transactions commit. */
  function Committed(scans: seq<Offline>, throws: set<int>, n: nat): seq<Offline>
    requires n <= |scans|
  {
    if n == 0 then [] else if n - 1 in throws then Committed(scans, throws, n - 1) else Committed(scans, throws, n - 1) + [scans[n - 1]]
  }

  /** ... and those whose transactions throw. */
  function Thrown(scans: seq<Offline>, throws: set<int>, n: nat): seq<Offline>
    requires n <= |scans|
  {
    if n == 0 then [] else if n - 1 in throws then Thrown(scans, throws, n - 1) + [scans[n - 1]] else Thrown(scans, throws, n - 1)
  }

  lemma {:induction false} CommittedHolds(scans: seq<Offline>, throws: set<int>, n: nat, i: nat)
    requires i < n <= |scans| && i !in throws
    ensures scans[i] in Committed(scans, throws, n)
    decreases n
  {
    if i < n - 1 { CommittedHolds(scans, throws, n - 1, i); }
  }

  lemma SyncSnoc(c: Config, db: DB, uploader: Id, tenant: Id, scans: seq<Offline>, scan: Offline)
    ensures SyncAll(c, db, uploader, tenant, scans + [scan]) == SyncOne(c, SyncAll(c, db, uploader, tenant, scans), uploader, tenant, scan.token, scan.at)
  {
    assert (scans + [scan])[..|scans|] == scans;
  }

  /** Scans that are settled at the start of an upload drop out of it. */
  lemma {:induction false} SettledDropOut(c: Config, db: DB, uploader: Id, tenant: Id, scans: seq<Offline>, throws: set<int>, n: nat)
    requires n <= |scans| && forall i | 0 <= i < |scans| && i !in throws :: !RecordedScan(c, db, uploader, tenant, scans[i])
    ensures var after := SyncAll(c, db, uploader, tenant, scans[..n]);
            after == SyncAll(c, db, uploader, tenant, Thrown(scans, throws, n)) && Grows(db, after) && after.tickets.Keys == db.tickets.Keys
    decreases n
  {
    hide SyncOne, RecordedScan;
    if n > 0 {
      SettledDropOut(c, db, uploader, tenant, scans, throws, n - 1);
      var mid := SyncAll(c, db, uploader, tenant, scans[..n - 1]);
      assert scans[..n] == scans[..n - 1] + [scans[n - 1]];
      SyncSnoc(c, db, uploader, tenant, scans[..n - 1], scans[n - 1]);
      SyncSnoc(c, db, uploader, tenant, Thrown(scans, throws, n - 1), scans[n - 1]);
      SyncGrows(c, mid, uploader, tenant, scans[n - 1].token, scans[n - 1].at);
      GrowsOn(db, mid, SyncOne(c, mid, uploader, tenant, scans[n - 1].token, scans[n - 1].at));
      if n - 1 !in throws {
        StaysSettled(c, db, mid, uploader, tenant, scans[n - 1]);
        SettledChangesNothing(c, mid, uploader, tenant, scans[n - 1]);
      }
    }
  }

  lemma GrowsOn(a: DB, b: DB, c: DB)
    requires Grows(a, b) && Grows(b, c)
    ensures Grows(a, c)
  {}

  lemma SettledChangesNothing(c: Config, db: DB, uploader: Id, tenant: Id, scan: Offline)
    requires !RecordedScan(c, db, uploader, tenant, scan)
    ensures SyncOne(c, db, uploader, tenant, scan.token, scan.at) == db
  {}

  /** The batch uploaded again after some scans were answered ERROR: exactly those are processed,
      in order, and the ones that went through are left alone. */
  lemma RetryAfterErrors(c: Config, db: DB, uploader: Id, tenant: Id, scans: seq<Offline>, throws: set<int>)
    requires TokensNameTickets(c, db.tickets)
    ensures var first := SyncAll(c, db, uploader, tenant, Committed(scans, throws, |scans|));
            SyncAll(c, first, uploader, tenant, scans) == SyncAll(c, first, uploader, tenant, Thrown(scans, throws, |scans|))
  {
    var done := Committed(scans, throws, |scans|);
    var first := SyncAll(c, db, uploader, tenant, done);
    BatchSettles(c, db, uploader, tenant, done);
    hide RecordedScan, SyncAll;
    forall i | 0 <= i < |scans| && i !in throws ensures !RecordedScan(c, first, uploader, tenant, scans[i]) {
      CommittedHolds(scans, throws, |scans|, i);
      var j :| 0 <= j < |done| && done[j] == scans[i];
      assert !RecordedScan(c, first, uploader, tenant, done[j]);
    }
    SettledDropOut(c, first, uploader, tenant, scans, throws, |scans|);
    assert scans[..|scans|] == scans;
  }

  // ---------------------------------------------------------------- replays after other activity

  /** No ticket is issued under a token of the batch. */
  ghost predicate IssuesNone(acts: seq<Action>, scans: seq<Offline>) {
    forall a, i | a in acts && a.Issue? && 0 <= i < |scans| :: a.token != scans[i].token
  }

  lemma StepGrows(c: Config, s: State, a: Action)
    ensures Grows(s.db, Apply(c, s, a).db)
    ensures forall k | k in Apply(c, s, a).db.tickets && k !in s.db.tickets :: a.Issue? && k == c.hash(a.token)
  {
    TicketsStay(c, s, a);
  }

  lemma {:induction false} SettledForever(c: Config, s: State, acts: seq<Action>, uploader: Id, tenant: Id, scans: seq<Offline>)
    requires CollisionFree(c) && IssuesNone(acts, scans)
    requires forall i | 0 <= i < |scans| :: !RecordedScan(c, s.db, uploader, tenant, scans[i])
    ensures forall i | 0 <= i < |scans| :: !RecordedScan(c, Run(c, s, acts).db, uploader, tenant, scans[i])
    decreases |acts|
  {
    if acts != [] {
      var t := Apply(c, s, acts[0]);
      assert acts[0] in acts;
      StepGrows(c, s, acts[0]);
      hide RecordedScan, Apply;
      forall i | 0 <= i < |scans| ensures !RecordedScan(c, t.db, uploader, tenant, scans[i]) {
        StaysSettled(c, s.db, t.db, uploader, tenant, scans[i]);
      }
      assert forall a | a in acts[1..] :: a in acts;
      SettledForever(c, t, acts[1..], uploader, tenant, scans);
    }
  }

  /** A batch uploaded once can be uploaded again after any number of online scans, uploads,
      issues and cancellations by anyone: the second upload changes nothing. */
  lemma ReplayChangesNothing(c: Config, s: State, before: seq<Action>, between: seq<Action>, uploader: Id, tenant: Id, scans: seq<Offline>)
    requires CollisionFree(c) && Init(s) && IssuesNone(between, scans)
    ensures var t := Run(c, s, before);
            var uploaded := t.(db := SyncAll(c, t.db, uploader, tenant, scans));
            var later := Run(c, uploaded, between).db;
            SyncAll(c, later, uploader, tenant, scans) == later
  {
    InitFine(c, s);
    RunKeepsInv(c, s, before);
    var t := Run(c, s, before);
    hide Run, Inv;
    assert TokensNameTickets(c, t.db.tickets) by { NamesOf(c, t); }
    BatchSettles(c, t.db, uploader, tenant, scans);
    var uploaded := t.(db := SyncAll(c, t.db, uploader, tenant, scans));
    SettledForever(c, uploaded, between, uploader, tenant, scans);
    SettledBatchIsNoOp(c, Run(c, uploaded, between).db, uploader, tenant, scans);
  }

  lemma NamesOf(c: Config, s: State)
    requires Inv(c, s)
    ensures TokensNameTickets(c, s.db.tickets)
  {}

  // ---------------------------------------------------------------- the services over the tables

  datatype SyncError = BatchTooLarge | Unauthorized

  const MAX_BATCH := 500

  /** The answer to the i-th scan of a batch: what its transaction found, or that it threw. */
  function ResultAt(c: Config, db: DB, uploader: Id, tenant: Id, scans: seq<Offline>, throws: set<int>, i: nat): ScanStatus
    requires i < |scans|
  {
    if i in throws then ERROR
    else SyncResult(c, SyncAll(c, db, uploader, tenant, Committed(scans, throws, i)), uploader, tenant, scans[i].token, scans[i].at)
  }

  lemma NothingYet(c: Config, db: DB, uploader: Id, tenant: Id, scans: seq<Offline>, throws: set<int>)
    ensures SyncAll(c, db, uploader, tenant, Committed(scans, throws, 0)) == db
  {}

  lemma NextScan(c: Config, db: DB, uploader: Id, tenant: Id, scans: seq<Offline>, throws: set<int>, i: nat)
    requires i < |scans|
    ensures var before := SyncAll(c, db, uploader, tenant, Committed(scans, throws, i));
            var scan := scans[i];
            SyncAll(c, db, uploader, tenant, Committed(scans, throws, i + 1)) == (if i in throws then before else SyncOne(c, before, uploader, tenant, scan.token, scan.at))
            && ResultAt(c, db, uploader, tenant, scans, throws, i) == if i in throws then ERROR else SyncResult(c, before, uploader, tenant, scan.token, scan.at)
  {
    SyncSnoc(c, db, uploader, tenant, Committed(scans, throws, i), scans[i]);
  }

  /** The i-th scan is the batch's first committed one of an ACTIVE ticket of the tenant, and neither
      the logs nor the queue know it. */
  ghost predicate FirstUse(c: Config, db: DB, uploader: Id, tenant: Id, scans: seq<Offline>, throws: set<int>, i: nat)
    requires i < |scans|
  {
    var key, p := c.hash(scans[i].token), c.validate(scans[i].token);
    && i !in throws && p.Some? && !SeenBefore(db, p.value.t, uploader, scans[i].at)
    && key in db.tickets && db.tickets[key].tenant == tenant && db.tickets[key].status == ACTIVE
    && forall j | 0 <= j < i && j !in throws :: c.hash(scans[j].token) != key
  }

  predicate UsedAt(db: DB, key: string) { key in db.tickets && db.tickets[key].status == USED }

  /** A scan of another ticket leaves a ticket and what is known of its scans alone. */
  lemma OtherScanKeeps(c: Config, db: DB, uploader: Id, tenant: Id, scan: Offline, key: string, at: int)
    requires TokensNameTickets(c, db.tickets) && key in db.tickets && c.hash(scan.token) != key
    ensures var after, t := SyncOne(c, db, uploader, tenant, scan.token, scan.at), db.tickets[key].id;
      && TokensNameTickets(c, after.tickets) && key in after.tickets && after.tickets[key] == db.tickets[key]
      && SeenBefore(after, t, uploader, at) == SeenBefore(db, t, uploader, at)
  {
    hide SeenBefore, SyncResult;
    if RecordedScan(c, db, uploader, tenant, scan) {
      var other, r := db.tickets[c.hash(scan.token)].id, SyncResult(c, db, uploader, tenant, scan.token, scan.at);
      assert other != db.tickets[key].id;
      RowOfAnother(db, SyncOne(c, db, uploader, tenant, scan.token, scan.at), Queued(other, uploader, scan.at, r),
                   Log(other, Some(uploader), scan.at, r), db.tickets[key].id, uploader, at);
    }
  }

  lemma RowOfAnother(db: DB, after: DB, queued: Queued, log: Log, ticket: Id, device: Id, at: int)
    requires after.queue == db.queue + [queued] && after.logs == db.logs + [log] && queued.ticket != ticket && log.ticket != ticket
    ensures SeenBefore(after, ticket, device, at) == SeenBefore(db, ticket, device, at)
  {
    forall i | 0 <= i < |db.logs| ensures after.logs[i] == db.logs[i] {}
    forall i | 0 <= i < |db.queue| ensures after.queue[i] == db.queue[i] {}
  }

  lemma {:induction false} OtherScansKeep(c: Config, db: DB, uploader: Id, tenant: Id, scans: seq<Offline>, throws: set<int>, n: nat, key: string, at: int)
    requires TokensNameTickets(c, db.tickets) && key in db.tickets && n <= |scans|
    requires forall j | 0 <= j < n && j !in throws :: c.hash(scans[j].token) != key
    ensures var after, t := SyncAll(c, db, uploader, tenant, Committed(scans, throws, n)), db.tickets[key].id;
      && TokensNameTickets(c, after.tickets) && key in after.tickets && after.tickets[key] == db.tickets[key]
      && SeenBefore(after, t, uploader, at) == SeenBefore(db, t, uploader, at)
    decreases n
  {
    hide SeenBefore, SyncOne, SyncAll, Committed, TokensNameTickets, ResultAt;
    NothingYet(c, db, uploader, tenant, scans, throws);
    if n > 0 {
      OtherScansKeep(c, db, uploader, tenant, scans, throws, n - 1, key, at);
      NextScan(c, db, uploader, tenant, scans, throws, n - 1);
      if n - 1 !in throws {
        OtherScanKeeps(c, SyncAll(c, db, uploader, tenant, Committed(scans, throws, n - 1)), uploader, tenant, scans[n - 1], key, at);
      }
    }
  }

  /** That scan is answered SUCCESS. */
  lemma FirstUseSucceeds(c: Config, db: DB, uploader: Id, tenant: Id, scans: seq<Offline>, throws: set<int>, i: nat)
    requires i < |scans| && TokensNameTickets(c, db.tickets) && FirstUse(c, db, uploader, tenant, scans, throws, i)
    ensures ResultAt(c, db, uploader, tenant, scans, throws, i) == SUCCESS
  {
    hide SeenBefore, SyncOne, SyncAll, Committed;
    OtherScansKeep(c, db, uploader, tenant, scans, throws, i, c.hash(scans[i].token), scans[i].at);
  }

  /** A scan answered SUCCESS found its ticket ACTIVE and leaves it USED. */
  lemma SuccessUses(c: Config, db: DB, uploader: Id, tenant: Id, scans: seq<Offline>, throws: set<int>, i: nat)
    requires i < |scans| && ResultAt(c, db, uploader, tenant, scans, throws, i) == SUCCESS
    ensures !UsedAt(SyncAll(c, db, uploader, tenant, Committed(scans, throws, i)), c.hash(scans[i].token))
    ensures UsedAt(SyncAll(c, db, uploader, tenant, Committed(scans, throws, i + 1)), c.hash(scans[i].token))
  {
    hide SeenBefore, SyncAll, Committed;
    NextScan(c, db, uploader, tenant, scans, throws, i);
  }

  lemma {:induction false} UsedStays(c: Config, db: DB, uploader: Id, tenant: Id, scans: seq<Offline>, throws: set<int>, m: nat, n: nat, key: string)
    requires m <= n <= |scans| && UsedAt(SyncAll(c, db, uploader, tenant, Committed(scans, throws, m)), key)
    ensures UsedAt(SyncAll(c, db, uploader, tenant, Committed(scans, throws, n)), key)
    decreases n
  {
    hide SeenBefore, SyncAll, Committed, ResultAt;
    if m < n {
      UsedStays(c, db, uploader, tenant, scans, throws, m, n - 1, key);
      NextScan(c, db, uploader, tenant, scans, throws, n - 1);
    }
  }

  /** Over the whole batch: every first use is answered SUCCESS, every SUCCESS leaves its ticket
      USED, and no ticket gets two. */
  lemma BatchAdmits(c: Config, db: DB, uploader: Id, tenant: Id, scans: seq<Offline>, throws: set<int>)
    ensures TokensNameTickets(c, db.tickets) ==>
              forall i | 0 <= i < |scans| && FirstUse(c, db, uploader, tenant, scans, throws, i) :: ResultAt(c, db, uploader, tenant, scans, throws, i) == SUCCESS
    ensures forall i | 0 <= i < |scans| && ResultAt(c, db, uploader, tenant, scans, throws, i) == SUCCESS ::
              UsedAt(SyncAll(c, db, uploader, tenant, Committed(scans, throws, |scans|)), c.hash(scans[i].token))
    ensures forall i, j | 0 <= i < j < |scans| && ResultAt(c, db, uploader, tenant, scans, throws, i) == SUCCESS
                                               && ResultAt(c, db, uploader, tenant, scans, throws, j) == SUCCESS ::
              c.hash(scans[i].token) != c.hash(scans[j].token)
  {
    hide ResultAt, SyncAll, Committed, FirstUse, UsedAt, TokensNameTickets;
    if TokensNameTickets(c, db.tickets) {
      forall i | 0 <= i < |scans| && FirstUse(c, db, uploader, tenant, scans, throws, i) ensures ResultAt(c, db, uploader, tenant, scans, throws, i) == SUCCESS {
        FirstUseSucceeds(c, db, uploader, tenant, scans, throws, i);
      }
    }
    forall i | 0 <= i < |scans| && ResultAt(c, db, uploader, tenant, scans, throws, i) == SUCCESS
      ensures UsedAt(SyncAll(c, db, uploader, tenant, Committed(scans, throws, |scans|)), c.hash(scans[i].token))
      ensures forall j | i < j < |scans| && ResultAt(c, db, uploader, tenant, scans, throws, j) == SUCCESS :: c.hash(scans[i].token) != c.hash(scans[j].token)
    {
      SuccessUses(c, db, uploader, tenant, scans, throws, i);
      UsedStays(c, db, uploader, tenant, scans, throws, i + 1, |scans|, c.hash(scans[i].token));
      forall j | i < j < |scans| && ResultAt(c, db, uploader, tenant, scans, throws, j) == SUCCESS ensures c.hash(scans[i].token) != c.hash(scans[j].token) {
        SuccessUses(c, db, uploader, tenant, scans, throws, j);
        UsedStays(c, db, uploader, tenant, scans, throws, i + 1, j, c.hash(scans[i].token));
      }
    }
  }

  class ScanTables {
    const config: Config
    var tickets: map<string, Ticket>
    var logs: seq<Log>
    var queue: seq<Queued>

    ghost function Tables(): DB
      reads this
    {
      DB(tickets, logs, queue)
    }

    constructor (config: Config)
      ensures this.config == config && Tables() == DB(map[], [], [])
    {
      this.config, tickets, logs, queue := config, map[], [], [];
    }

    /** A batch is refused as a whole or processed scan by scan; a transaction that throws is
        answered ERROR, leaves nothing behind, and the next scan goes on. */
    method SyncOfflineScans(uploader: Id, tenant: Id, scans: seq<Offline>, throws: set<int>)
      returns (r: Result<seq<ScanStatus>, SyncError>)
      modifies this
      ensures r.Err? <==> |scans| > 500 || !(uploader in config.devices && config.devices[uploader] == tenant)
      ensures r.Err? ==> Tables() == old(Tables()) && r.error == if |scans| > 500 then BatchTooLarge else Unauthorized
      ensures r.Ok? ==> Tables() == SyncAll(config, old(Tables()), uploader, tenant, Committed(scans, throws, |scans|)) && |r.value| == |scans|
      ensures r.Ok? ==> forall i | 0 <= i < |scans| :: r.value[i] == ResultAt(config, old(Tables()), uploader, tenant, scans, throws, i)
      ensures r.Ok? ==> forall i | 0 <= i < |scans| :: r.value[i] == ERROR <==> i in throws
      ensures r.Ok? && TokensNameTickets(config, old(tickets)) ==>
        forall i | 0 <= i < |scans| && FirstUse(config, old(Tables()), uploader, tenant, scans, throws, i) :: r.value[i] == SUCCESS
      ensures r.Ok? ==> forall i | 0 <= i < |scans| && r.value[i] == SUCCESS ::
        config.hash(scans[i].token) in tickets && tickets[config.hash(scans[i].token)].status == USED
      ensures r.Ok? ==> forall i, j | 0 <= i < j < |scans| && r.value[i] == SUCCESS && r.value[j] == SUCCESS ::
        config.hash(scans[i].token) != config.hash(scans[j].token)
    {
      hide SyncOne, SyncResult, SyncAll, Committed, ResultAt, FirstUse, TokensNameTickets;
      BatchAdmits(config, Tables(), uploader, tenant, scans, throws);
      if |scans| > MAX_BATCH { return Err(BatchTooLarge); }
      if uploader !in config.devices || config.devices[uploader] != tenant { return Err(Unauthorized); }
      var results: seq<ScanStatus> := [];
      NothingYet(config, Tables(), uploader, tenant, scans, throws);
      for i := 0 to |scans|
        invariant Tables() == SyncAll(config, old(Tables()), uploader, tenant, Committed(scans, throws, i)) && |results| == i
        invariant forall j | 0 <= j < i :: results[j] == ResultAt(config, old(Tables()), uploader, tenant, scans, throws, j)
        invariant forall j | 0 <= j < i :: results[j] == ERROR <==> j in throws
      {
        NextScan(config, old(Tables()), uploader, tenant, scans, throws, i);
        if i in throws {
          results := results + [ERROR];
        } else {
          var result := SyncScan(uploader, tenant, scans[i].token, scans[i].at);
          results := results + [result];
        }
      }
      return Ok(results);
    }

    /** One scan's transaction, branch by branch: when it gives which answer, which of them write
        audit rows, and that only SUCCESS touches a ticket, the token's own. */
    method SyncScan(uploader: Id, tenant: Id, token: string, at: int) returns (result: ScanStatus)
      modifies this
      ensures var key, p := config.hash(token), config.validate(token);
        var known := p.Some? &&
          ((exists i | 0 <= i < |old(logs)| :: old(logs)[i].ticket == p.value.t && old(logs)[i].device == Some(uploader) && old(logs)[i].at == at)
           || (exists i | 0 <= i < |old(queue)| :: old(queue)[i].ticket == p.value.t && old(queue)[i].device == uploader && old(queue)[i].scannedAt == at));
        var found := p.Some? && !known && key in old(tickets);
        var own := found && old(tickets)[key].tenant == tenant;
        && (result == DUPLICATE_IGNORED <==> known)
        && (result == WRONG_TENANT <==> found && !own)
        && (result == SUCCESS <==> own && old(tickets)[key].status == ACTIVE)
        && (result == CONFLICT_ALREADY_USED <==> own && old(tickets)[key].status == USED)
        && (result == INVALID <==> p.None? || (!known && !found) || (own && old(tickets)[key].status == CANCELLED))
      ensures result == SUCCESS ==>
        var key := config.hash(token);
        key in old(tickets) && tickets == old(tickets)[key := old(tickets)[key].(status := USED)]
      ensures result != SUCCESS ==> tickets == old(tickets)
      ensures var key := config.hash(token);
        if result in {SUCCESS, CONFLICT_ALREADY_USED} || (result == INVALID && config.validate(token).Some? && key in old(tickets)) then
          && key in old(tickets)
          && queue == old(queue) + [Queued(old(tickets)[key].id, uploader, at, result)]
          && logs == old(logs) + [Log(old(tickets)[key].id, Some(uploader), at, result)]
        else queue == old(queue) && logs == old(logs)
      ensures result == old(SyncResult(config, Tables(), uploader, tenant, token, at))
      ensures Tables() == old(SyncOne(config, Tables(), uploader, tenant, token, at))
    {
      var payload := config.validate(token);
      if payload.None? { return INVALID; }
      var ticketId := payload.value.t;
      if exists i | 0 <= i < |logs| :: logs[i].ticket == ticketId && logs[i].device == Some(uploader) && logs[i].at == at {
        return DUPLICATE_IGNORED;
      }
      if exists i | 0 <= i < |queue| :: queue[i].ticket == ticketId && queue[i].device == uploader && queue[i].scannedAt == at {
        return DUPLICATE_IGNORED;
      }
      var key := config.hash(token);
      if key !in tickets { return INVALID; }
      var ticket := tickets[key];
      if ticket.tenant != tenant { return WRONG_TENANT; }
      result := SUCCESS;
      if ticket.status == USED {
        result := CONFLICT_ALREADY_USED;
      } else if ticket.status != ACTIVE {
        result := INVALID;
      } else {
        tickets := tickets[key := ticket.(status := USED)];
      }
      queue := queue + [Queued(ticket.id, uploader, at, result)];
      logs := logs + [Log(ticket.id, Some(uploader), at, result)];
    }

    /** An online scan nobody interferes with: the protocol's four steps; when it gives which answer,
        that only SUCCESS touches a ticket, the token's own, and a log in every case. */
    method ScanTicket(token: string, tenant: Id, device: Option<Id>, now: int) returns (status: ScanStatus)
      requires TokensNameTickets(config, tickets)
      modifies this
      ensures Tables() == Run(config, State(now, old(Tables()), map[]),
                              [Read("scan", token, tenant, device), CheckShow("scan"), Claim("scan"), WriteLog("scan")]).db
      ensures var key, p := config.hash(token), config.validate(token);
        var trusted := device.None? || (device.value in config.devices && config.devices[device.value] == tenant);
        var found := trusted && p.Some? && key in old(tickets);
        var own := found && old(tickets)[key].tenant == tenant;
        var timed := own && old(tickets)[key].show in config.showStart;
        var late := own && (now / 1000 > p.value.exp || (timed && now > config.showStart[old(tickets)[key].show] + 30 * 60 * 1000));
        var early := timed && !late && now < config.showStart[old(tickets)[key].show] - 2 * 60 * 60 * 1000;
        && (status == WRONG_TENANT <==> found && !own)
        && (status == EXPIRED <==> late)
        && (status == NOT_OPEN_YET <==> early)
        && (status == ALREADY_USED <==> own && !late && !early && old(tickets)[key].status == USED)
        && (status == SUCCESS <==> own && !late && !early && old(tickets)[key].status == ACTIVE)
        && (status == INVALID <==> !found || (own && !late && !early && old(tickets)[key].status == CANCELLED))
      ensures status == SUCCESS ==>
        var key := config.hash(token);
        key in old(tickets) && tickets == old(tickets)[key := old(tickets)[key].(status := USED)]
      ensures status != SUCCESS ==> tickets == old(tickets)
      ensures var trusted := device.None? || (device.value in config.devices && config.devices[device.value] == tenant);
        var named := if trusted && config.validate(token).Some? then config.validate(token).value.t else "UNKNOWN_OR_TAMPERED";
        queue == old(queue) && logs == old(logs) + [Log(named, device, now, status)]
    {
      var id, key := UNKNOWN, config.hash(token);
      status := INVALID;
      ghost var acts := [Read("scan", token, tenant, device), CheckShow("scan"), Claim("scan"), WriteLog("scan")];
      FourSteps(config, State(now, Tables(), map[]), acts);
      if device.None? || (device.value in config.devices && config.devices[device.value] == tenant) {
        var payload := config.validate(token);
        if payload.Some? {
          id := payload.value.t;
          if key in tickets {
            var ticket := tickets[key];
            if ticket.tenant != tenant { status := WRONG_TENANT; }
            else if now / 1000 > payload.value.exp { status := EXPIRED; }
            else if ticket.show in config.showStart && now > config.showStart[ticket.show] + GRACE_MS { status := EXPIRED; }
            else if ticket.show in config.showStart && now < config.showStart[ticket.show] - EARLY_MS { status := NOT_OPEN_YET; }
            else if ticket.status == USED { status := ALREADY_USED; }
            else if ticket.status == ACTIVE {
              tickets := tickets[key := ticket.(status := USED)];
              status := SUCCESS;
            }
          }
        }
      }
      logs := logs + [Log(id, device, now, status)];
    }
  }

  lemma FourSteps(c: Config, s: State, acts: seq<Action>)
    requires |acts| == 4
    ensures Run(c, s, acts) == Apply(c, Apply(c, Apply(c, Apply(c, s, acts[0]), acts[1]), acts[2]), acts[3])
  {
    hide Apply;
    var s1 := Apply(c, s, acts[0]);
    var s2 := Apply(c, s1, acts[1]);
    var s3 := Apply(c, s2, acts[2]);
    assert acts[1..][0] == acts[1] && acts[1..][1..][0] == acts[2] && acts[1..][1..][1..][0] == acts[3];
    assert Run(c, s, acts) == Run(c, s1, acts[1..]);
    assert Run(c, s1, acts[1..]) == Run(c, s2, acts[1..][1..]);
    assert Run(c, s2, acts[1..][1..]) == Run(c, s3, acts[1..][1..][1..]);
    var last := acts[1..][1..][1..];
    assert last[1..] == [];
    assert Run(c, s3, last) == Run(c, Apply(c, s3, last[0]), last[1..]);
  }
}
