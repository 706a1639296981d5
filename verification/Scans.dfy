/** Scanning tickets at the gate: online scans in separate awaited steps (row read, show check,
    compare-and-set, log) running against each other and against offline batch uploads. */
module Scans {
  import opened Outcomes
  import QrToken

  type Id = string

  type Payload = QrToken.Payload

  datatype TicketStatus = ACTIVE | USED | CANCELLED
  datatype Ticket = Ticket(id: Id, show: Id, tenant: Id, status: TicketStatus)

  datatype ScanStatus = SUCCESS | ALREADY_USED | INVALID | EXPIRED | WRONG_TENANT | NOT_OPEN_YET | CONFLICT_ALREADY_USED | DUPLICATE_IGNORED | ERROR

  datatype Log = Log(ticket: Id, device: Option<Id>, at: int, result: ScanStatus)
  datatype Queued = Queued(ticket: Id, device: Id, scannedAt: int, result: ScanStatus)

  /** `validate` and `hash` are QrUtil's; tickets are found by the hash of the whole token. */
  datatype Config = Config(
    validate: string -> Option<Payload>, hash: string -> string,
    showStart: map<Id, int>, devices: map<Id, Id>)         // active devices and their tenants

  datatype DB = DB(tickets: map<string, Ticket>, logs: seq<Log>, queue: seq<Queued>)

  const GRACE_MS := 30 * 60 * 1000
  const EARLY_MS := 2 * 60 * 60 * 1000
  const UNKNOWN := "UNKNOWN_OR_TAMPERED"

  datatype Stage =
    | Looked(key: string, row: Ticket, ticket: Id)         // row read, show still to be checked
    | Claiming(key: string, ticket: Id)                    // about to compare-and-set
    | Decided(result: ScanStatus, ticket: Id)              // result known, log still to be written

  datatype Scan = Scan(device: Option<Id>, stage: Stage)

  datatype State = State(clock: int, db: DB, scans: map<Id, Scan>)

  datatype Action =
    | Read(sid: Id, token: string, tenant: Id, device: Option<Id>)
    | CheckShow(sid: Id)
    | Claim(sid: Id)
    | WriteLog(sid: Id)
    | Sync(uploader: Id, tenant: Id, token: string, scannedAt: int)
    | Issue(token: string, tenant: Id)
    | Cancel(key: string)
    | Tick(now: int)

  // ---------------------------------------------------------------- online scans

  /** Everything up to and including the row read and the checks that need no further query. */
  function Lookup(c: Config, s: State, token: string, tenant: Id, device: Option<Id>): Stage {
    if device.Some? && !(device.value in c.devices && c.devices[device.value] == tenant) then Decided(INVALID, UNKNOWN)
    else
      match c.validate(token)
      case None => Decided(INVALID, UNKNOWN)
      case Some(p) =>
        var key := c.hash(token);
        if key !in s.db.tickets then Decided(INVALID, p.t)
        else if s.db.tickets[key].tenant != tenant then Decided(WRONG_TENANT, p.t)
        else if s.clock / 1000 > p.exp then Decided(EXPIRED, p.t)
        else Looked(key, s.db.tickets[key], p.t)
  }

  /** The show window, then the status as it was when the row was read. */
  function AfterShow(c: Config, clock: int, st: Stage): Stage
    requires st.Looked?
  {
    var row := st.row;
    if row.show in c.showStart && clock > c.showStart[row.show] + GRACE_MS then Decided(EXPIRED, st.ticket)
    else if row.show in c.showStart && clock < c.showStart[row.show] - EARLY_MS then Decided(NOT_OPEN_YET, st.ticket)
    else if row.status == USED then Decided(ALREADY_USED, st.ticket)
    else if row.status != ACTIVE then Decided(INVALID, st.ticket)
    else Claiming(st.key, st.ticket)
  }

  function Use(db: DB, key: string): DB
    requires key in db.tickets
  {
    db.(tickets := db.tickets[key := db.tickets[key].(status := USED)])
  }

  predicate Claimable(db: DB, key: string) { key in db.tickets && db.tickets[key].status == ACTIVE }

  // ---------------------------------------------------------------- offline uploads

  predicate SeenBefore(db: DB, ticket: Id, device: Id, at: int) {
    (exists i | 0 <= i < |db.logs| :: db.logs[i].ticket == ticket && db.logs[i].device == Some(device) && db.logs[i].at == at)
    || (exists i | 0 <= i < |db.queue| :: db.queue[i].ticket == ticket && db.queue[i].device == device && db.queue[i].scannedAt == at)
  }

  function SyncResult(c: Config, db: DB, device: Id, tenant: Id, token: string, at: int): ScanStatus {
    match c.validate(token)
    case None => INVALID
    case Some(p) =>
      if SeenBefore(db, p.t, device, at) then DUPLICATE_IGNORED
      else if c.hash(token) !in db.tickets then INVALID
      else
        var row := db.tickets[c.hash(token)];
        if row.tenant != tenant then WRONG_TENANT
        else if row.status == USED then CONFLICT_ALREADY_USED
        else if row.status != ACTIVE then INVALID
        else SUCCESS
  }

  /** Whether the upload of this scan writes its audit rows. */
  predicate Recorded(c: Config, db: DB, device: Id, tenant: Id, token: string, at: int) {
    c.validate(token).Some? && !SeenBefore(db, c.validate(token).value.t, device, at)
    && c.hash(token) in db.tickets && db.tickets[c.hash(token)].tenant == tenant
  }

  /** One scan's transaction. */
  function SyncOne(c: Config, db: DB, device: Id, tenant: Id, token: string, at: int): DB {
    if Recorded(c, db, device, tenant, token, at) then
      var key, r := c.hash(token), SyncResult(c, db, device, tenant, token, at);
      var id := db.tickets[key].id;
      (if r == SUCCESS then Use(db, key) else db).(
        queue := db.queue + [Queued(id, device, at, r)], logs := db.logs + [Log(id, Some(device), at, r)])
    else db
  }

  // ---------------------------------------------------------------- the protocol

  function SetScan(s: State, sid: Id, scan: Scan): State { s.(scans := s.scans[sid := scan]) }

  /** `updateMany where id, status ACTIVE`: the count tells the winner. */
  function ApplyClaim(s: State, sid: Id): State
    requires sid in s.scans && s.scans[sid].stage.Claiming?
  {
    var st := s.scans[sid].stage;
    if Claimable(s.db, st.key)
    then SetScan(s, sid, s.scans[sid].(stage := Decided(SUCCESS, st.ticket))).(db := Use(s.db, st.key))
    else SetScan(s, sid, s.scans[sid].(stage := Decided(ALREADY_USED, st.ticket)))
  }

  function ApplyWriteLog(s: State, sid: Id): State
    requires sid in s.scans && s.scans[sid].stage.Decided?
  {
    var sc := s.scans[sid];
    s.(scans := s.scans - {sid}, db := s.db.(logs := s.db.logs + [Log(sc.stage.ticket, sc.device, s.clock, sc.stage.result)]))
  }

  function Apply(c: Config, s: State, a: Action): State {
    match a
    case Read(sid, token, tenant, device) =>
      if sid in s.scans then s else SetScan(s, sid, Scan(device, Lookup(c, s, token, tenant, device)))
    case CheckShow(sid) =>
      if sid in s.scans && s.scans[sid].stage.Looked?
      then SetScan(s, sid, s.scans[sid].(stage := AfterShow(c, s.clock, s.scans[sid].stage))) else s
    case Claim(sid) => if sid in s.scans && s.scans[sid].stage.Claiming? then ApplyClaim(s, sid) else s
    case WriteLog(sid) => if sid in s.scans && s.scans[sid].stage.Decided? then ApplyWriteLog(s, sid) else s
    case Sync(uploader, tenant, token, at) => s.(db := SyncOne(c, s.db, uploader, tenant, token, at))
    case Issue(token, tenant) =>
      if c.validate(token).Some? && c.hash(token) !in s.db.tickets
         && (forall k | k in s.db.tickets :: s.db.tickets[k].id != c.validate(token).value.t)
      then var p := c.validate(token).value;
           s.(db := s.db.(tickets := s.db.tickets[c.hash(token) := Ticket(p.t, p.s, tenant, ACTIVE)]))
      else s
    case Cancel(key) =>
      if Claimable(s.db, key) then s.(db := s.db.(tickets := s.db.tickets[key := s.db.tickets[key].(status := CANCELLED)])) else s
    case Tick(now) => if s.clock <= now then s.(clock := now) else s
  }

  function Run(c: Config, s: State, acts: seq<Action>): State
    decreases |acts|
  {
    if acts == [] then s else Run(c, Apply(c, s, acts[0]), acts[1..])
  }

  /** SHA-256 is taken to be collision-free. */
  ghost predicate CollisionFree(c: Config) {
    forall x, y :: c.hash(x) == c.hash(y) ==> x == y
  }

  /** The gate opens with no ticket, no log and no scan. */
  ghost predicate Init(s: State) {
    s.db == DB(map[], [], []) && s.scans == map[]
  }

  // ---------------------------------------------------------------- one admission per ticket

  function Admissions(logs: seq<Log>, ticket: Id): nat {
    if logs == [] then 0
    else Admissions(logs[..|logs| - 1], ticket) + (if logs[|logs| - 1].ticket == ticket && logs[|logs| - 1].result == SUCCESS then 1 else 0)
  }

  /** Scans that won the compare-and-set and have not written their log yet. */
  function Winners(s: State, ticket: Id): set<Id> {
    set sid | sid in s.scans && s.scans[sid].stage == Decided(SUCCESS, ticket)
  }

  /** The ticket with this id, if any, has been used. */
  predicate IsUsed(tickets: map<string, Ticket>, ticket: Id) {
    exists k | k in tickets :: tickets[k].id == ticket && tickets[k].status == USED
  }

  ghost predicate Balanced(s: State, ticket: Id) {
    Admissions(s.db.logs, ticket) + |Winners(s, ticket)| == if IsUsed(s.db.tickets, ticket) then 1 else 0
  }

  /** A ticket found by a token's hash is the ticket the token names; ticket ids are unique. */
  ghost predicate TokensNameTickets(c: Config, tickets: map<string, Ticket>) {
    && (forall token | c.validate(token).Some? && c.hash(token) in tickets :: tickets[c.hash(token)].id == c.validate(token).value.t)
    && (forall k, l | k in tickets && l in tickets && tickets[k].id == tickets[l].id :: k == l)
  }

  /** A scan in flight still points at the ticket its token names. */
  ghost predicate ScansFine(s: State) {
    forall sid | sid in s.scans :: StageFine(s.db.tickets, s.scans[sid].stage)
  }

  predicate StageFine(tickets: map<string, Ticket>, stage: Stage) {
    match stage
    case Looked(key, row, ticket) => key in tickets && tickets[key].id == ticket
    case Claiming(key, ticket) => key in tickets && tickets[key].id == ticket
    case Decided(_, _) => true
  }

  ghost predicate Inv(c: Config, s: State) {
    TokensNameTickets(c, s.db.tickets) && ScansFine(s) && forall ticket :: Balanced(s, ticket)
  }

  lemma AdmissionsAppend(logs: seq<Log>, log: Log, ticket: Id)
    ensures Admissions(logs + [log], ticket) == Admissions(logs, ticket) + (if log.ticket == ticket && log.result == SUCCESS then 1 else 0)
  {
    assert (logs + [log])[..|logs|] == logs;
  }

  /** The same tickets under the same hashes; only statuses may differ. */
  predicate SameNames(before: map<string, Ticket>, after: map<string, Ticket>) {
    after.Keys == before.Keys && forall k | k in before :: after[k].id == before[k].id
  }

  lemma NamesKept(c: Config, before: map<string, Ticket>, after: map<string, Ticket>)
    requires TokensNameTickets(c, before) && SameNames(before, after)
    ensures TokensNameTickets(c, after)
  {}

  /** Using an active ticket flips `IsUsed` for its id and for no other. */
  lemma UseFlips(c: Config, db: DB, key: string, ticket: Id)
    requires TokensNameTickets(c, db.tickets) && Claimable(db, key)
    ensures var after := Use(db, key).tickets;
            SameNames(db.tickets, after) && IsUsed(after, ticket) == (IsUsed(db.tickets, ticket) || ticket == db.tickets[key].id)
            && !IsUsed(db.tickets, db.tickets[key].id)
  {
    var after := Use(db, key).tickets;
    assert after[key].status == USED;
    if IsUsed(db.tickets, ticket) {
      var k :| k in db.tickets && db.tickets[k].id == ticket && db.tickets[k].status == USED;
      assert after[k] == db.tickets[k];
    }
  }

  lemma SyncBalances(c: Config, s: State, uploader: Id, tenant: Id, token: string, at: int, ticket: Id)
    requires TokensNameTickets(c, s.db.tickets) && Balanced(s, ticket)
    ensures Balanced(s.(db := SyncOne(c, s.db, uploader, tenant, token, at)), ticket)
    ensures SameNames(s.db.tickets, SyncOne(c, s.db, uploader, tenant, token, at).tickets)
  {
    hide SeenBefore, IsUsed, Admissions, Winners;
    var db' := SyncOne(c, s.db, uploader, tenant, token, at);
    SameWinners(s, db', ticket);
    if Recorded(c, s.db, uploader, tenant, token, at) {
      var key, r := c.hash(token), SyncResult(c, s.db, uploader, tenant, token, at);
      AdmissionsAppend(s.db.logs, Log(s.db.tickets[key].id, Some(uploader), at, r), ticket);
      if r == SUCCESS { UseFlips(c, s.db, key, ticket); }
    }
  }

  lemma SameWinners(s: State, db: DB, ticket: Id)
    ensures Winners(s.(db := db), ticket) == Winners(s, ticket)
  {}

  lemma WinnersAfterClaim(s: State, sid: Id, ticket: Id)
    requires sid in s.scans && s.scans[sid].stage.Claiming?
    ensures Winners(ApplyClaim(s, sid), ticket) ==
            Winners(s, ticket) + (if Claimable(s.db, s.scans[sid].stage.key) && ticket == s.scans[sid].stage.ticket then {sid} else {})
    ensures sid !in Winners(s, ticket)
  {}

  /** The compare-and-set: one winner when the ticket was still active, none otherwise. */
  lemma ClaimBalances(c: Config, s: State, sid: Id, ticket: Id)
    requires TokensNameTickets(c, s.db.tickets) && Balanced(s, ticket)
    requires sid in s.scans && s.scans[sid].stage.Claiming? && StageFine(s.db.tickets, s.scans[sid].stage)
    ensures Balanced(ApplyClaim(s, sid), ticket)
  {
    hide IsUsed, Winners, Admissions;
    WinnersAfterClaim(s, sid, ticket);
    if Claimable(s.db, s.scans[sid].stage.key) {
      UseFlips(c, s.db, s.scans[sid].stage.key, ticket);
    }
  }

  lemma LogBalances(s: State, sid: Id, ticket: Id)
    requires Balanced(s, ticket) && sid in s.scans && s.scans[sid].stage.Decided?
    ensures Balanced(ApplyWriteLog(s, sid), ticket)
  {
    hide IsUsed;
    var sc := s.scans[sid];
    var t := ApplyWriteLog(s, sid);
    AdmissionsAppend(s.db.logs, Log(sc.stage.ticket, sc.device, s.clock, sc.stage.result), ticket);
    var won := sc.stage.result == SUCCESS && sc.stage.ticket == ticket;
    assert won ==> sid in Winners(s, ticket);
    assert Winners(t, ticket) == Winners(s, ticket) - (if won then {sid} else {});
  }

  /** A step of one scan that neither wins nor logs. */
  lemma StageBalances(s: State, sid: Id, scan: Scan, ticket: Id)
    requires Balanced(s, ticket) && scan.stage != Decided(SUCCESS, ticket)
    requires sid in s.scans ==> s.scans[sid].stage != Decided(SUCCESS, ticket)
    ensures Balanced(SetScan(s, sid, scan), ticket)
  {
    assert Winners(SetScan(s, sid, scan), ticket) == Winners(s, ticket);
  }

  /** Issuing and cancelling change no USED ticket. */
  lemma TicketBalances(s: State, tickets: map<string, Ticket>, ticket: Id)
    requires Balanced(s, ticket)
    requires forall k | k in s.db.tickets && s.db.tickets[k].status == USED :: k in tickets && tickets[k] == s.db.tickets[k]
    requires forall k | k in tickets && tickets[k].status == USED :: k in s.db.tickets && tickets[k] == s.db.tickets[k]
    ensures Balanced(s.(db := s.db.(tickets := tickets)), ticket)
  {
    assert Winners(s.(db := s.db.(tickets := tickets)), ticket) == Winners(s, ticket);
    assert IsUsed(tickets, ticket) == IsUsed(s.db.tickets, ticket);
  }

  lemma TickBalances(s: State, now: int, ticket: Id)
    requires Balanced(s, ticket)
    ensures Balanced(s.(clock := now), ticket)
  {
    assert Winners(s.(clock := now), ticket) == Winners(s, ticket);
  }

  lemma StepBalances(c: Config, s: State, a: Action, ticket: Id)
    requires TokensNameTickets(c, s.db.tickets) && ScansFine(s) && Balanced(s, ticket)
    ensures Balanced(Apply(c, s, a), ticket)
  {
    hide Balanced, TokensNameTickets;
    match a
    case Read(sid, token, tenant, device) =>
      if sid !in s.scans { StageBalances(s, sid, Scan(device, Lookup(c, s, token, tenant, device)), ticket); }
    case CheckShow(sid) =>
      if sid in s.scans && s.scans[sid].stage.Looked? {
        StageBalances(s, sid, s.scans[sid].(stage := AfterShow(c, s.clock, s.scans[sid].stage)), ticket);
      }
    case Claim(sid) => if sid in s.scans && s.scans[sid].stage.Claiming? { ClaimBalances(c, s, sid, ticket); }
    case WriteLog(sid) => if sid in s.scans && s.scans[sid].stage.Decided? { LogBalances(s, sid, ticket); }
    case Sync(uploader, tenant, token, at) => SyncBalances(c, s, uploader, tenant, token, at, ticket);
    case Issue(_, _) => TicketBalances(s, Apply(c, s, a).db.tickets, ticket);
    case Cancel(_) => TicketBalances(s, Apply(c, s, a).db.tickets, ticket);
    case Tick(now) => TickBalances(s, now, ticket);
  }

  lemma IssueKeepsNames(c: Config, tickets: map<string, Ticket>, token: string, tenant: Id)
    requires CollisionFree(c) && TokensNameTickets(c, tickets)
    requires c.validate(token).Some? && forall k | k in tickets :: tickets[k].id != c.validate(token).value.t
    ensures var p := c.validate(token).value;
            TokensNameTickets(c, tickets[c.hash(token) := Ticket(p.t, p.s, tenant, ACTIVE)])
  {}

  lemma StageKept(before: map<string, Ticket>, after: map<string, Ticket>, stage: Stage)
    requires StageFine(before, stage) && forall k | k in before :: k in after && after[k].id == before[k].id
    ensures StageFine(after, stage)
  {}

  lemma LookupFine(c: Config, s: State, token: string, tenant: Id, device: Option<Id>)
    requires TokensNameTickets(c, s.db.tickets)
    ensures StageFine(s.db.tickets, Lookup(c, s, token, tenant, device))
  {}

  /** Every ticket keeps its place and id. */
  lemma TicketsStay(c: Config, s: State, a: Action)
    ensures forall k | k in s.db.tickets :: k in Apply(c, s, a).db.tickets && Apply(c, s, a).db.tickets[k].id == s.db.tickets[k].id
    ensures !a.Issue? ==> SameNames(s.db.tickets, Apply(c, s, a).db.tickets)
  {}

  lemma StepKeepsNames(c: Config, s: State, a: Action)
    requires CollisionFree(c) && TokensNameTickets(c, s.db.tickets)
    ensures TokensNameTickets(c, Apply(c, s, a).db.tickets)
  {
    hide TokensNameTickets, SyncOne, Lookup, CollisionFree, Claimable;
    var t := Apply(c, s, a);
    TicketsStay(c, s, a);
    if a.Issue? {
      if t.db.tickets != s.db.tickets { IssueKeepsNames(c, s.db.tickets, a.token, a.tenant); }
    } else {
      NamesKept(c, s.db.tickets, t.db.tickets);
    }
  }

  lemma StepKeepsScans(c: Config, s: State, a: Action)
    requires TokensNameTickets(c, s.db.tickets) && ScansFine(s)
    ensures ScansFine(Apply(c, s, a))
  {
    hide TokensNameTickets, SyncOne, Lookup;
    var t := Apply(c, s, a);
    TicketsStay(c, s, a);
    if a.Read? { LookupFine(c, s, a.token, a.tenant, a.device); }
    forall sid | sid in t.scans ensures StageFine(t.db.tickets, t.scans[sid].stage) {
      if sid in s.scans {
        StageKept(s.db.tickets, t.db.tickets, s.scans[sid].stage);
      }
    }
  }

  lemma StepKeepsInv(c: Config, s: State, a: Action)
    requires CollisionFree(c) && Inv(c, s)
    ensures Inv(c, Apply(c, s, a))
  {
    hide Balanced, TokensNameTickets, ScansFine, Apply;
    forall ticket ensures Balanced(Apply(c, s, a), ticket) {
      assert Balanced(s, ticket);
      StepBalances(c, s, a, ticket);
    }
    StepKeepsNames(c, s, a);
    StepKeepsScans(c, s, a);
  }

  lemma {:induction false} RunKeepsInv(c: Config, s: State, acts: seq<Action>)
    requires CollisionFree(c) && Inv(c, s)
    ensures Inv(c, Run(c, s, acts))
    decreases |acts|
  {
    if acts != [] {
      hide Inv;
      StepKeepsInv(c, s, acts[0]);
      RunKeepsInv(c, Apply(c, s, acts[0]), acts[1..]);
    }
  }

  lemma InitFine(c: Config, s: State)
    requires Init(s)
    ensures Inv(c, s)
  {
    forall ticket ensures Balanced(s, ticket) {
      assert Winners(s, ticket) == {};
    }
  }

  /** Main result: whatever number of scans and uploads run against each other, the SUCCESS logs of
      a ticket plus the scans that have won it but not yet logged are exactly one if it is USED
      and none otherwise: one ticket, one admission. */
  lemma OneAdmissionPerTicket(c: Config, s: State, acts: seq<Action>, ticket: Id)
    requires CollisionFree(c) && Init(s)
    ensures var t := Run(c, s, acts);
            Admissions(t.db.logs, ticket) + |Winners(t, ticket)| == if IsUsed(t.db.tickets, ticket) then 1 else 0
  {
    InitFine(c, s);
    RunKeepsInv(c, s, acts);
    assert Balanced(Run(c, s, acts), ticket);
  }
}
