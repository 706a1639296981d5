/** Issuing tickets for a confirmed booking, and issuing them again when the confirmation is
    delivered again. */
module TicketIssue {
  import opened Outcomes
  import opened Sequences
  import opened TextNumbers
  import opened QrToken
  import Scans

  type Id = string

  datatype Seat = Seat(row: string, number: nat)

  datatype Ticket = Ticket(id: Id, booking: Id, show: Id, seatNumber: string, qrHash: string, tenant: Id)

  /** The HMAC under the secret, and SHA-256. */
  datatype Codec = Codec(sign: string -> string, hash: string -> string)

  /** One call of `generateTicketsForBooking`: the confirmed seats it found and the random ids it
      drew, one for each seat. */
  datatype Call = Call(booking: Id, show: Id, tenant: Id, seats: seq<Seat>, exp: int, ids: seq<Id>)

  const GRACE_MS := 30 * 60 * 1000

  function Label(s: Seat): string { s.row + Decimal(s.number) }

  function Labels(seats: seq<Seat>): seq<string> { seq(|seats|, i requires 0 <= i < |seats| => Label(seats[i])) }

  predicate Has(t: seq<Ticket>, booking: Id, tag: string) {
    exists i | 0 <= i < |t| :: t[i].booking == booking && t[i].seatNumber == tag
  }

  function NewToken(k: Codec, c: Call, id: Id): string { Generate(Payload(id, c.show, c.exp), k.sign) }

  function NewTicket(k: Codec, c: Call, tag: string, id: Id): Ticket {
    Ticket(id, c.booking, c.show, tag, k.hash(NewToken(k, c, id)), c.tenant)
  }

  predicate WellFormed(c: Call) { |c.ids| == |c.seats| }

  /** The tickets after the first n seats of a call. */
  function IssueFirst(k: Codec, t: seq<Ticket>, c: Call, n: nat): seq<Ticket>
    requires WellFormed(c) && n <= |c.seats|
    decreases n
  {
    if n == 0 then t
    else
      var before, tag := IssueFirst(k, t, c, n - 1), Label(c.seats[n - 1]);
      if Has(before, c.booking, tag) then before else before + [NewTicket(k, c, tag, c.ids[n - 1])]
  }

  function Issue(k: Codec, t: seq<Ticket>, c: Call): seq<Ticket>
    requires WellFormed(c)
  {
    IssueFirst(k, t, c, |c.seats|)
  }

  function Run(k: Codec, t: seq<Ticket>, calls: seq<Call>): seq<Ticket>
    requires forall c | c in calls :: WellFormed(c)
    decreases |calls|
  {
    if calls == [] then t else Issue(k, Run(k, t, calls[..|calls| - 1]), calls[|calls| - 1])
  }

  // ---------------------------------------------------------------- seat labels

  /** Rows are letters. */
  predicate Digitless(row: string) { forall i | 0 <= i < |row| :: !IsDigit(row[i]) }

  lemma {:induction false} WhereDigitsStart(row: string, n: nat)
    requires Digitless(row)
    ensures forall i | 0 <= i < |row| + |Decimal(n)| :: IsDigit((row + Decimal(n))[i]) <==> i >= |row|
  {
    DecimalRoundTrip(n);
  }

  /** A row without digits and a number can be read back from their concatenation. */
  lemma LabelIsInjective(a: Seat, b: Seat)
    requires Digitless(a.row) && Digitless(b.row) && Label(a) == Label(b)
    ensures a == b
  {
    WhereDigitsStart(a.row, a.number);
    WhereDigitsStart(b.row, b.number);
    DecimalRoundTrip(a.number);
    DecimalRoundTrip(b.number);
    hide Decimal;
    var x, y := |a.row|, |b.row|;
    assert !(x < y) by { FirstDigit(a, b); }
    assert !(y < x) by { FirstDigit(b, a); }
    assert Label(a)[..x] == a.row && Label(b)[..y] == b.row;
    assert Label(a)[x..] == Decimal(a.number) && Label(b)[y..] == Decimal(b.number);
  }

  lemma FirstDigit(a: Seat, b: Seat)
    requires Digitless(a.row) && Digitless(b.row) && Label(a) == Label(b)
    ensures |a.row| >= |b.row|
  {
    WhereDigitsStart(a.row, a.number);
    WhereDigitsStart(b.row, b.number);
    DecimalRoundTrip(a.number);
    hide Decimal;
    assert IsDigit(Label(a)[|a.row|]);
  }

  /** With digits in a row name two seats can share a label, and then one ticket. */
  lemma DigitsInRowsCollide()
    ensures Label(Seat("A", 11)) == Label(Seat("A1", 1)) && Seat("A", 11) != Seat("A1", 1)
  {
    assert Decimal(1) == "1" && Decimal(11) == Decimal(1) + ['1'];
  }

  lemma DistinctSeatsDistinctLabels(seats: seq<Seat>)
    requires Distinct(seats) && forall i | 0 <= i < |seats| :: Digitless(seats[i].row)
    ensures Distinct(Labels(seats))
  {
    forall i, j | 0 <= i < j < |seats| ensures Labels(seats)[i] != Labels(seats)[j] {
      if Label(seats[i]) == Label(seats[j]) { LabelIsInjective(seats[i], seats[j]); }
    }
  }

  // ---------------------------------------------------------------- one ticket per seat

  function Count(t: seq<Ticket>, booking: Id, tag: string): nat {
    if t == [] then 0
    else
      var last := t[|t| - 1];
      Count(t[..|t| - 1], booking, tag) + if last.booking == booking && last.seatNumber == tag then 1 else 0
  }

  lemma CountAppend(t: seq<Ticket>, x: Ticket, booking: Id, tag: string)
    ensures Count(t + [x], booking, tag) == Count(t, booking, tag) + if x.booking == booking && x.seatNumber == tag then 1 else 0
  {
    assert (t + [x])[..|t|] == t;
  }

  lemma {:induction false} HasExactlyWhenCounted(t: seq<Ticket>, booking: Id, tag: string)
    ensures Has(t, booking, tag) <==> Count(t, booking, tag) > 0
  {
    if t != [] {
      var n := |t| - 1;
      HasExactlyWhenCounted(t[..n], booking, tag);
      assert t == t[..n] + [t[n]];
      assert Has(t, booking, tag) <==> Has(t[..n], booking, tag) || (t[n].booking == booking && t[n].seatNumber == tag);
    }
  }

  /** A call asks for a ticket for this label of this booking. */
  predicate Asks(c: Call, n: nat, booking: Id, tag: string)
    requires n <= |c.seats|
  {
    c.booking == booking && exists i | 0 <= i < n :: Label(c.seats[i]) == tag
  }

  lemma {:induction false} CountAfterSeats(k: Codec, t: seq<Ticket>, c: Call, n: nat, booking: Id, tag: string)
    requires WellFormed(c) && n <= |c.seats|
    ensures Count(IssueFirst(k, t, c, n), booking, tag) ==
            if Count(t, booking, tag) == 0 && Asks(c, n, booking, tag) then 1 else Count(t, booking, tag)
    decreases n
  {
    hide IssueFirst, NewTicket, Label, Count, Has, Asks;
    if n == 0 {
      NothingAsked(k, t, c, booking, tag);
    } else {
      var before, l := IssueFirst(k, t, c, n - 1), Label(c.seats[n - 1]);
      CountAfterSeats(k, t, c, n - 1, booking, tag);
      HasExactlyWhenCounted(before, c.booking, l);
      NextSeat(k, t, c, n - 1);
      CountAppend(before, NewTicket(k, c, l, c.ids[n - 1]), booking, tag);
      NewTicketFields(k, c, l, c.ids[n - 1]);
      AsksNext(c, n, booking, tag);
    }
  }

  lemma NothingAsked(k: Codec, t: seq<Ticket>, c: Call, booking: Id, tag: string)
    requires WellFormed(c)
    ensures IssueFirst(k, t, c, 0) == t && !Asks(c, 0, booking, tag)
  {}

  lemma AsksNext(c: Call, n: nat, booking: Id, tag: string)
    requires 0 < n <= |c.seats|
    ensures Asks(c, n, booking, tag) <==> Asks(c, n - 1, booking, tag) || (c.booking == booking && Label(c.seats[n - 1]) == tag)
  {}

  lemma NewTicketFields(k: Codec, c: Call, tag: string, id: Id)
    ensures NewTicket(k, c, tag, id).booking == c.booking && NewTicket(k, c, tag, id).seatNumber == tag
  {}

  predicate Asked(calls: seq<Call>, booking: Id, tag: string) {
    exists i | 0 <= i < |calls| :: Asks(calls[i], |calls[i].seats|, booking, tag)
  }

  /** Whatever calls are made, for whatever bookings, however often repeated and with whatever
      random ids: a seat label of a booking has exactly one ticket if some call found it among the
      confirmed seats of that booking, and otherwise none. */
  lemma {:induction false} OneTicketPerLabel(k: Codec, calls: seq<Call>, booking: Id, tag: string)
    requires forall c | c in calls :: WellFormed(c)
    ensures Count(Run(k, [], calls), booking, tag) == if Asked(calls, booking, tag) then 1 else 0
    decreases |calls|
  {
    hide Asks, IssueFirst, Label, Has;
    if calls != [] {
      var n := |calls| - 1;
      OneTicketPerLabel(k, calls[..n], booking, tag);
      hide Count;
      CountAfterSeats(k, Run(k, [], calls[..n]), calls[n], |calls[n].seats|, booking, tag);
      assert calls == calls[..n] + [calls[n]];
      assert Asked(calls, booking, tag) <==> Asked(calls[..n], booking, tag) || Asks(calls[n], |calls[n].seats|, booking, tag);
    }
  }

  /** A repeated call issues nothing. */
  lemma ReplayIsNoOp(k: Codec, t: seq<Ticket>, first: Call, again: Call)
    requires WellFormed(first) && WellFormed(again) && first.booking == again.booking && first.seats == again.seats
    ensures Issue(k, Issue(k, t, first), again) == Issue(k, t, first)
  {
    var done := Issue(k, t, first);
    forall i | 0 <= i < |again.seats| ensures Has(done, again.booking, Label(again.seats[i])) {
      var tag := Label(again.seats[i]);
      CountAfterSeats(k, t, first, |first.seats|, first.booking, tag);
      assert Asks(first, |first.seats|, first.booking, tag);
      HasExactlyWhenCounted(done, first.booking, tag);
    }
    NothingToIssue(k, done, again, |again.seats|);
  }

  lemma {:induction false} NothingToIssue(k: Codec, t: seq<Ticket>, c: Call, n: nat)
    requires WellFormed(c) && n <= |c.seats| && forall i | 0 <= i < |c.seats| :: Has(t, c.booking, Label(c.seats[i]))
    ensures IssueFirst(k, t, c, n) == t
    decreases n
  {
    hide Generate, Has, Label, Decimal;
    if n > 0 { NothingToIssue(k, t, c, n - 1); }
  }

  // ---------------------------------------------------------------- as many tickets as seats

  function CountOf(t: seq<Ticket>, booking: Id): nat {
    if t == [] then 0 else CountOf(t[..|t| - 1], booking) + if t[|t| - 1].booking == booking then 1 else 0
  }

  function LabelSet(t: seq<Ticket>, booking: Id): set<string> {
    set i | 0 <= i < |t| && t[i].booking == booking :: t[i].seatNumber
  }

  lemma {:induction false} OnePerLabelMeansCount(t: seq<Ticket>, booking: Id)
    requires forall tag :: Count(t, booking, tag) <= 1
    ensures CountOf(t, booking) == |LabelSet(t, booking)|
  {
    if t == [] {
      assert LabelSet(t, booking) == {};
    } else {
      var n := |t| - 1;
      var rest, last := t[..n], t[n];
      assert t == rest + [last];
      forall tag ensures Count(rest, booking, tag) <= 1 {
        assert Count(t, booking, tag) <= 1;
      }
      OnePerLabelMeansCount(rest, booking);
      if last.booking == booking {
        HasExactlyWhenCounted(rest, booking, last.seatNumber);
        assert Count(t, booking, last.seatNumber) <= 1;
        assert last.seatNumber !in LabelSet(rest, booking);
        assert LabelSet(t, booking) == LabelSet(rest, booking) + {last.seatNumber};
      } else {
        assert LabelSet(t, booking) == LabelSet(rest, booking);
      }
    }
  }

  lemma LabelsHad(t: seq<Ticket>, booking: Id, tag: string)
    ensures tag in LabelSet(t, booking) <==> Has(t, booking, tag)
  {}

  /** A booking that had its tickets issued any positive number of times has as many tickets as
      it has seat labels: as many as seats, exactly when its labels are pairwise distinct. */
  lemma AsManyTicketsAsSeats(k: Codec, calls: seq<Call>, booking: Id, seats: seq<Seat>)
    requires forall c | c in calls :: WellFormed(c) && (c.booking == booking ==> c.seats == seats)
    requires exists c | c in calls :: c.booking == booking
    ensures CountOf(Run(k, [], calls), booking) == |seats| <==> Distinct(Labels(seats))
  {
    var t := Run(k, [], calls);
    hide Run, Count;
    forall tag
      ensures Count(t, booking, tag) <= 1
      ensures tag in LabelSet(t, booking) <==> tag in SetOf(Labels(seats))
    {
      OneTicketPerLabel(k, calls, booking, tag);
      AskedMeansSeat(calls, booking, seats, tag);
      HasExactlyWhenCounted(t, booking, tag);
      LabelsHad(t, booking, tag);
    }
    OnePerLabelMeansCount(t, booking);
    assert LabelSet(t, booking) == SetOf(Labels(seats));
    SizeOfDistinct(Labels(seats));
  }

  lemma AskedMeansSeat(calls: seq<Call>, booking: Id, seats: seq<Seat>, tag: string)
    requires forall c | c in calls :: c.booking == booking ==> c.seats == seats
    requires exists c | c in calls :: c.booking == booking
    ensures Asked(calls, booking, tag) <==> tag in SetOf(Labels(seats))
  {
    var c :| c in calls && c.booking == booking;
    var i :| 0 <= i < |calls| && calls[i] == c;
    assert forall j | 0 <= j < |calls| && calls[j].booking == booking :: calls[j] in calls && calls[j].seats == seats;
    assert forall j | 0 <= j < |seats| :: Labels(seats)[j] == Label(seats[j]);
    if tag in SetOf(Labels(seats)) {
      var j :| 0 <= j < |seats| && Labels(seats)[j] == tag;
      assert Asks(calls[i], |calls[i].seats|, booking, tag);
    }
  }

  lemma {:induction false} SizeOfDistinct(xs: seq<string>)
    ensures |SetOf(xs)| <= |xs| && (|SetOf(xs)| == |xs| <==> Distinct(xs))
  {
    if xs != [] {
      SizeOfDistinct(xs[1..]);
      assert SetOf(xs) == SetOf(xs[1..]) + {xs[0]};
      assert Distinct(xs) <==> Distinct(xs[1..]) && xs[0] !in SetOf(xs[1..]) by { DistinctTail(xs); }
      if xs[0] in SetOf(xs[1..]) { assert SetOf(xs) == SetOf(xs[1..]); }
    }
  }

  lemma DistinctTail(xs: seq<string>)
    requires xs != []
    ensures Distinct(xs) <==> Distinct(xs[1..]) && xs[0] !in SetOf(xs[1..])
  {
    assert forall i | 1 <= i < |xs| :: xs[i] == xs[1..][i - 1];
    assert xs[0] in SetOf(xs[1..]) <==> exists i | 1 <= i < |xs| :: xs[i] == xs[0];
  }

  // ---------------------------------------------------------------- tickets and their tokens

  /** The ticket's stored hash is the token's, and the token is made from the ticket. */
  predicate Carries(k: Codec, x: Ticket, token: string, exp: int) {
    x.qrHash == k.hash(token) && token == Generate(Payload(x.id, x.show, exp), k.sign)
  }

  /** The stored hash is that of a token that names this ticket and its show. */
  ghost predicate Hashed(k: Codec, x: Ticket) {
    exists exp :: x.qrHash == k.hash(Generate(Payload(x.id, x.show, exp), k.sign))
  }

  lemma {:induction false} IssuedAreHashed(k: Codec, t: seq<Ticket>, c: Call, n: nat)
    requires WellFormed(c) && n <= |c.seats| && forall i | 0 <= i < |t| :: Hashed(k, t[i])
    ensures forall i | 0 <= i < |IssueFirst(k, t, c, n)| :: Hashed(k, IssueFirst(k, t, c, n)[i])
    decreases n
  {
    hide Generate, Has, Label, Decimal;
    if n > 0 {
      IssuedAreHashed(k, t, c, n - 1);
      var x := NewTicket(k, c, Label(c.seats[n - 1]), c.ids[n - 1]);
      assert x.qrHash == k.hash(Generate(Payload(x.id, x.show, c.exp), k.sign));
    }
  }

  lemma {:induction false} RunIsHashed(k: Codec, calls: seq<Call>)
    requires forall c | c in calls :: WellFormed(c)
    ensures forall i | 0 <= i < |Run(k, [], calls)| :: Hashed(k, Run(k, [], calls)[i])
    decreases |calls|
  {
    if calls != [] {
      var n := |calls| - 1;
      RunIsHashed(k, calls[..n]);
      hide Hashed;
      IssuedAreHashed(k, Run(k, [], calls[..n]), calls[n], |calls[n].seats|);
    }
  }

  /** The table the gate looks tickets up in, by hash. */
  ghost predicate GateTable(t: seq<Ticket>, table: map<string, Scans.Ticket>) {
    && (forall h | h in table :: exists i | 0 <= i < |t| :: t[i].qrHash == h && t[i].id == table[h].id)
  }

  /** What scanning relies on: a valid token whose hash is found names the very ticket found. */
  lemma GateFindsTheTicketNamed(k: Codec, calls: seq<Call>, table: map<string, Scans.Ticket>, token: string)
    requires forall c | c in calls :: WellFormed(c)
    requires IsHex(k.sign) && forall x, y :: k.hash(x) == k.hash(y) ==> x == y
    requires GateTable(Run(k, [], calls), table)
    requires Validate(token, k.sign).Some? && k.hash(token) in table
    ensures table[k.hash(token)].id == Validate(token, k.sign).value.t
  {
    hide Run, Validate, Generate, IsHex;
    var t := Run(k, [], calls);
    RunIsHashed(k, calls);
    var i :| 0 <= i < |t| && t[i].qrHash == k.hash(token) && t[i].id == table[k.hash(token)].id;
    assert Hashed(k, t[i]);
    var exp :| t[i].qrHash == k.hash(Generate(Payload(t[i].id, t[i].show, exp), k.sign));
    GeneratedTokenReadsBack(Payload(t[i].id, t[i].show, exp), k.sign);
  }

  // ---------------------------------------------------------------- the service

  datatype Issued = Issued(tickets: seq<Ticket>, tokens: seq<string>)
  datatype IssueError = ShowNotFound

  class TicketsService {
    const codec: Codec
    const shows: map<Id, int>                     // start times
    var confirmedSeats: map<Id, seq<Seat>>        // bookingSeat rows with status CONFIRMED
    var tickets: seq<Ticket>

    constructor (codec: Codec, shows: map<Id, int>, confirmedSeats: map<Id, seq<Seat>>)
      ensures this.codec == codec && this.shows == shows && this.confirmedSeats == confirmedSeats && tickets == []
    {
      this.codec, this.shows, this.confirmedSeats, tickets := codec, shows, confirmedSeats, [];
    }

    function SeatsOf(booking: Id): seq<Seat>
      reads this
    {
      if booking in confirmedSeats then confirmedSeats[booking] else []
    }

    /** The idempotency check: `findFirst` by booking and seat number. */
    method Exists(booking: Id, seatNumber: string) returns (found: bool)
      ensures found == Has(tickets, booking, seatNumber)
    {
      found := exists i | 0 <= i < |tickets| :: tickets[i].booking == booking && tickets[i].seatNumber == seatNumber;
    }

    /** `ids` stands for randomUUID, drawn once per seat.  The tokens handed out are those of the
        new tickets, in order. */
    method GenerateTicketsForBooking(booking: Id, show: Id, tenant: Id, ids: seq<Id>) returns (r: Result<Issued, IssueError>)
      requires |ids| == |SeatsOf(booking)|
      modifies this`tickets
      ensures r.Err? <==> show !in shows
      ensures r.Err? ==> tickets == old(tickets)
      ensures r.Ok? ==> tickets == Issue(codec, old(tickets), Call(booking, show, tenant, SeatsOf(booking), (shows[show] + 30 * 60 * 1000) / 1000, ids))
      ensures r.Ok? ==> tickets == old(tickets) + r.value.tickets && |r.value.tokens| == |r.value.tickets|
      ensures r.Ok? ==> forall i | 0 <= i < |r.value.tokens| ::
                Carries(codec, r.value.tickets[i], r.value.tokens[i], (shows[show] + 30 * 60 * 1000) / 1000)
      ensures r.Ok? ==> forall x | x in SeatsOf(booking) :: Has(tickets, booking, Label(x))
      ensures r.Ok? ==> forall i | 0 <= i < |r.value.tickets| ::
                var x := r.value.tickets[i];
                && x.booking == booking && x.show == show && x.tenant == tenant && x.id in ids
                && (exists seat | seat in SeatsOf(booking) :: x.seatNumber == seat.row + Decimal(seat.number))
                && !Has(old(tickets), booking, x.seatNumber)
      ensures r.Ok? ==> forall i, j | 0 <= i < j < |r.value.tickets| :: r.value.tickets[i].seatNumber != r.value.tickets[j].seatNumber
    {
      hide Has, Label, NewTicket, IssueFirst, Carries, Generate, Made, Decimal;
      if show !in shows { return Err(ShowNotFound); }
      var bookingSeats := SeatsOf(booking);
      var exp := (shows[show] + GRACE_MS) / 1000;
      ghost var call := Call(booking, show, tenant, bookingSeats, exp, ids);
      var generated: seq<Ticket>, tokens: seq<string> := [], [];
      NothingAsked(codec, tickets, call, booking, "");
      NothingMade(tickets, call);
      for i := 0 to |bookingSeats|
        invariant tickets == IssueFirst(codec, old(tickets), call, i) && tickets == old(tickets) + generated
        invariant |tokens| == |generated| && forall j | 0 <= j < |tokens| :: Carries(codec, generated[j], tokens[j], exp)
        invariant forall j | 0 <= j < i :: Has(tickets, booking, Label(bookingSeats[j]))
        invariant Made(old(tickets), tickets, generated, call)
      {
        var seatNumber := Label(bookingSeats[i]);
        NextSeat(codec, old(tickets), call, i);
        ghost var before := tickets;
        var existing := Exists(booking, seatNumber);
        if !existing {
          var rawToken := Generate(Payload(ids[i], show, exp), codec.sign);
          var ticket := Ticket(ids[i], booking, show, seatNumber, codec.hash(rawToken), tenant);
          tickets := tickets + [ticket];
          generated, tokens := generated + [ticket], tokens + [rawToken];
          HasKept(before, ticket, booking);
          OneMoreMade(old(tickets), before, generated[..|generated| - 1], ticket, call, i);
          assert generated == generated[..|generated| - 1] + [ticket];
          assert ticket == NewTicket(codec, call, seatNumber, ids[i]) && Carries(codec, ticket, rawToken, exp) by {
            NewTicketMeaning(codec, call, seatNumber, ids[i]);
          }
        }
      }
      MadeMeans(old(tickets), tickets, generated, call);
      return Ok(Issued(generated, tokens));
    }
  }

  /** A ticket of this booking, show and tenant for a seat of the booking that had none. */
  predicate New(t: seq<Ticket>, x: Ticket, c: Call) {
    && x.booking == c.booking && x.show == c.show && x.tenant == c.tenant && x.id in c.ids
    && (exists i | 0 <= i < |c.seats| :: x.seatNumber == Label(c.seats[i])) && !Has(t, c.booking, x.seatNumber)
  }

  /** The tickets generated so far are new ones, for different seats. */
  predicate Made(was: seq<Ticket>, now: seq<Ticket>, generated: seq<Ticket>, c: Call) {
    && was <= now
    && (forall j | 0 <= j < |generated| :: New(was, generated[j], c) && Has(now, c.booking, generated[j].seatNumber))
    && (forall j, k | 0 <= j < k < |generated| :: generated[j].seatNumber != generated[k].seatNumber)
  }

  lemma NothingMade(t: seq<Ticket>, c: Call)
    ensures Made(t, t, [], c)
  {}

  lemma OneMoreMade(was: seq<Ticket>, now: seq<Ticket>, generated: seq<Ticket>, x: Ticket, c: Call, n: nat)
    requires Made(was, now, generated, c) && n < |c.seats| && !Has(now, c.booking, x.seatNumber)
    requires x.booking == c.booking && x.show == c.show && x.tenant == c.tenant && x.id in c.ids && x.seatNumber == Label(c.seats[n])
    ensures Made(was, now + [x], generated + [x], c)
  {
    hide Has, Label;
    HadNot(was, now, c.booking, x.seatNumber);
    HasKept(now, x, c.booking);
    assert New(was, x, c);
  }

  lemma MadeMeans(was: seq<Ticket>, now: seq<Ticket>, xs: seq<Ticket>, c: Call)
    requires Made(was, now, xs, c)
    ensures forall j | 0 <= j < |xs| ::
              && xs[j].booking == c.booking && xs[j].show == c.show && xs[j].tenant == c.tenant && xs[j].id in c.ids
              && (exists seat | seat in c.seats :: xs[j].seatNumber == seat.row + Decimal(seat.number)) && !Has(was, c.booking, xs[j].seatNumber)
    ensures forall j, k | 0 <= j < k < |xs| :: xs[j].seatNumber != xs[k].seatNumber
  {
    hide Has, Decimal;
    forall j | 0 <= j < |xs| ensures exists seat | seat in c.seats :: xs[j].seatNumber == seat.row + Decimal(seat.number) {
      assert New(was, xs[j], c);
      var i :| 0 <= i < |c.seats| && xs[j].seatNumber == Label(c.seats[i]);
      assert c.seats[i] in c.seats;
    }
  }

  lemma HadNot(t: seq<Ticket>, after: seq<Ticket>, booking: Id, tag: string)
    requires t <= after
    ensures Has(t, booking, tag) ==> Has(after, booking, tag)
  {
    assert forall i | 0 <= i < |t| :: after[i] == t[i];
  }

  lemma HasKept(t: seq<Ticket>, x: Ticket, booking: Id)
    ensures forall tag | Has(t, booking, tag) :: Has(t + [x], booking, tag)
    ensures x.booking == booking ==> Has(t + [x], booking, x.seatNumber)
  {
    assert forall i | 0 <= i < |t| :: (t + [x])[i] == t[i];
    assert (t + [x])[|t|] == x;
  }

  lemma NewTicketMeaning(k: Codec, c: Call, tag: string, id: Id)
    ensures var token := Generate(Payload(id, c.show, c.exp), k.sign);
            NewTicket(k, c, tag, id) == Ticket(id, c.booking, c.show, tag, k.hash(token), c.tenant)
            && Carries(k, NewTicket(k, c, tag, id), token, c.exp)
  {}

  lemma NextSeat(k: Codec, t: seq<Ticket>, c: Call, n: nat)
    requires WellFormed(c) && n < |c.seats|
    ensures var before, tag, id := IssueFirst(k, t, c, n), Label(c.seats[n]), c.ids[n];
            IssueFirst(k, t, c, n + 1) ==
            if Has(before, c.booking, tag) then before
            else before + [NewTicket(k, c, tag, id)]
  {}
}
