/** The tenant-scoping query rewriter: one shared database, rewritten so that each tenant works
    as if on a private one. */
module TenantScope {
  import opened Outcomes

  type Id = string

  datatype Value = Null | Text(text: string) | Num(num: int)
  datatype Row = Row(id: Id, fields: map<string, Value>)

  datatype Cond = Equals(value: Value) | OneOf(values: seq<Value>) | Not(cond: Cond)

  /** A query filter: conditions on columns, then the AND, OR and NOT lists. */
  datatype Where = Where(fields: map<string, Cond>, all: seq<Where>, any: AnyOf, none: seq<Where>)
  datatype AnyOf = Unset | OneIn(options: seq<Where>)

  type Data = map<string, Value>

  datatype Op =
    | FindMany(where: Where, take: nat)
    | FindFirst(where: Where)
    | FindUnique(where: Where)
    | Count(where: Where)
    | Aggregate(where: Where, column: string)
    | GroupBy(where: Where, column: string)
    | Create(id: Id, data: Data)
    | CreateMany(items: seq<Row>)
    | Update(where: Where, data: Data)
    | UpdateMany(where: Where, data: Data)
    | Upsert(where: Where, id: Id, create: Data, data: Data)
    | Delete(where: Where)
    | DeleteMany(where: Where)

  datatype Error = UniqueViolation | RecordNotFound

  datatype Answer =
    | Rows(rows: seq<Row>)
    | One(row: Option<Row>)
    | Number(number: int)
    | Groups(groups: map<Value, nat>)
    | Failed(error: Error)

  datatype Outcome = Outcome(rows: seq<Row>, answer: Answer)

  const TENANT := "tenantId"

  // ---------------------------------------------------------------- the database

  function Column(r: Row, name: string): Value {
    if name == "id" then Text(r.id) else if name in r.fields then r.fields[name] else Null
  }

  predicate Holds(v: Value, c: Cond) {
    match c
    case Equals(x) => v == x
    case OneOf(xs) => v in xs
    case Not(inner) => !Holds(v, inner)
  }

  predicate Matches(r: Row, w: Where)
    decreases w
  {
    && (forall k | k in w.fields :: Holds(Column(r, k), w.fields[k]))
    && (forall i | 0 <= i < |w.all| :: Matches(r, w.all[i]))
    && (w.any.OneIn? ==> exists i | 0 <= i < |w.any.options| :: Matches(r, w.any.options[i]))
    && (forall i | 0 <= i < |w.none| :: !Matches(r, w.none[i]))
  }

  function Select(rows: seq<Row>, w: Where): seq<Row> {
    if rows == [] then []
    else if Matches(rows[0], w) then [rows[0]] + Select(rows[1..], w)
    else Select(rows[1..], w)
  }

  function First(rows: seq<Row>, w: Where): Option<Row> {
    if rows == [] then None else if Matches(rows[0], w) then Some(rows[0]) else First(rows[1..], w)
  }

  function Merge(r: Row, data: Data): Row { Row(r.id, r.fields + data) }

  function ChangeFirst(rows: seq<Row>, w: Where, data: Data): seq<Row> {
    if rows == [] then []
    else if Matches(rows[0], w) then [Merge(rows[0], data)] + rows[1..]
    else [rows[0]] + ChangeFirst(rows[1..], w, data)
  }

  function ChangeAll(rows: seq<Row>, w: Where, data: Data): seq<Row> {
    if rows == [] then []
    else [if Matches(rows[0], w) then Merge(rows[0], data) else rows[0]] + ChangeAll(rows[1..], w, data)
  }

  function RemoveFirst(rows: seq<Row>, w: Where): seq<Row> {
    if rows == [] then []
    else if Matches(rows[0], w) then rows[1..]
    else [rows[0]] + RemoveFirst(rows[1..], w)
  }

  function RemoveAll(rows: seq<Row>, w: Where): seq<Row> {
    if rows == [] then []
    else if Matches(rows[0], w) then RemoveAll(rows[1..], w)
    else [rows[0]] + RemoveAll(rows[1..], w)
  }

  predicate HasId(rows: seq<Row>, id: Id) { exists i | 0 <= i < |rows| :: rows[i].id == id }

  /** No two rows to insert share an id, and none has an id already present. */
  predicate Insertable(rows: seq<Row>, items: seq<Row>) {
    && (forall i | 0 <= i < |items| :: !HasId(rows, items[i].id))
    && (forall i, j | 0 <= i < j < |items| :: items[i].id != items[j].id)
  }

  function Total(rows: seq<Row>, column: string): int {
    if rows == [] then 0
    else (match Column(rows[0], column) case Num(n) => n case _ => 0) + Total(rows[1..], column)
  }

  function GroupCounts(rows: seq<Row>, column: string): map<Value, nat> {
    if rows == [] then map[]
    else
      var rest, v := GroupCounts(rows[1..], column), Column(rows[0], column);
      rest[v := (if v in rest then rest[v] else 0) + 1]
  }

  function Insert(rows: seq<Row>, r: Row): Outcome {
    if HasId(rows, r.id) then Outcome(rows, Failed(UniqueViolation)) else Outcome(rows + [r], One(Some(r)))
  }

  /** What the database does with an operation that reaches it. */
  function Exec(rows: seq<Row>, op: Op): Outcome {
    match op
    case FindMany(w, take) => var hits := Select(rows, w); Outcome(rows, Rows(if take < |hits| then hits[..take] else hits))
    case FindFirst(w) => Outcome(rows, One(First(rows, w)))
    case FindUnique(w) => Outcome(rows, One(First(rows, w)))
    case Count(w) => Outcome(rows, Number(|Select(rows, w)|))
    case Aggregate(w, column) => Outcome(rows, Number(Total(Select(rows, w), column)))
    case GroupBy(w, column) => Outcome(rows, Groups(GroupCounts(Select(rows, w), column)))
    case Create(id, data) => Insert(rows, Row(id, data))
    case CreateMany(items) =>
      if Insertable(rows, items) then Outcome(rows + items, Number(|items|)) else Outcome(rows, Failed(UniqueViolation))
    case Update(w, data) =>
      (match First(rows, w)
       case None => Outcome(rows, Failed(RecordNotFound))
       case Some(r) => Outcome(ChangeFirst(rows, w, data), One(Some(Merge(r, data)))))
    case UpdateMany(w, data) => Outcome(ChangeAll(rows, w, data), Number(|Select(rows, w)|))
    case Upsert(w, id, create, data) =>
      (match First(rows, w)
       case None => Insert(rows, Row(id, create))
       case Some(r) => Outcome(ChangeFirst(rows, w, data), One(Some(Merge(r, data)))))
    case Delete(w) =>
      (match First(rows, w)
       case None => Outcome(rows, Failed(RecordNotFound))
       case Some(r) => Outcome(RemoveFirst(rows, w), One(Some(r))))
    case DeleteMany(w) => Outcome(RemoveAll(rows, w), Number(|Select(rows, w)|))
  }

  // ---------------------------------------------------------------- the rewriter

  predicate IsGlobal(model: string) {
    model in ["Tenant", "AuditLog", "FeatureFlag", "RazorpayWebhookEvent", "SystemEventLog", "PaymentEvent", "TheaterApplication"]
  }

  function ForTenant(w: Where, t: Id): Where { w.(fields := w.fields[TENANT := Equals(Text(t))]) }

  function Stamp(data: Data, t: Id): Data { data[TENANT := Text(t)] }

  function StampAll(items: seq<Row>, t: Id): seq<Row> {
    seq(|items|, i requires 0 <= i < |items| => Row(items[i].id, Stamp(items[i].fields, t)))
  }

  function Rewrite(t: Id, op: Op): Op {
    match op
    case FindUnique(_) => op
    case Create(id, data) => Create(id, Stamp(data, t))
    case CreateMany(items) => CreateMany(StampAll(items, t))
    case Upsert(w, id, create, data) => Upsert(w, id, Stamp(create, t), Stamp(data, t))
    case FindMany(w, take) => FindMany(ForTenant(w, t), take)
    case FindFirst(w) => FindFirst(ForTenant(w, t))
    case Count(w) => Count(ForTenant(w, t))
    case Aggregate(w, column) => Aggregate(ForTenant(w, t), column)
    case GroupBy(w, column) => GroupBy(ForTenant(w, t), column)
    case Update(w, data) => Update(ForTenant(w, t), data)
    case UpdateMany(w, data) => UpdateMany(ForTenant(w, t), data)
    case Delete(w) => Delete(ForTenant(w, t))
    case DeleteMany(w) => DeleteMany(ForTenant(w, t))
  }

  /** No tenant, or the empty string, is the superAdmin bypass. */
  predicate Bypass(tenant: Option<Id>) { tenant.None? || tenant.value == "" }

  function Scope(tenant: Option<Id>, model: string, op: Op): Op {
    if Bypass(tenant) || IsGlobal(model) then op else Rewrite(tenant.value, op)
  }

  // ---------------------------------------------------------------- the meaning

  function Owner(r: Row): Value { Column(r, TENANT) }

  function Own(t: Id, rows: seq<Row>): seq<Row> {
    if rows == [] then []
    else if Owner(rows[0]) == Text(t) then [rows[0]] + Own(t, rows[1..])
    else Own(t, rows[1..])
  }

  function Others(t: Id, rows: seq<Row>): seq<Row> {
    if rows == [] then []
    else if Owner(rows[0]) == Text(t) then Others(t, rows[1..])
    else [rows[0]] + Others(t, rows[1..])
  }

  /** The filter without any tenant of the caller's own. */
  function Bare(w: Where): Where { w.(fields := w.fields - {TENANT}) }

  /** The operation as the tenant would run it on a database that holds its own rows only: no
      tenant filter anywhere, and the tenant column of new rows filled in by default. */
  function Alone(t: Id, op: Op): Op {
    match op
    case FindUnique(_) => op
    case Create(id, data) => Create(id, Stamp(data, t))
    case CreateMany(items) => CreateMany(StampAll(items, t))
    case Upsert(w, id, create, data) => Upsert(w, id, Stamp(create, t), Stamp(data, t))
    case FindMany(w, take) => FindMany(Bare(w), take)
    case FindFirst(w) => FindFirst(Bare(w))
    case Count(w) => Count(Bare(w))
    case Aggregate(w, column) => Aggregate(Bare(w), column)
    case GroupBy(w, column) => GroupBy(Bare(w), column)
    case Update(w, data) => Update(Bare(w), data)
    case UpdateMany(w, data) => UpdateMany(Bare(w), data)
    case Delete(w) => Delete(Bare(w))
    case DeleteMany(w) => DeleteMany(Bare(w))
  }

  /** The rewritten operation answers as on the private table, leaves the private table the
      private run would leave, and leaves every other tenant's rows alone. */
  predicate Isolated(rows: seq<Row>, t: Id, op: Op) {
    var shared, alone := Exec(rows, Rewrite(t, op)), Exec(Own(t, rows), Alone(t, op));
    shared.answer == alone.answer && Own(t, shared.rows) == alone.rows && Others(t, shared.rows) == Others(t, rows)
  }

  predicate TakenElsewhere(rows: seq<Row>, t: Id, id: Id) { HasId(Others(t, rows), id) && !HasId(Own(t, rows), id) }

  predicate KeepsTenant(t: Id, data: Data) { TENANT !in data || data[TENANT] == Text(t) }

  /** What a caller can check beforehand, operation by operation. */
  predicate Safe(rows: seq<Row>, t: Id, op: Op) {
    match op
    case FindUnique(w) => First(rows, w).Some? ==> Owner(First(rows, w).value) == Text(t)
    case Create(id, _) => !TakenElsewhere(rows, t, id)
    case CreateMany(items) => Insertable(Own(t, rows), items) ==> Insertable(Others(t, rows), items)
    case Update(w, data) => KeepsTenant(t, data) || First(Own(t, rows), Bare(w)).None?
    case UpdateMany(w, data) => KeepsTenant(t, data) || First(Own(t, rows), Bare(w)).None?
    case Upsert(w, id, _, _) =>
      if First(rows, w).Some? then Owner(First(rows, w).value) == Text(t) else !TakenElsewhere(rows, t, id)
    case _ => true
  }

  // ---------------------------------------------------------------- one row at a time

  /** The rewritten filter is the caller's own filter on the tenant's rows. */
  lemma FilterMeaning(r: Row, w: Where, t: Id)
    ensures Matches(r, ForTenant(w, t)) <==> Owner(r) == Text(t) && Matches(r, Bare(w))
  {
    var f, b := ForTenant(w, t), Bare(w);
    assert forall k | k in b.fields :: k in f.fields && f.fields[k] == b.fields[k];
    assert forall k | k in f.fields && k != TENANT :: k in b.fields;
    assert TENANT in f.fields && f.fields[TENANT] == Equals(Text(t));
    assert Matches(r, f) ==> Holds(Column(r, TENANT), f.fields[TENANT]);
  }

  lemma MergeOwner(r: Row, data: Data)
    ensures Owner(Merge(r, data)) == if TENANT in data then data[TENANT] else Owner(r)
  {}

  lemma OwnCons(t: Id, r: Row, rest: seq<Row>)
    ensures Own(t, [r] + rest) == if Owner(r) == Text(t) then [r] + Own(t, rest) else Own(t, rest)
    ensures Others(t, [r] + rest) == if Owner(r) == Text(t) then Others(t, rest) else [r] + Others(t, rest)
  {
    assert ([r] + rest)[1..] == rest;
  }

  lemma {:induction false} OwnConcat(t: Id, xs: seq<Row>, ys: seq<Row>)
    ensures Own(t, xs + ys) == Own(t, xs) + Own(t, ys)
    ensures Others(t, xs + ys) == Others(t, xs) + Others(t, ys)
  {
    hide Own, Others, Owner;
    if xs == [] {
      assert xs + ys == ys;
      OwnNothing(t);
    } else {
      var x, rest := xs[0], xs[1..];
      assert xs + ys == [x] + (rest + ys) && xs == [x] + rest;
      OwnConcat(t, rest, ys);
      OwnCons(t, x, rest + ys);
      OwnCons(t, x, rest);
      assert [x] + (Own(t, rest) + Own(t, ys)) == [x] + Own(t, rest) + Own(t, ys);
      assert [x] + (Others(t, rest) + Others(t, ys)) == [x] + Others(t, rest) + Others(t, ys);
    }
  }

  lemma OwnNothing(t: Id)
    ensures Own(t, []) == [] && Others(t, []) == []
  {}

  lemma {:induction false} OwnedOnly(t: Id, rows: seq<Row>)
    ensures forall r | r in Own(t, rows) :: Owner(r) == Text(t)
    ensures forall r | r in Others(t, rows) :: Owner(r) != Text(t)
  {
    if rows != [] { OwnedOnly(t, rows[1..]); }
  }

  lemma {:induction false} AllStamped(t: Id, items: seq<Row>)
    ensures Own(t, StampAll(items, t)) == StampAll(items, t) && Others(t, StampAll(items, t)) == []
  {
    if items != [] {
      var s := StampAll(items, t);
      assert s[1..] == StampAll(items[1..], t);
      AllStamped(t, items[1..]);
      assert Owner(s[0]) == Text(t);
      assert [s[0]] + s[1..] == s;
    }
  }

  lemma {:induction false} IdsSplit(t: Id, rows: seq<Row>, id: Id)
    ensures HasId(rows, id) <==> HasId(Own(t, rows), id) || HasId(Others(t, rows), id)
  {
    hide Owner, HasId;
    if rows == [] {
      assert !HasId([], id) by { NobodyHasId(id); }
    } else {
      IdsSplit(t, rows[1..], id);
      HasCons(rows[0], rows[1..], id);
      HasCons(rows[0], Own(t, rows[1..]), id);
      HasCons(rows[0], Others(t, rows[1..]), id);
      assert rows == [rows[0]] + rows[1..];
    }
  }

  lemma NobodyHasId(id: Id)
    ensures !HasId([], id)
  {}

  lemma HasCons(r: Row, rest: seq<Row>, id: Id)
    ensures HasId([r] + rest, id) <==> r.id == id || HasId(rest, id)
  {
    if HasId(rest, id) {
      var i :| 0 <= i < |rest| && rest[i].id == id;
      assert ([r] + rest)[i + 1].id == id;
    }
    if r.id == id { assert ([r] + rest)[0].id == id; }
  }

  // ---------------------------------------------------------------- filters over the shared table

  lemma {:induction false} ReadsAgree(rows: seq<Row>, w: Where, t: Id)
    ensures Select(rows, ForTenant(w, t)) == Select(Own(t, rows), Bare(w))
    ensures First(rows, ForTenant(w, t)) == First(Own(t, rows), Bare(w))
  {
    hide Matches, Owner, ForTenant, Bare;
    if rows != [] {
      FilterMeaning(rows[0], w, t);
      ReadsAgree(rows[1..], w, t);
      assert ([rows[0]] + Own(t, rows[1..]))[1..] == Own(t, rows[1..]);
    }
  }

  lemma {:induction false} RemovesAgree(rows: seq<Row>, w: Where, t: Id)
    ensures Own(t, RemoveAll(rows, ForTenant(w, t))) == RemoveAll(Own(t, rows), Bare(w))
    ensures Others(t, RemoveAll(rows, ForTenant(w, t))) == Others(t, rows)
    ensures Own(t, RemoveFirst(rows, ForTenant(w, t))) == RemoveFirst(Own(t, rows), Bare(w))
    ensures Others(t, RemoveFirst(rows, ForTenant(w, t))) == Others(t, rows)
  {
    hide Matches, Owner, ForTenant, Bare;
    if rows != [] {
      FilterMeaning(rows[0], w, t);
      RemovesAgree(rows[1..], w, t);
      assert ([rows[0]] + Own(t, rows[1..]))[1..] == Own(t, rows[1..]);
      OwnCons(t, rows[0], RemoveAll(rows[1..], ForTenant(w, t)));
      OwnCons(t, rows[0], RemoveFirst(rows[1..], ForTenant(w, t)));
    }
  }

  lemma {:induction false} ChangesAgree(rows: seq<Row>, w: Where, t: Id, data: Data)
    requires KeepsTenant(t, data)
    ensures Own(t, ChangeAll(rows, ForTenant(w, t), data)) == ChangeAll(Own(t, rows), Bare(w), data)
    ensures Others(t, ChangeAll(rows, ForTenant(w, t), data)) == Others(t, rows)
    ensures Own(t, ChangeFirst(rows, ForTenant(w, t), data)) == ChangeFirst(Own(t, rows), Bare(w), data)
    ensures Others(t, ChangeFirst(rows, ForTenant(w, t), data)) == Others(t, rows)
  {
    hide Matches, Owner, ForTenant, Bare, Merge;
    if rows != [] {
      var f := ForTenant(w, t);
      FilterMeaning(rows[0], w, t);
      MergeOwner(rows[0], data);
      ChangesAgree(rows[1..], w, t, data);
      assert ([rows[0]] + Own(t, rows[1..]))[1..] == Own(t, rows[1..]);
      OwnCons(t, rows[0], ChangeAll(rows[1..], f, data));
      OwnCons(t, Merge(rows[0], data), ChangeAll(rows[1..], f, data));
      OwnCons(t, rows[0], ChangeFirst(rows[1..], f, data));
      OwnCons(t, Merge(rows[0], data), rows[1..]);
    }
  }

  lemma {:induction false} NothingToChange(rows: seq<Row>, w: Where, data: Data)
    requires First(rows, w).None?
    ensures ChangeAll(rows, w, data) == rows
  {
    if rows != [] { NothingToChange(rows[1..], w, data); }
  }

  /** An update that gives rows away shrinks the tenant's table; the private run would not. */
  lemma {:induction false} GivingAwayShrinks(rows: seq<Row>, w: Where, t: Id, data: Data)
    requires !KeepsTenant(t, data)
    ensures |Own(t, ChangeAll(rows, ForTenant(w, t), data))| <= |Own(t, rows)| && |Own(t, ChangeFirst(rows, ForTenant(w, t), data))| <= |Own(t, rows)|
    ensures First(rows, ForTenant(w, t)).Some? ==> |Own(t, ChangeAll(rows, ForTenant(w, t), data))| < |Own(t, rows)|
    ensures First(rows, ForTenant(w, t)).Some? ==> |Own(t, ChangeFirst(rows, ForTenant(w, t), data))| < |Own(t, rows)|
  {
    hide Matches, Owner, ForTenant, Bare, Merge;
    if rows != [] {
      var f := ForTenant(w, t);
      FilterMeaning(rows[0], w, t);
      MergeOwner(rows[0], data);
      GivingAwayShrinks(rows[1..], w, t, data);
      OwnCons(t, rows[0], ChangeAll(rows[1..], f, data));
      OwnCons(t, Merge(rows[0], data), ChangeAll(rows[1..], f, data));
      OwnCons(t, rows[0], ChangeFirst(rows[1..], f, data));
      OwnCons(t, Merge(rows[0], data), rows[1..]);
    }
  }

  lemma {:induction false} ChangeKeepsLength(rows: seq<Row>, w: Where, data: Data)
    ensures |ChangeAll(rows, w, data)| == |rows| == |ChangeFirst(rows, w, data)|
  {
    if rows != [] { ChangeKeepsLength(rows[1..], w, data); }
  }

  // ---------------------------------------------------------------- unscoped filters: findUnique, upsert

  /** When the row an unscoped filter finds is the tenant's own, it is the row it finds alone. */
  lemma {:induction false} OwnHit(rows: seq<Row>, w: Where, t: Id, data: Data)
    requires First(rows, w).Some? && Owner(First(rows, w).value) == Text(t) && TENANT in data && data[TENANT] == Text(t)
    ensures First(Own(t, rows), w) == First(rows, w)
    ensures Own(t, ChangeFirst(rows, w, data)) == ChangeFirst(Own(t, rows), w, data)
    ensures Others(t, ChangeFirst(rows, w, data)) == Others(t, rows)
  {
    hide Matches, Owner, Merge;
    if !Matches(rows[0], w) { OwnHit(rows[1..], w, t, data); }
    assert ([rows[0]] + Own(t, rows[1..]))[1..] == Own(t, rows[1..]);
    MergeOwner(rows[0], data);
    OwnCons(t, rows[0], ChangeFirst(rows[1..], w, data));
    OwnCons(t, Merge(rows[0], data), rows[1..]);
  }

  /** Otherwise the unscoped upsert takes the row over from its owner. */
  lemma {:induction false} ForeignHit(rows: seq<Row>, w: Where, t: Id, data: Data)
    requires First(rows, w).Some? && Owner(First(rows, w).value) != Text(t) && TENANT in data && data[TENANT] == Text(t)
    ensures |Others(t, ChangeFirst(rows, w, data))| < |Others(t, rows)|
  {
    hide Matches, Owner, Merge;
    if !Matches(rows[0], w) { ForeignHit(rows[1..], w, t, data); }
    MergeOwner(rows[0], data);
    OwnCons(t, rows[0], ChangeFirst(rows[1..], w, data));
    OwnCons(t, Merge(rows[0], data), rows[1..]);
  }

  lemma {:induction false} NoHit(rows: seq<Row>, w: Where, t: Id)
    requires First(rows, w).None?
    ensures First(Own(t, rows), w).None?
  {
    hide Matches, Owner;
    if rows != [] {
      NoHit(rows[1..], w, t);
      assert ([rows[0]] + Own(t, rows[1..]))[1..] == Own(t, rows[1..]);
    }
  }

  lemma {:induction false} HitIsThere(rows: seq<Row>, w: Where)
    ensures First(rows, w).Some? ==> First(rows, w).value in rows
  {
    if rows != [] { HitIsThere(rows[1..], w); }
  }

  // ---------------------------------------------------------------- isolation, operation by operation

  lemma InsertIsolated(rows: seq<Row>, t: Id, r: Row)
    requires Owner(r) == Text(t)
    ensures !TakenElsewhere(rows, t, r.id) <==> Insert(rows, r).answer == Insert(Own(t, rows), r).answer
    ensures !TakenElsewhere(rows, t, r.id) ==> Own(t, Insert(rows, r).rows) == Insert(Own(t, rows), r).rows
    ensures Others(t, Insert(rows, r).rows) == Others(t, rows)
  {
    hide Owner;
    IdsSplit(t, rows, r.id);
    OwnConcat(t, rows, [r]);
    OwnCons(t, r, []);
    assert [r] + [] == [r];
  }

  lemma CreateManyIsolated(rows: seq<Row>, t: Id, items: seq<Row>)
    ensures Isolated(rows, t, CreateMany(items)) <==> Safe(rows, t, CreateMany(items))
  {
    hide Owner, Own, Others, HasId;
    var s := StampAll(items, t);
    forall i | 0 <= i < |items| ensures s[i].id == items[i].id && (HasId(rows, items[i].id) <==> HasId(Own(t, rows), items[i].id) || HasId(Others(t, rows), items[i].id)) {
      IdsSplit(t, rows, items[i].id);
    }
    assert Insertable(rows, s) <==> Insertable(rows, items);
    assert Insertable(Own(t, rows), s) <==> Insertable(Own(t, rows), items);
    assert Insertable(rows, items) <==> Insertable(Own(t, rows), items) && Insertable(Others(t, rows), items);
    OwnConcat(t, rows, s);
    AllStamped(t, items);
  }

  lemma UpdatesIsolated(rows: seq<Row>, t: Id, op: Op)
    requires op.Update? || op.UpdateMany?
    ensures Isolated(rows, t, op) <==> Safe(rows, t, op)
  {
    hide Matches, Owner, Own, Others, First, Select, ChangeFirst, ChangeAll, ForTenant, Bare, Merge;
    var w, data := op.where, op.data;
    ReadsAgree(rows, w, t);
    ChangeKeepsLength(Own(t, rows), Bare(w), data);
    if KeepsTenant(t, data) {
      ChangesAgree(rows, w, t, data);
    } else {
      GivingAwayShrinks(rows, w, t, data);
      if First(Own(t, rows), Bare(w)).None? {
        NothingToChange(rows, ForTenant(w, t), data);
        NothingToChange(Own(t, rows), Bare(w), data);
      }
    }
  }

  lemma UpsertIsolated(rows: seq<Row>, t: Id, op: Op)
    requires op.Upsert?
    ensures Isolated(rows, t, op) <==> Safe(rows, t, op)
  {
    hide Matches, Owner, Own, Others, First, ChangeFirst, Insert, Merge, TakenElsewhere;
    var w, data := op.where, Stamp(op.data, t);
    if First(rows, w).None? {
      NoHit(rows, w, t);
      assert Owner(Row(op.id, Stamp(op.create, t))) == Text(t) by { StampOwner(op.id, op.create, t); }
      InsertIsolated(rows, t, Row(op.id, Stamp(op.create, t)));
    } else if Owner(First(rows, w).value) == Text(t) {
      OwnHit(rows, w, t, data);
    } else {
      ForeignHit(rows, w, t, data);
    }
  }

  lemma StampOwner(id: Id, data: Data, t: Id)
    ensures Owner(Row(id, Stamp(data, t))) == Text(t)
  {}

  lemma FindUniqueIsolated(rows: seq<Row>, t: Id, w: Where)
    ensures Isolated(rows, t, FindUnique(w)) <==> Safe(rows, t, FindUnique(w))
  {
    hide Matches, Owner, Own, Others, First;
    if First(rows, w).None? {
      NoHit(rows, w, t);
    } else if Owner(First(rows, w).value) == Text(t) {
      OwnHit(rows, w, t, map[TENANT := Text(t)]);
    } else {
      HitIsThere(Own(t, rows), w);
      OwnedOnly(t, rows);
    }
  }

  /** For every operation, isolation holds exactly when `Safe` does. */
  lemma IsolatedExactlyWhenSafe(rows: seq<Row>, t: Id, op: Op)
    ensures Isolated(rows, t, op) <==> Safe(rows, t, op)
  {
    hide Matches, Owner, Own, Others, First, Select, ChangeFirst, ChangeAll, RemoveAll, RemoveFirst, ForTenant, Bare, Merge;
    match op
    case CreateMany(items) => CreateManyIsolated(rows, t, items);
    case Update(_, _) => UpdatesIsolated(rows, t, op);
    case UpdateMany(_, _) => UpdatesIsolated(rows, t, op);
    case Upsert(_, _, _, _) => UpsertIsolated(rows, t, op);
    case FindUnique(w) => FindUniqueIsolated(rows, t, w);
    case Create(id, data) =>
      StampOwner(id, data, t);
      InsertIsolated(rows, t, Row(id, Stamp(data, t)));
    case Delete(w) => ReadsAgree(rows, w, t); RemovesAgree(rows, w, t);
    case DeleteMany(w) => ReadsAgree(rows, w, t); RemovesAgree(rows, w, t);
    case _ => ReadsAgree(rows, op.where, t);
  }

  /** Short of findUnique and upsert, a caller that leaves tenantId out of its updates and
      creates rows under ids nobody uses is always safe. */
  lemma PlainOperationsAreSafe(rows: seq<Row>, t: Id, op: Op)
    requires !op.FindUnique? && !op.Upsert?
    requires op.Update? || op.UpdateMany? ==> TENANT !in op.data
    requires op.Create? ==> !HasId(rows, op.id)
    requires op.CreateMany? ==> forall i | 0 <= i < |op.items| :: !HasId(rows, op.items[i].id)
    ensures Safe(rows, t, op)
  {
    hide Owner, Own, Others, HasId;
    if op.Create? { IdsSplit(t, rows, op.id); }
    if op.CreateMany? {
      forall i | 0 <= i < |op.items| ensures !HasId(Others(t, rows), op.items[i].id) {
        IdsSplit(t, rows, op.items[i].id);
      }
    }
  }

  // ---------------------------------------------------------------- whole runs

  type DB = map<string, seq<Row>>

  datatype Call = Call(tenant: Option<Id>, model: string, op: Op)

  predicate IsRead(op: Op) { op.FindMany? || op.FindFirst? || op.FindUnique? || op.Count? || op.Aggregate? || op.GroupBy? }

  function Perform(db: DB, model: string, op: Op): DB
    requires model in db
  {
    db[model := Exec(db[model], op).rows]
  }

  /** The shared database after the calls of all tenants, interleaved in any way. */
  function After(db: DB, calls: seq<Call>): DB
    requires forall c | c in calls :: c.model in db
    decreases |calls|
  {
    if calls == [] then db
    else After(Perform(db, calls[0].model, Scope(calls[0].tenant, calls[0].model, calls[0].op)), calls[1..])
  }

  predicate Mine(t: Id, c: Call) { c.tenant == Some(t) && !IsGlobal(c.model) }

  /** The answers tenant t gets, in order, on the scoped models. */
  function Answers(t: Id, db: DB, calls: seq<Call>): seq<Answer>
    requires forall c | c in calls :: c.model in db
    decreases |calls|
  {
    if calls == [] then []
    else
      var c := calls[0];
      var op := Scope(c.tenant, c.model, c.op);
      (if Mine(t, c) then [Exec(db[c.model], op).answer] else []) + Answers(t, Perform(db, c.model, op), calls[1..])
  }

  function CallsOf(t: Id, calls: seq<Call>): (mine: seq<Call>)
    ensures forall c | c in mine :: c in calls && Mine(t, c)
    decreases |calls|
  {
    if calls == [] then [] else (if Mine(t, calls[0]) then [calls[0]] else []) + CallsOf(t, calls[1..])
  }

  /** Tenant t's private database: its rows of every scoped model. */
  function View(t: Id, db: DB): DB { map m | m in db && !IsGlobal(m) :: Own(t, db[m]) }

  /** A tenant running its calls alone on a private database, no rewriting involved. */
  function AfterAlone(t: Id, db: DB, calls: seq<Call>): DB
    requires forall c | c in calls :: c.model in db
    decreases |calls|
  {
    if calls == [] then db else AfterAlone(t, Perform(db, calls[0].model, Alone(t, calls[0].op)), calls[1..])
  }

  function AnswersAlone(t: Id, db: DB, calls: seq<Call>): seq<Answer>
    requires forall c | c in calls :: c.model in db
    decreases |calls|
  {
    if calls == [] then []
    else
      var c := calls[0];
      [Exec(db[c.model], Alone(t, c.op)).answer] + AnswersAlone(t, Perform(db, c.model, Alone(t, c.op)), calls[1..])
  }

  /** Global models are anybody's; the bypass only reads; a tenant's call is safe. */
  predicate SafeCall(db: DB, c: Call) {
    && c.model in db
    && (IsGlobal(c.model) || (if Bypass(c.tenant) then IsRead(c.op) else Safe(db[c.model], c.tenant.value, c.op)))
  }

  predicate SafeRun(db: DB, calls: seq<Call>)
    decreases |calls|
  {
    calls == [] ||
    (SafeCall(db, calls[0]) && SafeRun(Perform(db, calls[0].model, Scope(calls[0].tenant, calls[0].model, calls[0].op)), calls[1..]))
  }

  lemma {:induction false} SafeModels(db: DB, calls: seq<Call>)
    requires SafeRun(db, calls)
    ensures forall c | c in calls :: c.model in db
    decreases |calls|
  {
    hide SafeCall, Scope, Exec;
    if calls != [] {
      assert calls[0].model in db by { ModelOf(db, calls[0]); }
      SafeModels(Perform(db, calls[0].model, Scope(calls[0].tenant, calls[0].model, calls[0].op)), calls[1..]);
    }
  }

  lemma ModelOf(db: DB, c: Call)
    requires SafeCall(db, c)
    ensures c.model in db
  {}

  /** Other tenants' rows do not move, so neither does any one tenant's private table. */
  lemma {:induction false} OwnFromOthers(t: Id, u: Id, rows: seq<Row>)
    requires t != u
    ensures Own(u, Others(t, rows)) == Own(u, rows)
  {
    if rows != [] {
      OwnFromOthers(t, u, rows[1..]);
      assert [rows[0]] + rows[1..] == rows;
      OwnCons(u, rows[0], Others(t, rows[1..]));
    }
  }

  lemma MyCall(t: Id, db: DB, c: Call)
    requires SafeCall(db, c) && t != "" && Mine(t, c)
    ensures var op := Scope(c.tenant, c.model, c.op);
            View(t, Perform(db, c.model, op)) == Perform(View(t, db), c.model, Alone(t, c.op))
            && Exec(db[c.model], op).answer == Exec(View(t, db)[c.model], Alone(t, c.op)).answer
  {
    hide Exec, Own, Others, Rewrite, Alone, Safe, IsGlobal;
    IsolatedExactlyWhenSafe(db[c.model], t, c.op);
    var op := Scope(c.tenant, c.model, c.op);
    assert View(t, Perform(db, c.model, op)) == Perform(View(t, db), c.model, Alone(t, c.op));
  }

  lemma ReadsChangeNothing(rows: seq<Row>, op: Op)
    requires IsRead(op)
    ensures Exec(rows, op).rows == rows
  {}

  lemma NotMyCall(t: Id, db: DB, c: Call)
    requires SafeCall(db, c) && t != "" && !Mine(t, c)
    ensures View(t, Perform(db, c.model, Scope(c.tenant, c.model, c.op))) == View(t, db)
  {
    hide Exec, Own, Others, Rewrite, Alone, Safe, IsGlobal, IsRead;
    var op := Scope(c.tenant, c.model, c.op);
    var rows, after := db[c.model], Exec(db[c.model], op).rows;
    if !IsGlobal(c.model) {
      if Bypass(c.tenant) {
        ReadsChangeNothing(rows, op);
      } else {
        IsolatedExactlyWhenSafe(rows, c.tenant.value, c.op);
        OwnFromOthers(c.tenant.value, t, rows);
        OwnFromOthers(c.tenant.value, t, after);
      }
      assert Own(t, after) == Own(t, rows);
    }
    assert View(t, db[c.model := after]) == View(t, db);
  }

  /** The refinement: however the calls of all tenants interleave, a tenant's answers and its
      rows at the end are those of its own calls run alone on a private database. */
  lemma {:induction false} EachTenantHasAPrivateDatabase(t: Id, db: DB, calls: seq<Call>)
    requires t != "" && SafeRun(db, calls) && forall c | c in calls :: c.model in db
    requires forall c | c in CallsOf(t, calls) :: c.model in View(t, db)
    ensures View(t, After(db, calls)) == AfterAlone(t, View(t, db), CallsOf(t, calls))
    ensures Answers(t, db, calls) == AnswersAlone(t, View(t, db), CallsOf(t, calls))
    decreases |calls|
  {
    hide Exec, Scope, Alone, Safe, IsGlobal, Own, SafeCall, Mine, View;
    if calls != [] {
      var c, rest := calls[0], calls[1..];
      var op := Scope(c.tenant, c.model, c.op);
      var next := Perform(db, c.model, op);
      if Mine(t, c) {
        MyCall(t, db, c);
        var mine := CallsOf(t, calls);
        assert mine == [c] + CallsOf(t, rest) && mine[1..] == CallsOf(t, rest);
      } else {
        NotMyCall(t, db, c);
        assert CallsOf(t, calls) == CallsOf(t, rest);
      }
      EachTenantHasAPrivateDatabase(t, next, rest);
    }
  }

  lemma CallsAreInView(t: Id, db: DB, calls: seq<Call>)
    requires forall c | c in calls :: c.model in db
    ensures forall c | c in CallsOf(t, calls) :: c.model in View(t, db)
  {}

  /** Non-interference: what other tenants hold, and what they do, never shows. */
  lemma OthersNeverShow(t: Id, db1: DB, calls1: seq<Call>, db2: DB, calls2: seq<Call>)
    requires t != "" && SafeRun(db1, calls1) && SafeRun(db2, calls2)
    requires forall c | c in calls1 :: c.model in db1
    requires forall c | c in calls2 :: c.model in db2
    requires View(t, db1) == View(t, db2) && CallsOf(t, calls1) == CallsOf(t, calls2)
    ensures Answers(t, db1, calls1) == Answers(t, db2, calls2)
    ensures View(t, After(db1, calls1)) == View(t, After(db2, calls2))
  {
    hide View, CallsOf, SafeRun, After, Answers;
    CallsAreInView(t, db1, calls1);
    CallsAreInView(t, db2, calls2);
    EachTenantHasAPrivateDatabase(t, db1, calls1);
    EachTenantHasAPrivateDatabase(t, db2, calls2);
  }
}
