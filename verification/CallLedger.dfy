/**
 The P02 and P03 execution ledgers: an execution reserves each of its two operations once, one after the other,
 finishes each call with evidence or an error, and is closed when nothing is pending.
 */
module CallLedger {
  import opened Results

  /** An execution, suite, provider request or observation identifier. */
  datatype Id = Id(text: string)

  predicate Bounded(id: Id) { 0 < |id.text| <= 256 }

  datatype Operation = StoreSource | Embed | JobStatus | Retrieve

  /** P02 and P03 keep the same ledger over different operations and evidence identifiers. */
  datatype Profile = Document | Search

  predicate Offers(p: Profile, op: Operation) {
    if p == Document then op == StoreSource || op == Embed else op == JobStatus || op == Retrieve
  }

  /** A provider request, as the adapter encodes it before hashing. */
  datatype Payload = StorePayload(key: string, content: string) | EmbedPayload(text: string) | OtherPayload(json: string)

  /** SHA-256 over canonical encodings, as free constructors; `OfBuild` is a digest given from outside. */
  datatype Digest = OfToken(token: string) | OfBytes(bytes: string) | OfPayload(payload: Payload)
                  | OfResponse(response: Response) | OfBuild(build: string)

  datatype Body =
    | Stored(mode: string, key: string, uri: string, source: Digest, size: nat)
    | Embedded(mode: string, model: string, input: Digest, tokens: int, dimension: int, norm: real, vector: Digest)
    | Other(json: string)

  /** Provider evidence; the identifiers are `None` when the field is null. */
  datatype Response = Response(provider: Option<Id>, observation: Option<Id>, body: Body)

  datatype Status = Pending | Complete | Error

  datatype Call = Call(operation: Operation, sequence: nat, request: Digest, status: Status, started: real,
                       finished: Option<real>, response: Option<Response>)

  /** The two unique columns; they are null until a call completes. */
  datatype Column = ProviderColumn | ObservationColumn

  function Entry(c: Call, column: Column): Option<Id> {
    if c.response.None? then None
    else if column == ProviderColumn then c.response.value.provider
    else c.response.value.observation
  }

  /** An execution row with its call rows in order of insertion. */
  datatype Execution = Execution(suite: Id, source: Digest, runner: Digest, job: string, token: Digest,
                                 started: real, closed: Option<real>, calls: seq<Call>)

  type Database = map<Id, Execution>

  datatype Step<T> = Step(next: Database, answer: Outcome<T>)

  datatype Registration = Registration(suite: Id, execution: Id, source: Digest, runner: Digest, job: string)

  /** What the adapter passes to `finish`: nothing after a failure, or a response, which may be unusable. */
  datatype Result = Failed | Malformed | Answered(response: Response)

  // ---------------------------------------------------------------- one transaction each

  /** `register`; `None` stands for arguments that do not parse. */
  function RegisterStep(db: Database, reg: Option<Registration>, token: Digest, now: real): Step<real> {
    if reg.None? then Step(db, Refused(422))
    else if !Usable(now) then Step(db, Refused(409))
    else if reg.value.execution in db || (exists x :: x in db && db[x].token == token) then Step(db, Refused(409))
    else
      var r := reg.value;
      Step(db[r.execution := Execution(r.suite, r.source, r.runner, r.job, token, now, None, [])], Ok(now))
  }

  /** A bearer's claim; `None` where the argument is malformed. */
  datatype Claim = Claim(token: Option<Digest>, suite: Id, execution: Id, operation: Option<Operation>,
                         request: Option<Digest>)

  predicate Busy(calls: seq<Call>, op: Operation) {
    exists i :: 0 <= i < |calls| && (calls[i].status != Complete || calls[i].operation == op)
  }

  function ReserveStep(p: Profile, db: Database, c: Claim, now: real): Step<nat> {
    if c.operation.None? || !Offers(p, c.operation.value) then Step(db, Refused(422))
    else if c.request.None? then Step(db, Refused(422))
    else if c.token.None? then Step(db, Refused(401))
    else if c.execution !in db then Step(db, Refused(404))
    else
      var e := db[c.execution];
      if e.token != c.token.value then Step(db, Refused(401))
      else if e.suite != c.suite then Step(db, Refused(403))
      else if !Usable(now) then Step(db, Refused(409))
      else if e.closed.Some? || !(0.0 <= now - e.started < 180.0) then Step(db, Refused(409))
      else if Busy(e.calls, c.operation.value) then Step(db, Refused(409))
      else
        var call := Call(c.operation.value, |e.calls| + 1, c.request.value, Pending, now, None, None);
        Step(db[c.execution := e.(calls := e.calls + [call])], Ok(|e.calls| + 1))
  }

  /** The identifiers a response must carry: the provider's in P02, the observation's in P03. */
  predicate Identified(p: Profile, r: Response) {
    match p
    case Document => r.provider.Some? && Bounded(r.provider.value) && r.observation.None?
    case Search =>
      r.observation.Some? && Bounded(r.observation.value) && (r.provider.Some? ==> Bounded(r.provider.value))
  }

  /** The row of an operation, by its primary key. */
  function Find(calls: seq<Call>, op: Operation): (i: nat)
    ensures i <= |calls|
    ensures i < |calls| ==> calls[i].operation == op
    ensures forall j :: 0 <= j < i ==> calls[j].operation != op
  {
    FindFrom(calls, op, 0)
  }

  function FindFrom(calls: seq<Call>, op: Operation, from: nat): (i: nat)
    requires from <= |calls|
    ensures from <= i <= |calls|
    ensures i < |calls| ==> calls[i].operation == op
    ensures forall j :: from <= j < i ==> calls[j].operation != op
    decreases |calls| - from
  {
    if from == |calls| || calls[from].operation == op then from else FindFrom(calls, op, from + 1)
  }

  /** The identifier is already in the column, in a row of any execution. */
  predicate Used(db: Database, column: Column, id: Option<Id>) {
    id.Some? && exists x :: x in db && exists i :: 0 <= i < |db[x].calls| && Entry(db[x].calls[i], column) == id
  }

  function Settled(c: Call, result: Result, now: real): Call
    requires !result.Malformed?
  {
    match result
    case Failed => c.(status := Error, finished := Some(now), response := None)
    case Answered(response) => c.(status := Complete, finished := Some(now), response := Some(response))
  }

  function FinishStep(p: Profile, db: Database, x: Id, op: Operation, result: Result, now: real): Step<()> {
    if result.Malformed? || (result.Answered? && !Identified(p, result.response)) then Step(db, Refused(502))
    else if x !in db then Step(db, Refused(404))
    else
      var e := db[x];
      var i := Find(e.calls, op);
      if !Usable(now) then Step(db, Refused(409))
      else if e.closed.Some? || i == |e.calls| || e.calls[i].status != Pending || now < e.calls[i].started
      then Step(db, Refused(409))
      else if result.Answered? && (Used(db, ProviderColumn, result.response.provider)
                                   || Used(db, ObservationColumn, result.response.observation))
      then Step(db, Refused(409))
      else Step(db[x := e.(calls := e.calls[i := Settled(e.calls[i], result, now)])], Ok(()))
  }

  /** The stamp is not before the start nor before the end of any call, and every call has ended. */
  predicate Closable(e: Execution, now: real) {
    e.started <= now && forall i :: 0 <= i < |e.calls| ==>
      e.calls[i].status != Pending && (e.calls[i].finished.Some? ==> e.calls[i].finished.value <= now)
  }

  function CloseStep(db: Database, x: Id, now: real): Step<real> {
    if x !in db then Step(db, Refused(404))
    else if db[x].closed.Some? then Step(db, Ok(db[x].closed.value))
    else if !Usable(now) || !Closable(db[x], now) then Step(db, Refused(409))
    else Step(db[x := db[x].(closed := Some(now))], Ok(now))
  }

  function Read(db: Database, x: Id): Outcome<Execution> {
    if x in db then Ok(db[x]) else Refused(404)
  }

  // ---------------------------------------------------------------- the ledger

  class Ledger {
    const profile: Profile
    var executions: Database

    constructor (profile: Profile)
      ensures executions == map[] && this.profile == profile
    {
      this.profile := profile;
      executions := map[];
    }

    method Register(reg: Option<Registration>, token: Digest, now: real) returns (r: Outcome<real>)
      modifies this
      ensures Step(executions, r) == RegisterStep(old(executions), reg, token, now)
    {
      if reg.None? { return Refused(422); }
      if !Usable(now) { return Refused(409); }
      if reg.value.execution in executions || exists x :: x in executions && executions[x].token == token {
        return Refused(409);
      }
      executions := executions[reg.value.execution :=
        Execution(reg.value.suite, reg.value.source, reg.value.runner, reg.value.job, token, now, None, [])];
      r := Ok(now);
    }

    method Reserve(c: Claim, now: real) returns (r: Outcome<nat>)
      modifies this
      ensures Step(executions, r) == ReserveStep(profile, old(executions), c, now)
    {
      if c.operation.None? || !Offers(profile, c.operation.value) { return Refused(422); }
      if c.request.None? { return Refused(422); }
      if c.token.None? { return Refused(401); }
      if c.execution !in executions { return Refused(404); }
      var row := executions[c.execution];
      if row.token != c.token.value { return Refused(401); }
      if row.suite != c.suite { return Refused(403); }
      if !Usable(now) { return Refused(409); }
      if row.closed.Some? || !(0.0 <= now - row.started < 180.0) { return Refused(409); }
      if Busy(row.calls, c.operation.value) { return Refused(409); }
      var call := Call(c.operation.value, |row.calls| + 1, c.request.value, Pending, now, None, None);
      executions := executions[c.execution := row.(calls := row.calls + [call])];
      r := Ok(|row.calls| + 1);
    }

    method Finish(x: Id, op: Operation, result: Result, now: real) returns (r: Outcome<()>)
      modifies this
      ensures Step(executions, r) == FinishStep(profile, old(executions), x, op, result, now)
    {
      if result.Malformed? { return Refused(502); }
      if result.Answered? && !Identified(profile, result.response) { return Refused(502); }
      if x !in executions { return Refused(404); }
      var row := executions[x];
      var i := Find(row.calls, op);
      if !Usable(now) { return Refused(409); }
      if row.closed.Some? || i == |row.calls| { return Refused(409); }
      var call := row.calls[i];
      if call.status != Pending || now < call.started { return Refused(409); }
      if result.Answered? {
        if Used(executions, ProviderColumn, result.response.provider) { return Refused(409); }
        if Used(executions, ObservationColumn, result.response.observation) { return Refused(409); }
      }
      executions := executions[x := row.(calls := row.calls[i := Settled(call, result, now)])];
      r := Ok(());
    }

    method Close(x: Id, now: real) returns (r: Outcome<real>)
      modifies this
      ensures Step(executions, r) == CloseStep(old(executions), x, now)
    {
      if x !in executions { return Refused(404); }
      var row := executions[x];
      if row.closed.Some? { return Ok(row.closed.value); }
      if !Usable(now) || !Closable(row, now) { return Refused(409); }
      executions := executions[x := row.(closed := Some(now))];
      r := Ok(now);
    }
  }

  // ---------------------------------------------------------------- runs

  datatype Event =
    | Registering(reg: Option<Registration>, token: Digest, now: real)
    | Reserving(claim: Claim, now: real)
    | Finishing(execution: Id, operation: Operation, result: Result, now: real)
    | Closing(execution: Id, now: real)

  function Next(p: Profile, db: Database, e: Event): Database {
    match e
    case Registering(reg, token, now) => RegisterStep(db, reg, token, now).next
    case Reserving(claim, now) => ReserveStep(p, db, claim, now).next
    case Finishing(x, op, result, now) => FinishStep(p, db, x, op, result, now).next
    case Closing(x, now) => CloseStep(db, x, now).next
  }

  function After(p: Profile, db: Database, es: seq<Event>, n: nat): Database
    requires n <= |es|
  {
    if n == 0 then db else Next(p, After(p, db, es, n - 1), es[n - 1])
  }

  // ---------------------------------------------------------------- shape, whatever the clock does

  /** A call row is filled in exactly as far as its status says. */
  ghost predicate Filled(p: Profile, c: Call) {
    && Offers(p, c.operation)
    && (c.finished.Some? <==> c.status != Pending)
    && (c.finished.Some? ==> c.started <= c.finished.value)
    && (c.response.Some? <==> c.status == Complete)
    && (c.response.Some? ==> Identified(p, c.response.value))
  }

  /** Sequences are 1..n, only the last call may be unfinished or failed, and no operation repeats. */
  ghost predicate Shaped(p: Profile, e: Execution) {
    && (forall i :: 0 <= i < |e.calls| ==> Filled(p, e.calls[i]) && e.calls[i].sequence == i + 1)
    && (forall i :: 0 <= i < |e.calls| ==> e.started <= e.calls[i].started)
    && (forall i :: 0 <= i < |e.calls| - 1 ==> e.calls[i].status == Complete)
    && (forall i, j :: 0 <= i < j < |e.calls| ==> e.calls[i].operation != e.calls[j].operation)
    && (e.closed.Some? ==> Closable(e, e.closed.value))
  }

  /** Two operations, none repeated: at most two calls. */
  lemma AtMostTwo(p: Profile, e: Execution)
    requires Shaped(p, e)
    ensures |e.calls| <= 2
  {
    assert forall i :: 0 <= i < |e.calls| ==> Filled(p, e.calls[i]);
    if |e.calls| > 2 {
      var first, second, third := e.calls[0].operation, e.calls[1].operation, e.calls[2].operation;
      assert false;
    }
  }

  datatype Place = Place(execution: Id, index: nat)

  ghost predicate Holds(db: Database, column: Column, at: Place, id: Id) {
    && at.execution in db
    && at.index < |db[at.execution].calls|
    && Entry(db[at.execution].calls[at.index], column) == Some(id)
  }

  /** No identifier is in a column twice, over all executions. */
  ghost predicate Unique(db: Database, column: Column) {
    forall a, b, id :: Holds(db, column, a, id) && Holds(db, column, b, id) ==> a == b
  }

  ghost predicate AllShaped(p: Profile, db: Database) {
    forall x :: x in db ==> Shaped(p, db[x])
  }

  ghost predicate Inv(p: Profile, db: Database) {
    AllShaped(p, db) && Unique(db, ProviderColumn) && Unique(db, ObservationColumn)
  }

  lemma ReserveKeepsShape(p: Profile, db: Database, c: Claim, now: real)
    requires AllShaped(p, db)
    ensures AllShaped(p, ReserveStep(p, db, c, now).next)
  {
    var after := ReserveStep(p, db, c, now).next;
    if after != db {
      var e := db[c.execution];
      assert Shaped(p, e);
      assert forall i :: 0 <= i < |e.calls| ==> e.calls[i].status == Complete && e.calls[i].operation != c.operation.value;
      assert Shaped(p, after[c.execution]);
    }
  }

  lemma FinishKeepsShape(p: Profile, db: Database, x: Id, op: Operation, result: Result, now: real)
    requires AllShaped(p, db)
    ensures AllShaped(p, FinishStep(p, db, x, op, result, now).next)
  {
    hide Used;
    var after := FinishStep(p, db, x, op, result, now).next;
    if after != db {
      var e := db[x];
      assert Shaped(p, e);
      assert Filled(p, Settled(e.calls[Find(e.calls, op)], result, now));
      assert Shaped(p, after[x]);
    }
  }

  /** Reserving writes no identifier. */
  lemma ReserveKeepsUnique(p: Profile, db: Database, c: Claim, now: real, column: Column)
    requires Unique(db, column)
    ensures Unique(ReserveStep(p, db, c, now).next, column)
  {
    hide Busy;
    var after := ReserveStep(p, db, c, now).next;
    forall a, id | Holds(after, column, a, id) ensures Holds(db, column, a, id) { }
  }

  lemma FinishKeepsUnique(p: Profile, db: Database, x: Id, op: Operation, result: Result, now: real, column: Column)
    requires Unique(db, column)
    ensures Unique(FinishStep(p, db, x, op, result, now).next, column)
  {
    var after := FinishStep(p, db, x, op, result, now).next;
    if after != db {
      var i := Find(db[x].calls, op);
      var added := Entry(after[x].calls[i], column);
      forall a, id | Holds(after, column, a, id)
        ensures if a == Place(x, i) then added == Some(id) else Holds(db, column, a, id) && added != Some(id)
      {
        if a != Place(x, i) {
          assert db[a.execution].calls[a.index] == after[a.execution].calls[a.index];
          assert Entry(db[a.execution].calls[a.index], column) == Some(id);
          assert Used(db, column, Some(id));
          if column == ProviderColumn { assert added != Some(id); }
        }
      }
    }
  }

  lemma RegisterKeepsInv(p: Profile, db: Database, reg: Option<Registration>, token: Digest, now: real)
    requires Inv(p, db)
    ensures Inv(p, RegisterStep(db, reg, token, now).next)
  {
    var after := RegisterStep(db, reg, token, now).next;
    forall column, a, id | Holds(after, column, a, id) ensures Holds(db, column, a, id) { }
  }

  lemma CloseKeepsInv(p: Profile, db: Database, x: Id, now: real)
    requires Inv(p, db)
    ensures Inv(p, CloseStep(db, x, now).next)
  {
    var after := CloseStep(db, x, now).next;
    forall column, a, id | Holds(after, column, a, id) ensures Holds(db, column, a, id) { }
  }

  lemma NextKeepsInv(p: Profile, db: Database, e: Event)
    requires Inv(p, db)
    ensures Inv(p, Next(p, db, e))
  {
    hide AllShaped, Unique, RegisterStep, ReserveStep, FinishStep, CloseStep;
    match e
    case Registering(reg, token, now) => RegisterKeepsInv(p, db, reg, token, now);
    case Reserving(claim, now) =>
      ReserveKeepsShape(p, db, claim, now);
      ReserveKeepsUnique(p, db, claim, now, ProviderColumn);
      ReserveKeepsUnique(p, db, claim, now, ObservationColumn);
    case Finishing(x, op, result, now) =>
      FinishKeepsShape(p, db, x, op, result, now);
      FinishKeepsUnique(p, db, x, op, result, now, ProviderColumn);
      FinishKeepsUnique(p, db, x, op, result, now, ObservationColumn);
    case Closing(x, now) => CloseKeepsInv(p, db, x, now);
  }

  lemma {:induction false} RunKeepsInv(p: Profile, db: Database, es: seq<Event>, n: nat)
    requires Inv(p, db) && n <= |es|
    ensures Inv(p, After(p, db, es, n))
  {
    hide Next, Inv;
    if n > 0 {
      RunKeepsInv(p, db, es, n - 1);
      NextKeepsInv(p, After(p, db, es, n - 1), es[n - 1]);
    }
  }

  // ---------------------------------------------------------------- main results for any clock

  /** In every reachable state, whatever the clock readings: at most two calls, numbered 1, 2; at most one of them is
      not complete, and it is the last. */
  lemma LedgerShape(p: Profile, es: seq<Event>, x: Id)
    ensures var db := After(p, map[], es, |es|);
            x in db ==>
              && |db[x].calls| <= 2
              && (forall i :: 0 <= i < |db[x].calls| ==> db[x].calls[i].sequence == i + 1)
              && (forall i :: 0 <= i < |db[x].calls| && db[x].calls[i].status != Complete ==> i == |db[x].calls| - 1)
              && (forall i, j :: 0 <= i < j < |db[x].calls| ==> db[x].calls[i].operation != db[x].calls[j].operation)
  {
    RunKeepsInv(p, map[], es, |es|);
    hide After, Unique;
    var db := After(p, map[], es, |es|);
    if x in db {
      assert Shaped(p, db[x]);
      AtMostTwo(p, db[x]);
    }
  }

  /** Provider and observation identifiers name one call each, over all executions. */
  lemma IdentifiersAreUnique(p: Profile, es: seq<Event>, column: Column, a: Place, b: Place, id: Id)
    requires Holds(After(p, map[], es, |es|), column, a, id) && Holds(After(p, map[], es, |es|), column, b, id)
    ensures a == b
  {
    RunKeepsInv(p, map[], es, |es|);
    hide After, AllShaped, Holds;
    assert Unique(After(p, map[], es, |es|), column);
  }

  lemma NextKeepsClosed(p: Profile, db: Database, e: Event, x: Id)
    requires x in db && db[x].closed.Some?
    ensures Read(Next(p, db, e), x) == Read(db, x)
  {
    hide Busy, Used, Closable;
  }

  /** After closing, `read` returns the same record under every later operation. */
  lemma {:induction false} ClosedIsFinal(p: Profile, db: Database, es: seq<Event>, n: nat, x: Id)
    requires x in db && db[x].closed.Some? && n <= |es|
    ensures Read(After(p, db, es, n), x) == Read(db, x)
  {
    hide Next;
    if n > 0 {
      ClosedIsFinal(p, db, es, n - 1, x);
      NextKeepsClosed(p, After(p, db, es, n - 1), es[n - 1], x);
    }
  }

  /** The stamp is not before anything the execution recorded. */
  predicate Late(e: Execution, now: real) {
    Usable(now) && e.started <= now && forall i :: 0 <= i < |e.calls| ==>
      e.calls[i].started <= now && (e.calls[i].finished.Some? ==> e.calls[i].finished.value <= now)
  }

  /** Give up the pending call, if there is one, then close. */
  function Abandon(p: Profile, db: Database, x: Id, now: real): Step<real>
    requires x in db
  {
    var calls := db[x].calls;
    var cleared :=
      if |calls| > 0 && calls[|calls| - 1].status == Pending
      then FinishStep(p, db, x, calls[|calls| - 1].operation, Failed, now).next
      else db;
    CloseStep(cleared, x, now)
  }

  lemma ShapedIsClosable(p: Profile, db: Database, x: Id, now: real)
    requires x in db && Shaped(p, db[x]) && Late(db[x], now)
    ensures Abandon(p, db, x, now).answer.Ok?
  {
    var calls := db[x].calls;
    if |calls| > 0 && calls[|calls| - 1].status == Pending {
      LastIsFound(calls);
      hide Find, Used;
    }
  }

  lemma LastIsFound(calls: seq<Call>)
    requires |calls| > 0
    requires forall i, j :: 0 <= i < j < |calls| ==> calls[i].operation != calls[j].operation
    ensures Find(calls, calls[|calls| - 1].operation) == |calls| - 1
  {
  }

  /** Closability: from every reachable state an open execution can be closed at any stamp that is late enough, with
      no limit on its age. */
  lemma AlwaysClosable(p: Profile, es: seq<Event>, x: Id, now: real)
    requires x in After(p, map[], es, |es|) && Late(After(p, map[], es, |es|)[x], now)
    ensures Abandon(p, After(p, map[], es, |es|), x, now).answer.Ok?
  {
    RunKeepsInv(p, map[], es, |es|);
    hide After, Unique, Shaped, Late, Abandon;
    ShapedIsClosable(p, After(p, map[], es, |es|), x, now);
  }

  // ---------------------------------------------------------------- order, when the clock does not run backwards

  ghost predicate Steady(es: seq<Event>) {
    forall i, j :: 0 <= i < j < |es| ==> es[i].now <= es[j].now
  }

  /** Calls follow one another inside the execution, and nothing is later than `t`. */
  ghost predicate InOrder(e: Execution, t: real) {
    && 0.0 < e.started <= t
    && (forall i :: 0 <= i < |e.calls| ==> e.started <= e.calls[i].started <= t)
    && (forall i :: 0 <= i < |e.calls| && e.calls[i].finished.Some? ==> e.calls[i].finished.value <= t)
    && (forall i :: 0 <= i < |e.calls| - 1 ==>
          e.calls[i].finished.Some? && e.calls[i].finished.value <= e.calls[i + 1].started)
  }

  ghost predicate AllInOrder(db: Database, t: real) {
    forall x :: x in db ==> InOrder(db[x], t)
  }

  lemma AppendedInOrder(p: Profile, e: Execution, call: Call)
    requires Shaped(p, e) && InOrder(e, call.started) && !Busy(e.calls, call.operation) && call.finished.None?
    ensures InOrder(e.(calls := e.calls + [call]), call.started)
  {
    assert forall i :: 0 <= i < |e.calls| ==> e.calls[i].status == Complete;
  }

  lemma ReserveKeepsOrder(p: Profile, db: Database, c: Claim, now: real)
    requires AllShaped(p, db) && AllInOrder(db, now)
    ensures AllInOrder(ReserveStep(p, db, c, now).next, now)
  {
    var after := ReserveStep(p, db, c, now).next;
    if after != db {
      assert Shaped(p, db[c.execution]) && InOrder(db[c.execution], now);
      AppendedInOrder(p, db[c.execution], after[c.execution].calls[|db[c.execution].calls|]);
      hide InOrder, Shaped, Busy;
    }
  }

  lemma FinishKeepsOrder(p: Profile, db: Database, x: Id, op: Operation, result: Result, now: real)
    requires AllShaped(p, db) && AllInOrder(db, now)
    ensures AllInOrder(FinishStep(p, db, x, op, result, now).next, now)
  {
    hide Used;
    var after := FinishStep(p, db, x, op, result, now).next;
    if after != db {
      assert Shaped(p, db[x]) && InOrder(db[x], now);
      assert InOrder(after[x], now);
    }
  }

  lemma NextKeepsOrder(p: Profile, db: Database, e: Event)
    requires AllShaped(p, db) && AllInOrder(db, e.now)
    ensures AllInOrder(Next(p, db, e), e.now)
  {
    match e
    case Registering(reg, token, now) =>
    case Reserving(claim, now) => ReserveKeepsOrder(p, db, claim, now);
    case Finishing(x, op, result, now) => FinishKeepsOrder(p, db, x, op, result, now);
    case Closing(x, now) =>
  }

  lemma {:induction false} RunKeepsOrder(p: Profile, es: seq<Event>, n: nat, t: real)
    requires n <= |es| && Steady(es) && (n > 0 ==> es[n - 1].now <= t)
    ensures AllInOrder(After(p, map[], es, n), t)
  {
    hide Next;
    if n > 0 {
      RunKeepsOrder(p, es, n - 1, es[n - 1].now);
      RunKeepsInv(p, map[], es, n - 1);
      NextKeepsOrder(p, After(p, map[], es, n - 1), es[n - 1]);
    }
  }

  // ---------------------------------------------------------------- order, exactly

  /** The calls follow one another. */
  ghost predicate InSequence(e: Execution) {
    forall i :: 0 <= i < |e.calls| - 1 ==>
      e.calls[i].finished.Some? && e.calls[i].finished.value <= e.calls[i + 1].started
  }

  /** The stamp is not before the end of the execution's last call. */
  predicate Timely(e: Execution, now: real) {
    e.calls != [] && e.calls[|e.calls| - 1].finished.Some? ==> e.calls[|e.calls| - 1].finished.value <= now
  }

  /** On any clock an accepted reserve keeps the calls of its execution in sequence if and only if its stamp is not
      before the end of the last one, a comparison that `reserve` does not make. */
  lemma ReserveKeepsSequenceIff(p: Profile, db: Database, c: Claim, now: real)
    requires AllShaped(p, db) && ReserveStep(p, db, c, now).answer.Ok?
    ensures c.execution in db
    ensures InSequence(ReserveStep(p, db, c, now).next[c.execution])
       <==> InSequence(db[c.execution]) && Timely(db[c.execution], now)
  {
    var e, f := db[c.execution], ReserveStep(p, db, c, now).next[c.execution];
    assert Shaped(p, e);
    assert forall i :: 0 <= i < |e.calls| ==> f.calls[i] == e.calls[i];
    if e.calls != [] {
      var last := |e.calls| - 1;
      assert !Busy(e.calls, c.operation.value) && e.calls[last].finished.Some?;
      assert InSequence(f) ==> f.calls[last].finished.value <= f.calls[last + 1].started;
    }
  }

  /** No other step, on any clock, puts the calls of an execution in or out of sequence. */
  lemma OthersKeepSequence(p: Profile, db: Database, e: Event, x: Id)
    requires AllShaped(p, db) && x in db && (e.Reserving? ==> e.claim.execution != x)
    ensures x in Next(p, db, e) && (InSequence(Next(p, db, e)[x]) <==> InSequence(db[x]))
  {
    hide Busy, Used, Closable, InSequence;
    assert Shaped(p, db[x]);
    var after := Next(p, db, e);
    if e.Finishing? && after != db && e.execution == x {
      SettlingKeepsSequence(db[x], Settled(db[x].calls[|db[x].calls| - 1], e.result, e.now));
    } else {
      assert after[x].calls == db[x].calls;
      SameCalls(db[x], after[x]);
    }
  }

  lemma SettlingKeepsSequence(e: Execution, c: Call)
    requires e.calls != [] && c.started == e.calls[|e.calls| - 1].started
    ensures InSequence(e.(calls := e.calls[|e.calls| - 1 := c])) <==> InSequence(e)
  {
    var f := e.(calls := e.calls[|e.calls| - 1 := c]);
    assert forall i :: 0 <= i < |e.calls| ==> f.calls[i].started == e.calls[i].started;
    assert forall i :: 0 <= i < |e.calls| - 1 ==> f.calls[i] == e.calls[i];
    if InSequence(f) {
      forall i | 0 <= i < |e.calls| - 1
        ensures e.calls[i].finished.Some? && e.calls[i].finished.value <= e.calls[i + 1].started
      {
        assert f.calls[i].finished.value <= f.calls[i + 1].started;
      }
    }
  }

  lemma SameCalls(e: Execution, f: Execution)
    requires f.calls == e.calls
    ensures InSequence(f) <==> InSequence(e)
  {
  }

  /** The event is an accepted reserve on the execution. */
  predicate ReservesOn(p: Profile, db: Database, e: Event, x: Id) {
    e.Reserving? && e.claim.execution == x && x in db && ReserveStep(p, db, e.claim, e.now).answer.Ok?
  }

  /** If event `k` is an accepted reserve on the execution, its stamp is timely. */
  ghost predicate TimelyAt(p: Profile, es: seq<Event>, k: nat, x: Id)
    requires k < |es|
  {
    ReservesOn(p, After(p, map[], es, k), es[k], x) ==> Timely(After(p, map[], es, k)[x], es[k].now)
  }

  /** Every accepted reserve on the execution was stamped not before the end of the call before it. */
  ghost predicate ReservedTimely(p: Profile, es: seq<Event>, n: nat, x: Id)
    requires n <= |es|
  {
    forall k :: 0 <= k < n ==> TimelyAt(p, es, k, x)
  }

  /** What one step does to the sequence of an execution, whether or not it exists yet. */
  lemma NextSequence(p: Profile, db: Database, e: Event, x: Id)
    requires AllShaped(p, db)
    ensures x in db ==> x in Next(p, db, e)
    ensures x in db ==> (InSequence(Next(p, db, e)[x])
                         <==> InSequence(db[x]) && (ReservesOn(p, db, e, x) ==> Timely(db[x], e.now)))
    ensures x !in db && x in Next(p, db, e) ==> InSequence(Next(p, db, e)[x])
  {
    if x in db {
      if e.Reserving? && e.claim.execution == x {
        if ReservesOn(p, db, e, x) { ReserveKeepsSequenceIff(p, db, e.claim, e.now); }
      } else {
        OthersKeepSequence(p, db, e, x);
      }
    }
    hide Busy, Used, Closable, Timely, AllShaped;
  }

  lemma {:induction false} SequenceIff(p: Profile, es: seq<Event>, n: nat, x: Id)
    requires n <= |es|
    ensures x in After(p, map[], es, n) ==> (InSequence(After(p, map[], es, n)[x]) <==> ReservedTimely(p, es, n, x))
    ensures x !in After(p, map[], es, n) ==> ReservedTimely(p, es, n, x)
  {
    if n > 0 {
      SequenceIff(p, es, n - 1, x);
      RunKeepsInv(p, map[], es, n - 1);
      NextSequence(p, After(p, map[], es, n - 1), es[n - 1], x);
      assert TimelyAt(p, es, n - 1, x) <==>
        (ReservesOn(p, After(p, map[], es, n - 1), es[n - 1], x) ==>
           Timely(After(p, map[], es, n - 1)[x], es[n - 1].now));
      hide Next, InSequence, Timely, TimelyAt, AllShaped, Unique, ReservesOn;
      assert ReservedTimely(p, es, n, x) <==> ReservedTimely(p, es, n - 1, x) && TimelyAt(p, es, n - 1, x);
    }
  }

  /** The calls lie inside the closed execution and do not overlap. */
  ghost predicate Separate(e: Execution)
    requires e.closed.Some?
  {
    && (forall i :: 0 <= i < |e.calls| ==>
          && e.calls[i].finished.Some?
          && e.started <= e.calls[i].started <= e.calls[i].finished.value <= e.closed.value)
    && (forall i :: 0 <= i < |e.calls| - 1 ==> e.calls[i].finished.value <= e.calls[i + 1].started)
  }

  /** The exact condition, over every run and on any clock: the calls of a closed execution lie inside it and do not
      overlap if and only if every accepted reserve on it was stamped not before the end of the call before it. */
  lemma CallsAreSeparateIff(p: Profile, es: seq<Event>, x: Id)
    requires x in After(p, map[], es, |es|) && After(p, map[], es, |es|)[x].closed.Some?
    ensures Separate(After(p, map[], es, |es|)[x]) <==> ReservedTimely(p, es, |es|, x)
  {
    SequenceIff(p, es, |es|, x);
    RunKeepsInv(p, map[], es, |es|);
    hide After, Unique, ReservedTimely;
    assert Shaped(p, After(p, map[], es, |es|)[x]);
  }

  /** On a clock that does not run backwards every reserve is timely, so the calls of a closed execution lie inside it
      and do not overlap. */
  lemma CallsDoNotOverlap(p: Profile, es: seq<Event>, x: Id)
    requires Steady(es) && x in After(p, map[], es, |es|) && After(p, map[], es, |es|)[x].closed.Some?
    ensures Separate(After(p, map[], es, |es|)[x])
  {
    forall k | 0 <= k < |es| ensures TimelyAt(p, es, k, x) {
      RunKeepsOrder(p, es, k, es[k].now);
      hide After, ReserveStep;
      var db := After(p, map[], es, k);
      if x in db { assert InOrder(db[x], es[k].now); }
    }
    CallsAreSeparateIff(p, es, x);
  }

  /** A clock that steps back between a finish and the next reserve. */
  function Backwards(): seq<Event> {
    var reg := Registration(Id("suite"), Id("run"), OfBuild("source"), OfBuild("runner"), "");
    var store := Claim(Some(OfToken("t")), Id("suite"), Id("run"), Some(StoreSource), Some(OfBuild("a")));
    var embed := Claim(Some(OfToken("t")), Id("suite"), Id("run"), Some(Embed), Some(OfBuild("b")));
    [Registering(Some(reg), OfToken("t"), 10.0), Reserving(store, 20.0),
     Finishing(Id("run"), StoreSource, Answered(Response(Some(Id("p")), None, Other(""))), 30.0),
     Reserving(embed, 15.0)]
  }

  /** The order does depend on the clock: `reserve` does not compare its stamp with the previous call's end, so a
      reading that steps back records a second call that starts before the first one finished. */
  lemma OrderNeedsTheClock()
    ensures var e := After(Document, map[], Backwards(), 4)[Id("run")];
            |e.calls| == 2 && e.calls[0].finished.Some? && e.calls[1].started < e.calls[0].finished.value
  {
    var es := Backwards();
    var one := After(Document, map[], es, 1);
    assert one[Id("run")].calls == [];
    var two := After(Document, map[], es, 2);
    assert two[Id("run")].calls == [Call(StoreSource, 1, OfBuild("a"), Pending, 20.0, None, None)];
    assert Find(two[Id("run")].calls, StoreSource) == 0;
    var three := After(Document, map[], es, 3);
    assert Bounded(Id("p"));
    assert |three[Id("run")].calls| == 1 && three[Id("run")].calls[0].status == Complete;
    assert three[Id("run")].calls[0].finished == Some(30.0);
  }
}
