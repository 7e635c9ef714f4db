/**
 The P04 execution ledger: one call per execution, policy audits before and after its dispatch, and closure.
 */
module GuardrailLedger {
  import opened Results

  datatype Id = Id(text: string)

  predicate Bounded(id: Id) { 1 <= |id.text| <= 256 }

  datatype Mode = Aws | Contract

  datatype Phase = Before | After

  /** SHA-256 over canonical encodings, as free constructors; `OfBuild` is a digest given from outside. */
  datatype Digest = OfToken(token: string) | OfResources(resources: string) | OfBuild(build: string)

  /** An audit receipt; `plain` says that its scope and encoding are accepted. */
  datatype Receipt = Receipt(started: real, observed: real, resources: string, ids: seq<Id>, plain: bool)

  datatype Response = Response(provider: Option<Id>, text: string, fits: bool)

  datatype Status = Pending | Complete | Error

  datatype Call = Call(operation: string, request: string, status: Status, started: real, dispatched: Option<real>,
                       finished: Option<real>, response: Option<Response>, observation: Option<Id>, provider: Option<Id>)

  /** An execution row with its call row and its audit rows. */
  datatype Execution = Execution(suite: Id, resource: Digest, mode: Mode, body: string, token: Digest, started: real,
                                 closed: Option<real>, call: Option<Call>, audits: map<Phase, Receipt>)

  /** `requests` is the table of audit request identifiers. */
  datatype Database = Database(executions: map<Id, Execution>, requests: map<Id, (Id, Phase)>)

  const EMPTY := Database(map[], map[])

  datatype Step = Step(next: Database, answer: Outcome<()>)

  datatype Registration = Registration(suite: Id, execution: Id, resource: Digest, mode: Mode, body: string)

  // ---------------------------------------------------------------- one transaction each

  function Updated(db: Database, x: Id, e: Execution): Database {
    db.(executions := db.executions[x := e])
  }

  /** `register`; `None` stands for arguments that are refused. */
  function RegisterStep(db: Database, reg: Option<Registration>, token: Digest, now: real): Step {
    if reg.None? then Step(db, Refused(422))
    else if !Usable(now) then Step(db, Refused(409))
    else if reg.value.execution in db.executions || (exists x :: x in db.executions && db.executions[x].token == token)
    then Step(db, Refused(409))
    else
      var r := reg.value;
      Step(Updated(db, r.execution, Execution(r.suite, r.resource, r.mode, r.body, token, now, None, None, map[])), Ok(()))
  }

  /** A bearer's request; `None` where the argument is malformed. */
  datatype Claim = Claim(token: Option<Digest>, suite: Id, execution: Id, operation: Option<string>, payload: Option<string>)

  function ReserveStep(db: Database, c: Claim, now: real): Step {
    if c.operation.None? then Step(db, Refused(422))
    else if c.token.None? then Step(db, Refused(401))
    else if c.payload.None? then Step(db, Refused(422))
    else if c.execution !in db.executions then Step(db, Refused(404))
    else
      var e := db.executions[c.execution];
      if e.token != c.token.value then Step(db, Refused(401))
      else if e.suite != c.suite then Step(db, Refused(403))
      else if !Usable(now) || e.closed.Some? || !(0.0 <= now - e.started < 180.0) then Step(db, Refused(409))
      else if e.call.Some? then Step(db, Refused(409))
      else Step(Updated(db, c.execution, e.(call := Some(Call(c.operation.value, c.payload.value, Pending, now,
                                                              None, None, None, None, None)))), Ok(()))
  }

  /** `_pending`: the status of the refusal, or 0 when the call is pending and the execution younger than 180 s. */
  function PendingStatus(db: Database, x: Id, now: real): (status: nat)
    ensures status == 0 ==> x in db.executions && db.executions[x].call.Some?
  {
    if x !in db.executions then 404
    else
      var e := db.executions[x];
      if !Usable(now) || e.closed.Some? || e.call.None? || e.call.value.status != Pending
         || !(0.0 <= now - e.started < 180.0) || now < e.call.value.started
      then 409 else 0
  }

  function DispatchStep(db: Database, x: Id, now: real): Step {
    var status := PendingStatus(db, x, now);
    if status != 0 then Step(db, Refused(status))
    else
      var e := db.executions[x];
      if e.call.value.dispatched.Some? then Step(db, Refused(409))
      else Step(Updated(db, x, e.(call := Some(e.call.value.(dispatched := Some(now))))), Ok(()))
  }

  /** The receipt by itself: a span shorter than 12 seconds and three different request identifiers. */
  predicate Presentable(r: Receipt) {
    && r.plain && 0.0 < r.started <= r.observed && r.observed - r.started < 12.0
    && |r.ids| == 3 && (forall i :: 0 <= i < 3 ==> Bounded(r.ids[i]))
    && r.ids[0] != r.ids[1] && r.ids[1] != r.ids[2] && r.ids[0] != r.ids[2]
  }

  /** The receipt belongs to this phase of this call. */
  predicate Timely(e: Execution, phase: Phase, r: Receipt, now: real)
    requires e.call.Some?
  {
    var call := e.call.value;
    && e.mode == Aws && OfResources(r.resources) == e.resource
    && call.started <= r.started && r.observed <= now
    && match phase
       case Before => call.dispatched.None?
       case After => call.dispatched.Some? && Before in e.audits && call.dispatched.value <= r.started
  }

  function AuditStep(db: Database, x: Id, phase: Phase, r: Receipt, now: real): Step {
    if !Presentable(r) then Step(db, Refused(409))
    else
      var status := PendingStatus(db, x, now);
      if status != 0 then Step(db, Refused(status))
      else
        var e := db.executions[x];
        if !Timely(e, phase, r, now) || phase in e.audits then Step(db, Refused(409))
        else if exists i :: 0 <= i < 3 && r.ids[i] in db.requests then Step(db, Refused(409))
        else
          var key := (x, phase);
          Step(Database(db.executions[x := e.(audits := e.audits[phase := r])],
                        db.requests[r.ids[0] := key][r.ids[1] := key][r.ids[2] := key]), Ok(()))
  }

  predicate ObservationUsed(db: Database, id: Id) {
    exists x :: x in db.executions && db.executions[x].call.Some? && db.executions[x].call.value.observation == Some(id)
  }

  predicate ProviderUsed(db: Database, id: Option<Id>) {
    id.Some? && exists x :: x in db.executions && db.executions[x].call.Some? && db.executions[x].call.value.provider == id
  }

  /** `finish`; without a response it records an error. `observation` is the fresh observation identifier. */
  function FinishStep(db: Database, x: Id, response: Option<Response>, observation: Id, now: real): Step {
    if response.Some? && !response.value.fits then Step(db, Refused(502))
    else
      var status := PendingStatus(db, x, now);
      if status != 0 then Step(db, Refused(status))
      else
        var e := db.executions[x];
        var call := e.call.value;
        if call.dispatched.Some? && now < call.dispatched.value then Step(db, Refused(409))
        else if response.Some? && call.dispatched.None? then Step(db, Refused(409))
        else if response.Some? && e.mode == Aws
                && (response.value.provider.None? || !Bounded(response.value.provider.value))
        then Step(db, Refused(502))
        else
          var provider := if response.Some? && e.mode == Aws then response.value.provider else None;
          if ObservationUsed(db, observation) || ProviderUsed(db, provider) then Step(db, Refused(409))
          else Step(Updated(db, x, e.(call := Some(
                      call.(status := if response.Some? then Complete else Error, finished := Some(now),
                            response := response, observation := Some(observation), provider := provider)))), Ok(()))
  }

  predicate Closable(e: Execution, now: real) {
    e.started <= now
    && (e.call.Some? ==> e.call.value.status != Pending
                         && (e.call.value.finished.Some? ==> e.call.value.finished.value <= now))
  }

  function CloseStep(db: Database, x: Id, now: real): Step {
    if x !in db.executions then Step(db, Refused(404))
    else if db.executions[x].closed.Some? then Step(db, Ok(()))
    else if !Usable(now) || !Closable(db.executions[x], now) then Step(db, Refused(409))
    else Step(Updated(db, x, db.executions[x].(closed := Some(now))), Ok(()))
  }

  // ---------------------------------------------------------------- the ledger

  class Ledger {
    var executions: map<Id, Execution>
    var requests: map<Id, (Id, Phase)>

    function State(): Database reads this { Database(executions, requests) }

    constructor ()
      ensures State() == EMPTY
    {
      executions, requests := map[], map[];
    }

    method Register(reg: Option<Registration>, token: Digest, now: real) returns (r: Outcome<()>)
      modifies this
      ensures Step(State(), r) == RegisterStep(old(State()), reg, token, now)
    {
      if reg.None? { return Refused(422); }
      if !Usable(now) { return Refused(409); }
      if reg.value.execution in executions || exists x :: x in executions && executions[x].token == token {
        return Refused(409);
      }
      executions := executions[reg.value.execution :=
        Execution(reg.value.suite, reg.value.resource, reg.value.mode, reg.value.body, token, now, None, None, map[])];
      r := Ok(());
    }

    method Reserve(c: Claim, now: real) returns (r: Outcome<()>)
      modifies this
      ensures Step(State(), r) == ReserveStep(old(State()), c, now)
    {
      if c.operation.None? { return Refused(422); }
      if c.token.None? { return Refused(401); }
      if c.payload.None? { return Refused(422); }
      if c.execution !in executions { return Refused(404); }
      var row := executions[c.execution];
      if row.token != c.token.value { return Refused(401); }
      if row.suite != c.suite { return Refused(403); }
      if !Usable(now) || row.closed.Some? || !(0.0 <= now - row.started < 180.0) { return Refused(409); }
      if row.call.Some? { return Refused(409); }
      executions := executions[c.execution := row.(call :=
        Some(Call(c.operation.value, c.payload.value, Pending, now, None, None, None, None, None)))];
      r := Ok(());
    }

    method Dispatch(x: Id, now: real) returns (r: Outcome<()>)
      modifies this
      ensures Step(State(), r) == DispatchStep(old(State()), x, now)
    {
      var status := PendingStatus(State(), x, now);
      if status != 0 { return Refused(status); }
      var row := executions[x];
      if row.call.value.dispatched.Some? { return Refused(409); }
      executions := executions[x := row.(call := Some(row.call.value.(dispatched := Some(now))))];
      r := Ok(());
    }

    method PolicyAudit(x: Id, phase: Phase, receipt: Receipt, now: real) returns (r: Outcome<()>)
      modifies this
      ensures Step(State(), r) == AuditStep(old(State()), x, phase, receipt, now)
    {
      if !Presentable(receipt) { return Refused(409); }
      var status := PendingStatus(State(), x, now);
      if status != 0 { return Refused(status); }
      var row := executions[x];
      if !Timely(row, phase, receipt, now) || phase in row.audits { return Refused(409); }
      if exists i :: 0 <= i < 3 && receipt.ids[i] in requests { return Refused(409); }
      executions := executions[x := row.(audits := row.audits[phase := receipt])];
      requests := requests[receipt.ids[0] := (x, phase)];
      requests := requests[receipt.ids[1] := (x, phase)];
      requests := requests[receipt.ids[2] := (x, phase)];
      r := Ok(());
    }

    method Finish(x: Id, response: Option<Response>, observation: Id, now: real) returns (r: Outcome<()>)
      modifies this
      ensures Step(State(), r) == FinishStep(old(State()), x, response, observation, now)
    {
      if response.Some? && !response.value.fits { return Refused(502); }
      var status := PendingStatus(State(), x, now);
      if status != 0 { return Refused(status); }
      var row := executions[x];
      var call := row.call.value;
      var provider: Option<Id> := None;
      if call.dispatched.Some? && now < call.dispatched.value { return Refused(409); }
      if response.Some? {
        if call.dispatched.None? { return Refused(409); }
        if row.mode == Aws {
          provider := response.value.provider;
          if provider.None? || !Bounded(provider.value) { return Refused(502); }
        }
      }
      if ObservationUsed(State(), observation) || ProviderUsed(State(), provider) { return Refused(409); }
      executions := executions[x := row.(call := Some(
        call.(status := if response.Some? then Complete else Error, finished := Some(now),
              response := response, observation := Some(observation), provider := provider)))];
      r := Ok(());
    }

    method Close(x: Id, now: real) returns (r: Outcome<()>)
      modifies this
      ensures Step(State(), r) == CloseStep(old(State()), x, now)
    {
      if x !in executions { return Refused(404); }
      var row := executions[x];
      if row.closed.Some? { return Ok(()); }
      if !Usable(now) || !Closable(row, now) { return Refused(409); }
      executions := executions[x := row.(closed := Some(now))];
      r := Ok(());
    }
  }

  // ---------------------------------------------------------------- ledger steps

  datatype Event =
    | Registering(reg: Option<Registration>, token: Digest, now: real)
    | Reserving(claim: Claim, now: real)
    | Dispatching(execution: Id, now: real)
    | Auditing(execution: Id, phase: Phase, receipt: Receipt, now: real)
    | Finishing(execution: Id, response: Option<Response>, observation: Id, now: real)
    | Closing(execution: Id, now: real)

  function Next(db: Database, e: Event): Database {
    match e
    case Registering(reg, token, now) => RegisterStep(db, reg, token, now).next
    case Reserving(claim, now) => ReserveStep(db, claim, now).next
    case Dispatching(x, now) => DispatchStep(db, x, now).next
    case Auditing(x, phase, receipt, now) => AuditStep(db, x, phase, receipt, now).next
    case Finishing(x, response, observation, now) => FinishStep(db, x, response, observation, now).next
    case Closing(x, now) => CloseStep(db, x, now).next
  }

  // ---------------------------------------------------------------- what every ledger step keeps

  /** The order of one execution's evidence, none of it later than `t`. */
  ghost predicate InOrder(e: Execution, t: real) {
    && 0.0 < e.started <= t
    && (e.call.None? ==> e.audits == map[])
    && (e.call.Some? ==> CallInOrder(e, e.call.value, t))
    && (e.closed.Some? ==> e.started <= e.closed.value && Closable(e, e.closed.value))
  }

  ghost predicate CallInOrder(e: Execution, call: Call, t: real) {
    && e.started <= call.started <= t
    && (call.dispatched.Some? ==> call.started <= call.dispatched.value <= t)
    && (call.finished.Some? <==> call.status != Pending)
    && (call.finished.Some? ==>
          && call.started <= call.finished.value <= t && call.finished.value < e.started + 180.0
          && (call.dispatched.Some? ==> call.dispatched.value <= call.finished.value))
    && (call.status == Complete ==> call.dispatched.Some? && call.response.Some?)
    && (Before in e.audits ==> BeforeInOrder(e, call, e.audits[Before], t))
    && (After in e.audits ==> Before in e.audits && AfterInOrder(e, call, e.audits[After], t))
  }

  ghost predicate BeforeInOrder(e: Execution, call: Call, r: Receipt, t: real) {
    && Presentable(r) && OfResources(r.resources) == e.resource
    && call.started <= r.started && r.observed <= t
    && (call.dispatched.Some? ==> r.observed <= call.dispatched.value)
    && (call.finished.Some? ==> r.observed <= call.finished.value)
  }

  ghost predicate AfterInOrder(e: Execution, call: Call, r: Receipt, t: real) {
    && Presentable(r) && OfResources(r.resources) == e.resource
    && call.dispatched.Some? && call.dispatched.value <= r.started && r.observed <= t
    && (call.finished.Some? ==> r.observed <= call.finished.value)
  }

  ghost predicate AllInOrder(db: Database, t: real) {
    forall x :: x in db.executions ==> InOrder(db.executions[x], t)
  }

  /** The request table names the audit of every recorded request identifier. */
  ghost predicate Registered(db: Database) {
    forall x, phase, i :: x in db.executions && phase in db.executions[x].audits
                          && 0 <= i < |db.executions[x].audits[phase].ids| ==>
      && db.executions[x].audits[phase].ids[i] in db.requests
      && db.requests[db.executions[x].audits[phase].ids[i]] == (x, phase)
  }

  ghost predicate Presented(db: Database) {
    forall x, phase :: x in db.executions && phase in db.executions[x].audits ==> Presentable(db.executions[x].audits[phase])
  }

  lemma LaterInOrder(e: Execution, t: real, u: real)
    requires InOrder(e, t) && t <= u
    ensures InOrder(e, u)
  {
  }

  lemma OneInOrder(db: Database, x: Id, e: Execution, t: real)
    requires AllInOrder(db, t) && InOrder(e, t)
    ensures AllInOrder(Updated(db, x, e), t)
  {
    hide InOrder;
  }

  lemma DispatchInOrder(db: Database, x: Id, now: real)
    requires AllInOrder(db, now)
    ensures AllInOrder(DispatchStep(db, x, now).next, now)
  {
    if DispatchStep(db, x, now).answer.Ok? {
      var e := db.executions[x];
      assert InOrder(e, now);
      OneInOrder(db, x, e.(call := Some(e.call.value.(dispatched := Some(now)))), now);
    }
  }

  lemma AuditInOrder(db: Database, x: Id, phase: Phase, r: Receipt, now: real)
    requires AllInOrder(db, now)
    ensures AllInOrder(AuditStep(db, x, phase, r, now).next, now)
  {
    hide Presentable;
    if AuditStep(db, x, phase, r, now).answer.Ok? {
      var e := db.executions[x];
      assert InOrder(e, now);
      OneInOrder(db, x, e.(audits := e.audits[phase := r]), now);
      assert AuditStep(db, x, phase, r, now).next.executions
          == Updated(db, x, e.(audits := e.audits[phase := r])).executions;
    }
  }

  lemma FinishInOrder(db: Database, x: Id, response: Option<Response>, observation: Id, now: real)
    requires AllInOrder(db, now)
    ensures AllInOrder(FinishStep(db, x, response, observation, now).next, now)
  {
    hide Presentable, ObservationUsed, ProviderUsed;
    var after := FinishStep(db, x, response, observation, now);
    if after.answer.Ok? {
      assert InOrder(db.executions[x], now);
      OneInOrder(db, x, after.next.executions[x], now);
    }
  }

  lemma NextInOrder(db: Database, e: Event)
    requires AllInOrder(db, e.now)
    ensures AllInOrder(Next(db, e), e.now)
  {
    hide Presentable, DispatchStep, AuditStep, FinishStep;
    match e
    case Registering(reg, token, now) =>
    case Reserving(claim, now) =>
    case Dispatching(x, now) => DispatchInOrder(db, x, now);
    case Auditing(x, phase, receipt, now) => AuditInOrder(db, x, phase, receipt, now);
    case Finishing(x, response, observation, now) => FinishInOrder(db, x, response, observation, now);
    case Closing(x, now) =>
  }

  lemma AuditKeepsRegistered(db: Database, x: Id, phase: Phase, r: Receipt, now: real)
    requires Registered(db)
    ensures Registered(AuditStep(db, x, phase, r, now).next)
  {
    hide Timely, PendingStatus;
  }

  lemma NextKeepsRegistered(db: Database, e: Event)
    requires Registered(db)
    ensures Registered(Next(db, e))
  {
    hide AuditStep, Closable, ObservationUsed, ProviderUsed;
    if e.Auditing? { AuditKeepsRegistered(db, e.execution, e.phase, e.receipt, e.now); }
  }

  lemma NextKeepsPresented(db: Database, e: Event)
    requires Presented(db)
    ensures Presented(Next(db, e))
  {
    hide Presentable, Timely, Closable, ObservationUsed, ProviderUsed, PendingStatus;
  }

  /** Every step keeps an execution's identity, and a closed execution altogether. */
  ghost predicate Carried(e: Execution, f: Execution) {
    && f.started == e.started && f.mode == e.mode && f.resource == e.resource
    && (e.closed.Some? ==> f == e)
    && e.audits.Keys <= f.audits.Keys
    && (e.call.Some? ==> f.call.Some? && (e.call.value.status != Pending ==> f.call == e.call))
  }

  lemma NextCarries(db: Database, e: Event, x: Id)
    requires x in db.executions
    ensures x in Next(db, e).executions && Carried(db.executions[x], Next(db, e).executions[x])
  {
    hide Presentable, Timely, ObservationUsed, ProviderUsed, Closable;
  }

  /** Only `finish` with a response completes a call. */
  lemma OnlyFinishCompletes(db: Database, e: Event, x: Id)
    requires x in Next(db, e).executions && Next(db, e).executions[x].call.Some?
    requires Next(db, e).executions[x].call.value.status == Complete
    ensures x in db.executions
    ensures (e.Finishing? && e.execution == x && e.response.Some?)
            || (db.executions[x].call.Some? && db.executions[x].call.value.status == Complete)
  {
    hide Presentable, Timely, Closable, ObservationUsed, ProviderUsed;
  }

  // ---------------------------------------------------------------- evidence order on any clock

  /** What the comparisons of the transactions enforce of one execution, whatever the clock does. */
  ghost predicate Linked(e: Execution) {
    && (e.call.None? ==> e.audits == map[])
    && (e.call.Some? ==> CallLinked(e, e.call.value))
    && (e.closed.Some? ==> Closable(e, e.closed.value))
  }

  ghost predicate CallLinked(e: Execution, call: Call) {
    && e.started <= call.started
    && (call.dispatched.Some? ==> call.started <= call.dispatched.value)
    && (call.finished.Some? <==> call.status != Pending)
    && (call.finished.Some? ==>
          && call.started <= call.finished.value < e.started + 180.0
          && (call.dispatched.Some? ==> call.dispatched.value <= call.finished.value))
    && (call.status == Complete ==> call.dispatched.Some?)
    && (Before in e.audits ==> ReceiptLinked(e, e.audits[Before]) && call.started <= e.audits[Before].started)
    && (After in e.audits ==>
          && ReceiptLinked(e, e.audits[After])
          && call.dispatched.Some? && call.dispatched.value <= e.audits[After].started)
  }

  ghost predicate ReceiptLinked(e: Execution, r: Receipt) {
    r.started <= r.observed && OfResources(r.resources) == e.resource
  }

  lemma OneAudited(e: Execution, phase: Phase, r: Receipt, now: real)
    requires Linked(e) && e.call.Some? && e.call.value.status == Pending && e.closed.None?
    requires Presentable(r) && Timely(e, phase, r, now) && phase !in e.audits
    ensures Linked(e.(audits := e.audits[phase := r]))
  {
  }

  lemma NextKeepsLinked(db: Database, e: Event, x: Id)
    requires x in Next(db, e).executions && (x in db.executions ==> Linked(db.executions[x]))
    ensures Linked(Next(db, e).executions[x])
  {
    hide ObservationUsed, ProviderUsed;
    if e.Auditing? {
      if e.execution == x && Next(db, e) != db {
        OneAudited(db.executions[x], e.phase, e.receipt, e.now);
      }
      hide Linked, Presentable, Timely;
    }
  }

  /** What the transactions do not compare: the audit before the call was observed by the dispatch, and the one after
      it by the completion. */
  predicate Observed(e: Execution) {
    && (e.call.Some? && e.call.value.dispatched.Some? && Before in e.audits ==>
          e.audits[Before].observed <= e.call.value.dispatched.value)
    && (e.call.Some? && e.call.value.status == Complete && e.call.value.finished.Some? && After in e.audits ==>
          e.audits[After].observed <= e.call.value.finished.value)
  }

  /** An accepted dispatch or completion of `x` is stamped not before the observation of the audit it follows. */
  predicate Punctual(db: Database, e: Event, x: Id) {
    match e
    case Dispatching(y, now) =>
      y == x && DispatchStep(db, x, now).answer.Ok? && Before in db.executions[x].audits ==>
        db.executions[x].audits[Before].observed <= now
    case Finishing(y, response, observation, now) =>
      y == x && response.Some? && FinishStep(db, x, response, observation, now).answer.Ok?
      && After in db.executions[x].audits ==>
        db.executions[x].audits[After].observed <= now
    case _ => true
  }

  /** A step keeps the observations in time, or brings them out of time, exactly by whether it is punctual. */
  lemma NextObservedIff(db: Database, e: Event, x: Id)
    ensures (x in Next(db, e).executions ==> Observed(Next(db, e).executions[x]))
       <==> (x in db.executions ==> Observed(db.executions[x])) && Punctual(db, e, x)
  {
    hide ObservationUsed, ProviderUsed, Presentable, Closable;
  }

  /** The comparison is really missing: a reading that steps back after the audit before a call records a dispatch
      stamped before that audit was observed. */
  lemma OrderNeedsTheClock()
    ensures var x := Id("run");
            var receipt := Receipt(21.0, 25.0, "policy", [Id("a"), Id("b"), Id("c")], true);
            var claim := Claim(Some(OfToken("t")), Id("suite"), x, Some("apply"), Some("text"));
            var reg := Registration(Id("suite"), x, OfResources("policy"), Aws, "text");
            var enrolled := Next(EMPTY, Registering(Some(reg), OfToken("t"), 10.0));
            var reserved := Next(enrolled, Reserving(claim, 20.0));
            var audited := Next(reserved, Auditing(x, Before, receipt, 26.0));
            var e := Next(audited, Dispatching(x, 22.0)).executions[x];
            e.audits[Before].observed == 25.0 && e.call.value.dispatched == Some(22.0)
  {
    var receipt := Receipt(21.0, 25.0, "policy", [Id("a"), Id("b"), Id("c")], true);
    assert Presentable(receipt) by {
      assert |"a"| == |"b"| == |"c"| == 1 && "a"[0] == 'a' && "b"[0] == 'b' && "c"[0] == 'c';
    }
    hide Presentable;
  }

  // ---------------------------------------------------------------- closing and the 180-second limit

  /** The stamp is not before anything the execution recorded. */
  predicate Late(e: Execution, now: real) {
    && Usable(now) && e.started <= now
    && (e.call.Some? ==>
          && e.call.value.started <= now
          && (e.call.value.dispatched.Some? ==> e.call.value.dispatched.value <= now)
          && (e.call.value.finished.Some? ==> e.call.value.finished.value <= now))
  }

  /** Give up the call if it is pending, then close. */
  function Abandon(db: Database, x: Id, observation: Id, now: real): Step
    requires x in db.executions
  {
    var e := db.executions[x];
    var cleared :=
      if e.call.Some? && e.call.value.status == Pending then FinishStep(db, x, None, observation, now).next else db;
    CloseStep(cleared, x, now)
  }

  /** The exact limit: at a late enough stamp an execution can be closed if and only if it is closed already, has no
      pending call, or is younger than 180 seconds. */
  lemma ClosableIffYoung(db: Database, x: Id, observation: Id, now: real)
    requires x in db.executions && Late(db.executions[x], now) && !ObservationUsed(db, observation)
    ensures var e := db.executions[x];
            Abandon(db, x, observation, now).answer.Ok?
            <==> e.closed.Some? || e.call.None? || e.call.value.status != Pending || now - e.started < 180.0
  {
    hide ObservationUsed;
  }

  /** A call that is still pending at an age of 180 seconds. */
  predicate Stuck(db: Database, x: Id, t: real) {
    && x in db.executions && db.executions[x].closed.None?
    && db.executions[x].call.Some? && db.executions[x].call.value.status == Pending
    && t - db.executions[x].started >= 180.0
  }

  lemma NextKeepsStuck(db: Database, e: Event, x: Id, t: real)
    requires Stuck(db, x, t) && t <= e.now
    ensures Stuck(Next(db, e), x, t) && CloseStep(Next(db, e), x, e.now).answer == Refused(409)
  {
    hide Presentable, Timely, ObservationUsed, ProviderUsed;
  }

  function Run(db: Database, es: seq<Event>, n: nat): Database
    requires n <= |es|
  {
    if n == 0 then db else Next(Run(db, es, n - 1), es[n - 1])
  }

  /** Once stuck, for ever stuck: whatever is attempted from then on, with stamps not before `t`, the call stays
      pending and no close succeeds. */
  lemma {:induction false} StuckForever(db: Database, es: seq<Event>, n: nat, x: Id, t: real, now: real)
    requires Stuck(db, x, t) && n <= |es| && t <= now && forall i :: 0 <= i < n ==> t <= es[i].now
    ensures Stuck(Run(db, es, n), x, t) && CloseStep(Run(db, es, n), x, now).answer == Refused(409)
  {
    hide Next;
    if n > 0 {
      StuckForever(db, es, n - 1, x, t, now);
      NextKeepsStuck(Run(db, es, n - 1), es[n - 1], x, t);
    }
  }
}
