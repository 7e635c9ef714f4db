/**
 What a row of the P04 execution ledger tells of the run, on any clock, and when each request is accepted.
 */
module GuardrailStories {
  import opened Results
  import opened GuardrailLedger

  function Reached(es: seq<Event>, n: nat): Database
    requires n <= |es|
  {
    if n == 0 then EMPTY else Next(Reached(es, n - 1), es[n - 1])
  }

  // ---------------------------------------------------------------- what happened at a step

  ghost predicate RegisteredAt(es: seq<Event>, k: nat, x: Id, e: Execution) {
    && k < |es| && x !in Reached(es, k).executions && e.started > 0.0
    && es[k] == Registering(Some(Registration(e.suite, x, e.resource, e.mode, e.body)), e.token, e.started)
  }

  /** Step `k` reserved the call, with the execution's own token and suite, while it was open, had no call yet and was
      younger than 180 seconds. */
  ghost predicate ReservedAt(es: seq<Event>, k: nat, x: Id, e: Execution, call: Call) {
    && k < |es|
    && es[k] == Reserving(Claim(Some(e.token), e.suite, x, Some(call.operation), Some(call.request)), call.started)
    && e.started <= call.started && call.started < e.started + 180.0
    && x in Reached(es, k).executions
    && Reached(es, k).executions[x].closed.None? && Reached(es, k).executions[x].call.None?
  }

  ghost predicate DispatchedAt(es: seq<Event>, k: nat, x: Id, call: Call) {
    k < |es| && call.dispatched.Some? && es[k] == Dispatching(x, call.dispatched.value)
  }

  /** Step `k` ended the call: with this response, whose native identifier an AWS call keeps, or with an error. */
  ghost predicate FinishedAt(es: seq<Event>, k: nat, x: Id, e: Execution, call: Call) {
    && k < |es| && es[k].Finishing? && es[k].execution == x && call.finished == Some(es[k].now)
    && call.response == es[k].response && call.observation == Some(es[k].observation)
    && (call.status == Complete <==> call.response.Some?)
    && call.provider == if call.response.Some? && e.mode == Aws then call.response.value.provider else None
  }

  ghost predicate AuditedAt(es: seq<Event>, k: nat, x: Id, phase: Phase, receipt: Receipt) {
    k < |es| && es[k] == Auditing(x, phase, receipt, es[k].now) && receipt.observed <= es[k].now
  }

  ghost predicate ClosedAt(es: seq<Event>, k: nat, x: Id, e: Execution) {
    k < |es| && e.closed.Some? && es[k] == Closing(x, e.closed.value)
  }

  // ---------------------------------------------------------------- the whole story

  ghost predicate CallTold(es: seq<Event>, n: nat, x: Id, e: Execution, call: Call) {
    && (exists k: nat :: k < n && ReservedAt(es, k, x, e, call))
    && (call.dispatched.Some? ==> exists k: nat :: k < n && DispatchedAt(es, k, x, call))
    && (if call.status == Pending
        then call.finished.None? && call.response.None? && call.observation.None? && call.provider.None?
        else exists k: nat :: k < n && FinishedAt(es, k, x, e, call))
  }

  ghost predicate Told(es: seq<Event>, n: nat, x: Id, e: Execution) {
    && (exists k: nat :: k < n && RegisteredAt(es, k, x, e))
    && (e.call.Some? ==> CallTold(es, n, x, e, e.call.value))
    && (forall phase :: phase in e.audits ==> exists k: nat :: k < n && AuditedAt(es, k, x, phase, e.audits[phase]))
    && (e.closed.Some? ==> exists k: nat :: k < n && ClosedAt(es, k, x, e))
  }

  ghost predicate AllTold(es: seq<Event>, n: nat)
    requires n <= |es|
  {
    forall x :: x in Reached(es, n).executions ==> Told(es, n, x, Reached(es, n).executions[x])
  }

  /** What one accepted request writes into an execution. */
  ghost predicate Written(db: Database, e: Execution, after: Execution, event: Event, x: Id) {
    match event
    case Registering(_, _, _) => false
    case Reserving(claim, now) =>
      && e.call.None? && e.closed.None? && claim.operation.Some? && claim.payload.Some?
      && claim == Claim(Some(e.token), e.suite, x, claim.operation, claim.payload)
      && e.started <= now && now < e.started + 180.0
      && after == e.(call := Some(Call(claim.operation.value, claim.payload.value, Pending, now, None, None, None, None,
                                       None)))
    case Dispatching(y, now) =>
      && y == x && e.call.Some? && e.call.value.status == Pending && e.call.value.dispatched.None?
      && after == e.(call := Some(e.call.value.(dispatched := Some(now))))
    case Auditing(y, phase, receipt, now) =>
      y == x && phase !in e.audits && receipt.observed <= now && after == e.(audits := e.audits[phase := receipt])
    case Finishing(y, response, observation, now) =>
      && y == x && e.call.Some? && e.call.value.status == Pending
      && after == e.(call := Some(e.call.value.(
                       status := if response.Some? then Complete else Error, finished := Some(now), response := response,
                       observation := Some(observation),
                       provider := if response.Some? && e.mode == Aws then response.value.provider else None)))
    case Closing(y, now) => y == x && e.closed.None? && after == e.(closed := Some(now))
  }

  /** A step writes one execution as its request says, or adds one, or leaves it. */
  lemma NextRow(db: Database, e: Event, x: Id)
    requires x in Next(db, e).executions
    ensures var row := Next(db, e).executions[x];
            if x !in db.executions then
              && row.call.None? && row.closed.None? && row.audits == map[] && row.started > 0.0
              && e == Registering(Some(Registration(row.suite, x, row.resource, row.mode, row.body)), row.token, row.started)
            else row == db.executions[x] || Written(db, db.executions[x], row, e, x)
  {
    hide Presentable, ObservationUsed, ProviderUsed, Closable;
  }

  lemma CallCarries(es: seq<Event>, n: nat, x: Id, e: Execution, after: Execution)
    requires e.call.Some? && CallTold(es, n, x, e, e.call.value)
    requires after.(closed := e.closed, audits := e.audits) == e
    ensures CallTold(es, n + 1, x, after, e.call.value)
  {
    hide Reached;
    var call := e.call.value;
    var k: nat :| k < n && ReservedAt(es, k, x, e, call);
    assert ReservedAt(es, k, x, after, call);
    if call.status != Pending {
      var f: nat :| f < n && FinishedAt(es, f, x, e, call);
      assert FinishedAt(es, f, x, after, call);
    }
  }

  lemma DispatchIsTold(es: seq<Event>, n: nat, x: Id, e: Execution, after: Execution)
    requires n < |es| && es[n].Dispatching? && e.call.Some? && CallTold(es, n, x, e, e.call.value)
    requires Written(Reached(es, n), e, after, es[n], x)
    ensures CallTold(es, n + 1, x, after, after.call.value)
  {
    hide Reached;
    var k: nat :| k < n && ReservedAt(es, k, x, e, e.call.value);
    assert ReservedAt(es, k, x, after, after.call.value);
    assert DispatchedAt(es, n, x, after.call.value);
  }

  lemma FinishIsTold(es: seq<Event>, n: nat, x: Id, e: Execution, after: Execution)
    requires n < |es| && es[n].Finishing? && e.call.Some? && CallTold(es, n, x, e, e.call.value)
    requires Written(Reached(es, n), e, after, es[n], x)
    ensures CallTold(es, n + 1, x, after, after.call.value)
  {
    hide Reached;
    var k: nat :| k < n && ReservedAt(es, k, x, e, e.call.value);
    assert ReservedAt(es, k, x, after, after.call.value);
    if e.call.value.dispatched.Some? {
      var d: nat :| d < n && DispatchedAt(es, d, x, e.call.value);
      assert DispatchedAt(es, d, x, after.call.value);
    }
    assert FinishedAt(es, n, x, after, after.call.value);
  }

  lemma AuditsAreTold(es: seq<Event>, n: nat, x: Id, e: Execution, after: Execution)
    requires n < |es| && (after.audits == e.audits || Written(Reached(es, n), e, after, es[n], x))
    requires forall phase :: phase in e.audits ==> exists k: nat :: k < n && AuditedAt(es, k, x, phase, e.audits[phase])
    ensures forall phase :: phase in after.audits ==>
              exists k: nat :: k < n + 1 && AuditedAt(es, k, x, phase, after.audits[phase])
  {
    hide Reached;
    forall phase | phase in after.audits
      ensures exists k: nat :: k < n + 1 && AuditedAt(es, k, x, phase, after.audits[phase])
    {
      if phase in e.audits && after.audits[phase] == e.audits[phase] {
        var k: nat :| k < n && AuditedAt(es, k, x, phase, e.audits[phase]);
      } else {
        assert AuditedAt(es, n, x, phase, after.audits[phase]);
      }
    }
  }

  lemma CallIsTold(es: seq<Event>, n: nat, x: Id, e: Execution, after: Execution)
    requires n < |es| && x in Reached(es, n).executions && e == Reached(es, n).executions[x] && after.call.Some?
    requires e.call.Some? ==> CallTold(es, n, x, e, e.call.value)
    requires after == e || Written(Reached(es, n), e, after, es[n], x)
    ensures CallTold(es, n + 1, x, after, after.call.value)
  {
    hide Reached, CallTold;
    if after == e {
      CallCarries(es, n, x, e, after);
    } else {
      match es[n]
      case Registering(_, _, _) =>
      case Reserving(_, _) => NewCallIsTold(es, n, x, e, after);
      case Dispatching(_, _) => DispatchIsTold(es, n, x, e, after);
      case Auditing(_, _, _, _) => CallCarries(es, n, x, e, after);
      case Finishing(_, _, _, _) => FinishIsTold(es, n, x, e, after);
      case Closing(_, _) => CallCarries(es, n, x, e, after);
    }
  }

  lemma NewCallIsTold(es: seq<Event>, n: nat, x: Id, e: Execution, after: Execution)
    requires n < |es| && x in Reached(es, n).executions && e == Reached(es, n).executions[x]
    requires es[n].Reserving? && Written(Reached(es, n), e, after, es[n], x)
    ensures after.call.Some? && CallTold(es, n + 1, x, after, after.call.value)
  {
    hide Reached;
    assert ReservedAt(es, n, x, after, after.call.value);
  }

  lemma RowIsTold(es: seq<Event>, n: nat, x: Id)
    requires n < |es| && x in Reached(es, n + 1).executions
    requires x in Reached(es, n).executions ==> Told(es, n, x, Reached(es, n).executions[x])
    ensures Told(es, n + 1, x, Reached(es, n + 1).executions[x])
  {
    var db, row := Reached(es, n), Reached(es, n + 1).executions[x];
    assert Reached(es, n + 1) == Next(db, es[n]);
    NextRow(db, es[n], x);
    hide Reached, Next, CallTold;
    if x !in db.executions {
      assert RegisteredAt(es, n, x, row);
    } else {
      var e := db.executions[x];
      var k: nat :| k < n && RegisteredAt(es, k, x, e);
      assert RegisteredAt(es, k, x, row);
      if row.call.Some? { CallIsTold(es, n, x, e, row); }
      AuditsAreTold(es, n, x, e, row);
      if row.closed.Some? {
        if row.closed == e.closed {
          var c: nat :| c < n && ClosedAt(es, c, x, e);
          assert ClosedAt(es, c, x, row);
        } else {
          assert ClosedAt(es, n, x, row);
        }
      }
    }
  }

  /** Over every run, on any clock, each execution tells who registered, reserved, dispatched, audited, finished and
      closed it, with what and when; its call was reserved with its own token and suite, less than 180 seconds after
      its start. */
  lemma {:induction false} ExecutionsTellTheRun(es: seq<Event>, n: nat)
    requires n <= |es|
    ensures AllTold(es, n)
  {
    hide Next, Told;
    if n > 0 {
      ExecutionsTellTheRun(es, n - 1);
      var db := Reached(es, n);
      forall x | x in db.executions ensures Told(es, n, x, db.executions[x]) { RowIsTold(es, n - 1, x); }
    }
  }

  // ---------------------------------------------------------------- when a request is accepted

  lemma RegisteredIff(db: Database, reg: Option<Registration>, token: Digest, now: real)
    ensures var step := RegisterStep(db, reg, token, now);
            && (step.answer.Ok? <==> && reg.Some? && now > 0.0 && reg.value.execution !in db.executions
                                     && forall x :: x in db.executions ==> db.executions[x].token != token)
            && (step.answer.Ok? ==> reg.value.execution in step.next.executions)
            && (!step.answer.Ok? ==> step == Step(db, Refused(if reg.None? then 422 else 409)))
  {
  }

  /** The call may still be written: it is pending in an open execution younger than 180 seconds. */
  ghost predicate Underway(db: Database, x: Id, now: real) {
    && x in db.executions && now > 0.0
    && var e := db.executions[x];
       && e.closed.None? && e.call.Some? && e.call.value.status == Pending
       && e.started <= now && now < e.started + 180.0 && e.call.value.started <= now
  }

  lemma UnderwayIff(db: Database, x: Id, now: real)
    ensures Underway(db, x, now) <==> PendingStatus(db, x, now) == 0
  {
  }

  lemma RefusedWith(db: Database, x: Id, now: real)
    ensures !Underway(db, x, now) ==> PendingStatus(db, x, now) == if x in db.executions then 409 else 404
  {
  }

  lemma ReservedIff(db: Database, c: Claim, now: real)
    ensures var step := ReserveStep(db, c, now);
            && (step.answer.Ok? <==>
                  && c.operation.Some? && c.payload.Some? && c.execution in db.executions && now > 0.0
                  && var e := db.executions[c.execution];
                     && c.token == Some(e.token) && c.suite == e.suite && e.closed.None? && e.call.None?
                     && e.started <= now && now < e.started + 180.0)
            && (step.answer.Ok? ==> Underway(step.next, c.execution, now))
            && (!step.answer.Ok? ==>
                  step == Step(db, Refused(
                    if c.operation.None? || (c.token.Some? && c.payload.None?) then 422
                    else if c.token.None? then 401
                    else if c.execution !in db.executions then 404
                    else if c.token.value != db.executions[c.execution].token then 401
                    else if c.suite != db.executions[c.execution].suite then 403
                    else 409)))
  {
  }

  /** A dispatch is accepted exactly once, while the call may still be written. */
  lemma DispatchedIff(db: Database, x: Id, now: real)
    ensures var step := DispatchStep(db, x, now);
            && (step.answer.Ok? <==> Underway(db, x, now) && db.executions[x].call.value.dispatched.None?)
            && (step.answer.Ok? ==> Underway(step.next, x, now)
                                    && step.next.executions[x].call.value.dispatched == Some(now))
            && (!step.answer.Ok? ==> step == Step(db, Refused(if x in db.executions then 409 else 404)))
  {
    UnderwayIff(db, x, now);
    RefusedWith(db, x, now);
    hide PendingStatus;
  }

  /** An audit is accepted exactly in its place: of an AWS execution's registered resources, shorter than 12 seconds,
      after the call's start and before this stamp, before the dispatch or after it and after the first audit, once per
      phase, with three different request identifiers that no audit of any execution has used. */
  lemma AuditedIff(db: Database, x: Id, phase: Phase, r: Receipt, now: real)
    ensures var step := AuditStep(db, x, phase, r, now);
            && (step.answer.Ok? <==>
                  && Underway(db, x, now)
                  && var e := db.executions[x];
                     && e.mode == Aws && OfResources(r.resources) == e.resource && phase !in e.audits
                     && r.plain && 0.0 < r.started && e.call.value.started <= r.started && r.started <= r.observed
                     && r.observed <= now && r.observed < r.started + 12.0
                     && |r.ids| == 3 && Distinct(r.ids) && (forall id :: id in r.ids ==> 1 <= |id.text| <= 256)
                     && (forall id :: id in r.ids ==> id !in db.requests)
                     && (phase == Before ==> e.call.value.dispatched.None?)
                     && (phase == After ==>
                           && Before in e.audits && e.call.value.dispatched.Some?
                           && e.call.value.dispatched.value <= r.started))
            && (step.answer.Ok? ==>
                  && step.next.requests.Keys == db.requests.Keys + {r.ids[0], r.ids[1], r.ids[2]}
                  && phase in step.next.executions[x].audits)
            && (!step.answer.Ok? ==>
                  step == Step(db, Refused(if x !in db.executions && Presentable(r) then 404 else 409)))
  {
    UnderwayIff(db, x, now);
    RefusedWith(db, x, now);
    ThreeIds(r);
    assert |r.ids| == 3 ==> r.ids[0] in r.ids && r.ids[1] in r.ids && r.ids[2] in r.ids;
    hide PendingStatus, Underway;
    assert forall id :: |r.ids| == 3 && id in r.ids ==> id == r.ids[0] || id == r.ids[1] || id == r.ids[2];
  }

  lemma ThreeIds(r: Receipt)
    ensures Presentable(r)
       <==> && r.plain && 0.0 < r.started && r.started <= r.observed && r.observed < r.started + 12.0
            && |r.ids| == 3 && Distinct(r.ids) && forall id :: id in r.ids ==> 1 <= |id.text| <= 256
  {
    assert |r.ids| == 3 ==> (Distinct(r.ids) <==> r.ids[0] != r.ids[1] && r.ids[1] != r.ids[2] && r.ids[0] != r.ids[2]);
    assert forall i :: 0 <= i < |r.ids| ==> r.ids[i] in r.ids;
  }

  /** A call ends exactly while it may still be written and not before its dispatch; a completion also needs the
      dispatch, a response within its size and, for AWS, a usable native identifier that no call has. */
  lemma FinishedIff(db: Database, x: Id, response: Option<Response>, observation: Id, now: real)
    ensures var step := FinishStep(db, x, response, observation, now);
            && (step.answer.Ok? <==>
                  && Underway(db, x, now) && FreshObservation(db, observation)
                  && var e := db.executions[x];
                     && (e.call.value.dispatched.Some? ==> e.call.value.dispatched.value <= now)
                     && (response.Some? ==>
                           && response.value.fits && e.call.value.dispatched.Some?
                           && (e.mode == Aws ==>
                                 && response.value.provider.Some? && 1 <= |response.value.provider.value.text| <= 256
                                 && FreshProvider(db, response.value.provider.value))))
            && (step.answer.Ok? ==> step.next.executions[x].call.value.status
                                    == if response.Some? then Complete else Error)
            && (!step.answer.Ok? ==> step.next == db && step.answer.status in {404, 409, 502})
            && (step.answer == Refused(404) <==> x !in db.executions && (response.Some? ==> response.value.fits))
            && (step.answer == Refused(502) <==>
                  && response.Some?
                  && (|| !response.value.fits
                      || (&& Underway(db, x, now)
                          && var e := db.executions[x];
                             && e.mode == Aws && e.call.value.dispatched.Some? && e.call.value.dispatched.value <= now
                             && !(response.value.provider.Some?
                                  && 1 <= |response.value.provider.value.text| <= 256))))
  {
    UnderwayIff(db, x, now);
    RefusedWith(db, x, now);
    FreshIff(db, observation);
    if response.Some? && response.value.provider.Some? { FreshIff(db, response.value.provider.value); }
    hide PendingStatus, ObservationUsed, ProviderUsed, FreshObservation, FreshProvider;
  }

  ghost predicate FreshObservation(db: Database, id: Id) {
    forall x :: x in db.executions && db.executions[x].call.Some? ==> db.executions[x].call.value.observation != Some(id)
  }

  ghost predicate FreshProvider(db: Database, id: Id) {
    forall x :: x in db.executions && db.executions[x].call.Some? ==> db.executions[x].call.value.provider != Some(id)
  }

  lemma FreshIff(db: Database, id: Id)
    ensures FreshObservation(db, id) <==> !ObservationUsed(db, id)
    ensures FreshProvider(db, id) <==> !ProviderUsed(db, Some(id))
    ensures !ProviderUsed(db, None)
  {
  }

  lemma ClosedIff(db: Database, x: Id, now: real)
    ensures var step := CloseStep(db, x, now);
            && (step.answer.Ok? <==>
                  && x in db.executions
                  && var e := db.executions[x];
                     || e.closed.Some?
                     || (&& now > 0.0 && e.started <= now
                         && (e.call.Some? ==> && e.call.value.status != Pending
                                              && (e.call.value.finished.Some? ==> e.call.value.finished.value <= now))))
            && (step.answer.Ok? ==> step.next.executions[x].closed.Some?)
            && (step.answer.Ok? && db.executions[x].closed.Some? ==> step.next == db)
            && (!step.answer.Ok? ==> step == Step(db, Refused(if x in db.executions then 409 else 404)))
  {
  }
}
