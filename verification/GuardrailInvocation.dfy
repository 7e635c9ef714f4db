/**
 The P04 call coordinator: reserve, validate, audit, dispatch, call, audit again, finish; any exception ends in one
 attempt to record an error. `System` interleaves the stages of all invocations in flight.
 */
module GuardrailInvocation {
  import opened Results
  import opened GuardrailLedger

  /** Everything an invocation learns from outside: `None` and `false` stand for exceptions and failed comparisons. */
  datatype Oracle = Oracle(
    valid: bool, unchangedBefore: bool, before: Option<Receipt>, response: Option<Response>, unchangedAfter: bool,
    after: Option<Receipt>)

  /** The clock readings of the ledger calls, in order. */
  datatype Stamps = Stamps(reserve: real, before: real, dispatch: real, after: real, finish: real, giveUp: real)

  // ---------------------------------------------------------------- one undisturbed invocation

  function AuditIf(db: Database, x: Id, audited: bool, phase: Phase, receipt: Option<Receipt>, now: real): Step {
    if !audited then Step(db, Ok(()))
    else if receipt.None? then Step(db, Refused(409))
    else AuditStep(db, x, phase, receipt.value, now)
  }

  /** The body of the `try`: the database where it stopped, and whether it got to the end. */
  function Attempt(db: Database, x: Id, audited: bool, o: Oracle, observation: Id, t: Stamps): (Database, bool) {
    if !o.valid || !o.unchangedBefore then (db, false)
    else
      var first := AuditIf(db, x, audited, Before, o.before, t.before);
      if first.answer.Refused? then (db, false)
      else
        var sent := DispatchStep(first.next, x, t.dispatch);
        if sent.answer.Refused? then (first.next, false)
        else if o.response.None? || !o.unchangedAfter then (sent.next, false)
        else
          var second := AuditIf(sent.next, x, audited, After, o.after, t.after);
          if second.answer.Refused? then (sent.next, false)
          else
            var finished := FinishStep(second.next, x, o.response, observation, t.finish);
            if finished.answer.Refused? then (second.next, false) else (finished.next, true)
  }

  function InvokeStep(db: Database, c: Claim, audited: bool, o: Oracle, observation: Id, t: Stamps): Step {
    var reserved := ReserveStep(db, c, t.reserve);
    if reserved.answer.Refused? then reserved
    else
      var (reached, done) := Attempt(reserved.next, c.execution, audited, o, observation, t);
      if done then Step(reached, Ok(()))
      else Step(FinishStep(reached, c.execution, None, observation, t.giveUp).next, Refused(502))
  }

  class Invocation {
    const ledger: Ledger
    const audited: bool

    constructor (ledger: Ledger, audited: bool)
      ensures this.ledger == ledger && this.audited == audited
    {
      this.ledger, this.audited := ledger, audited;
    }

    method Invoke(c: Claim, o: Oracle, observation: Id, t: Stamps) returns (r: Outcome<()>)
      modifies ledger
      ensures Step(ledger.State(), r) == InvokeStep(old(ledger.State()), c, audited, o, observation, t)
    {
      hide DispatchStep, AuditStep, FinishStep, ReserveStep;
      RefusalsChangeNothing();
      r := ledger.Reserve(c, t.reserve);
      if r.Refused? { return; }
      var done := Try(c.execution, o, observation, t);
      if done { return Ok(()); }
      var ignored := ledger.Finish(c.execution, None, observation, t.giveUp);
      r := Refused(502);
    }

    method Try(x: Id, o: Oracle, observation: Id, t: Stamps) returns (done: bool)
      modifies ledger
      ensures (ledger.State(), done) == Attempt(old(ledger.State()), x, audited, o, observation, t)
    {
      hide DispatchStep, AuditStep, FinishStep, ReserveStep;
      RefusalsChangeNothing();
      if !o.valid { return false; }
      if !o.unchangedBefore { return false; }
      if audited {
        if o.before.None? { return false; }
        var first := ledger.PolicyAudit(x, Before, o.before.value, t.before);
        if first.Refused? { return false; }
      }
      var sent := ledger.Dispatch(x, t.dispatch);
      if sent.Refused? { return false; }
      if o.response.None? { return false; }
      if !o.unchangedAfter { return false; }
      if audited {
        if o.after.None? { return false; }
        var second := ledger.PolicyAudit(x, After, o.after.value, t.after);
        if second.Refused? { return false; }
      }
      var finished := ledger.Finish(x, o.response, observation, t.finish);
      done := finished.Ok?;
    }
  }

  lemma RefusalsChangeNothing()
    ensures forall db, c, now :: ReserveStep(db, c, now).answer.Refused? ==> ReserveStep(db, c, now).next == db
    ensures forall db, x, now :: DispatchStep(db, x, now).answer.Refused? ==> DispatchStep(db, x, now).next == db
    ensures forall db, x, phase, r, now ::
              AuditStep(db, x, phase, r, now).answer.Refused? ==> AuditStep(db, x, phase, r, now).next == db
    ensures forall db, x, response, observation, now ::
              FinishStep(db, x, response, observation, now).answer.Refused? ==>
                FinishStep(db, x, response, observation, now).next == db
  {
    hide Presentable, Timely, ObservationUsed, ProviderUsed, PendingStatus;
  }

  // ---------------------------------------------------------------- invocations in flight

  /** How far an invocation has come since its reserve; `Failing` is the exception path. */
  datatype Stage =
    | Entered | Checked | AuditedBefore | Sent | Answered(response: Response) | AuditedAfter(response: Response) | Failing

  datatype System = System(db: Database, flights: map<Id, Stage>)

  const IDLE := System(EMPTY, map[])

  /** One stage of one invocation, or a step of its surroundings; a missing receipt or reply is an exception. */
  datatype Event =
    | Enrolling(reg: Option<Registration>, token: Digest, now: real)
    | Starting(claim: Claim, now: real)
    | Checking(execution: Id, valid: bool, now: real)
    | Inspecting(execution: Id, receipt: Option<Receipt>, now: real)
    | Sending(execution: Id, now: real)
    | Calling(execution: Id, reply: Option<Response>, now: real)
    | Recording(execution: Id, observation: Id, now: real)
    | GivingUp(execution: Id, observation: Id, now: real)
    | Ending(execution: Id, now: real)

  function Moved(s: System, step: Step, x: Id, to: Stage): System {
    if step.answer.Ok? then System(step.next, s.flights[x := to]) else s.(flights := s.flights[x := Failing])
  }

  /** The stages of `invoke` for execution `x`, one transaction at a time; `audited` are the executions whose
      coordinator was given an auditor. */
  function Stepped(audited: set<Id>, s: System, x: Id, e: Event): System
    requires x in s.flights
  {
    var stage := s.flights[x];
    match e
    case Checking(_, valid, _) =>
      if stage == Entered then s.(flights := s.flights[x := if valid then Checked else Failing]) else s
    case Inspecting(_, receipt, now) =>
      if x in audited && stage == Checked then
        Moved(s, AuditIf(s.db, x, true, Before, receipt, now), x, AuditedBefore)
      else if x in audited && stage.Answered? then
        Moved(s, AuditIf(s.db, x, true, After, receipt, now), x, AuditedAfter(stage.response))
      else s
    case Sending(_, now) =>
      if stage == (if x in audited then AuditedBefore else Checked) then Moved(s, DispatchStep(s.db, x, now), x, Sent) else s
    case Calling(_, reply, _) =>
      if stage == Sent then s.(flights := s.flights[x := if reply.Some? then Answered(reply.value) else Failing]) else s
    case Recording(_, observation, now) =>
      if if x in audited then stage.AuditedAfter? else stage.Answered? then
        var step := FinishStep(s.db, x, Some(stage.response), observation, now);
        if step.answer.Ok? then System(step.next, s.flights - {x}) else s.(flights := s.flights[x := Failing])
      else s
    case GivingUp(_, observation, now) =>
      if stage == Failing then System(FinishStep(s.db, x, None, observation, now).next, s.flights - {x}) else s
    case _ => s
  }

  function Next(audited: set<Id>, s: System, e: Event): System {
    match e
    case Enrolling(reg, token, now) => s.(db := RegisterStep(s.db, reg, token, now).next)
    case Starting(claim, now) =>
      var step := ReserveStep(s.db, claim, now);
      if step.answer.Ok? then System(step.next, s.flights[claim.execution := Entered]) else s
    case Ending(x, now) => s.(db := CloseStep(s.db, x, now).next)
    case _ => if e.execution in s.flights then Stepped(audited, s, e.execution, e) else s
  }

  function Reached(audited: set<Id>, es: seq<Event>, n: nat): System
    requires n <= |es|
  {
    if n == 0 then IDLE else Next(audited, Reached(audited, es, n - 1), es[n - 1])
  }

  ghost predicate Steady(es: seq<Event>) {
    forall i, j :: 0 <= i < j < |es| ==> es[i].now <= es[j].now
  }

  // ---------------------------------------------------------------- the ledger under the coordinator

  /** The ledger transaction of a step, if it has one. */
  function Transaction(audited: set<Id>, s: System, e: Event): (l: Option<GuardrailLedger.Event>)
    ensures l.Some? ==> l.value.now == e.now
  {
    match e
    case Enrolling(reg, token, now) => Some(GuardrailLedger.Event.Registering(reg, token, now))
    case Starting(claim, now) => Some(GuardrailLedger.Event.Reserving(claim, now))
    case Ending(x, now) => Some(GuardrailLedger.Event.Closing(x, now))
    case Checking(_, _, _) => None
    case Calling(_, _, _) => None
    case Inspecting(x, receipt, now) =>
      if x !in s.flights || x !in audited || receipt.None? then None
      else if s.flights[x] == Checked then Some(GuardrailLedger.Event.Auditing(x, Before, receipt.value, now))
      else if s.flights[x].Answered? then Some(GuardrailLedger.Event.Auditing(x, After, receipt.value, now))
      else None
    case Sending(x, now) =>
      if x in s.flights && s.flights[x] == (if x in audited then AuditedBefore else Checked)
      then Some(GuardrailLedger.Event.Dispatching(x, now)) else None
    case Recording(x, observation, now) =>
      if x in s.flights && (if x in audited then s.flights[x].AuditedAfter? else s.flights[x].Answered?)
      then Some(GuardrailLedger.Event.Finishing(x, Some(s.flights[x].response), observation, now)) else None
    case GivingUp(x, observation, now) =>
      if x in s.flights && s.flights[x] == Failing
      then Some(GuardrailLedger.Event.Finishing(x, None, observation, now)) else None
  }

  lemma NextIsTransaction(audited: set<Id>, s: System, e: Event)
    ensures var l := Transaction(audited, s, e);
            Next(audited, s, e).db == if l.None? then s.db else GuardrailLedger.Next(s.db, l.value)
  {
    RefusalsChangeNothing();
    hide RegisterStep, ReserveStep, DispatchStep, AuditStep, FinishStep, CloseStep;
  }

  predicate PastBefore(stage: Stage) {
    stage == AuditedBefore || stage == Sent || stage.Answered? || stage.AuditedAfter?
  }

  predicate Recorded(db: Database, x: Id, phase: Phase) {
    x in db.executions && phase in db.executions[x].audits
  }

  predicate Completed(db: Database, x: Id) {
    x in db.executions && db.executions[x].call.Some? && db.executions[x].call.value.status == Complete
  }

  /** Under an auditor a stage says which audits are recorded. */
  ghost predicate Staged(audited: set<Id>, s: System) {
    forall x :: x in s.flights && x in audited ==>
      && (PastBefore(s.flights[x]) ==> Recorded(s.db, x, Before))
      && (s.flights[x].AuditedAfter? ==> Recorded(s.db, x, After))
  }

  /** Every complete call under an auditor has both audits. */
  ghost predicate Evidenced(audited: set<Id>, db: Database) {
    forall x :: x in audited && Completed(db, x) ==>
      Recorded(db, x, Before) && Recorded(db, x, After)
  }

  lemma NextKeepsExecutions(audited: set<Id>, s: System, e: Event)
    ensures forall x :: x in s.db.executions ==>
              x in Next(audited, s, e).db.executions && Carried(s.db.executions[x], Next(audited, s, e).db.executions[x])
  {
    NextIsTransaction(audited, s, e);
    hide Next;
    var l := Transaction(audited, s, e);
    if l.Some? {
      forall x | x in s.db.executions
        ensures x in Next(audited, s, e).db.executions && Carried(s.db.executions[x], Next(audited, s, e).db.executions[x])
      {
        NextCarries(s.db, l.value, x);
      }
    }
  }

  lemma AuditRecords(db: Database, x: Id, phase: Phase, r: Receipt, now: real)
    ensures AuditStep(db, x, phase, r, now).answer.Ok? ==> Recorded(AuditStep(db, x, phase, r, now).next, x, phase)
  {
    hide Presentable, Timely, PendingStatus;
  }

  /** Audits are never withdrawn. */
  lemma AuditsStay(audited: set<Id>, s: System, e: Event)
    ensures forall x, phase :: Recorded(s.db, x, phase) ==> Recorded(Next(audited, s, e).db, x, phase)
  {
    NextKeepsExecutions(audited, s, e);
    hide Next;
  }

  lemma NextKeepsStaged(audited: set<Id>, s: System, e: Event)
    requires Staged(audited, s)
    ensures Staged(audited, Next(audited, s, e))
  {
    AuditsStay(audited, s, e);
    if e.Inspecting? && e.receipt.Some? {
      AuditRecords(s.db, e.execution, Before, e.receipt.value, e.now);
      AuditRecords(s.db, e.execution, After, e.receipt.value, e.now);
    }
    hide RegisterStep, ReserveStep, DispatchStep, AuditStep, FinishStep, CloseStep, Recorded;
  }

  lemma NextKeepsEvidenced(audited: set<Id>, s: System, e: Event)
    requires Staged(audited, s) && Evidenced(audited, s.db)
    ensures Evidenced(audited, Next(audited, s, e).db)
  {
    AuditsStay(audited, s, e);
    NextIsTransaction(audited, s, e);
    hide Next, GuardrailLedger.Next, Recorded;
    var after, l := Next(audited, s, e).db, Transaction(audited, s, e);
    forall x | x in audited && Completed(after, x)
      ensures Recorded(after, x, Before) && Recorded(after, x, After)
    {
      if l.Some? { OnlyFinishCompletes(s.db, l.value, x); }
    }
  }

  /** What the system keeps, up to the stamp `t`. */
  ghost predicate Good(audited: set<Id>, s: System, t: real) {
    AllInOrder(s.db, t) && Staged(audited, s) && Evidenced(audited, s.db)
  }

  lemma NextKeepsGood(audited: set<Id>, s: System, e: Event, t: real)
    requires Good(audited, s, t) && t <= e.now
    ensures Good(audited, Next(audited, s, e), e.now)
  {
    NextKeepsStaged(audited, s, e);
    NextKeepsEvidenced(audited, s, e);
    NextIsTransaction(audited, s, e);
    hide Next, Staged, Evidenced, InOrder, Transaction;
    forall x | x in s.db.executions ensures InOrder(s.db.executions[x], e.now) {
      LaterInOrder(s.db.executions[x], t, e.now);
    }
    var l := Transaction(audited, s, e);
    if l.Some? { NextInOrder(s.db, l.value); }
  }

  /** The stamp of the last event. */
  function Last(es: seq<Event>, n: nat): real
    requires n <= |es|
  {
    if n == 0 then 0.0 else es[n - 1].now
  }

  lemma {:induction false} RunKeepsGood(audited: set<Id>, es: seq<Event>, n: nat)
    requires n <= |es| && Steady(es)
    ensures Good(audited, Reached(audited, es, n), Last(es, n))
  {
    if n > 0 {
      RunKeepsGood(audited, es, n - 1);
      hide Next, Good;
      if n == 1 {
        FirstStepGood(audited, es[0]);
      } else {
        NextKeepsGood(audited, Reached(audited, es, n - 1), es[n - 1], Last(es, n - 1));
      }
    }
  }

  /** Nothing is recorded before the first step, whatever its stamp. */
  lemma FirstStepGood(audited: set<Id>, e: Event)
    ensures Good(audited, Next(audited, IDLE, e), e.now)
  {
    NextKeepsGood(audited, IDLE, e, e.now);
  }

  // ---------------------------------------------------------------- any clock

  /** The audits recorded and the calls completed agree, whatever the clock does. */
  lemma {:induction false} RunKeepsEvidenced(audited: set<Id>, es: seq<Event>, n: nat)
    requires n <= |es|
    ensures Staged(audited, Reached(audited, es, n)) && Evidenced(audited, Reached(audited, es, n).db)
  {
    hide Next;
    if n > 0 {
      RunKeepsEvidenced(audited, es, n - 1);
      NextKeepsStaged(audited, Reached(audited, es, n - 1), es[n - 1]);
      NextKeepsEvidenced(audited, Reached(audited, es, n - 1), es[n - 1]);
      hide Staged, Evidenced;
    }
  }

  lemma {:induction false} RunKeepsLinked(audited: set<Id>, es: seq<Event>, n: nat, x: Id)
    requires n <= |es| && x in Reached(audited, es, n).db.executions
    ensures Linked(Reached(audited, es, n).db.executions[x])
  {
    hide Next, Linked;
    if n > 0 {
      var s := Reached(audited, es, n - 1);
      if x in s.db.executions { RunKeepsLinked(audited, es, n - 1, x); }
      NextIsTransaction(audited, s, es[n - 1]);
      var l := Transaction(audited, s, es[n - 1]);
      if l.Some? { NextKeepsLinked(s.db, l.value, x); }
    }
  }

  /** Step `k` of the run is stamped not before the audit that its dispatch or completion of `x` follows. */
  predicate PunctualAt(audited: set<Id>, es: seq<Event>, k: nat, x: Id)
    requires k < |es|
  {
    var s := Reached(audited, es, k);
    var l := Transaction(audited, s, es[k]);
    l.Some? ==> Punctual(s.db, l.value, x)
  }

  ghost predicate AlwaysPunctual(audited: set<Id>, es: seq<Event>, n: nat, x: Id)
    requires n <= |es|
  {
    forall k :: 0 <= k < n ==> PunctualAt(audited, es, k, x)
  }

  lemma {:induction false} ObservedIff(audited: set<Id>, es: seq<Event>, n: nat, x: Id)
    requires n <= |es|
    ensures (x in Reached(audited, es, n).db.executions ==> Observed(Reached(audited, es, n).db.executions[x]))
       <==> AlwaysPunctual(audited, es, n, x)
  {
    hide Next, Observed, Punctual, Transaction;
    if n > 0 {
      ObservedIff(audited, es, n - 1, x);
      var s := Reached(audited, es, n - 1);
      NextIsTransaction(audited, s, es[n - 1]);
      var l := Transaction(audited, s, es[n - 1]);
      if l.Some? { NextObservedIff(s.db, l.value, x); }
      assert PunctualAt(audited, es, n - 1, x) <==> (l.Some? ==> Punctual(s.db, l.value, x));
      hide PunctualAt, Reached;
    }
  }

  // ---------------------------------------------------------------- main results

  /** Audited with the registered resources before the dispatch and again after it, all inside 180 seconds. */
  ghost predicate Chained(e: Execution) {
    && Before in e.audits && After in e.audits
    && e.call.Some? && e.call.value.dispatched.Some? && e.call.value.finished.Some?
    && var call, before, after := e.call.value, e.audits[Before], e.audits[After];
       && e.started <= call.started <= before.started <= before.observed <= call.dispatched.value
            <= after.started <= after.observed <= call.finished.value < e.started + 180.0
       && (e.closed.Some? ==> call.finished.value <= e.closed.value)
       && OfResources(before.resources) == e.resource && OfResources(after.resources) == e.resource
  }

  /** The exact condition, over every run and on any clock: the evidence of a complete call under an auditor is in order
      if and only if the accepted dispatch and completion of its execution were stamped not before the observation of
      the audit each follows, which neither transaction compares. */
  lemma EvidenceIsOrderedIff(audited: set<Id>, es: seq<Event>, x: Id)
    requires x in audited && Completed(Reached(audited, es, |es|).db, x)
    ensures Chained(Reached(audited, es, |es|).db.executions[x]) <==> AlwaysPunctual(audited, es, |es|, x)
  {
    RunKeepsEvidenced(audited, es, |es|);
    RunKeepsLinked(audited, es, |es|, x);
    ObservedIff(audited, es, |es|, x);
    hide Reached, AlwaysPunctual, Staged;
    assert Recorded(Reached(audited, es, |es|).db, x, Before) && Recorded(Reached(audited, es, |es|).db, x, After);
  }

  /** Evidence order: under an auditor and on a clock that does not run backwards, every complete call, however the
      invocations interleave, was audited before its dispatch and again after it, inside 180 seconds, with both audits
      showing the registered resources. */
  lemma CompleteCallsAreAudited(audited: set<Id>, es: seq<Event>, x: Id)
    requires Steady(es) && x in audited && Completed(Reached(audited, es, |es|).db, x)
    ensures Chained(Reached(audited, es, |es|).db.executions[x])
  {
    RunKeepsGood(audited, es, |es|);
    hide Reached;
    var e := Reached(audited, es, |es|).db.executions[x];
    assert InOrder(e, Last(es, |es|));
  }

  lemma {:induction false} RunKeepsRegistered(audited: set<Id>, es: seq<Event>, n: nat)
    requires n <= |es|
    ensures Registered(Reached(audited, es, n).db) && Presented(Reached(audited, es, n).db)
  {
    if n > 0 {
      RunKeepsRegistered(audited, es, n - 1);
      hide Next, Registered, Presented;
      var s := Reached(audited, es, n - 1);
      NextIsTransaction(audited, s, es[n - 1]);
      var l := Transaction(audited, s, es[n - 1]);
      if l.Some? {
        NextKeepsRegistered(s.db, l.value);
        NextKeepsPresented(s.db, l.value);
      }
    }
  }

  /** The place of an audit request: execution, phase and position in the receipt. */
  datatype Place = Place(execution: Id, phase: Phase, index: nat)

  ghost predicate Holds(db: Database, at: Place, id: Id) {
    && at.execution in db.executions && at.phase in db.executions[at.execution].audits
    && at.index < |db.executions[at.execution].audits[at.phase].ids|
    && db.executions[at.execution].audits[at.phase].ids[at.index] == id
  }

  /** Audit request identifiers are distinct across all executions and both phases, on any clock. */
  lemma AuditRequestsAreDistinct(audited: set<Id>, es: seq<Event>, a: Place, b: Place, id: Id)
    requires Holds(Reached(audited, es, |es|).db, a, id) && Holds(Reached(audited, es, |es|).db, b, id)
    ensures a == b
  {
    RunKeepsRegistered(audited, es, |es|);
    hide Reached;
  }

  /** The 180-second limit is final: once a call is pending at that age, no later step of any invocation completes it
      and its execution can never be closed. */
  lemma {:induction false} StuckStays(audited: set<Id>, es: seq<Event>, from: nat, to: nat, x: Id, now: real)
    requires Steady(es) && 0 < from <= to <= |es| && es[to - 1].now <= now
    requires Stuck(Reached(audited, es, from).db, x, es[from - 1].now)
    ensures Stuck(Reached(audited, es, to).db, x, es[from - 1].now)
    ensures CloseStep(Reached(audited, es, to).db, x, now).answer == Refused(409)
  {
    if from < to {
      hide Next;
      StuckStays(audited, es, from, to - 1, x, es[to - 2].now);
      var s := Reached(audited, es, to - 1);
      NextIsTransaction(audited, s, es[to - 1]);
      var l := Transaction(audited, s, es[to - 1]);
      if l.Some? { NextKeepsStuck(s.db, l.value, x, es[from - 1].now); }
    }
  }

  /** The stages from the first check to the recording do what the `try` body does. */
  lemma StagesRefineAttempt(audited: set<Id>, s: System, x: Id, o: Oracle, observation: Id, t: Stamps)
    requires x in s.flights && s.flights[x] == Entered
    ensures var s2 := Next(audited, s, Checking(x, o.valid && o.unchangedBefore, t.reserve));
            var s3 := Next(audited, s2, Inspecting(x, o.before, t.before));
            var s4 := Next(audited, s3, Sending(x, t.dispatch));
            var s5 := Next(audited, s4, Calling(x, if o.unchangedAfter then o.response else None, t.dispatch));
            var s6 := Next(audited, s5, Inspecting(x, o.after, t.after));
            var s7 := Next(audited, s6, Recording(x, observation, t.finish));
            var (reached, done) := Attempt(s.db, x, x in audited, o, observation, t);
            s7.db == reached && (if done then x !in s7.flights else x in s7.flights && s7.flights[x] == Failing)
  {
    hide ReserveStep, DispatchStep, AuditStep, FinishStep;
  }

  /** The concurrent stages refine `invoke`: run one after the other with nothing in between, they leave the database
      exactly as the undisturbed invocation does, and nothing in flight. */
  lemma StagesRefineInvoke(audited: set<Id>, s: System, c: Claim, o: Oracle, observation: Id, t: Stamps)
    requires c.execution !in s.flights
    ensures var x := c.execution;
            var s1 := Next(audited, s, Starting(c, t.reserve));
            var s2 := Next(audited, s1, Checking(x, o.valid && o.unchangedBefore, t.reserve));
            var s3 := Next(audited, s2, Inspecting(x, o.before, t.before));
            var s4 := Next(audited, s3, Sending(x, t.dispatch));
            var s5 := Next(audited, s4, Calling(x, if o.unchangedAfter then o.response else None, t.dispatch));
            var s6 := Next(audited, s5, Inspecting(x, o.after, t.after));
            var s7 := Next(audited, s6, Recording(x, observation, t.finish));
            var s8 := Next(audited, s7, GivingUp(x, observation, t.giveUp));
            s8.db == InvokeStep(s.db, c, x in audited, o, observation, t).next && x !in s8.flights
  {
    hide ReserveStep, DispatchStep, AuditStep, FinishStep, Attempt;
    assert ReserveStep(s.db, c, t.reserve).answer.Refused? ==> ReserveStep(s.db, c, t.reserve).next == s.db by {
      RefusalsChangeNothing();
    }
    var s1 := Next(audited, s, Starting(c, t.reserve));
    if ReserveStep(s.db, c, t.reserve).answer.Ok? {
      StagesRefineAttempt(audited, s1, c.execution, o, observation, t);
      hide Stepped;
    }
  }
}
