/**
 How a P04 call came to be complete: over all runs of concurrent invocations, the validation succeeded, the resources
 were unchanged before and after, and the recorded response is the provider's.
 */
module InvocationStories {
  import opened Results
  import opened GuardrailLedger
  import opened GuardrailInvocation

  /** Step `k` validated the call and found the resources unchanged. */
  ghost predicate CheckedAt(es: seq<GuardrailInvocation.Event>, k: nat, x: Id) {
    k < |es| && es[k].Checking? && es[k].execution == x && es[k].valid
  }

  /** Step `k` brought the response, and found the resources still unchanged. */
  ghost predicate RepliedAt(es: seq<GuardrailInvocation.Event>, k: nat, x: Id, response: Response) {
    k < |es| && es[k].Calling? && es[k].execution == x && es[k].reply == Some(response)
  }

  ghost predicate WasChecked(es: seq<GuardrailInvocation.Event>, n: nat, x: Id) {
    exists k: nat :: k < n && CheckedAt(es, k, x)
  }

  ghost predicate WasReplied(es: seq<GuardrailInvocation.Event>, n: nat, x: Id, response: Response) {
    exists j: nat, k: nat :: j < k < n && CheckedAt(es, j, x) && RepliedAt(es, k, x, response)
  }

  /** What the stage of an invocation says of the steps before. */
  ghost predicate StageTold(es: seq<GuardrailInvocation.Event>, n: nat, x: Id, stage: Stage) {
    match stage
    case Entered => true
    case Checked => WasChecked(es, n, x)
    case AuditedBefore => WasChecked(es, n, x)
    case Sent => WasChecked(es, n, x)
    case Answered(response) => WasReplied(es, n, x, response)
    case AuditedAfter(response) => WasReplied(es, n, x, response)
    case Failing => true
  }

  ghost predicate Told(audited: set<Id>, es: seq<GuardrailInvocation.Event>, n: nat)
    requires n <= |es|
  {
    var s := Reached(audited, es, n);
    && (forall x :: x in s.flights ==> StageTold(es, n, x, s.flights[x]))
    && (forall x :: Completed(s.db, x) ==>
          s.db.executions[x].call.value.response.Some?
          && WasReplied(es, n, x, s.db.executions[x].call.value.response.value))
  }

  lemma StageCarries(es: seq<GuardrailInvocation.Event>, n: nat, x: Id, stage: Stage)
    requires StageTold(es, n, x, stage)
    ensures StageTold(es, n + 1, x, stage)
  {
    hide CheckedAt, RepliedAt;
  }

  lemma NextStage(audited: set<Id>, es: seq<GuardrailInvocation.Event>, n: nat, x: Id)
    requires n < |es| && Told(audited, es, n)
    requires x in GuardrailInvocation.Next(audited, Reached(audited, es, n), es[n]).flights
    ensures StageTold(es, n + 1, x, GuardrailInvocation.Next(audited, Reached(audited, es, n), es[n]).flights[x])
  {
    var s := Reached(audited, es, n);
    hide Reached, ReserveStep, DispatchStep, AuditStep, FinishStep, RegisterStep, CloseStep;
    hide Completed, WasReplied, WasChecked;
    if x in s.flights { StageCarries(es, n, x, s.flights[x]); }
    if es[n].Checking? && es[n].execution == x && es[n].valid { CheckIsTold(es, n, x); }
    if es[n].Calling? && es[n].execution == x && es[n].reply.Some? && x in s.flights && s.flights[x] == Sent {
      ReplyIsTold(es, n, x);
    }
  }

  lemma CheckIsTold(es: seq<GuardrailInvocation.Event>, n: nat, x: Id)
    requires n < |es| && es[n].Checking? && es[n].execution == x && es[n].valid
    ensures WasChecked(es, n + 1, x)
  {
    assert CheckedAt(es, n, x);
  }

  lemma ReplyIsTold(es: seq<GuardrailInvocation.Event>, n: nat, x: Id)
    requires n < |es| && es[n].Calling? && es[n].execution == x && es[n].reply.Some? && WasChecked(es, n, x)
    ensures WasReplied(es, n + 1, x, es[n].reply.value)
  {
    var k: nat :| k < n && CheckedAt(es, k, x);
    assert RepliedAt(es, n, x, es[n].reply.value);
  }

  /** A call becomes complete by the recording of an invocation whose provider answered, with that answer. */
  lemma CompletionIs(audited: set<Id>, s: System, e: GuardrailInvocation.Event, x: Id)
    requires Completed(GuardrailInvocation.Next(audited, s, e).db, x)
    ensures var after := GuardrailInvocation.Next(audited, s, e).db.executions[x].call.value;
            || (Completed(s.db, x) && after == s.db.executions[x].call.value)
            || (x in s.flights && (s.flights[x].Answered? || s.flights[x].AuditedAfter?)
                && after.response == Some(s.flights[x].response))
  {
    NextIsTransaction(audited, s, e);
    var l := Transaction(audited, s, e);
    if l.Some? {
      OnlyFinishCompletes(s.db, l.value, x);
      if Completed(s.db, x) { NextCarries(s.db, l.value, x); }
      if l.value.Finishing? && !Completed(s.db, x) { FinishWrites(s.db, l.value, x); }
    }
    hide GuardrailInvocation.Next, GuardrailLedger.Next;
  }

  lemma FinishWrites(db: Database, e: GuardrailLedger.Event, x: Id)
    requires e.Finishing? && e.execution == x && Completed(GuardrailLedger.Next(db, e), x) && !Completed(db, x)
    ensures GuardrailLedger.Next(db, e).executions[x].call.value.response == e.response
  {
    hide ObservationUsed, ProviderUsed;
  }

  lemma NextTold(audited: set<Id>, es: seq<GuardrailInvocation.Event>, n: nat)
    requires n < |es| && Told(audited, es, n)
    ensures Told(audited, es, n + 1)
  {
    var s, e := Reached(audited, es, n), es[n];
    assert Reached(audited, es, n + 1) == GuardrailInvocation.Next(audited, s, e);
    hide Reached, GuardrailInvocation.Next, StageTold, WasReplied, Completed;
    var after := GuardrailInvocation.Next(audited, s, e);
    forall x | x in after.flights ensures StageTold(es, n + 1, x, after.flights[x]) { NextStage(audited, es, n, x); }
    forall x | Completed(after.db, x)
      ensures after.db.executions[x].call.value.response.Some?
              && WasReplied(es, n + 1, x, after.db.executions[x].call.value.response.value)
    {
      CompletedIsTold(audited, es, n, x);
    }
  }

  lemma CompletedIsTold(audited: set<Id>, es: seq<GuardrailInvocation.Event>, n: nat, x: Id)
    requires n < |es| && Told(audited, es, n)
    requires Completed(GuardrailInvocation.Next(audited, Reached(audited, es, n), es[n]).db, x)
    ensures var call := GuardrailInvocation.Next(audited, Reached(audited, es, n), es[n]).db.executions[x].call.value;
            call.response.Some? && WasReplied(es, n + 1, x, call.response.value)
  {
    var s := Reached(audited, es, n);
    CompletionIs(audited, s, es[n], x);
    hide Reached, GuardrailInvocation.Next, CheckedAt, RepliedAt;
    if x in s.flights { assert StageTold(es, n, x, s.flights[x]); }
  }

  lemma NothingToTell(audited: set<Id>, es: seq<GuardrailInvocation.Event>)
    ensures Told(audited, es, 0)
  {
  }

  lemma {:induction false} RunIsTold(audited: set<Id>, es: seq<GuardrailInvocation.Event>, n: nat)
    requires n <= |es|
    ensures Told(audited, es, n)
  {
    hide *;
    if n == 0 { NothingToTell(audited, es); } else {
      RunIsTold(audited, es, n - 1);
      NextTold(audited, es, n - 1);
    }
  }

  /** Over every interleaving and on any clock, a complete call was validated against unchanged resources first, then
      answered by the provider with the resources unchanged again, and holds that very answer. */
  lemma CompletedWasChecked(audited: set<Id>, es: seq<GuardrailInvocation.Event>, x: Id)
    requires Completed(Reached(audited, es, |es|).db, x)
    ensures var call := Reached(audited, es, |es|).db.executions[x].call.value;
            && call.response.Some?
            && exists j: nat, k: nat ::
                 j < k < |es| && CheckedAt(es, j, x) && RepliedAt(es, k, x, call.response.value)
  {
    RunIsTold(audited, es, |es|);
    hide Reached, StageTold, CheckedAt, RepliedAt;
  }

  // ---------------------------------------------------------------- the stages, and what an invocation answers

  function Rank(stage: Stage): nat {
    match stage
    case Entered => 0
    case Checked => 1
    case AuditedBefore => 2
    case Sent => 3
    case Answered(_) => 4
    case AuditedAfter(_) => 5
    case Failing => 6
  }

  /** No step takes an invocation back: it stays, goes forward, or ends. */
  lemma StagesAdvance(audited: set<Id>, s: System, x: Id, e: GuardrailInvocation.Event)
    requires x in s.flights
    ensures var after := Stepped(audited, s, x, e).flights;
            x in after ==> after[x] == s.flights[x] || Rank(s.flights[x]) < Rank(after[x])
    ensures forall y :: y in s.flights && y != x ==>
              y in Stepped(audited, s, x, e).flights && Stepped(audited, s, x, e).flights[y] == s.flights[y]
  {
    hide DispatchStep, AuditStep, FinishStep;
  }

  /** The call is under way in this database. */
  ghost predicate CallIs(db: Database, x: Id, status: Status) {
    x in db.executions && db.executions[x].call.Some? && db.executions[x].call.value.status == status
  }

  lemma AuditKeepsCall(db: Database, x: Id, audited: bool, phase: Phase, receipt: Option<Receipt>, now: real)
    requires CallIs(db, x, Pending)
    ensures var step := AuditIf(db, x, audited, phase, receipt, now);
            && CallIs(step.next, x, Pending)
            && (step.answer.Refused? ==> step.next == db)
            && (step.answer.Ok? && audited ==>
                  && receipt.Some? && phase in step.next.executions[x].audits
                  && step.next.executions[x].audits[phase] == receipt.value)
            && (forall p :: p in db.executions[x].audits && p != phase ==>
                  p in step.next.executions[x].audits
                  && step.next.executions[x].audits[p] == db.executions[x].audits[p])
  {
    hide Presentable, Timely;
  }

  lemma DispatchKeepsCall(db: Database, x: Id, now: real)
    requires CallIs(db, x, Pending)
    ensures var step := DispatchStep(db, x, now);
            CallIs(step.next, x, Pending) && step.next.executions[x].audits == db.executions[x].audits
  {
  }

  lemma FinishEndsCall(db: Database, x: Id, response: Option<Response>, observation: Id, now: real)
    requires CallIs(db, x, Pending)
    ensures var step := FinishStep(db, x, response, observation, now);
            && x in step.next.executions && step.next.executions[x].audits == db.executions[x].audits
            && (step.answer.Ok? ==> CallIs(step.next, x, if response.Some? then Complete else Error)
                                    && step.next.executions[x].call.value.response == response)
            && (step.answer.Refused? ==> step.next == db)
  {
    hide ObservationUsed, ProviderUsed;
  }

  /** The audits are those the auditor gave, one for each phase. */
  ghost predicate AuditsAre(e: Execution, before: Option<Receipt>, after: Option<Receipt>) {
    && Before in e.audits && After in e.audits
    && before == Some(e.audits[Before]) && after == Some(e.audits[After])
  }

  lemma AttemptIs(db: Database, x: Id, audited: bool, o: Oracle, observation: Id, t: Stamps)
    requires CallIs(db, x, Pending)
    ensures var (reached, done) := Attempt(db, x, audited, o, observation, t);
            if !done then CallIs(reached, x, Pending)
            else
              && o.valid && o.unchangedBefore && o.unchangedAfter && o.response.Some?
              && CallIs(reached, x, Complete) && reached.executions[x].call.value.response == o.response
              && (audited ==> AuditsAre(reached.executions[x], o.before, o.after))
  {
    hide AuditIf, DispatchStep, FinishStep, CallIs;
    if o.valid && o.unchangedBefore {
      AuditKeepsCall(db, x, audited, Before, o.before, t.before);
      var first := AuditIf(db, x, audited, Before, o.before, t.before);
      DispatchKeepsCall(first.next, x, t.dispatch);
      var sent := DispatchStep(first.next, x, t.dispatch);
      AuditKeepsCall(sent.next, x, audited, After, o.after, t.after);
      var second := AuditIf(sent.next, x, audited, After, o.after, t.after);
      FinishEndsCall(second.next, x, o.response, observation, t.finish);
    }
  }

  /** An undisturbed invocation whose reservation is refused answers that refusal and changes nothing. Otherwise it
      answers exactly when it leaves a complete call, and everything else is one 502: an answer means that the call was
      valid, the resources unchanged both times, and the response and both audits recorded as they were given. */
  lemma InvocationAnswers(db: Database, c: Claim, audited: bool, o: Oracle, observation: Id, t: Stamps)
    ensures var reserved, step := ReserveStep(db, c, t.reserve), InvokeStep(db, c, audited, o, observation, t);
            if reserved.answer.Refused? then step == Step(db, reserved.answer)
            else
              && (step.answer.Ok? <==> CallIs(step.next, c.execution, Complete))
              && (step.answer.Refused? ==> step.answer == Refused(502))
              && (step.answer.Ok? ==>
                    && o.valid && o.unchangedBefore && o.unchangedAfter && o.response.Some?
                    && step.next.executions[c.execution].call.value.response == o.response
                    && (audited ==> AuditsAre(step.next.executions[c.execution], o.before, o.after)))
  {
    var reserved := ReserveStep(db, c, t.reserve);
    if reserved.answer.Ok? {
      assert CallIs(reserved.next, c.execution, Pending);
      AttemptIs(reserved.next, c.execution, audited, o, observation, t);
      var (reached, done) := Attempt(reserved.next, c.execution, audited, o, observation, t);
      if !done {
        FinishEndsCall(reached, c.execution, None, observation, t.giveUp);
      }
    }
    hide Attempt, FinishStep;
  }
}
