/**
 What the tables of the H07 and H08 gateways say of the run that filled them: which request issued, granted, completed,
 failed, expired or closed each capability, and when a request is granted.
 */
module CapabilityStories {
  import opened Results
  import opened CaseCapabilities

  // ---------------------------------------------------------------- one sentence each

  /** Step `a` issued the capability, for the case and role of its token's place. */
  ghost predicate IssuedAt(k: Contract, es: seq<Event>, a: nat, d: Digest, c: Capability) {
    && a < |es| && es[a].Creating? && Shaped(k, es[a].executions, es[a].digests)
    && c.suite == es[a].suite && c.issued == es[a].now && c.expires == c.issued + k.ttl
    && exists at: nat, role: nat ::
         && at < |k.cases| && role < |k.roles| && IsPlace(es[a].digests, |k.roles|, at, role, d)
         && c.execution == es[a].executions[at] && c.caseId == k.cases[at]
         && c.role == k.roles[role] && c.marker == k.markers[role]
  }

  /** The token of a case and role, in the order of cases and roles. */
  ghost predicate IsPlace(digests: seq<Digest>, roles: nat, at: nat, role: nat, d: Digest) {
    at * roles + role < |digests| && digests[at * roles + role] == d
  }

  predicate SuiteOpen(db: Database, suite: string) {
    suite in db.suites && db.suites[suite].closed.None?
  }

  /** Step `r` is a request of the capability's own token, signed for exactly its scope, with its own model, while its
      suite was open. */
  ghost predicate AskedAt(k: Contract, es: seq<Event>, r: nat, d: Digest, c: Capability) {
    && r < |es| && es[r].Reserving? && es[r].token.digest == d && es[r].model == c.marker
    && es[r].token.scope == Some(Scope(c.suite, c.execution, c.caseId, c.role, c.marker, c.expires))
    && SuiteOpen(After(k, EMPTY, es, r), c.suite)
  }

  ghost predicate GrantedAt(k: Contract, es: seq<Event>, r: nat, d: Digest, c: Capability) {
    AskedAt(k, es, r, d, c) && c.reserved == Some(es[r].now) && es[r].now < c.expires
  }

  ghost predicate ExpiredAt(k: Contract, es: seq<Event>, r: nat, d: Digest, c: Capability) {
    AskedAt(k, es, r, d, c) && c.failed == Some(es[r].now) && es[r].now >= c.expires && c.failure == "capability_expired"
  }

  ghost predicate CompletedAt(es: seq<Event>, x: nat, d: Digest, c: Capability) {
    x < |es| && es[x].Completing? && es[x].digest == d && c.completed == Some(es[x].now)
  }

  /** A failure that was reported, or a completion that conflicts with recorded evidence. */
  ghost predicate FailedAt(es: seq<Event>, x: nat, d: Digest, c: Capability) {
    && x < |es| && c.failed == Some(es[x].now)
    && (es[x] == Failing(d, c.failure, es[x].now)
        || (es[x].Completing? && es[x].digest == d && c.failure == "ledger_conflict"))
  }

  ghost predicate ClosedAt(es: seq<Event>, x: nat, c: Capability) {
    x < |es| && (es[x] == ClosingCase(c.suite, c.caseId, es[x].now) || es[x] == ClosingSuite(c.suite, es[x].now))
  }

  // ---------------------------------------------------------------- the whole story of a capability

  ghost predicate WasGranted(k: Contract, es: seq<Event>, n: nat, d: Digest, c: Capability) {
    exists r: nat :: r < n && GrantedAt(k, es, r, d, c)
  }

  ghost predicate Settled(k: Contract, es: seq<Event>, n: nat, d: Digest, c: Capability) {
    match c.status
    case Issued => true
    case Reserved => true
    case Completed => exists x: nat :: x < n && CompletedAt(es, x, d, c)
    case Failed => exists x: nat :: x < n && FailedAt(es, x, d, c)
    case Expired => exists r: nat :: r < n && ExpiredAt(k, es, r, d, c)
    case ClosedUnused => exists x: nat :: x < n && ClosedAt(es, x, c)
  }

  /** A capability was issued by a creation; it was granted exactly if it is reserved, completed or failed, and then
      to its own token before its expiry; and it was settled as its status says. */
  ghost predicate Told(k: Contract, es: seq<Event>, n: nat, d: Digest, c: Capability) {
    && (exists a: nat :: a < n && IssuedAt(k, es, a, d, c))
    && (c.status == Reserved || c.status == Completed || c.status == Failed <==> c.reserved.Some?)
    && (c.reserved.Some? ==> WasGranted(k, es, n, d, c))
    && Settled(k, es, n, d, c)
  }

  ghost predicate AllTold(k: Contract, es: seq<Event>, n: nat)
    requires n <= |es|
  {
    var db := After(k, EMPTY, es, n);
    forall d :: d in db.capabilities ==> Told(k, es, n, d, db.capabilities[d])
  }

  lemma StillTold(k: Contract, es: seq<Event>, n: nat, d: Digest, c: Capability)
    requires Told(k, es, n, d, c)
    ensures Told(k, es, n + 1, d, c)
  {
    hide IssuedAt, GrantedAt, CompletedAt, FailedAt, ExpiredAt, ClosedAt;
  }

  /** What a step may not change of a capability. */
  ghost predicate SameScope(c: Capability, after: Capability) {
    && after.suite == c.suite && after.execution == c.execution && after.caseId == c.caseId && after.role == c.role
    && after.marker == c.marker && after.issued == c.issued && after.expires == c.expires
  }

  lemma IssueCarries(k: Contract, es: seq<Event>, n: nat, d: Digest, c: Capability, after: Capability)
    requires SameScope(c, after) && exists a: nat :: a < n && IssuedAt(k, es, a, d, c)
    ensures exists a: nat :: a < n + 1 && IssuedAt(k, es, a, d, after)
  {
    hide IsPlace, Shaped;
    var a: nat :| a < n && IssuedAt(k, es, a, d, c);
    assert IssuedAt(k, es, a, d, after);
  }

  lemma GrantCarries(k: Contract, es: seq<Event>, n: nat, d: Digest, c: Capability, after: Capability)
    requires SameScope(c, after) && after.reserved == c.reserved && WasGranted(k, es, n, d, c)
    ensures WasGranted(k, es, n + 1, d, after)
  {
    hide After, SuiteOpen;
    var r: nat :| r < n && GrantedAt(k, es, r, d, c);
    assert GrantedAt(k, es, r, d, after);
  }

  // ---------------------------------------------------------------- the steps

  lemma NewIsTold(k: Contract, es: seq<Event>, n: nat, at: nat)
    requires n < |es| && es[n].Creating? && Shaped(k, es[n].executions, es[n].digests) && at < |es[n].digests|
    ensures Told(k, es, n + 1, es[n].digests[at], Row(k, es[n].suite, es[n].executions, es[n].digests, es[n].now, at))
  {
    var c := Row(k, es[n].suite, es[n].executions, es[n].digests, es[n].now, at);
    CaseIndex(at, |k.cases|, |k.roles|);
    var case_, role := at / |k.roles|, at % |k.roles|;
    assert case_ * |k.roles| + role == at;
    assert IsPlace(es[n].digests, |k.roles|, case_, role, es[n].digests[at]);
    assert IssuedAt(k, es, n, es[n].digests[at], c);
  }

  lemma {:induction false} IssuedIsRow(k: Contract, suite: string, executions: seq<string>, digests: seq<Digest>, now: real,
                                       n: nat, d: Digest) returns (at: nat)
    requires Shaped(k, executions, digests) && n <= |digests| && d in IssuedRows(k, suite, executions, digests, now, n)
    ensures at < |digests| && digests[at] == d
    ensures IssuedRows(k, suite, executions, digests, now, n)[d] == Row(k, suite, executions, digests, now, at)
  {
    hide Row, Shaped;
    if d == digests[n - 1] {
      at := n - 1;
    } else {
      at := IssuedIsRow(k, suite, executions, digests, now, n - 1, d);
    }
  }

  lemma CreatingTells(k: Contract, es: seq<Event>, n: nat, d: Digest)
    requires n < |es| && es[n].Creating? && Shaped(k, es[n].executions, es[n].digests)
    requires var db := After(k, EMPTY, es, n); d in db.capabilities ==> Told(k, es, n, d, db.capabilities[d])
    requires d in CreateStep(k, After(k, EMPTY, es, n), es[n].suite, es[n].executions, es[n].digests, es[n].now)
                    .next.capabilities
    ensures Told(k, es, n + 1, d, CreateStep(k, After(k, EMPTY, es, n), es[n].suite, es[n].executions, es[n].digests,
                                             es[n].now).next.capabilities[d])
  {
    hide After, Told, Shaped, Clash, IssuedRows, Row;
    var db, e := After(k, EMPTY, es, n), es[n];
    var rows := IssuedRows(k, e.suite, e.executions, e.digests, e.now, |e.digests|);
    if d in db.capabilities { StillTold(k, es, n, d, db.capabilities[d]); }
    if d in rows {
      var at := IssuedIsRow(k, e.suite, e.executions, e.digests, e.now, |e.digests|, d);
      NewIsTold(k, es, n, at);
    }
  }

  lemma ReservingTells(k: Contract, es: seq<Event>, n: nat, d: Digest)
    requires n < |es| && es[n].Reserving?
    requires var db := After(k, EMPTY, es, n); d in db.capabilities && Told(k, es, n, d, db.capabilities[d])
    ensures var after := ReserveStep(After(k, EMPTY, es, n), es[n].token, es[n].model, es[n].now).next;
            d in after.capabilities && Told(k, es, n + 1, d, after.capabilities[d])
  {
    hide After, IssuedAt, CompletedAt, FailedAt, ClosedAt;
    var db := After(k, EMPTY, es, n);
    var after := ReserveStep(db, es[n].token, es[n].model, es[n].now).next;
    var c, c' := db.capabilities[d], after.capabilities[d];
    if c' == c {
      StillTold(k, es, n, d, c);
    } else {
      IssueCarries(k, es, n, d, c, c');
      assert AskedAt(k, es, n, d, c');
      if c'.status == Reserved {
        assert GrantedAt(k, es, n, d, c');
      } else {
        assert ExpiredAt(k, es, n, d, c');
      }
    }
  }

  lemma FailingTells(k: Contract, es: seq<Event>, n: nat, d: Digest, failure: string)
    requires n < |es|
    requires (es[n].Failing? && es[n].failure == failure) || (es[n].Completing? && failure == "ledger_conflict")
    requires var db := After(k, EMPTY, es, n); d in db.capabilities && Told(k, es, n, d, db.capabilities[d])
    ensures var after := FailStep(After(k, EMPTY, es, n), es[n].digest, failure, es[n].now);
            d in after.capabilities && Told(k, es, n + 1, d, after.capabilities[d])
  {
    hide After, IssuedAt, GrantedAt, CompletedAt, ExpiredAt, ClosedAt, WasGranted;
    var db := After(k, EMPTY, es, n);
    var c, c' := db.capabilities[d], FailStep(db, es[n].digest, failure, es[n].now).capabilities[d];
    if c' == c {
      StillTold(k, es, n, d, c);
    } else {
      IssueCarries(k, es, n, d, c, c');
      GrantCarries(k, es, n, d, c, c');
      assert FailedAt(es, n, d, c');
    }
  }

  lemma CompletingTells(k: Contract, es: seq<Event>, n: nat, d: Digest)
    requires n < |es| && es[n].Completing?
    requires var db := After(k, EMPTY, es, n); d in db.capabilities && Told(k, es, n, d, db.capabilities[d])
    ensures var after := CompleteStep(After(k, EMPTY, es, n), es[n].digest, es[n].provider, es[n].now).next;
            d in after.capabilities && Told(k, es, n + 1, d, after.capabilities[d])
  {
    hide After, IssuedAt, GrantedAt, FailedAt, ExpiredAt, ClosedAt, Recorded, WasGranted, FailStep;
    var db, e := After(k, EMPTY, es, n), es[n];
    var c := db.capabilities[d];
    FailingTells(k, es, n, d, "ledger_conflict");
    StillTold(k, es, n, d, c);
    if e.digest == d && c.status == Reserved && !Recorded(db, e.provider.id, d) {
      var c' := c.(status := Completed, completed := Some(e.now));
      IssueCarries(k, es, n, d, c, c');
      GrantCarries(k, es, n, d, c, c');
      assert CompletedAt(es, n, d, c');
    }
  }

  lemma ClosingTells(k: Contract, es: seq<Event>, n: nat, d: Digest, caseId: Option<string>)
    requires n < |es|
    requires (es[n].ClosingCase? && caseId == Some(es[n].caseId)) || (es[n].ClosingSuite? && caseId == None)
    requires var db := After(k, EMPTY, es, n); d in db.capabilities && Told(k, es, n, d, db.capabilities[d])
    ensures var after := Unused(After(k, EMPTY, es, n), es[n].suite, caseId);
            d in after && Told(k, es, n + 1, d, after[d])
  {
    hide After, IssuedAt, GrantedAt, CompletedAt, FailedAt, ExpiredAt, WasGranted;
    var db := After(k, EMPTY, es, n);
    var c, c' := db.capabilities[d], Unused(db, es[n].suite, caseId)[d];
    if c' == c {
      StillTold(k, es, n, d, c);
    } else {
      IssueCarries(k, es, n, d, c, c');
      assert ClosedAt(es, n, c');
    }
  }

  lemma NextTells(k: Contract, es: seq<Event>, n: nat, d: Digest)
    requires n < |es| && d in Next(k, After(k, EMPTY, es, n), es[n]).capabilities
    requires var db := After(k, EMPTY, es, n); d in db.capabilities ==> Told(k, es, n, d, db.capabilities[d])
    ensures Told(k, es, n + 1, d, Next(k, After(k, EMPTY, es, n), es[n]).capabilities[d])
  {
    var db, e := After(k, EMPTY, es, n), es[n];
    hide After, Told, Position, InFlight, Unused, Recorded, Shaped, CreateStep, InScope;
    if d in db.capabilities { StillTold(k, es, n, d, db.capabilities[d]); }
    match e
    case Creating(_, executions, digests, _) => if Shaped(k, executions, digests) { CreatingTells(k, es, n, d); }
    case Reserving(_, _, _) => ReservingTells(k, es, n, d);
    case Completing(_, _, _) => CompletingTells(k, es, n, d);
    case Failing(_, failure, _) => FailingTells(k, es, n, d, failure);
    case ClosingCase(_, caseId, _) => ClosingTells(k, es, n, d, Some(caseId));
    case ClosingSuite(_, _) => ClosingTells(k, es, n, d, None);
  }

  /** Over every run, each capability tells what happened to it. */
  lemma {:induction false} CapabilitiesTellTheRun(k: Contract, es: seq<Event>, n: nat)
    requires n <= |es|
    ensures AllTold(k, es, n)
  {
    hide Next, Told;
    if n > 0 {
      CapabilitiesTellTheRun(k, es, n - 1);
      var db := After(k, EMPTY, es, n);
      forall d | d in db.capabilities ensures Told(k, es, n, d, db.capabilities[d]) { NextTells(k, es, n - 1, d); }
    }
  }

  // ---------------------------------------------------------------- calls and closures

  /** Step `x` completed the capability with this call. */
  ghost predicate RecordedAt(es: seq<Event>, x: nat, call: Call) {
    x < |es| && es[x] == Completing(call.digest, Provider(call.provider, call.record), call.observed)
  }

  /** A call repeats the scope of its capability and its moment of completion. */
  ghost predicate Repeats(db: Database, call: Call) {
    && call.digest in db.capabilities
    && var c := db.capabilities[call.digest];
       && c.status == Completed && c.completed == Some(call.observed) && c.suite == call.suite
       && c.execution == call.execution && c.caseId == call.caseId && c.role == call.role && c.marker == call.marker
  }

  ghost predicate CallTold(k: Contract, es: seq<Event>, n: nat, call: Call)
    requires n <= |es|
  {
    Repeats(After(k, EMPTY, es, n), call) && exists x: nat :: x < n && RecordedAt(es, x, call)
  }

  lemma NextRepeats(k: Contract, db: Database, e: Event, call: Call)
    requires Repeats(db, call)
    ensures Repeats(Next(k, db, e), call)
  {
    hide Shaped, Recorded, Position, InFlight, InScope, IssuedRows;
  }

  lemma CompletionRepeats(db: Database, digest: Digest, p: Provider, now: real)
    requires CompleteStep(db, digest, p, now).answer.Ok?
    ensures var after := CompleteStep(db, digest, p, now).next;
            && |after.calls| == |db.calls| + 1 && after.calls[..|db.calls|] == db.calls
            && var call := after.calls[|db.calls|];
               && Repeats(after, call)
               && call.digest == digest && call.provider == p.id && call.record == p.record && call.observed == now
  {
    hide Recorded;
  }

  lemma NextCalls(k: Contract, db: Database, e: Event)
    ensures var after := Next(k, db, e);
            after.calls == db.calls || (e.Completing? && CompleteStep(db, e.digest, e.provider, e.now).answer.Ok?)
  {
    hide Shaped, Recorded, Position, InFlight, InScope, IssuedRows, Clash, Unused;
  }

  /** Over every run, each call row was recorded by a completion of its capability, with the provider's request and
      record of that completion, and it repeats the capability's whole scope. */
  lemma {:induction false} CallsTellTheRun(k: Contract, es: seq<Event>, n: nat)
    requires n <= |es|
    ensures forall i :: 0 <= i < |After(k, EMPTY, es, n).calls| ==> CallTold(k, es, n, After(k, EMPTY, es, n).calls[i])
  {
    hide Next, CompleteStep, Repeats;
    if n > 0 {
      CallsTellTheRun(k, es, n - 1);
      var db, e := After(k, EMPTY, es, n - 1), es[n - 1];
      NextCalls(k, db, e);
      if Next(k, db, e).calls != db.calls {
        CompletionRepeats(db, e.digest, e.provider, e.now);
        assert Next(k, db, e) == CompleteStep(db, e.digest, e.provider, e.now).next by { CompletingIs(k, db, e); }
        assert RecordedAt(es, n - 1, Next(k, db, e).calls[|db.calls|]);
      }
      forall i | 0 <= i < |db.calls| ensures CallTold(k, es, n, After(k, EMPTY, es, n).calls[i]) {
        assert CallTold(k, es, n - 1, db.calls[i]);
        NextRepeats(k, db, e, db.calls[i]);
        assert After(k, EMPTY, es, n).calls[i] == db.calls[i];
      }
    }
  }

  lemma CompletingIs(k: Contract, db: Database, e: Event)
    requires e.Completing?
    ensures Next(k, db, e) == CompleteStep(db, e.digest, e.provider, e.now).next
  {
  }

  /** Closing times and creation times are those of the requests that closed and created. */
  ghost predicate TimesTold(k: Contract, es: seq<Event>, n: nat)
    requires n <= |es|
  {
    var db := After(k, EMPTY, es, n);
    && (forall key :: key in db.closures ==>
          exists x: nat :: x < n && es[x] == ClosingCase(key.0, key.1, db.closures[key]))
    && (forall suite :: suite in db.suites ==>
          exists x: nat :: x < n && es[x].Creating? && es[x].suite == suite && es[x].now == db.suites[suite].created)
    && (forall suite :: suite in db.suites && db.suites[suite].closed.Some? ==>
          exists x: nat :: x < n && es[x] == ClosingSuite(suite, db.suites[suite].closed.value))
  }

  lemma {:induction false} ClosuresTellTheRun(k: Contract, es: seq<Event>, n: nat)
    requires n <= |es|
    ensures TimesTold(k, es, n)
  {
    if n > 0 {
      ClosuresTellTheRun(k, es, n - 1);
      NextTimes(k, After(k, EMPTY, es, n - 1), es[n - 1]);
      hide Next;
    }
  }

  lemma NextTimes(k: Contract, db: Database, e: Event)
    ensures forall key :: key in Next(k, db, e).closures ==>
              || (key in db.closures && Next(k, db, e).closures[key] == db.closures[key])
              || e == ClosingCase(key.0, key.1, Next(k, db, e).closures[key])
    ensures forall suite :: suite in Next(k, db, e).suites ==>
              var after := Next(k, db, e).suites[suite];
              || (suite in db.suites && after == db.suites[suite])
              || (suite !in db.suites && e.Creating? && e.suite == suite && after == Suite(e.now, None))
              || (suite in db.suites && e == ClosingSuite(suite, e.now)
                  && after == db.suites[suite].(closed := Some(e.now)))
  {
    hide Shaped, Recorded, Position, InFlight, InScope, IssuedRows, Unused;
  }

  // ---------------------------------------------------------------- when a request is accepted

  /** A request is granted exactly when its token is the capability's own, signed for exactly its scope, its model is
      the role's, the suite is open, and the capability is unused and not yet expired. */
  lemma GrantedIff(k: Contract, db: Database, token: Token, model: string, now: real)
    requires Scoped(k, db)
    ensures ReserveStep(db, token, model, now).answer.Ok?
       <==> && token.digest in db.capabilities
            && var c := db.capabilities[token.digest];
               && token.scope == Some(Scope(c.suite, c.execution, c.caseId, c.role, c.marker, c.expires))
               && model == c.marker && SuiteOpen(db, c.suite) && c.status == Issued && now < c.expires
    ensures ReserveStep(db, token, model, now).answer.Ok? ==>
              Some(ReserveStep(db, token, model, now).answer.value) == token.scope
  {
  }

  /** What a request gets: 401 exactly when it names no capability, 403 exactly when it names one outside its scope or
      too late, and 409 exactly when it names a spent one or a closed suite. A grant reserves the capability, a late
      request expires it, and nothing else changes anything. */
  lemma AnswersAre(db: Database, token: Token, model: string, now: real)
    ensures
      var step := ReserveStep(db, token, model, now);
      var known := token.scope.Some? && token.digest in db.capabilities
                   && db.capabilities[token.digest].suite in db.suites;
      if !known then step.answer == Refused(401) && step.next == db
      else
        var c := db.capabilities[token.digest];
        var inScope := token.scope.value == Scope(c.suite, c.execution, c.caseId, c.role, c.marker, c.expires)
                       && model == c.marker;
        var usable := SuiteOpen(db, c.suite) && c.status == Issued;
        && (!inScope ==> step.answer == Refused(403) && step.next == db)
        && (inScope && !usable ==> step.answer == Refused(409) && step.next == db)
        && (inScope && usable ==>
              && step.answer == (if now < c.expires then Ok(token.scope.value) else Refused(403))
              && step.next.capabilities.Keys == db.capabilities.Keys
              && step.next.capabilities[token.digest].status == (if now < c.expires then Reserved else Expired)
              && forall d :: d in db.capabilities && d != token.digest ==>
                   step.next.capabilities[d] == db.capabilities[d])
  {
  }

  /** A suite is created exactly with a new name, new and different tokens, and different executions;
      anything else gets 409 and changes nothing. */
  lemma CreatedIff(k: Contract, db: Database, suite: string, executions: seq<string>, digests: seq<Digest>, now: real)
    requires Shaped(k, executions, digests)
    ensures var step := CreateStep(k, db, suite, executions, digests, now);
            && (step.answer.Ok? <==> suite !in db.suites && Distinct(digests) && Distinct(executions)
                                     && forall d :: d in digests ==> d !in db.capabilities)
            && (step.answer.Ok? ==> forall d :: d in digests ==> d in step.next.capabilities)
            && (!step.answer.Ok? ==> step == Step(db, Refused(409)))
  {
    hide Shaped, IssuedRows;
    if CreateStep(k, db, suite, executions, digests, now).answer.Ok? {
      forall i | 0 <= i < |digests|
        ensures digests[i] in IssuedRows(k, suite, executions, digests, now, |digests|)
      {
        IssuedRowAt(k, suite, executions, digests, now, |digests|, i);
      }
    }
  }

  /** A completion is accepted exactly for a reserved capability and a provider request that no call has. */
  lemma CompletedIff(db: Database, digest: Digest, p: Provider, now: real)
    requires CallInv(db)
    ensures CompleteStep(db, digest, p, now).answer.Ok?
       <==> && digest in db.capabilities && db.capabilities[digest].status == Reserved
            && forall i :: 0 <= i < |db.calls| ==> db.calls[i].provider != p.id
    ensures var step := CompleteStep(db, digest, p, now);
            !step.answer.Ok? ==> step.answer == Refused(409) && step.next.calls == db.calls
  {
  }

  /** Whatever ends a reserved request, its capability does not stay reserved. */
  lemma EndsReservation(db: Database, digest: Digest, p: Provider, failure: string, now: real)
    requires digest in db.capabilities
    ensures FailStep(db, digest, failure, now).capabilities[digest].status != Reserved
    ensures CompleteStep(db, digest, p, now).next.capabilities[digest].status != Reserved
  {
    hide Recorded;
  }

  ghost predicate Idle(db: Database, suite: string, caseId: Option<string>) {
    forall d :: (d in db.capabilities && db.capabilities[d].suite == suite
                 && (caseId.None? || db.capabilities[d].caseId == caseId.value)) ==>
      db.capabilities[d].status != Reserved
  }

  /** A case closes exactly when its suite is open, every earlier case has closed and none of its requests is under way;
      closing it again returns the recorded time. What is refused changes nothing: 422 names no case of the contract,
      404 no suite, and 409 says that it is too early. */
  lemma CaseClosedIff(k: Contract, db: Database, suite: string, caseId: string, now: real)
    requires ValidContract(k) && Named(k, db)
    ensures var step := CloseCaseStep(k, db, suite, caseId, now);
            && (step.answer.Ok? <==>
                  || (suite, caseId) in db.closures
                  || (&& SuiteOpen(db, suite) && Idle(db, suite, Some(caseId))
                      && exists i :: 0 <= i < |k.cases| && k.cases[i] == caseId
                                     && forall j :: 0 <= j < i ==> (suite, k.cases[j]) in db.closures))
            && (step.answer.Ok? ==> (suite, caseId) in step.next.closures
                                    && step.next.closures[(suite, caseId)] == step.answer.value)
            && (!step.answer.Ok? ==>
                  step == Step(db, Refused(if caseId !in k.cases then 422 else if suite !in db.suites then 404 else 409)))
  {
    hide Unused;
    if caseId in k.cases {
      var position := Position(k, caseId);
      assert forall i :: 0 <= i < |k.cases| && k.cases[i] == caseId ==> i == position;
    }
  }

  lemma SuiteClosedIff(db: Database, suite: string, now: real)
    ensures var step := CloseSuiteStep(db, suite, now);
            && (step.answer.Ok? <==>
                  suite in db.suites && (db.suites[suite].closed.Some? || Idle(db, suite, None)))
            && (step.answer.Ok? ==> suite in step.next.suites && step.next.suites[suite].closed == Some(step.answer.value))
            && (step.answer.Ok? && db.suites[suite].closed.Some? ==> step.next == db)
            && (!step.answer.Ok? ==> step == Step(db, Refused(if suite !in db.suites then 404 else 409)))
  {
    hide Unused;
  }

  ghost predicate InState(db: Database, d: Digest, status: Status) {
    d in db.capabilities && db.capabilities[d].status == status
  }

  /** Requests take effect in a run: a suite comes into being exactly by a creation that may make it. */
  lemma CreatingTakesEffect(k: Contract, db: Database, suite: string, executions: seq<string>, digests: seq<Digest>,
                            now: real)
    ensures suite in Next(k, db, Creating(suite, executions, digests, now)).suites
       <==> || suite in db.suites
            || (&& Shaped(k, executions, digests) && Distinct(digests) && Distinct(executions)
                && forall d :: d in digests ==> d !in db.capabilities)
  {
    if Shaped(k, executions, digests) { CreatedIff(k, db, suite, executions, digests, now); }
    hide Clash, Shaped, IssuedRows, Distinct;
  }

  /** A capability ends, a case closes and a suite closes exactly by the requests that may do so. */
  lemma EndingTakesEffect(k: Contract, db: Database, digest: Digest, p: Provider, failure: string, suite: string,
                          caseId: string, now: real)
    requires ValidContract(k) && Named(k, db) && CallInv(db)
    ensures InState(Next(k, db, Completing(digest, p, now)), digest, Completed)
       <==> || InState(db, digest, Completed)
            || (InState(db, digest, Reserved) && forall i :: 0 <= i < |db.calls| ==> db.calls[i].provider != p.id)
    ensures InState(Next(k, db, Failing(digest, failure, now)), digest, Failed)
       <==> InState(db, digest, Failed) || InState(db, digest, Reserved)
    ensures (suite, caseId) in Next(k, db, ClosingCase(suite, caseId, now)).closures
       <==> || (suite, caseId) in db.closures
            || (&& SuiteOpen(db, suite) && Idle(db, suite, Some(caseId))
                && exists i :: 0 <= i < |k.cases| && k.cases[i] == caseId
                               && forall j :: 0 <= j < i ==> (suite, k.cases[j]) in db.closures)
    ensures suite in db.suites ==>
              var after := Next(k, db, ClosingSuite(suite, now)).suites;
              suite in after && (after[suite].closed.Some? <==> db.suites[suite].closed.Some? || Idle(db, suite, None))
  {
    CompletionTakesEffect(k, db, digest, p, now);
    CaseClosedIff(k, db, suite, caseId, now);
    SuiteClosedIff(db, suite, now);
    hide CompleteStep, CloseCaseStep, CloseSuiteStep, CallInv, Named, ValidContract, Idle, SuiteOpen;
    assert CloseCaseStep(k, db, suite, caseId, now).answer.Ok? ==>
             (suite, caseId) in Next(k, db, ClosingCase(suite, caseId, now)).closures;
  }

  lemma CompletionTakesEffect(k: Contract, db: Database, digest: Digest, p: Provider, now: real)
    requires CallInv(db)
    ensures InState(Next(k, db, Completing(digest, p, now)), digest, Completed)
       <==> || InState(db, digest, Completed)
            || (InState(db, digest, Reserved) && forall i :: 0 <= i < |db.calls| ==> db.calls[i].provider != p.id)
  {
    CompletedIff(db, digest, p, now);
    hide Recorded, CallInv;
  }

  // ---------------------------------------------------------------- what a closed case's ledger returns

  predicate Chosen(k: Contract, call: Call, suite: string, last: nat) {
    call.suite == suite && InPrefix(k, call.caseId, last)
  }

  /** `at` are the places of the calls of the closed prefix, in order and without omission. */
  ghost predicate Selects(k: Contract, calls: seq<Call>, suite: string, last: nat, at: seq<nat>, kept: seq<Call>) {
    && |at| == |kept|
    && (forall i :: 0 <= i < |at| ==> at[i] < |calls| && kept[i] == calls[at[i]] && Chosen(k, kept[i], suite, last))
    && (forall i, j :: 0 <= i < j < |at| ==> at[i] < at[j])
    && (forall n :: 0 <= n < |calls| && Chosen(k, calls[n], suite, last) ==> n in at)
  }

  lemma SelectsMore(k: Contract, calls: seq<Call>, call: Call, suite: string, last: nat, at: seq<nat>, kept: seq<Call>)
    requires Selects(k, calls, suite, last, at, kept)
    ensures if Chosen(k, call, suite, last)
            then Selects(k, calls + [call], suite, last, at + [|calls|], kept + [call])
            else Selects(k, calls + [call], suite, last, at, kept)
  {
    hide Chosen;
    assert (at + [|calls|])[|at|] == |calls|;
    forall n | 0 <= n < |calls| && Chosen(k, calls[n], suite, last) ensures n in at + [|calls|] { assert n in at; }
  }

  lemma {:induction false} CallsOfSelects(k: Contract, calls: seq<Call>, suite: string, last: nat) returns (at: seq<nat>)
    ensures Selects(k, calls, suite, last, at, CallsOf(k, calls, suite, last))
  {
    hide InPrefix, Selects;
    if calls == [] {
      at := [];
      NoneSelected(k, suite, last);
    } else {
      var front, call := calls[..|calls| - 1], calls[|calls| - 1];
      assert calls == front + [call];
      at := CallsOfSelects(k, front, suite, last);
      SelectsMore(k, front, call, suite, last, at, CallsOf(k, front, suite, last));
      at := if Chosen(k, call, suite, last) then at + [|front|] else at;
    }
  }

  lemma NoneSelected(k: Contract, suite: string, last: nat)
    ensures Selects(k, [], suite, last, [], [])
  {
  }

  /** A case has a ledger exactly when it was closed; a name outside the contract gets 422, an open case 409. */
  lemma CaseLedgerIff(k: Contract, db: Database, suite: string, caseId: string)
    requires Named(k, db)
    ensures CaseLedger(k, db, suite, caseId).Ok? <==> (suite, caseId) in db.closures
    ensures !CaseLedger(k, db, suite, caseId).Ok? ==>
              CaseLedger(k, db, suite, caseId) == Refused(if caseId in k.cases then 409 else 422)
  {
  }

  /** The ledger of a closed case holds its closing time, all calls of its suite in the case and the earlier ones, in
      the order they were recorded, and all their capabilities as they are. */
  lemma LedgerHolds(k: Contract, db: Database, suite: string, caseId: string) returns (at: seq<nat>)
    requires CaseLedger(k, db, suite, caseId).Ok?
    ensures (suite, caseId) in db.closures && caseId in k.cases
    ensures var ledger, last := CaseLedger(k, db, suite, caseId).value, Position(k, caseId);
            && ledger.closed == db.closures[(suite, caseId)]
            && Selects(k, db.calls, suite, last, at, ledger.calls)
            && forall d :: && (d in ledger.capabilities <==>
                                 && d in db.capabilities && db.capabilities[d].suite == suite
                                 && InPrefix(k, db.capabilities[d].caseId, last))
                           && (d in ledger.capabilities ==> ledger.capabilities[d] == db.capabilities[d])
  {
    at := CallsOfSelects(k, db.calls, suite, Position(k, caseId));
    hide CallsOf, Selects, InPrefix;
  }
}
