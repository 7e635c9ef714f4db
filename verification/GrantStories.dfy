/**
 What the tables of the P12 grant store say of the run that filled them, and when each request is accepted.
 */
module GrantStories {
  import opened Results
  import opened SuiteGrants

  function Place(role: Role): nat {
    match role case InputRail => 0 case RetrievalRail => 1 case OutputRail => 2 case Main => 3
  }

  // ---------------------------------------------------------------- one sentence each

  /** Step `a` issued the grant, for the execution and role of its token's place and for 180 seconds. */
  ghost predicate IssuedAt(es: seq<Event>, a: nat, d: Digest, g: Grant) {
    && a < |es| && es[a].Issuing? && es[a].suiteId == Some(g.suite) && es[a].ids.Some?
    && |es[a].tokens| == 4 * |es[a].ids.value| && g.issued == es[a].now && g.expires == g.issued + 180.0
    && exists at: nat :: IsPlace(es[a].ids.value, es[a].tokens, at, d, g)
  }

  ghost predicate IsPlace(ids: seq<Id>, tokens: seq<Digest>, at: nat, d: Digest, g: Grant) {
    && at < |ids| && ids[at] == g.execution
    && 4 * at + Place(g.role) < |tokens| && tokens[4 * at + Place(g.role)] == d
  }

  predicate SuiteOpen(db: Database, suite: Id) {
    suite in db.suites && db.suites[suite].closed.None?
  }

  /** Step `r` is a request of the grant's own token for exactly its scope and its model, in time, while the suite was
      open. */
  ghost predicate GrantedAt(es: seq<Event>, r: nat, d: Digest, g: Grant) {
    && r < |es| && es[r].Reserving? && es[r].claimed == Some(d) && g.request == Some(es[r].claim.request)
    && es[r].claim == Claim(g.suite, g.execution, Some(g.role), Marker(g.role), es[r].claim.request)
    && g.reserved == Some(es[r].now) && g.issued <= es[r].now && es[r].now < g.expires
    && SuiteOpen(After(EMPTY, es, r), g.suite)
  }

  ghost predicate CompletedAt(es: seq<Event>, x: nat, d: Digest, g: Grant) {
    && x < |es| && es[x].Completing? && es[x].token == d && es[x].provider.Some? && g.finished == Some(es[x].now)
    && g.evidence == Some(Evidence(es[x].provider.value.id, es[x].provider.value.record))
    && (g.role == Main ==> es[x].provider.value.bound)
  }

  ghost predicate FailedAt(es: seq<Event>, x: nat, d: Digest, g: Grant) {
    x < |es| && es[x] == Failing(d, es[x].now) && g.finished == Some(es[x].now)
  }

  ghost predicate ClosedAt(es: seq<Event>, x: nat, g: Grant) {
    x < |es| && es[x] == Closing(g.suite, es[x].now)
  }

  // ---------------------------------------------------------------- the whole story of a grant

  ghost predicate WasIssued(es: seq<Event>, n: nat, d: Digest, g: Grant) {
    exists a: nat :: a < n && IssuedAt(es, a, d, g)
  }

  ghost predicate WasGranted(es: seq<Event>, n: nat, d: Digest, g: Grant) {
    exists r: nat :: r < n && GrantedAt(es, r, d, g)
  }

  ghost predicate Settled(es: seq<Event>, n: nat, d: Digest, g: Grant) {
    match g.status
    case Issued => true
    case Reserved => true
    case Completed => exists x: nat :: x < n && CompletedAt(es, x, d, g)
    case Error => exists x: nat :: x < n && FailedAt(es, x, d, g)
    case ClosedUnused => exists x: nat :: x < n && ClosedAt(es, x, g)
  }

  /** Which columns are filled, by the status. */
  ghost predicate Filled(g: Grant) {
    && (g.reserved.Some? <==> g.status == Reserved || g.status == Completed || g.status == Error)
    && (g.request.Some? <==> g.reserved.Some?)
    && (g.finished.Some? <==> g.status == Completed || g.status == Error)
    && (g.evidence.Some? <==> g.status == Completed)
  }

  ghost predicate Told(es: seq<Event>, n: nat, d: Digest, g: Grant) {
    WasIssued(es, n, d, g) && Filled(g) && (g.reserved.Some? ==> WasGranted(es, n, d, g)) && Settled(es, n, d, g)
  }

  ghost predicate AllTold(es: seq<Event>, n: nat)
    requires n <= |es|
  {
    forall d :: d in After(EMPTY, es, n).grants ==> Told(es, n, d, After(EMPTY, es, n).grants[d])
  }

  ghost predicate SameScope(g: Grant, after: Grant) {
    && after.suite == g.suite && after.execution == g.execution && after.role == g.role
    && after.issued == g.issued && after.expires == g.expires
  }

  lemma StillTold(es: seq<Event>, n: nat, d: Digest, g: Grant)
    requires Told(es, n, d, g)
    ensures Told(es, n + 1, d, g)
  {
    hide IssuedAt, GrantedAt, CompletedAt, FailedAt, ClosedAt;
  }

  lemma IssueCarries(es: seq<Event>, n: nat, d: Digest, g: Grant, after: Grant)
    requires SameScope(g, after) && WasIssued(es, n, d, g)
    ensures WasIssued(es, n + 1, d, after)
  {
    var a: nat :| a < n && IssuedAt(es, a, d, g);
    var at: nat :| IsPlace(es[a].ids.value, es[a].tokens, at, d, g);
    assert IsPlace(es[a].ids.value, es[a].tokens, at, d, after);
    assert IssuedAt(es, a, d, after);
  }

  lemma GrantCarries(es: seq<Event>, n: nat, d: Digest, g: Grant, after: Grant)
    requires SameScope(g, after) && after.reserved == g.reserved && after.request == g.request && WasGranted(es, n, d, g)
    ensures WasGranted(es, n + 1, d, after)
  {
    hide After, SuiteOpen;
    var r: nat :| r < n && GrantedAt(es, r, d, g);
    assert GrantedAt(es, r, d, after);
  }

  // ---------------------------------------------------------------- the steps

  lemma NewIsTold(es: seq<Event>, n: nat, suite: Id, ids: seq<Id>, at: nat)
    requires n < |es| && es[n].Issuing? && es[n].suiteId == Some(suite) && es[n].ids == Some(ids)
    requires |es[n].tokens| == 4 * |ids| && at < 4 * |ids|
    ensures Told(es, n + 1, es[n].tokens[at], GrantAt(suite, ids, es[n].now, at))
  {
    var g := GrantAt(suite, ids, es[n].now, at);
    assert 4 * (at / 4) + at % 4 == at && Place(g.role) == at % 4;
    assert IsPlace(ids, es[n].tokens, at / 4, es[n].tokens[at], g);
    assert IssuedAt(es, n, es[n].tokens[at], g);
  }

  lemma {:induction false} IssuedIsGrant(suite: Id, ids: seq<Id>, tokens: seq<Digest>, now: real, n: nat, d: Digest)
    returns (at: nat)
    requires n <= |tokens| == 4 * |ids| && d in IssuedRows(suite, ids, tokens, now, n)
    ensures at < |tokens| && tokens[at] == d
    ensures IssuedRows(suite, ids, tokens, now, n)[d] == GrantAt(suite, ids, now, at)
  {
    hide GrantAt;
    if d == tokens[n - 1] { at := n - 1; } else { at := IssuedIsGrant(suite, ids, tokens, now, n - 1, d); }
  }

  lemma IssuingTells(es: seq<Event>, n: nat, d: Digest)
    requires n < |es| && es[n].Issuing? && (es[n].ids.Some? ==> |es[n].tokens| == 4 * |es[n].ids.value|)
    requires var db := After(EMPTY, es, n); d in db.grants ==> Told(es, n, d, db.grants[d])
    requires d in IssueStep(After(EMPTY, es, n), es[n].suiteId, es[n].ids, es[n].tokens, es[n].now).next.grants
    ensures Told(es, n + 1, d, IssueStep(After(EMPTY, es, n), es[n].suiteId, es[n].ids, es[n].tokens, es[n].now)
                                 .next.grants[d])
  {
    hide After, Told, Clash, Repeats, IssuedRows;
    var db, e := After(EMPTY, es, n), es[n];
    if d in db.grants { StillTold(es, n, d, db.grants[d]); }
    if e.suiteId.Some? && e.ids.Some? && d in IssuedRows(e.suiteId.value, e.ids.value, e.tokens, e.now, |e.tokens|) {
      var at := IssuedIsGrant(e.suiteId.value, e.ids.value, e.tokens, e.now, |e.tokens|, d);
      NewIsTold(es, n, e.suiteId.value, e.ids.value, at);
    }
  }

  lemma ReservingTells(es: seq<Event>, n: nat, d: Digest)
    requires n < |es| && es[n].Reserving?
    requires var db := After(EMPTY, es, n); d in db.grants && Told(es, n, d, db.grants[d])
    ensures var after := ReserveStep(After(EMPTY, es, n), es[n].claimed, es[n].claim, es[n].now).next;
            d in after.grants && Told(es, n + 1, d, after.grants[d])
  {
    hide After, IssuedAt, CompletedAt, FailedAt, ClosedAt, WasIssued, Marker;
    var db := After(EMPTY, es, n);
    var g, g' := db.grants[d], ReserveStep(db, es[n].claimed, es[n].claim, es[n].now).next.grants[d];
    StillTold(es, n, d, g);
    if g' != g {
      IssueCarries(es, n, d, g, g');
      assert GrantedAt(es, n, d, g');
    }
  }

  lemma CompletingTells(es: seq<Event>, n: nat, d: Digest)
    requires n < |es| && es[n].Completing?
    requires var db := After(EMPTY, es, n); d in db.grants && Told(es, n, d, db.grants[d])
    ensures var after := CompleteStep(After(EMPTY, es, n), es[n].token, es[n].provider, es[n].now).next;
            d in after.grants && Told(es, n + 1, d, after.grants[d])
  {
    hide After, IssuedAt, GrantedAt, FailedAt, ClosedAt, WasIssued, WasGranted;
    var db := After(EMPTY, es, n);
    var g, g' := db.grants[d], CompleteStep(db, es[n].token, es[n].provider, es[n].now).next.grants[d];
    StillTold(es, n, d, g);
    if g' != g {
      IssueCarries(es, n, d, g, g');
      GrantCarries(es, n, d, g, g');
      assert CompletedAt(es, n, d, g');
    }
  }

  lemma FailingTells(es: seq<Event>, n: nat, d: Digest)
    requires n < |es| && es[n].Failing?
    requires var db := After(EMPTY, es, n); d in db.grants && Told(es, n, d, db.grants[d])
    ensures var after := FailStep(After(EMPTY, es, n), es[n].token, es[n].now).next;
            d in after.grants && Told(es, n + 1, d, after.grants[d])
  {
    hide After, IssuedAt, GrantedAt, CompletedAt, ClosedAt, WasIssued, WasGranted;
    var db := After(EMPTY, es, n);
    var g, g' := db.grants[d], FailStep(db, es[n].token, es[n].now).next.grants[d];
    StillTold(es, n, d, g);
    if g' != g {
      IssueCarries(es, n, d, g, g');
      GrantCarries(es, n, d, g, g');
      assert FailedAt(es, n, d, g');
    }
  }

  lemma ClosingTells(es: seq<Event>, n: nat, d: Digest)
    requires n < |es| && es[n].Closing?
    requires var db := After(EMPTY, es, n); d in db.grants && Told(es, n, d, db.grants[d])
    ensures var after := CloseStep(After(EMPTY, es, n), es[n].suite, es[n].now).next;
            d in after.grants && Told(es, n + 1, d, after.grants[d])
  {
    hide After, IssuedAt, GrantedAt, CompletedAt, FailedAt, WasIssued, WasGranted, Unresolved;
    var db := After(EMPTY, es, n);
    var g, g' := db.grants[d], CloseStep(db, es[n].suite, es[n].now).next.grants[d];
    StillTold(es, n, d, g);
    if g' != g {
      IssueCarries(es, n, d, g, g');
      assert ClosedAt(es, n, g');
    }
  }

  lemma NextTells(es: seq<Event>, n: nat, d: Digest)
    requires n < |es| && d in Next(After(EMPTY, es, n), es[n]).grants
    requires var db := After(EMPTY, es, n); d in db.grants ==> Told(es, n, d, db.grants[d])
    ensures Told(es, n + 1, d, Next(After(EMPTY, es, n), es[n]).grants[d])
  {
    var db, e := After(EMPTY, es, n), es[n];
    hide After, Told, Unresolved, InScope, IssueStep;
    if d in db.grants { StillTold(es, n, d, db.grants[d]); }
    match e
    case Issuing(_, ids, tokens, _) => if ids.Some? ==> |tokens| == 4 * |ids.value| { IssuingTells(es, n, d); }
    case Reserving(_, _, _) => ReservingTells(es, n, d);
    case Completing(_, _, _) => CompletingTells(es, n, d);
    case Failing(_, _) => FailingTells(es, n, d);
    case Closing(_, _) => ClosingTells(es, n, d);
  }

  /** Over every run, each grant tells which execution and role it was issued for; that it was granted, exactly if it is
      reserved, completed or failed, to its own token for its own scope and model within 180 seconds of issue; and how
      it ended, with the provider identity and record of its completion. */
  lemma {:induction false} GrantsTellTheRun(es: seq<Event>, n: nat)
    requires n <= |es|
    ensures AllTold(es, n)
  {
    hide Next, Told;
    if n > 0 {
      GrantsTellTheRun(es, n - 1);
      var db := After(EMPTY, es, n);
      forall d | d in db.grants ensures Told(es, n, d, db.grants[d]) { NextTells(es, n - 1, d); }
    }
  }

  // ---------------------------------------------------------------- when a request is accepted

  /** A suite is issued exactly with a new name, 1 to 32 different executions, and new, different tokens; then each
      token has its grant. */
  lemma IssuedIff(db: Database, suite: Option<Id>, ids: Option<seq<Id>>, tokens: seq<Digest>, now: real)
    requires Scoped(db) && (ids.Some? ==> |tokens| == 4 * |ids.value|)
    ensures var step := IssueStep(db, suite, ids, tokens, now);
            && (step.answer.Ok? <==>
                  && suite.Some? && ids.Some? && 1 <= |ids.value| <= 32 && Distinct(ids.value)
                  && suite.value !in db.suites && Distinct(tokens) && forall d :: d in tokens ==> d !in db.grants)
            && (step.answer.Ok? ==> step.next.suites == db.suites[suite.value := Suite(now, None)]
                                    && forall d :: d in tokens ==> d in step.next.grants)
            && (!step.answer.Ok? ==>
                  step == Step(db, Refused(if && suite.Some? && ids.Some? && 1 <= |ids.value| <= 32
                                              && Distinct(ids.value) then 409 else 422)))
  {
    var step := IssueStep(db, suite, ids, tokens, now);
    if step.answer.Ok? { IssuedRowsAre(db, suite.value, ids.value, tokens, now); }
    hide IssuedRows;
  }

  /** A request is granted exactly to the grant's own token, for its scope and model, unused, in time, in an open
      suite. */
  lemma GrantedIff(db: Database, token: Option<Digest>, claim: Claim, now: real)
    requires Scoped(db)
    ensures ReserveStep(db, token, claim, now).answer.Ok?
       <==> && token.Some? && token.value in db.grants
            && var g := db.grants[token.value];
               && claim.suite == g.suite && claim.execution == g.execution && claim.role == Some(g.role)
               && claim.model == Marker(g.role) && SuiteOpen(db, g.suite) && g.status == Issued
               && g.issued <= now && now < g.expires
  {
    hide Marker;
  }

  /** A refusal changes nothing: 401 means that the token names no grant, 409 that a grant of this scope was used or its
      suite closed, and 403 that the scope is another one or the time is over. */
  lemma RefusalsAre(db: Database, token: Option<Digest>, claim: Claim, now: real)
    requires Scoped(db)
    ensures
      var step := ReserveStep(db, token, claim, now);
      if token.None? || token.value !in db.grants then step == Step(db, Refused(401))
      else
        var g := db.grants[token.value];
        var inScope := claim.suite == g.suite && claim.execution == g.execution && claim.role == Some(g.role)
                       && claim.model == Marker(g.role);
        var usable := SuiteOpen(db, g.suite) && g.status == Issued;
        && (inScope && !usable ==> step == Step(db, Refused(409)))
        && (!inScope || (usable && !(g.issued <= now && now < g.expires)) ==> step == Step(db, Refused(403)))
  {
    hide Marker;
  }

  /** A completion is accepted exactly for a reserved grant and a provider identity that no grant has; a Main completion
      also needs its input evidence. It answers with the recorded evidence. */
  lemma CompletedIff(db: Database, token: Digest, provider: Option<Provider>, now: real)
    requires Paired(db)
    ensures var step := CompleteStep(db, token, provider, now);
            && (step.answer.Ok? <==>
                  && provider.Some? && token in db.grants && db.grants[token].status == Reserved
                  && (db.grants[token].role == Main ==> provider.value.bound)
                  && forall d :: d in db.grants && db.grants[d].status == Completed ==>
                       db.grants[d].evidence.Some? && db.grants[d].evidence.value.provider != provider.value.id)
            && (step.answer.Ok? ==> token in step.next.grants && step.next.grants[token].evidence == Some(step.answer.value))
            && (!step.answer.Ok? ==>
                  step == Step(db, Refused(if provider.None? || (&& token in db.grants
                                                                 && db.grants[token].status == Reserved
                                                                 && db.grants[token].role == Main
                                                                 && !provider.value.bound) then 502 else 409)))
  {
    if provider.Some? && provider.value.id in db.providers {
      assert db.providers[provider.value.id] in db.grants;
    }
    assert forall d :: d in db.grants && db.grants[d].status == Completed ==> SuiteGrants.Recorded(db, d);
    if token in db.providers.Values {
      var id :| id in db.providers && db.providers[id] == token;
    }
  }

  lemma FailedIff(db: Database, token: Digest, now: real)
    ensures FailStep(db, token, now).answer.Ok? <==> token in db.grants && db.grants[token].status == Reserved
    ensures token in db.grants ==> FailStep(db, token, now).next.grants[token].status != Reserved
    ensures !FailStep(db, token, now).answer.Ok? ==> FailStep(db, token, now) == Step(db, Refused(409))
  {
  }

  /** A suite closes exactly when none of its grants is reserved; the first close fixes the time. */
  lemma ClosedIff(db: Database, suite: Id, now: real)
    ensures var step := CloseStep(db, suite, now);
            && (step.answer.Ok? <==>
                  suite in db.suites && forall d :: d in db.grants && db.grants[d].suite == suite ==>
                                            db.grants[d].status != Reserved)
            && (step.answer.Ok? ==>
                  && step.answer.value == (if db.suites[suite].closed.Some? then db.suites[suite].closed.value else now)
                  && step.next.suites == db.suites[suite := Suite(db.suites[suite].created, Some(step.answer.value))]
                  && step.next.providers == db.providers && step.next.grants.Keys == db.grants.Keys)
            && (!step.answer.Ok? ==> step == Step(db, Refused(if suite in db.suites then 409 else 404)))
  {
  }

  ghost predicate InState(db: Database, d: Digest, status: Status) {
    d in db.grants && db.grants[d].status == status
  }

  /** Requests take effect in a run: a suite comes into being, and a grant ends, exactly by the requests that may do so. */
  lemma IssuingTakesEffect(db: Database, suite: Id, ids: seq<Id>, tokens: seq<Digest>, now: real)
    requires Scoped(db)
    ensures suite in Next(db, Issuing(Some(suite), Some(ids), tokens, now)).suites
       <==> || suite in db.suites
            || (&& |tokens| == 4 * |ids| && 1 <= |ids| <= 32 && Distinct(ids)
                && Distinct(tokens) && forall d :: d in tokens ==> d !in db.grants)
  {
    if |tokens| == 4 * |ids| { IssuedIff(db, Some(suite), Some(ids), tokens, now); }
    hide IssueStep, Distinct;
  }

  lemma EndingTakesEffect(db: Database, token: Digest, provider: Option<Provider>, suite: Id, now: real)
    requires Paired(db)
    ensures InState(Next(db, Completing(token, provider, now)), token, Completed)
       <==> || InState(db, token, Completed)
            || (&& provider.Some? && InState(db, token, Reserved) && (db.grants[token].role == Main ==> provider.value.bound)
                && forall d :: InState(db, d, Completed) ==>
                     db.grants[d].evidence.Some? && db.grants[d].evidence.value.provider != provider.value.id)
    ensures InState(Next(db, Failing(token, now)), token, Error)
       <==> InState(db, token, Error) || InState(db, token, Reserved)
    ensures suite in db.suites ==>
              var after := Next(db, Closing(suite, now)).suites;
              suite in after
              && (after[suite].closed.Some?
                  <==> || db.suites[suite].closed.Some?
                       || forall d :: InState(db, d, Reserved) ==> db.grants[d].suite != suite)
  {
    CompletedIff(db, token, provider, now);
    FailedIff(db, token, now);
    ClosedIff(db, suite, now);
    assert CompleteStep(db, token, provider, now).answer.Ok? ==>
             InState(CompleteStep(db, token, provider, now).next, token, Completed);
    hide CompleteStep, CloseStep, Paired;
  }

  /** The ledger of a suite is its row and all its grants. */
  lemma LedgerIs(db: Database, suite: Id)
    ensures Ledger(db, suite).Ok? <==> suite in db.suites
    ensures suite !in db.suites ==> Ledger(db, suite) == Refused(404)
    ensures Ledger(db, suite).Ok? ==>
              var (row, grants) := Ledger(db, suite).value;
              && row == db.suites[suite]
              && forall d :: && (d in grants <==> d in db.grants && db.grants[d].suite == suite)
                             && (d in grants ==> grants[d] == db.grants[d])
  {
  }
}
