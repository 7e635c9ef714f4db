/**
 The P12 grant store: four one-use grants per execution of a suite, provider identities recorded once, and closure
 that freezes the suite's evidence.
 */
module SuiteGrants {
  import opened Results

  /** SHA-256 as a free constructor: a digest names its token. */
  datatype Digest = Sha256(token: string)

  /** A suite, execution or provider request identifier. */
  datatype Id = Id(text: string)

  datatype Role = InputRail | RetrievalRail | OutputRail | Main

  function RoleAt(n: nat): Role
    requires n < 4
  {
    if n == 0 then InputRail else if n == 1 then RetrievalRail else if n == 2 then OutputRail else Main
  }

  function Marker(role: Role): string {
    match role
    case InputRail => "us.amazon.nova-lite-v1:0#p12-input_rail"
    case RetrievalRail => "us.amazon.nova-lite-v1:0#p12-retrieval_rail"
    case OutputRail => "us.amazon.nova-lite-v1:0#p12-output_rail"
    case Main => "us.amazon.nova-lite-v1:0#p12-main"
  }

  datatype Status = Issued | Reserved | Completed | Error | ClosedUnused

  predicate Open(s: Status) { s == Issued || s == Reserved }

  /** What a completed grant records of the provider's answer. */
  datatype Evidence = Evidence(provider: Id, record: string)

  datatype Grant = Grant(
    suite: Id, execution: Id, role: Role, issued: real, expires: real, status: Status,
    reserved: Option<real>, finished: Option<real>, request: Option<string>, evidence: Option<Evidence>)

  datatype Suite = Suite(created: real, closed: Option<real>)

  datatype Database = Database(suites: map<Id, Suite>, grants: map<Digest, Grant>, providers: map<Id, Digest>)

  const EMPTY := Database(map[], map[], map[])

  /** A provider answer that passed the shape checks; `bound` is false when its Main input evidence is malformed. */
  datatype Provider = Provider(id: Id, record: string, bound: bool)

  /** The claimed scope of a request. */
  datatype Claim = Claim(suite: Id, execution: Id, role: Option<Role>, model: string, request: string)

  datatype Step<T> = Step(next: Database, answer: Outcome<T>)

  // ---------------------------------------------------------------- one transaction each

  /** The grant inserted in `n`-th place: the executions in order, the roles in order within each. */
  function GrantAt(suite: Id, ids: seq<Id>, now: real, n: nat): Grant
    requires n < 4 * |ids|
  {
    Grant(suite, ids[n / 4], RoleAt(n % 4), now, now + 180.0, Issued, None, None, None, None)
  }

  function IssuedRows(suite: Id, ids: seq<Id>, tokens: seq<Digest>, now: real, n: nat): (rows: map<Digest, Grant>)
    requires n <= |tokens| == 4 * |ids|
    ensures forall d :: d in rows ==> d in tokens && rows[d].suite == suite && rows[d].status == Issued
                                      && rows[d].evidence.None? && rows[d].execution in ids
  {
    if n == 0 then map[]
    else IssuedRows(suite, ids, tokens, now, n - 1)[tokens[n - 1] := GrantAt(suite, ids, now, n - 1)]
  }

  /** The row for an execution's role follows the rows before it. */
  lemma NextRow(suite: Id, ids: seq<Id>, tokens: seq<Digest>, now: real, i: nat, role: nat)
    requires |tokens| == 4 * |ids| && i < |ids| && role < 4
    ensures IssuedRows(suite, ids, tokens, now, 4 * i + role + 1)
         == IssuedRows(suite, ids, tokens, now, 4 * i + role)
              [tokens[4 * i + role] := Grant(suite, ids[i], RoleAt(role), now, now + 180.0, Issued, None, None, None, None)]
  {
    assert (4 * i + role) / 4 == i && (4 * i + role) % 4 == role;
  }

  /** The key columns refuse an insertion: `suite_id`, `token_digest`, or suite, execution and role. */
  predicate Clash(db: Database, suite: Id, ids: seq<Id>, tokens: seq<Digest>) {
    || suite in db.suites
    || (exists i :: 0 <= i < |tokens| && tokens[i] in db.grants)
    || (exists i, j :: 0 <= i < j < |tokens| && tokens[i] == tokens[j])
    || (exists d :: d in db.grants && db.grants[d].suite == suite && db.grants[d].execution in ids)
  }

  predicate Repeats(ids: seq<Id>) {
    exists i, j :: 0 <= i < j < |ids| && ids[i] == ids[j]
  }

  /** `issue`; `None` stands for identifiers that do not parse, `tokens` are the fresh tokens' digests. */
  function IssueStep(db: Database, suite: Option<Id>, ids: Option<seq<Id>>, tokens: seq<Digest>, now: real): Step<()>
    requires ids.Some? ==> |tokens| == 4 * |ids.value|
  {
    if suite.None? || ids.None? then Step(db, Refused(422))
    else if !(1 <= |ids.value| <= 32) || Repeats(ids.value) then Step(db, Refused(422))
    else if Clash(db, suite.value, ids.value, tokens) then Step(db, Refused(409))
    else Step(db.(suites := db.suites[suite.value := Suite(now, None)],
                  grants := db.grants + IssuedRows(suite.value, ids.value, tokens, now, |tokens|)), Ok(()))
  }

  predicate InScope(g: Grant, c: Claim) {
    c.suite == g.suite && c.execution == g.execution && c.role == Some(g.role) && c.model == Marker(g.role)
  }

  /** `reserve`; `token` is `None` when the token or the request digest is malformed. */
  function ReserveStep(db: Database, token: Option<Digest>, claim: Claim, now: real): Step<()> {
    if token.None? then Step(db, Refused(401))
    else if token.value !in db.grants || db.grants[token.value].suite !in db.suites then Step(db, Refused(401))
    else
      var g := db.grants[token.value];
      if !InScope(g, claim) then Step(db, Refused(403))
      else if db.suites[g.suite].closed.Some? || g.status != Issued then Step(db, Refused(409))
      else if !(g.issued <= now < g.expires) then Step(db, Refused(403))
      else Step(db.(grants := db.grants[token.value :=
                      g.(status := Reserved, reserved := Some(now), request := Some(claim.request))]), Ok(()))
  }

  /** `complete`; `provider` is `None` when the provider's answer is malformed. */
  function CompleteStep(db: Database, token: Digest, provider: Option<Provider>, now: real): Step<Evidence> {
    if provider.None? then Step(db, Refused(502))
    else if token !in db.grants || db.grants[token].status != Reserved then Step(db, Refused(409))
    else if db.grants[token].role == Main && !provider.value.bound then Step(db, Refused(502))
    else if provider.value.id in db.providers || token in db.providers.Values then Step(db, Refused(409))
    else
      var evidence := Evidence(provider.value.id, provider.value.record);
      Step(db.(providers := db.providers[provider.value.id := token],
               grants := db.grants[token :=
                 db.grants[token].(status := Completed, finished := Some(now), evidence := Some(evidence))]),
           Ok(evidence))
  }

  function FailStep(db: Database, token: Digest, now: real): Step<()> {
    if token !in db.grants || db.grants[token].status != Reserved then Step(db, Refused(409))
    else Step(db.(grants := db.grants[token := db.grants[token].(status := Error, finished := Some(now))]), Ok(()))
  }

  predicate Unresolved(db: Database, suite: Id) {
    exists d :: d in db.grants && db.grants[d].suite == suite && db.grants[d].status == Reserved
  }

  /** `UPDATE p12_grants SET state='closed_unused' WHERE suite_id=? AND state='issued'` */
  function Unused(grants: map<Digest, Grant>, suite: Id): map<Digest, Grant> {
    map d | d in grants ::
      if grants[d].suite == suite && grants[d].status == Issued then grants[d].(status := ClosedUnused) else grants[d]
  }

  function CloseStep(db: Database, suite: Id, now: real): Step<real> {
    if suite !in db.suites then Step(db, Refused(404))
    else if Unresolved(db, suite) then Step(db, Refused(409))
    else
      var closed := if db.suites[suite].closed.Some? then db.suites[suite].closed.value else now;
      Step(db.(suites := db.suites[suite := db.suites[suite].(closed := Some(closed))],
               grants := Unused(db.grants, suite)), Ok(closed))
  }

  // ---------------------------------------------------------------- the store

  class CapabilityStore {
    var suites: map<Id, Suite>
    var grants: map<Digest, Grant>
    var providers: map<Id, Digest>

    function State(): Database reads this { Database(suites, grants, providers) }

    constructor ()
      ensures State() == EMPTY
    {
      suites, grants, providers := map[], map[], map[];
    }

    method Issue(suite: Option<Id>, ids: Option<seq<Id>>, tokens: seq<Digest>, now: real) returns (r: Outcome<()>)
      requires ids.Some? ==> |tokens| == 4 * |ids.value|
      modifies this
      ensures Step(State(), r) == IssueStep(old(State()), suite, ids, tokens, now)
    {
      hide IssuedRows, Clash, Repeats;
      if suite.None? || ids.None? { return Refused(422); }
      if !(1 <= |ids.value| <= 32) || Repeats(ids.value) { return Refused(422); }
      var rows := BuildRows(suite.value, ids.value, tokens, now);
      if Clash(State(), suite.value, ids.value, tokens) { return Refused(409); }
      suites := suites[suite.value := Suite(now, None)];
      grants := grants + rows;
      r := Ok(());
    }

    static method BuildRows(suite: Id, ids: seq<Id>, tokens: seq<Digest>, now: real) returns (rows: map<Digest, Grant>)
      requires |tokens| == 4 * |ids|
      ensures rows == IssuedRows(suite, ids, tokens, now, |tokens|)
    {
      rows := map[];
      assert rows == IssuedRows(suite, ids, tokens, now, 0);
      hide IssuedRows, RoleAt;
      var i := 0;
      while i < |ids|
        invariant 0 <= i <= |ids|
        invariant rows == IssuedRows(suite, ids, tokens, now, 4 * i)
      {
        var role := 0;
        while role < 4
          invariant 0 <= role <= 4
          invariant rows == IssuedRows(suite, ids, tokens, now, 4 * i + role)
        {
          NextRow(suite, ids, tokens, now, i, role);
          rows := rows[tokens[4 * i + role] :=
            Grant(suite, ids[i], RoleAt(role), now, now + 180.0, Issued, None, None, None, None)];
          role := role + 1;
        }
        i := i + 1;
      }
    }

    method Reserve(token: Option<Digest>, claim: Claim, now: real) returns (r: Outcome<()>)
      modifies this
      ensures Step(State(), r) == ReserveStep(old(State()), token, claim, now)
    {
      if token.None? { return Refused(401); }
      if token.value !in grants || grants[token.value].suite !in suites { return Refused(401); }
      var g := grants[token.value];
      if !InScope(g, claim) { return Refused(403); }
      if suites[g.suite].closed.Some? || g.status != Issued { return Refused(409); }
      if !(g.issued <= now < g.expires) { return Refused(403); }
      grants := grants[token.value := g.(status := Reserved, reserved := Some(now), request := Some(claim.request))];
      r := Ok(());
    }

    method Complete(token: Digest, provider: Option<Provider>, now: real) returns (r: Outcome<Evidence>)
      modifies this
      ensures Step(State(), r) == CompleteStep(old(State()), token, provider, now)
    {
      if provider.None? { return Refused(502); }
      if token !in grants || grants[token].status != Reserved { return Refused(409); }
      var evidence := Evidence(provider.value.id, provider.value.record);
      if grants[token].role == Main && !provider.value.bound { return Refused(502); }
      if provider.value.id in providers || token in providers.Values { return Refused(409); }
      providers := providers[provider.value.id := token];
      grants := grants[token := grants[token].(status := Completed, finished := Some(now), evidence := Some(evidence))];
      r := Ok(evidence);
    }

    method Fail(token: Digest, now: real) returns (r: Outcome<()>)
      modifies this
      ensures Step(State(), r) == FailStep(old(State()), token, now)
    {
      if token !in grants || grants[token].status != Reserved { return Refused(409); }
      grants := grants[token := grants[token].(status := Error, finished := Some(now))];
      r := Ok(());
    }

    method Close(suite: Id, now: real) returns (r: Outcome<real>)
      modifies this
      ensures Step(State(), r) == CloseStep(old(State()), suite, now)
    {
      if suite !in suites { return Refused(404); }
      if Unresolved(State(), suite) { return Refused(409); }
      var closed := if suites[suite].closed.Some? then suites[suite].closed.value else now;
      suites := suites[suite := suites[suite].(closed := Some(closed))];
      grants := Unused(grants, suite);
      r := Ok(closed);
    }
  }

  // ---------------------------------------------------------------- runs

  datatype Event =
    | Issuing(suiteId: Option<Id>, ids: Option<seq<Id>>, tokens: seq<Digest>, now: real)
    | Reserving(claimed: Option<Digest>, claim: Claim, now: real)
    | Completing(token: Digest, provider: Option<Provider>, now: real)
    | Failing(token: Digest, now: real)
    | Closing(suite: Id, now: real)

  function Next(db: Database, e: Event): Database {
    match e
    case Issuing(suite, ids, tokens, now) =>
      if ids.Some? ==> |tokens| == 4 * |ids.value| then IssueStep(db, suite, ids, tokens, now).next else db
    case Reserving(token, claim, now) => ReserveStep(db, token, claim, now).next
    case Completing(token, provider, now) => CompleteStep(db, token, provider, now).next
    case Failing(token, now) => FailStep(db, token, now).next
    case Closing(suite, now) => CloseStep(db, suite, now).next
  }

  function After(db: Database, es: seq<Event>, n: nat): Database
    requires n <= |es|
  {
    if n == 0 then db else Next(After(db, es, n - 1), es[n - 1])
  }

  // ---------------------------------------------------------------- what every step keeps

  ghost predicate Scoped(db: Database) {
    forall d :: d in db.grants ==> db.grants[d].suite in db.suites
  }

  /** Provider identities and completed grants name each other. */
  ghost predicate Paired(db: Database) {
    && (forall id :: id in db.providers ==>
          db.providers[id] in db.grants && db.grants[db.providers[id]].status == Completed)
    && (forall id :: id in db.providers ==>
          db.grants[db.providers[id]].evidence.Some? && db.grants[db.providers[id]].evidence.value.provider == id)
    && (forall d :: d in db.grants && db.grants[d].status == Completed ==> Recorded(db, d))
  }

  ghost predicate Recorded(db: Database, d: Digest)
    requires d in db.grants
  {
    && db.grants[d].evidence.Some?
    && db.grants[d].evidence.value.provider in db.providers
    && db.providers[db.grants[d].evidence.value.provider] == d
  }

  ghost predicate Sealed(db: Database) {
    forall d :: (d in db.grants && db.grants[d].suite in db.suites && db.suites[db.grants[d].suite].closed.Some?) ==>
                !Open(db.grants[d].status)
  }

  ghost predicate Inv(db: Database) {
    Scoped(db) && Paired(db) && Sealed(db)
  }

  /** What a step may do: settle open grants, and add grants to a suite that is new. */
  ghost predicate Evolves(db: Database, after: Database) {
    && (forall d :: d in db.grants ==> d in after.grants && Settles(db.grants[d], after.grants[d]))
    && (forall d :: d in after.grants && d !in db.grants ==> after.grants[d].suite !in db.suites)
    && (forall s :: s in db.suites ==>
          s in after.suites && (db.suites[s].closed.Some? ==> after.suites[s] == db.suites[s]))
  }

  predicate Settles(g: Grant, h: Grant) {
    && h.suite == g.suite && h.execution == g.execution && h.role == g.role
    && (h == g || Open(g.status))
    && (h.status == Issued ==> g.status == Issued)
  }

  lemma SettleOne(db: Database, d: Digest, g: Grant)
    requires Scoped(db) && Sealed(db) && d in db.grants && Settles(db.grants[d], g)
    ensures var after := db.(grants := db.grants[d := g]); Scoped(after) && Sealed(after) && Evolves(db, after)
  {
  }

  lemma SettleKeepsPairs(db: Database, d: Digest, g: Grant)
    requires Paired(db) && d in db.grants && Open(db.grants[d].status) && g.status != Completed
    ensures Paired(db.(grants := db.grants[d := g]))
  {
    var after := db.(grants := db.grants[d := g]);
    forall x | x in after.grants && after.grants[x].status == Completed ensures Recorded(after, x) {
      assert Recorded(db, x);
    }
  }

  lemma ReserveKeepsInv(db: Database, token: Option<Digest>, claim: Claim, now: real)
    requires Inv(db)
    ensures var after := ReserveStep(db, token, claim, now).next; Inv(after) && Evolves(db, after)
  {
    hide InScope, Paired, Scoped, Sealed;
    var after := ReserveStep(db, token, claim, now).next;
    if after != db {
      SettleOne(db, token.value, after.grants[token.value]);
      SettleKeepsPairs(db, token.value, after.grants[token.value]);
    }
  }

  lemma FailKeepsInv(db: Database, token: Digest, now: real)
    requires Inv(db)
    ensures var after := FailStep(db, token, now).next; Inv(after) && Evolves(db, after)
  {
    hide Paired, Scoped, Sealed;
    var after := FailStep(db, token, now).next;
    if after != db {
      SettleOne(db, token, after.grants[token]);
      SettleKeepsPairs(db, token, after.grants[token]);
    }
  }

  lemma CompleteKeepsPairs(db: Database, token: Digest, provider: Option<Provider>, now: real)
    requires Paired(db)
    ensures Paired(CompleteStep(db, token, provider, now).next)
  {
    var after := CompleteStep(db, token, provider, now).next;
    forall d | d in after.grants && after.grants[d].status == Completed ensures Recorded(after, d) {
      if d != token || after == db { assert Recorded(db, d); }
    }
  }

  lemma CompleteKeepsInv(db: Database, token: Digest, provider: Option<Provider>, now: real)
    requires Inv(db)
    ensures var after := CompleteStep(db, token, provider, now).next; Inv(after) && Evolves(db, after)
  {
    CompleteKeepsPairs(db, token, provider, now);
    hide Paired, Scoped, Sealed;
    var after := CompleteStep(db, token, provider, now).next;
    if after != db { SettleOne(db, token, after.grants[token]); }
  }

  /** `Paired` does not depend on grants that are not completed. */
  lemma PairsKept(db: Database, after: Database)
    requires Paired(db) && after.providers == db.providers
    requires forall d :: d in db.grants && db.grants[d].status == Completed ==>
               d in after.grants && after.grants[d] == db.grants[d]
    requires forall d :: d in after.grants && after.grants[d].status == Completed ==>
               d in db.grants && db.grants[d].status == Completed
    ensures Paired(after)
  {
    forall d | d in after.grants && after.grants[d].status == Completed ensures Recorded(after, d) {
      assert Recorded(db, d);
    }
  }

  lemma CloseKeepsInv(db: Database, suite: Id, now: real)
    requires Inv(db)
    ensures var after := CloseStep(db, suite, now).next; Inv(after) && Evolves(db, after)
  {
    var after := CloseStep(db, suite, now).next;
    assert Paired(after) by { hide Scoped, Sealed, Paired, Unresolved; PairsKept(db, after); }
    hide Paired;
  }

  /** Grants were added for a suite that is new, and nothing else changed. */
  ghost predicate Adds(db: Database, after: Database, suite: Id, now: real) {
    && after.providers == db.providers && suite !in db.suites
    && after.suites == db.suites[suite := Suite(now, None)]
    && (forall d :: d in db.grants ==> d in after.grants && after.grants[d] == db.grants[d])
    && (forall d :: d in after.grants && d !in db.grants ==>
          after.grants[d].suite == suite && after.grants[d].status == Issued)
  }

  lemma IssueAdds(db: Database, suite: Id, ids: seq<Id>, tokens: seq<Digest>, now: real)
    requires |tokens| == 4 * |ids| && IssueStep(db, Some(suite), Some(ids), tokens, now).answer.Ok?
    ensures Adds(db, IssueStep(db, Some(suite), Some(ids), tokens, now).next, suite, now)
  {
    hide IssuedRows, Repeats;
    assert forall d :: d in tokens ==> d !in db.grants;
    hide Clash;
  }

  lemma AddsKeepsSeals(db: Database, after: Database, suite: Id, now: real)
    requires Scoped(db) && Sealed(db) && Adds(db, after, suite, now)
    ensures Scoped(after) && Sealed(after) && Evolves(db, after)
  {
  }

  lemma AddsKeepsPairs(db: Database, after: Database, suite: Id, now: real)
    requires Paired(db) && Adds(db, after, suite, now)
    ensures Paired(after)
  {
    hide Paired;
    PairsKept(db, after);
  }

  lemma IssueKeepsInv(db: Database, suite: Option<Id>, ids: Option<seq<Id>>, tokens: seq<Digest>, now: real)
    requires Inv(db) && (ids.Some? ==> |tokens| == 4 * |ids.value|)
    ensures var after := IssueStep(db, suite, ids, tokens, now).next; Inv(after) && Evolves(db, after)
  {
    var step := IssueStep(db, suite, ids, tokens, now);
    assert step.answer.Refused? ==> step.next == db;
    assert step.answer.Ok? ==> suite.Some? && ids.Some?;
    assert Evolves(db, db);
    hide IssueStep, Paired, Scoped, Sealed, Evolves, Adds;
    if step.answer.Ok? {
      IssueAdds(db, suite.value, ids.value, tokens, now);
      AddsKeepsSeals(db, step.next, suite.value, now);
      AddsKeepsPairs(db, step.next, suite.value, now);
    }
  }

  lemma NextKeepsInv(db: Database, e: Event)
    requires Inv(db)
    ensures Inv(Next(db, e)) && Evolves(db, Next(db, e))
  {
    assert Evolves(db, db);
    hide Evolves, Inv, IssueStep, ReserveStep, CompleteStep, FailStep, CloseStep;
    match e
    case Issuing(suite, ids, tokens, now) =>
      if ids.Some? ==> |tokens| == 4 * |ids.value| { IssueKeepsInv(db, suite, ids, tokens, now); }
    case Reserving(token, claim, now) => ReserveKeepsInv(db, token, claim, now);
    case Completing(token, provider, now) => CompleteKeepsInv(db, token, provider, now);
    case Failing(token, now) => FailKeepsInv(db, token, now);
    case Closing(suite, now) => CloseKeepsInv(db, suite, now);
  }

  lemma {:induction false} RunKeepsInv(db: Database, es: seq<Event>, n: nat)
    requires Inv(db) && n <= |es|
    ensures Inv(After(db, es, n))
  {
    hide Next, Inv, Evolves;
    if n > 0 {
      RunKeepsInv(db, es, n - 1);
      NextKeepsInv(After(db, es, n - 1), es[n - 1]);
    }
  }

  lemma ReachableInv(es: seq<Event>)
    ensures Inv(After(EMPTY, es, |es|))
  {
    RunKeepsInv(EMPTY, es, |es|);
  }

  // ---------------------------------------------------------------- main results

  /** Provider identities and completed grants are in bijection in every reachable state. */
  lemma ProvidersMatchCompletedGrants(es: seq<Event>)
    ensures var db := After(EMPTY, es, |es|);
            && (forall id :: id in db.providers ==>
                  db.providers[id] in db.grants && db.grants[db.providers[id]].status == Completed)
            && (forall d :: d in db.grants && db.grants[d].status == Completed ==>
                  exists id :: id in db.providers && db.providers[id] == d)
            && (forall id, other :: id in db.providers && other in db.providers && db.providers[id] == db.providers[other]
                  ==> id == other)
  {
    ReachableInv(es);
    hide After;
    var db := After(EMPTY, es, |es|);
    forall d | d in db.grants && db.grants[d].status == Completed
      ensures exists id :: id in db.providers && db.providers[id] == d
    {
      assert Recorded(db, d);
      assert db.grants[d].evidence.value.provider in db.providers;
    }
  }

  function TokensOf(db: Database, suite: Id): set<Digest> {
    set d | d in db.grants && db.grants[d].suite == suite
  }

  /** Which execution and role a token was issued for. */
  function ScopeOf(db: Database, d: Digest): (Id, Role)
    requires d in db.grants
  {
    (db.grants[d].execution, db.grants[d].role)
  }

  lemma {:induction false} IssuedRowAt(suite: Id, ids: seq<Id>, tokens: seq<Digest>, now: real, n: nat, i: nat)
    requires i < n <= |tokens| == 4 * |ids| && Distinct(tokens)
    ensures var rows := IssuedRows(suite, ids, tokens, now, n);
            tokens[i] in rows && rows[tokens[i]] == GrantAt(suite, ids, now, i)
  {
    hide GrantAt;
    if i < n - 1 { IssuedRowAt(suite, ids, tokens, now, n - 1, i); }
  }

  /** What an accepted issue inserts: exactly its tokens, one for each place. */
  lemma IssuedRowsAre(db: Database, suite: Id, ids: seq<Id>, tokens: seq<Digest>, now: real)
    requires |tokens| == 4 * |ids| && Scoped(db) && IssueStep(db, Some(suite), Some(ids), tokens, now).answer.Ok?
    ensures var after := IssueStep(db, Some(suite), Some(ids), tokens, now).next;
            && Distinct(tokens) && Distinct(ids)
            && TokensOf(after, suite) == Elements(tokens)
            && forall i :: 0 <= i < |tokens| ==>
                 tokens[i] in after.grants && after.grants[tokens[i]] == GrantAt(suite, ids, now, i)
  {
    hide IssuedRows, GrantAt;
    forall i | 0 <= i < |tokens|
      ensures tokens[i] in IssuedRows(suite, ids, tokens, now, |tokens|)
              && IssuedRows(suite, ids, tokens, now, |tokens|)[tokens[i]] == GrantAt(suite, ids, now, i)
    {
      IssuedRowAt(suite, ids, tokens, now, |tokens|, i);
    }
    assert forall d :: d in tokens ==> d in IssuedRows(suite, ids, tokens, now, |tokens|);
  }

  function Elements(tokens: seq<Digest>): set<Digest> {
    set d | d in tokens
  }

  lemma {:induction false} DistinctCount(tokens: seq<Digest>)
    requires Distinct(tokens)
    ensures |Elements(tokens)| == |tokens|
  {
    if tokens != [] {
      var rest, last := tokens[..|tokens| - 1], tokens[|tokens| - 1];
      DistinctCount(rest);
      assert Elements(tokens) == Elements(rest) + {last};
    }
  }

  /** No step changes which tokens a suite has, nor what each is for. */
  lemma NextKeepsTokens(db: Database, e: Event, suite: Id)
    requires Inv(db) && suite in db.suites
    ensures TokensOf(Next(db, e), suite) == TokensOf(db, suite) && suite in Next(db, e).suites
    ensures forall d :: d in TokensOf(db, suite) ==> ScopeOf(Next(db, e), d) == ScopeOf(db, d)
  {
    NextKeepsInv(db, e);
    hide Next;
  }

  lemma {:induction false} TokensStay(db: Database, es: seq<Event>, n: nat, suite: Id)
    requires Inv(db) && suite in db.suites && n <= |es|
    ensures TokensOf(After(db, es, n), suite) == TokensOf(db, suite) && suite in After(db, es, n).suites
    ensures forall d :: d in TokensOf(db, suite) ==> ScopeOf(After(db, es, n), d) == ScopeOf(db, d)
  {
    hide Next, Inv;
    if n > 0 {
      TokensStay(db, es, n - 1, suite);
      RunKeepsInv(db, es, n - 1);
      NextKeepsTokens(After(db, es, n - 1), es[n - 1], suite);
    }
  }

  /** One grant for each execution and role, four for each execution. */
  ghost predicate FourEach(db: Database, suite: Id, ids: seq<Id>) {
    && |TokensOf(db, suite)| == 4 * |ids|
    && (forall d :: d in TokensOf(db, suite) ==> ScopeOf(db, d).0 in ids)
    && (forall d, e :: d in TokensOf(db, suite) && e in TokensOf(db, suite) && ScopeOf(db, d) == ScopeOf(db, e) ==> d == e)
  }

  lemma IssueGivesFourEach(db: Database, suite: Id, ids: seq<Id>, tokens: seq<Digest>, now: real)
    requires |tokens| == 4 * |ids| && Scoped(db) && IssueStep(db, Some(suite), Some(ids), tokens, now).answer.Ok?
    ensures FourEach(IssueStep(db, Some(suite), Some(ids), tokens, now).next, suite, ids)
  {
    var after := IssueStep(db, Some(suite), Some(ids), tokens, now).next;
    IssuedRowsAre(db, suite, ids, tokens, now);
    DistinctCount(tokens);
    hide IssueStep, Scoped;
    forall d, e | d in TokensOf(after, suite) && e in TokensOf(after, suite) && ScopeOf(after, d) == ScopeOf(after, e)
      ensures d == e
    {
      var i :| 0 <= i < |tokens| && tokens[i] == d;
      var j :| 0 <= j < |tokens| && tokens[j] == e;
      SameScopeSamePlace(suite, ids, now, i, j);
    }
  }

  /** Conservation: a suite issued for n executions has exactly 4n grants for ever, and exactly one of them is for
      any given execution of the suite and role. */
  lemma FourGrantsPerExecution(before: seq<Event>, suite: Id, ids: seq<Id>, tokens: seq<Digest>, now: real, more: seq<Event>)
    requires |tokens| == 4 * |ids|
    ensures var step := IssueStep(After(EMPTY, before, |before|), Some(suite), Some(ids), tokens, now);
            step.answer.Ok? ==> FourEach(After(step.next, more, |more|), suite, ids)
  {
    ReachableInv(before);
    var start := After(EMPTY, before, |before|);
    var step := IssueStep(start, Some(suite), Some(ids), tokens, now);
    if step.answer.Ok? {
      IssueKeepsInv(start, Some(suite), Some(ids), tokens, now);
      IssueGivesFourEach(start, suite, ids, tokens, now);
      assert suite in step.next.suites;
      hide After, IssueStep, Inv, Evolves, TokensOf, ScopeOf;
      TokensStay(step.next, more, |more|, suite);
      SameTokensFourEach(step.next, After(step.next, more, |more|), suite, ids);
    }
  }

  lemma SameTokensFourEach(db: Database, after: Database, suite: Id, ids: seq<Id>)
    requires FourEach(db, suite, ids) && TokensOf(after, suite) == TokensOf(db, suite)
    requires forall d :: d in TokensOf(db, suite) ==> ScopeOf(after, d) == ScopeOf(db, d)
    ensures FourEach(after, suite, ids)
  {
    hide ScopeOf;
  }

  lemma SameScopeSamePlace(suite: Id, ids: seq<Id>, now: real, i: nat, j: nat)
    requires i < 4 * |ids| && j < 4 * |ids| && Distinct(ids)
    requires GrantAt(suite, ids, now, i).execution == GrantAt(suite, ids, now, j).execution
    requires GrantAt(suite, ids, now, i).role == GrantAt(suite, ids, now, j).role
    ensures i == j
  {
    assert i / 4 == j / 4;
    assert i % 4 == j % 4;
  }

  /** The evidence of one suite, as `ledger` reads it. */
  function Ledger(db: Database, suite: Id): Outcome<(Suite, map<Digest, Grant>)> {
    if suite !in db.suites then Refused(404)
    else Ok((db.suites[suite], GrantsOf(db, suite)))
  }

  function GrantsOf(db: Database, suite: Id): map<Digest, Grant> {
    map d | d in db.grants && db.grants[d].suite == suite :: db.grants[d]
  }

  lemma NextKeepsClosedLedger(db: Database, e: Event, suite: Id)
    requires Inv(db) && suite in db.suites && db.suites[suite].closed.Some?
    ensures Ledger(Next(db, e), suite) == Ledger(db, suite)
  {
    hide Next, Scoped, Paired, Sealed, Evolves, Ledger;
    NextKeepsInv(db, e);
    ClosedSuiteIsFrozen(db, Next(db, e), suite);
  }

  lemma ClosedSuiteIsFrozen(db: Database, after: Database, suite: Id)
    requires Sealed(db) && Evolves(db, after) && suite in db.suites && db.suites[suite].closed.Some?
    ensures Ledger(after, suite) == Ledger(db, suite)
  {
    forall d | d in db.grants && db.grants[d].suite == suite ensures after.grants[d] == db.grants[d] {
      assert Settles(db.grants[d], after.grants[d]);
    }
    assert GrantsOf(after, suite) == GrantsOf(db, suite);
  }

  lemma {:induction false} ClosedLedgerStays(db: Database, es: seq<Event>, n: nat, suite: Id)
    requires Inv(db) && suite in db.suites && db.suites[suite].closed.Some? && n <= |es|
    ensures Ledger(After(db, es, n), suite) == Ledger(db, suite)
  {
    hide Next, Inv;
    if n > 0 {
      ClosedLedgerStays(db, es, n - 1, suite);
      RunKeepsInv(db, es, n - 1);
      NextKeepsClosedLedger(After(db, es, n - 1), es[n - 1], suite);
    }
  }

  /** After an accepted close every grant of the suite is completed, failed or closed unused, and no later step
      changes what the ledger says about the suite. */
  lemma CloseIsFinal(before: seq<Event>, suite: Id, now: real, more: seq<Event>)
    ensures var step := CloseStep(After(EMPTY, before, |before|), suite, now);
            step.answer.Ok? ==>
              && (forall d :: d in TokensOf(step.next, suite) ==>
                    step.next.grants[d].status in {Completed, Error, ClosedUnused})
              && Ledger(step.next, suite).Ok?
              && Ledger(After(step.next, more, |more|), suite) == Ledger(step.next, suite)
  {
    ReachableInv(before);
    var start := After(EMPTY, before, |before|);
    var step := CloseStep(start, suite, now);
    if step.answer.Ok? {
      CloseKeepsInv(start, suite, now);
      ClosedLedgerStays(step.next, more, |more|, suite);
      hide After;
    }
  }

  lemma {:induction false} SpentStays(db: Database, es: seq<Event>, from: nat, to: nat, d: Digest)
    requires Inv(db) && from <= to <= |es|
    requires d in After(db, es, from).grants && After(db, es, from).grants[d].status != Issued
    ensures d in After(db, es, to).grants && After(db, es, to).grants[d].status != Issued
  {
    hide Next, Inv;
    if from < to {
      SpentStays(db, es, from, to - 1, d);
      RunKeepsInv(db, es, to - 1);
      NextKeepsInv(After(db, es, to - 1), es[to - 1]);
    }
  }

  /** One use: a token that was reserved once is refused at every later attempt, whatever happened between. */
  lemma ReservedOnce(es: seq<Event>, i: nat, j: nat)
    requires i < j < |es| && es[i].Reserving? && es[j].Reserving? && es[i].claimed == es[j].claimed
    requires ReserveStep(After(EMPTY, es, i), es[i].claimed, es[i].claim, es[i].now).answer.Ok?
    ensures ReserveStep(After(EMPTY, es, j), es[j].claimed, es[j].claim, es[j].now).answer.Refused?
  {
    hide InScope, Inv, Evolves;
    ReachableInv([]);
    assert After(EMPTY, es, i + 1).grants[es[i].claimed.value].status == Reserved;
    SpentStays(EMPTY, es, i + 1, j, es[i].claimed.value);
  }
}
