/**
 The one-use capabilities of the H07 and H08 suites: concurrent reserve, complete, fail and expire steps, ordered
 closure of the cases, and closure of the suite. H07 runs it with two cases, H08 with four.
 */
module CaseCapabilities {
  import opened Results

  datatype Status = Issued | Reserved | Completed | Failed | Expired | ClosedUnused

  predicate Open(s: Status) { s == Issued || s == Reserved }

  /** SHA-256 as a free constructor: a digest names its token. */
  datatype Digest = Sha256(token: string)

  /** A row of the capability table. */
  datatype Capability = Capability(
    suite: string, execution: string, caseId: string, role: string, marker: string,
    status: Status, issued: real, expires: real,
    reserved: Option<real>, completed: Option<real>, failed: Option<real>, failure: string)

  /** A row of the call table; `record` stands for the provider's usage and the completion record. */
  datatype Call = Call(
    provider: string, digest: Digest, suite: string, execution: string, caseId: string, role: string,
    marker: string, record: string, observed: real)

  datatype Suite = Suite(created: real, closed: Option<real>)

  datatype Database = Database(
    suites: map<string, Suite>, capabilities: map<Digest, Capability>, calls: seq<Call>,
    closures: map<(string, string), real>)

  const EMPTY := Database(map[], map[], [], map[])

  /** The server-owned cases in order, the roles, and the model marker of each role. */
  datatype Contract = Contract(cases: seq<string>, roles: seq<string>, markers: seq<string>, ttl: real)

  ghost predicate ValidContract(k: Contract) {
    Distinct(k.cases) && |k.roles| == |k.markers| > 0
  }

  /** A bearer token: its digest, and the scope it was signed for unless the signature is bad. */
  datatype Scope = Scope(suite: string, execution: string, caseId: string, role: string, model: string, expires: real)

  datatype Token = Token(digest: Digest, scope: Option<Scope>)

  /** The provider's answer: its request id and everything else that is recorded. */
  datatype Provider = Provider(id: string, record: string)

  datatype Step<T> = Step(next: Database, answer: Outcome<T>)

  // ---------------------------------------------------------------- one transaction each

  lemma CaseIndex(n: nat, cases: nat, roles: nat)
    requires roles > 0 && n < cases * roles
    ensures n / roles < cases
  {
    var q := n / roles;
    assert q * roles <= n;
    assert (cases - q) * roles > 0;
  }

  /** One token per case and role. */
  predicate Shaped(k: Contract, executions: seq<string>, digests: seq<Digest>) {
    |k.roles| == |k.markers| > 0 && |executions| == |k.cases| && |digests| == |k.cases| * |k.roles|
  }

  /** One row from its place in the order of cases and roles. */
  function Row(k: Contract, suite: string, executions: seq<string>, digests: seq<Digest>, now: real, n: nat)
    : (row: Capability)
    requires Shaped(k, executions, digests) && n < |digests|
    ensures row.suite == suite && row.status == Issued && row.caseId in k.cases
  {
    var at, role := n / |k.roles|, n % |k.roles|;
    CaseIndex(n, |k.cases|, |k.roles|);
    Capability(suite, executions[at], k.cases[at], k.roles[role], k.markers[role], Issued, now, now + k.ttl,
               None, None, None, "")
  }

  /** The rows of `create_suite`: one per case and role, in order. */
  function IssuedRows(k: Contract, suite: string, executions: seq<string>, digests: seq<Digest>, now: real, n: nat)
    : (rows: map<Digest, Capability>)
    requires Shaped(k, executions, digests) && n <= |digests|
    ensures forall d :: d in rows ==>
              d in digests && rows[d].suite == suite && rows[d].status == Issued && rows[d].caseId in k.cases
  {
    if n == 0 then map[]
    else
      IssuedRows(k, suite, executions, digests, now, n - 1)
        [digests[n - 1] := Row(k, suite, executions, digests, now, n - 1)]
  }

  lemma {:induction false} IssuedLater(k: Contract, suite: string, executions: seq<string>, digests: seq<Digest>,
                                       now: real, n: nat, i: nat)
    requires Shaped(k, executions, digests) && n <= i < |digests| && Distinct(digests)
    ensures digests[i] !in IssuedRows(k, suite, executions, digests, now, n)
  {
    hide Row, Shaped;
    if n > 0 {
      IssuedLater(k, suite, executions, digests, now, n - 1, i);
    }
  }

  lemma IssuedSoFar(k: Contract, suite: string, executions: seq<string>, digests: seq<Digest>, now: real, n: nat)
    requires Shaped(k, executions, digests) && n <= |digests|
    ensures IssuedRows(k, suite, executions, digests, now, n) ==
            if n == 0 then map[]
            else IssuedRows(k, suite, executions, digests, now, n - 1)
                   [digests[n - 1] := Row(k, suite, executions, digests, now, n - 1)]
  {
    hide Row, Shaped;
  }

  /** Distinct tokens give exactly one row per case and role. */
  lemma {:induction false} IssuedOncePerRole(k: Contract, suite: string, executions: seq<string>, digests: seq<Digest>,
                                             now: real, n: nat)
    requires Shaped(k, executions, digests) && n <= |digests| && Distinct(digests)
    ensures |IssuedRows(k, suite, executions, digests, now, n)| == n
  {
    hide Row, Shaped, IssuedRows;
    IssuedSoFar(k, suite, executions, digests, now, n);
    if n > 0 {
      IssuedOncePerRole(k, suite, executions, digests, now, n - 1);
      IssuedLater(k, suite, executions, digests, now, n - 1, n - 1);
      GrowsByOne(IssuedRows(k, suite, executions, digests, now, n - 1), digests[n - 1],
                 Row(k, suite, executions, digests, now, n - 1));
    }
  }

  lemma GrowsByOne<K, V>(m: map<K, V>, key: K, value: V)
    requires key !in m
    ensures |m[key := value]| == |m| + 1
  {
    assert m[key := value].Keys == m.Keys + {key};
  }

  lemma {:induction false} IssuedRowAt(k: Contract, suite: string, executions: seq<string>, digests: seq<Digest>,
                                       now: real, n: nat, i: nat)
    requires Shaped(k, executions, digests) && i < n <= |digests| && Distinct(digests)
    ensures var rows := IssuedRows(k, suite, executions, digests, now, n);
            digests[i] in rows && rows[digests[i]] == Row(k, suite, executions, digests, now, i)
  {
    hide Row, Shaped;
    if i < n - 1 {
      IssuedRowAt(k, suite, executions, digests, now, n - 1, i);
    }
  }

  method BuildRows(k: Contract, suite: string, executions: seq<string>, digests: seq<Digest>, now: real)
    returns (rows: map<Digest, Capability>)
    requires Shaped(k, executions, digests)
    ensures rows == IssuedRows(k, suite, executions, digests, now, |digests|)
  {
    hide Row, Shaped;
    rows := map[];
    var n := 0;
    while n < |digests|
      invariant 0 <= n <= |digests|
      invariant rows == IssuedRows(k, suite, executions, digests, now, n)
    {
      rows := rows[digests[n] := Row(k, suite, executions, digests, now, n)];
      n := n + 1;
    }
  }

  /** The key columns refuse the insertion: a suite, token or execution identifier is not new. */
  predicate Clash(db: Database, suite: string, executions: seq<string>, digests: seq<Digest>) {
    || suite in db.suites
    || (exists i :: 0 <= i < |digests| && digests[i] in db.capabilities)
    || (exists i, j :: 0 <= i < j < |digests| && digests[i] == digests[j])
    || (exists i, j :: 0 <= i < j < |executions| && executions[i] == executions[j])
  }

  function CreateStep(k: Contract, db: Database, suite: string, executions: seq<string>, digests: seq<Digest>, now: real)
    : Step<()>
    requires Shaped(k, executions, digests)
  {
    if Clash(db, suite, executions, digests) then Step(db, Refused(409))
    else Step(db.(suites := db.suites[suite := Suite(now, None)],
                  capabilities := db.capabilities + IssuedRows(k, suite, executions, digests, now, |digests|)),
              Ok(()))
  }

  predicate InScope(c: Capability, scope: Scope) {
    scope == Scope(c.suite, c.execution, c.caseId, c.role, c.marker, c.expires)
  }

  /** `reserve_capability`; a late request is refused and spends the capability. */
  function ReserveStep(db: Database, token: Token, model: string, now: real): Step<Scope> {
    if token.scope.None? then Step(db, Refused(401))
    else if token.digest !in db.capabilities || db.capabilities[token.digest].suite !in db.suites
    then Step(db, Refused(401))
    else
      var c := db.capabilities[token.digest];
      if !InScope(c, token.scope.value) || model != c.marker then Step(db, Refused(403))
      else if db.suites[c.suite].closed.Some? || c.status != Issued then Step(db, Refused(409))
      else if now >= c.expires then
        Step(db.(capabilities := db.capabilities[token.digest :=
                   c.(status := Expired, failed := Some(now), failure := "capability_expired")]), Refused(403))
      else
        Step(db.(capabilities := db.capabilities[token.digest := c.(status := Reserved, reserved := Some(now))]),
             Ok(token.scope.value))
  }

  function FailStep(db: Database, digest: Digest, failure: string, now: real): Database {
    if digest in db.capabilities && db.capabilities[digest].status == Reserved
    then db.(capabilities := db.capabilities[digest :=
               db.capabilities[digest].(status := Failed, failed := Some(now), failure := failure)])
    else db
  }

  /** The unique columns of the call table. */
  predicate Recorded(db: Database, provider: string, digest: Digest) {
    exists i :: 0 <= i < |db.calls| && (db.calls[i].provider == provider || db.calls[i].digest == digest)
  }

  /** `complete_call`; a conflict with recorded evidence fails the capability. */
  function CompleteStep(db: Database, digest: Digest, p: Provider, now: real): Step<()> {
    if digest !in db.capabilities || db.capabilities[digest].status != Reserved then Step(db, Refused(409))
    else if Recorded(db, p.id, digest) then Step(FailStep(db, digest, "ledger_conflict", now), Refused(409))
    else
      var c := db.capabilities[digest];
      Step(db.(calls := db.calls + [Call(p.id, digest, c.suite, c.execution, c.caseId, c.role, c.marker, p.record, now)],
               capabilities := db.capabilities[digest := c.(status := Completed, completed := Some(now))]),
           Ok(()))
  }

  /** `UPDATE ... SET status='closed_unused' WHERE ... AND status='issued'` */
  function Unused(db: Database, suite: string, caseId: Option<string>): (m: map<Digest, Capability>)
    ensures m.Keys == db.capabilities.Keys
    ensures forall d :: d in m ==> m[d] == if db.capabilities[d].suite == suite && db.capabilities[d].status == Issued
                                              && (caseId.None? || db.capabilities[d].caseId == caseId.value)
                                           then db.capabilities[d].(status := ClosedUnused) else db.capabilities[d]
  {
    map d | d in db.capabilities ::
      if db.capabilities[d].suite == suite && db.capabilities[d].status == Issued
         && (caseId.None? || db.capabilities[d].caseId == caseId.value)
      then db.capabilities[d].(status := ClosedUnused) else db.capabilities[d]
  }

  predicate InFlight(db: Database, suite: string, caseId: Option<string>) {
    exists d :: d in db.capabilities && db.capabilities[d].suite == suite && db.capabilities[d].status == Reserved
                && (caseId.None? || db.capabilities[d].caseId == caseId.value)
  }

  /** `CASE_IDS.index(case_id)` */
  function Position(k: Contract, caseId: string): (i: nat)
    requires caseId in k.cases
    ensures i < |k.cases| && k.cases[i] == caseId && forall j :: 0 <= j < i ==> k.cases[j] != caseId
  {
    PositionFrom(k.cases, caseId, 0)
  }

  function PositionFrom(cases: seq<string>, caseId: string, from: nat): (i: nat)
    requires exists j :: from <= j < |cases| && cases[j] == caseId
    ensures from <= i < |cases| && cases[i] == caseId && forall j :: from <= j < i ==> cases[j] != caseId
    decreases |cases| - from
  {
    if cases[from] == caseId then from else PositionFrom(cases, caseId, from + 1)
  }

  function CloseCaseStep(k: Contract, db: Database, suite: string, caseId: string, now: real): Step<real> {
    if caseId !in k.cases then Step(db, Refused(422))
    else if suite !in db.suites then Step(db, Refused(404))
    else if (suite, caseId) in db.closures then Step(db, Ok(db.closures[(suite, caseId)]))
    else if db.suites[suite].closed.Some? then Step(db, Refused(409))
    else if exists j :: 0 <= j < Position(k, caseId) && (suite, k.cases[j]) !in db.closures
    then Step(db, Refused(409))
    else if InFlight(db, suite, Some(caseId)) then Step(db, Refused(409))
    else Step(db.(capabilities := Unused(db, suite, Some(caseId)), closures := db.closures[(suite, caseId) := now]),
              Ok(now))
  }

  function CloseSuiteStep(db: Database, suite: string, now: real): Step<real> {
    if suite !in db.suites then Step(db, Refused(404))
    else if db.suites[suite].closed.Some? then Step(db, Ok(db.suites[suite].closed.value))
    else if InFlight(db, suite, None) then Step(db, Refused(409))
    else Step(db.(capabilities := Unused(db, suite, None),
                  suites := db.suites[suite := db.suites[suite].(closed := Some(now))]), Ok(now))
  }

  /** The part of `case_ledger` that must not change: the calls and capabilities of the case and all earlier ones. */
  datatype Evidence = Evidence(closed: real, calls: seq<Call>, capabilities: map<Digest, Capability>)

  predicate InPrefix(k: Contract, caseId: string, last: nat) {
    exists j :: 0 <= j <= last && j < |k.cases| && k.cases[j] == caseId
  }

  function CallsOf(k: Contract, calls: seq<Call>, suite: string, last: nat): seq<Call> {
    if calls == [] then []
    else
      var rest, call := CallsOf(k, calls[..|calls| - 1], suite, last), calls[|calls| - 1];
      if call.suite == suite && InPrefix(k, call.caseId, last) then rest + [call] else rest
  }

  function CapabilitiesOf(k: Contract, db: Database, suite: string, last: nat): map<Digest, Capability> {
    map d | d in db.capabilities && db.capabilities[d].suite == suite && InPrefix(k, db.capabilities[d].caseId, last)
      :: db.capabilities[d]
  }

  function CaseLedger(k: Contract, db: Database, suite: string, caseId: string): Outcome<Evidence> {
    if caseId !in k.cases then Refused(422)
    else if (suite, caseId) !in db.closures then Refused(409)
    else if suite !in db.suites then Refused(404)
    else
      var last := Position(k, caseId);
      Ok(Evidence(db.closures[(suite, caseId)], CallsOf(k, db.calls, suite, last), CapabilitiesOf(k, db, suite, last)))
  }

  // ---------------------------------------------------------------- the gateway

  class Gateway {
    const contract: Contract
    var suites: map<string, Suite>
    var capabilities: map<Digest, Capability>
    var calls: seq<Call>
    var closures: map<(string, string), real>

    function State(): Database reads this { Database(suites, capabilities, calls, closures) }

    constructor (contract: Contract)
      ensures State() == EMPTY && this.contract == contract
    {
      this.contract := contract;
      suites, capabilities, calls, closures := map[], map[], [], map[];
    }

    method Create(suite: string, executions: seq<string>, digests: seq<Digest>, now: real) returns (r: Outcome<()>)
      requires Shaped(contract, executions, digests)
      modifies this
      ensures Step(State(), r) == CreateStep(contract, old(State()), suite, executions, digests, now)
    {
      hide Shaped, IssuedRows, Clash;
      var rows := BuildRows(contract, suite, executions, digests, now);
      if Clash(State(), suite, executions, digests) { return Refused(409); }
      suites := suites[suite := Suite(now, None)];
      capabilities := capabilities + rows;
      r := Ok(());
    }

    method Reserve(token: Token, model: string, now: real) returns (r: Outcome<Scope>)
      modifies this
      ensures Step(State(), r) == ReserveStep(old(State()), token, model, now)
    {
      if token.scope.None? { return Refused(401); }
      if token.digest !in capabilities || capabilities[token.digest].suite !in suites { return Refused(401); }
      var c := capabilities[token.digest];
      if !InScope(c, token.scope.value) { return Refused(403); }
      if model != c.marker { return Refused(403); }
      if suites[c.suite].closed.Some? { return Refused(409); }
      if c.status != Issued { return Refused(409); }
      if now >= c.expires {
        capabilities := capabilities[token.digest :=
          c.(status := Expired, failed := Some(now), failure := "capability_expired")];
        return Refused(403);
      }
      capabilities := capabilities[token.digest := c.(status := Reserved, reserved := Some(now))];
      r := Ok(token.scope.value);
    }

    method Fail(digest: Digest, failure: string, now: real)
      modifies this
      ensures State() == FailStep(old(State()), digest, failure, now)
    {
      if digest in capabilities && capabilities[digest].status == Reserved {
        capabilities := capabilities[digest :=
          capabilities[digest].(status := Failed, failed := Some(now), failure := failure)];
      }
    }

    method Complete(digest: Digest, p: Provider, now: real) returns (r: Outcome<()>)
      modifies this
      ensures Step(State(), r) == CompleteStep(old(State()), digest, p, now)
    {
      if digest !in capabilities || capabilities[digest].status != Reserved { return Refused(409); }
      if Recorded(State(), p.id, digest) {
        Fail(digest, "ledger_conflict", now);
        return Refused(409);
      }
      var c := capabilities[digest];
      calls := calls + [Call(p.id, digest, c.suite, c.execution, c.caseId, c.role, c.marker, p.record, now)];
      capabilities := capabilities[digest := c.(status := Completed, completed := Some(now))];
      r := Ok(());
    }

    /** `chat_route`, undisturbed; `provider` is `None` when the provider call raised. Whatever happens, the
        capability it reserved does not stay reserved, and it is completed exactly when the route answers. */
    method Chat(token: Token, model: string, provider: Option<Provider>, now: real) returns (r: Outcome<()>)
      modifies this
      ensures r.Ok? ==> token.digest in capabilities && capabilities[token.digest].status == Completed
      ensures r.Ok? <==> ReserveStep(old(State()), token, model, now).answer.Ok? && provider.Some?
                         && !Recorded(old(State()), provider.value.id, token.digest)
      ensures forall d :: d in capabilities && capabilities[d].status == Reserved ==>
                d in old(capabilities) && capabilities[d] == old(capabilities)[d]
      ensures capabilities.Keys == old(capabilities).Keys
      ensures forall d :: d in capabilities && d != token.digest ==> capabilities[d] == old(capabilities)[d]
      ensures r.Ok? ==> |calls| == |old(calls)| + 1 && calls[..|old(calls)|] == old(calls)
                        && calls[|old(calls)|].provider == provider.value.id
                        && calls[|old(calls)|].record == provider.value.record
                        && calls[|old(calls)|].digest == token.digest
      ensures r.Refused? ==> calls == old(calls)
    {
      var grant := Reserve(token, model, now);
      if grant.Refused? { return Refused(grant.status); }
      if provider.None? {
        Fail(token.digest, "ClientError", now);
        return Refused(502);
      }
      r := Complete(token.digest, provider.value, now);
      if r.Refused? { Fail(token.digest, "http_409", now); }
    }

    method CloseCase(suite: string, caseId: string, now: real) returns (r: Outcome<real>)
      modifies this
      ensures Step(State(), r) == CloseCaseStep(contract, old(State()), suite, caseId, now)
    {
      if caseId !in contract.cases { return Refused(422); }
      if suite !in suites { return Refused(404); }
      if (suite, caseId) in closures { return Ok(closures[(suite, caseId)]); }
      if suites[suite].closed.Some? { return Refused(409); }
      var position := Position(contract, caseId);
      if exists j :: 0 <= j < position && (suite, contract.cases[j]) !in closures { return Refused(409); }
      if InFlight(State(), suite, Some(caseId)) { return Refused(409); }
      capabilities := Unused(State(), suite, Some(caseId));
      closures := closures[(suite, caseId) := now];
      r := Ok(now);
    }

    method CloseSuite(suite: string, now: real) returns (r: Outcome<real>)
      modifies this
      ensures Step(State(), r) == CloseSuiteStep(old(State()), suite, now)
    {
      if suite !in suites { return Refused(404); }
      if suites[suite].closed.Some? { return Ok(suites[suite].closed.value); }
      if InFlight(State(), suite, None) { return Refused(409); }
      capabilities := Unused(State(), suite, None);
      suites := suites[suite := suites[suite].(closed := Some(now))];
      r := Ok(now);
    }
  }

  // ---------------------------------------------------------------- runs

  /** The steps of all concurrent requests, interleaved in any way: completion and failure may name any digest. */
  datatype Event =
    | Creating(suite: string, executions: seq<string>, digests: seq<Digest>, now: real)
    | Reserving(token: Token, model: string, now: real)
    | Completing(digest: Digest, provider: Provider, now: real)
    | Failing(digest: Digest, failure: string, now: real)
    | ClosingCase(suite: string, caseId: string, now: real)
    | ClosingSuite(suite: string, now: real)

  function Next(k: Contract, db: Database, e: Event): Database
  {
    match e
    case Creating(suite, executions, digests, now) =>
      if Shaped(k, executions, digests)
      then CreateStep(k, db, suite, executions, digests, now).next else db
    case Reserving(token, model, now) => ReserveStep(db, token, model, now).next
    case Completing(digest, provider, now) => CompleteStep(db, digest, provider, now).next
    case Failing(digest, failure, now) => FailStep(db, digest, failure, now)
    case ClosingCase(suite, caseId, now) => CloseCaseStep(k, db, suite, caseId, now).next
    case ClosingSuite(suite, now) => CloseSuiteStep(db, suite, now).next
  }

  function After(k: Contract, db: Database, es: seq<Event>, n: nat): Database
    requires n <= |es|
  {
    if n == 0 then db else Next(k, After(k, db, es, n - 1), es[n - 1])
  }

  // ---------------------------------------------------------------- what every step keeps

  ghost predicate HasCall(db: Database, digest: Digest) {
    exists i :: 0 <= i < |db.calls| && db.calls[i].digest == digest
  }

  /** A call row exists for exactly the completed capabilities, and repeats their scope. */
  ghost predicate CallInv(db: Database) {
    && (forall d :: d in db.capabilities && db.capabilities[d].status == Completed ==> HasCall(db, d))
    && (forall i :: 0 <= i < |db.calls| ==>
          && db.calls[i].digest in db.capabilities
          && (var c := db.capabilities[db.calls[i].digest];
              c.status == Completed && c.suite == db.calls[i].suite && c.caseId == db.calls[i].caseId))
    && (forall i, j :: 0 <= i < j < |db.calls| ==>
          db.calls[i].provider != db.calls[j].provider && db.calls[i].digest != db.calls[j].digest)
  }

  ghost predicate Scoped(k: Contract, db: Database) {
    forall d :: d in db.capabilities ==> db.capabilities[d].suite in db.suites && db.capabilities[d].caseId in k.cases
  }

  /** Closed cases come in order. */
  ghost predicate Ordered(k: Contract, db: Database) {
    forall suite, i, j :: 0 <= i < j < |k.cases| && (suite, k.cases[j]) in db.closures ==> (suite, k.cases[i]) in db.closures
  }

  ghost predicate Named(k: Contract, db: Database) {
    forall key :: key in db.closures ==> key.0 in db.suites && key.1 in k.cases
  }

  /** Closing a case leaves nothing open in it. */
  ghost predicate CaseSealed(db: Database) {
    forall d :: d in db.capabilities && (db.capabilities[d].suite, db.capabilities[d].caseId) in db.closures ==>
      !Open(db.capabilities[d].status)
  }

  /** Closing a suite leaves nothing open in it. */
  ghost predicate SuiteSealed(db: Database) {
    forall d :: (d in db.capabilities && db.capabilities[d].suite in db.suites
                 && db.suites[db.capabilities[d].suite].closed.Some?) ==> !Open(db.capabilities[d].status)
  }

  ghost predicate Inv(k: Contract, db: Database) {
    ValidContract(k) && CallInv(db) && Scoped(k, db) && Ordered(k, db) && Named(k, db) && CaseSealed(db) && SuiteSealed(db)
  }

  /** What every step may do to a capability: settle it while it is open, or issue it for a new suite. */
  ghost predicate Evolves(db: Database, after: Database) {
    && (forall d :: d in db.capabilities ==>
          && d in after.capabilities
          && after.capabilities[d].suite == db.capabilities[d].suite
          && after.capabilities[d].caseId == db.capabilities[d].caseId
          && (after.capabilities[d] == db.capabilities[d] || Open(db.capabilities[d].status))
          && (after.capabilities[d].status == Issued ==> db.capabilities[d].status == Issued))
    && (forall d :: d in after.capabilities && d !in db.capabilities ==> after.capabilities[d].suite !in db.suites)
    && (forall key :: key in db.closures ==> key in after.closures && after.closures[key] == db.closures[key])
    && (forall s :: s in db.suites ==> s in after.suites)
  }

  /** Nothing is newly completed: the call table may stay as it is. */
  ghost predicate CompletesNothing(db: Database, after: Database) {
    forall d :: d in after.capabilities && after.capabilities[d].status == Completed ==>
      d in db.capabilities && db.capabilities[d].status == Completed
  }

  lemma CallsKept(db: Database, after: Database)
    requires CallInv(db) && after.calls == db.calls && Evolves(db, after) && CompletesNothing(db, after)
    ensures CallInv(after)
  {
    forall d | d in after.capabilities && after.capabilities[d].status == Completed
      ensures HasCall(after, d)
    {
      assert HasCall(db, d);
    }
  }

  /** A step that closes nothing keeps what closing promises. */
  lemma SealsKept(k: Contract, db: Database, after: Database)
    requires Scoped(k, db) && Named(k, db) && CaseSealed(db) && SuiteSealed(db)
    requires Evolves(db, after) && after.closures == db.closures
    requires forall s :: s in db.suites ==> after.suites[s] == db.suites[s]
    requires forall s :: s in after.suites && s !in db.suites ==> after.suites[s].closed.None?
    ensures CaseSealed(after) && SuiteSealed(after)
  {
  }

  lemma CreateEvolves(k: Contract, db: Database, suite: string, executions: seq<string>, digests: seq<Digest>, now: real)
    requires Shaped(k, executions, digests) && !Clash(db, suite, executions, digests) && Scoped(k, db)
    ensures var after := CreateStep(k, db, suite, executions, digests, now).next;
            && Evolves(db, after) && CompletesNothing(db, after) && Scoped(k, after)
            && after.calls == db.calls && after.closures == db.closures && suite !in db.suites
            && after.suites == db.suites[suite := Suite(now, None)]
  {
    Fresh(db, suite, executions, digests);
    hide Shaped, IssuedRows, Clash;
    var rows := IssuedRows(k, suite, executions, digests, now, |digests|);
    assert forall d :: d in rows ==> d !in db.capabilities;
  }

  lemma CreateKeepsInv(k: Contract, db: Database, suite: string, executions: seq<string>, digests: seq<Digest>, now: real)
    requires Inv(k, db) && Shaped(k, executions, digests)
    ensures var after := CreateStep(k, db, suite, executions, digests, now).next; Inv(k, after) && Evolves(db, after)
  {
    var after := CreateStep(k, db, suite, executions, digests, now).next;
    assert Evolves(db, db);
    if Clash(db, suite, executions, digests) {
      assert after == db;
    } else {
      CreateEvolves(k, db, suite, executions, digests, now);
      hide CreateStep, Clash, Shaped, CallInv, CaseSealed, SuiteSealed, Ordered, Evolves, Scoped, CompletesNothing;
      SealsKept(k, db, after);
      CallsKept(db, after);
      SameOrder(k, db, after);
    }
  }

  lemma Fresh(db: Database, suite: string, executions: seq<string>, digests: seq<Digest>)
    requires !Clash(db, suite, executions, digests)
    ensures suite !in db.suites && forall d :: d in digests ==> d !in db.capabilities
  {
  }

  lemma SameOrder(k: Contract, db: Database, after: Database)
    requires Ordered(k, db) && after.closures == db.closures
    ensures Ordered(k, after)
  {
  }

  /** Rewriting one open row, without completing it. */
  lemma SettleEvolves(db: Database, d: Digest, c: Capability)
    requires d in db.capabilities && Open(db.capabilities[d].status) && c.status != Completed && c.status != Issued
    requires c.suite == db.capabilities[d].suite && c.caseId == db.capabilities[d].caseId
    ensures var after := db.(capabilities := db.capabilities[d := c]);
            Evolves(db, after) && CompletesNothing(db, after) && after.capabilities.Keys == db.capabilities.Keys
  {
  }

  lemma ReserveEvolves(db: Database, token: Token, model: string, now: real)
    ensures var after := ReserveStep(db, token, model, now).next;
            && Evolves(db, after) && CompletesNothing(db, after)
            && after.calls == db.calls && after.closures == db.closures && after.suites == db.suites
            && after.capabilities.Keys == db.capabilities.Keys
  {
    var after := ReserveStep(db, token, model, now).next;
    assert Evolves(db, db) && CompletesNothing(db, db);
    hide InScope, Evolves, CompletesNothing;
    if after != db {
      SettleEvolves(db, token.digest, after.capabilities[token.digest]);
    }
  }

  lemma ReserveKeepsInv(k: Contract, db: Database, token: Token, model: string, now: real)
    requires Inv(k, db)
    ensures var after := ReserveStep(db, token, model, now).next; Inv(k, after) && Evolves(db, after)
  {
    ReserveEvolves(db, token, model, now);
    hide CallInv, CaseSealed, SuiteSealed, Ordered, ReserveStep, CompletesNothing;
    var after := ReserveStep(db, token, model, now).next;
    SealsKept(k, db, after);
    CallsKept(db, after);
    SameOrder(k, db, after);
  }

  lemma FailEvolves(db: Database, digest: Digest, failure: string, now: real)
    ensures var after := FailStep(db, digest, failure, now);
            && Evolves(db, after) && CompletesNothing(db, after)
            && after.calls == db.calls && after.closures == db.closures && after.suites == db.suites
            && after.capabilities.Keys == db.capabilities.Keys
  {
    var after := FailStep(db, digest, failure, now);
    assert Evolves(db, db) && CompletesNothing(db, db);
    hide Evolves, CompletesNothing;
    if after != db { SettleEvolves(db, digest, after.capabilities[digest]); }
  }

  lemma FailKeepsInv(k: Contract, db: Database, digest: Digest, failure: string, now: real)
    requires Inv(k, db)
    ensures var after := FailStep(db, digest, failure, now); Inv(k, after) && Evolves(db, after)
  {
    FailEvolves(db, digest, failure, now);
    hide CallInv, CaseSealed, SuiteSealed, Ordered, FailStep, CompletesNothing;
    var after := FailStep(db, digest, failure, now);
    SealsKept(k, db, after);
    CallsKept(db, after);
    SameOrder(k, db, after);
  }

  lemma CompleteKeepsCalls(db: Database, digest: Digest, p: Provider, now: real)
    requires CallInv(db)
    requires digest in db.capabilities && db.capabilities[digest].status == Reserved && !Recorded(db, p.id, digest)
    ensures CallInv(CompleteStep(db, digest, p, now).next)
  {
    var after := CompleteStep(db, digest, p, now).next;
    assert after.calls[|db.calls|].digest == digest;
    forall d | d in after.capabilities && after.capabilities[d].status == Completed
      ensures HasCall(after, d)
    {
      if d != digest {
        assert HasCall(db, d);
        var i :| 0 <= i < |db.calls| && db.calls[i].digest == d;
        assert after.calls[i].digest == d;
      }
    }
  }

  lemma CompleteKeepsInv(k: Contract, db: Database, digest: Digest, p: Provider, now: real)
    requires Inv(k, db)
    ensures var after := CompleteStep(db, digest, p, now).next; Inv(k, after) && Evolves(db, after)
  {
    hide CallInv, CaseSealed, SuiteSealed, Ordered, Recorded;
    var after := CompleteStep(db, digest, p, now).next;
    if digest in db.capabilities && db.capabilities[digest].status == Reserved {
      if Recorded(db, p.id, digest) {
        FailKeepsInv(k, db, digest, "ledger_conflict", now);
      } else {
        CompleteKeepsCalls(db, digest, p, now);
        SealsKept(k, db, after);
        SameOrder(k, db, after);
      }
    }
  }

  lemma CloseCaseKeepsOrder(k: Contract, db: Database, suite: string, caseId: string, now: real)
    requires Ordered(k, db) && Distinct(k.cases)
    ensures Ordered(k, CloseCaseStep(k, db, suite, caseId, now).next)
  {
    hide Unused, InFlight;
    var after := CloseCaseStep(k, db, suite, caseId, now).next;
    if after != db {
      var position := Position(k, caseId);
      forall s, i, j | 0 <= i < j < |k.cases| && (s, k.cases[j]) in after.closures
        ensures (s, k.cases[i]) in after.closures
      {
        if (s, k.cases[j]) !in db.closures { assert j == position; }
      }
    }
  }

  lemma CloseCaseSeals(k: Contract, db: Database, suite: string, caseId: string, now: real)
    requires Scoped(k, db) && CaseSealed(db) && SuiteSealed(db)
    ensures var after := CloseCaseStep(k, db, suite, caseId, now).next; CaseSealed(after) && SuiteSealed(after)
  {
    hide Position;
  }

  lemma CloseCaseEffect(k: Contract, db: Database, suite: string, caseId: string, now: real)
    ensures var after := CloseCaseStep(k, db, suite, caseId, now).next;
            after == db || (&& suite in db.suites && caseId in k.cases && (suite, caseId) !in db.closures
                            && after == db.(capabilities := Unused(db, suite, Some(caseId)),
                                            closures := db.closures[(suite, caseId) := now]))
  {
    hide Position, InFlight, Unused;
  }

  lemma CloseCaseEvolves(k: Contract, db: Database, suite: string, caseId: string, now: real)
    requires Scoped(k, db) && Named(k, db)
    ensures var after := CloseCaseStep(k, db, suite, caseId, now).next;
            Evolves(db, after) && CompletesNothing(db, after) && Scoped(k, after) && Named(k, after)
            && after.calls == db.calls
  {
    hide InFlight, CloseCaseStep;
    CloseCaseEffect(k, db, suite, caseId, now);
  }

  lemma CloseCaseKeepsInv(k: Contract, db: Database, suite: string, caseId: string, now: real)
    requires Inv(k, db)
    ensures var after := CloseCaseStep(k, db, suite, caseId, now).next; Inv(k, after) && Evolves(db, after)
  {
    hide CallInv, CaseSealed, SuiteSealed, Ordered, Scoped, Named, Evolves, CompletesNothing, CloseCaseStep;
    CloseCaseEvolves(k, db, suite, caseId, now);
    CloseCaseKeepsOrder(k, db, suite, caseId, now);
    CloseCaseSeals(k, db, suite, caseId, now);
    CallsKept(db, CloseCaseStep(k, db, suite, caseId, now).next);
  }

  lemma CloseSuiteSeals(k: Contract, db: Database, suite: string, now: real)
    requires CaseSealed(db) && SuiteSealed(db)
    ensures var after := CloseSuiteStep(db, suite, now).next; CaseSealed(after) && SuiteSealed(after)
  {
  }

  lemma CloseSuiteKeepsInv(k: Contract, db: Database, suite: string, now: real)
    requires Inv(k, db)
    ensures var after := CloseSuiteStep(db, suite, now).next; Inv(k, after) && Evolves(db, after)
  {
    hide CallInv, CaseSealed, SuiteSealed, Ordered, InFlight;
    var after := CloseSuiteStep(db, suite, now).next;
    if after != db {
      CloseSuiteSeals(k, db, suite, now);
      CallsKept(db, after);
      SameOrder(k, db, after);
    }
  }

  lemma NextKeepsInv(k: Contract, db: Database, e: Event)
    requires Inv(k, db)
    ensures Inv(k, Next(k, db, e)) && Evolves(db, Next(k, db, e))
  {
    assert Evolves(db, db);
    hide Evolves, CallInv, Scoped, Named, Ordered, CaseSealed, SuiteSealed;
    hide CreateStep, ReserveStep, CompleteStep, FailStep, CloseCaseStep, CloseSuiteStep;
    match e
    case Creating(suite, executions, digests, now) =>
      if Shaped(k, executions, digests) {
        CreateKeepsInv(k, db, suite, executions, digests, now);
      }
    case Reserving(token, model, now) => ReserveKeepsInv(k, db, token, model, now);
    case Completing(digest, provider, now) => CompleteKeepsInv(k, db, digest, provider, now);
    case Failing(digest, failure, now) => FailKeepsInv(k, db, digest, failure, now);
    case ClosingCase(suite, caseId, now) => CloseCaseKeepsInv(k, db, suite, caseId, now);
    case ClosingSuite(suite, now) => CloseSuiteKeepsInv(k, db, suite, now);
  }

  lemma {:induction false} RunKeepsInv(k: Contract, db: Database, es: seq<Event>, n: nat)
    requires Inv(k, db) && n <= |es|
    ensures Inv(k, After(k, db, es, n))
  {
    hide Next, CallInv, Scoped, Named, Ordered, CaseSealed, SuiteSealed, Evolves;
    if n > 0 {
      RunKeepsInv(k, db, es, n - 1);
      NextKeepsInv(k, After(k, db, es, n - 1), es[n - 1]);
    }
  }

  lemma ReachableInv(k: Contract, es: seq<Event>)
    requires ValidContract(k)
    ensures Inv(k, After(k, EMPTY, es, |es|))
  {
    RunKeepsInv(k, EMPTY, es, |es|);
  }

  // ---------------------------------------------------------------- main results

  /** Whatever the interleaving, a call row exists for a capability if and only if it is completed, and then there
      is one row only; no provider request is recorded twice. */
  lemma CalledIffCompleted(k: Contract, es: seq<Event>, digest: Digest)
    requires ValidContract(k)
    ensures var db := After(k, EMPTY, es, |es|);
            && (HasCall(db, digest) <==> digest in db.capabilities && db.capabilities[digest].status == Completed)
            && (forall i, j :: 0 <= i < |db.calls| && 0 <= j < |db.calls| && db.calls[i].digest == db.calls[j].digest
                  ==> i == j)
            && (forall i, j :: 0 <= i < |db.calls| && 0 <= j < |db.calls| && db.calls[i].provider == db.calls[j].provider
                  ==> i == j)
  {
    ReachableInv(k, es);
    hide After, Ordered, CaseSealed, SuiteSealed;
    var db := After(k, EMPTY, es, |es|);
    if HasCall(db, digest) {
      var i :| 0 <= i < |db.calls| && db.calls[i].digest == digest;
    }
  }

  /** The number of cases of a suite that closed before the first open one. */
  function ClosedCases(k: Contract, db: Database, suite: string, from: nat): (n: nat)
    requires from <= |k.cases|
    ensures from <= n <= |k.cases|
    ensures forall i :: from <= i < n ==> (suite, k.cases[i]) in db.closures
    ensures n < |k.cases| ==> (suite, k.cases[n]) !in db.closures
    decreases |k.cases| - from
  {
    if from < |k.cases| && (suite, k.cases[from]) in db.closures then ClosedCases(k, db, suite, from + 1) else from
  }

  /** The closed cases of every suite are a prefix of the contract's order. */
  lemma ClosedCasesArePrefix(k: Contract, es: seq<Event>, suite: string, i: nat)
    requires ValidContract(k) && i < |k.cases|
    ensures var db := After(k, EMPTY, es, |es|);
            (suite, k.cases[i]) in db.closures <==> i < ClosedCases(k, db, suite, 0)
  {
    ReachableInv(k, es);
    hide After, CallInv, ClosedCases, CaseSealed, SuiteSealed;
    var db := After(k, EMPTY, es, |es|);
    var n := ClosedCases(k, db, suite, 0);
    if n < i && (suite, k.cases[i]) in db.closures { assert false; }
  }

  lemma CallElsewhere(k: Contract, calls: seq<Call>, call: Call, suite: string, last: nat)
    requires call.suite != suite || !InPrefix(k, call.caseId, last)
    ensures CallsOf(k, calls + [call], suite, last) == CallsOf(k, calls, suite, last)
  {
    assert (calls + [call])[..|calls|] == calls;
  }

  lemma OpenIsElsewhere(k: Contract, db: Database, d: Digest, suite: string, last: nat)
    requires Ordered(k, db) && CaseSealed(db) && d in db.capabilities && Open(db.capabilities[d].status)
    requires last < |k.cases| && (suite, k.cases[last]) in db.closures
    ensures db.capabilities[d].suite != suite || !InPrefix(k, db.capabilities[d].caseId, last)
  {
    var c := db.capabilities[d];
    assert forall j :: 0 <= j <= last ==> (suite, k.cases[j]) in db.closures;
  }

  /** The closed prefix: what one step leaves alone once a case is closed. */
  lemma ClosedRowsStay(k: Contract, db: Database, after: Database, suite: string, last: nat)
    requires Scoped(k, db) && Ordered(k, db) && Named(k, db) && CaseSealed(db) && Evolves(db, after)
    requires last < |k.cases| && (suite, k.cases[last]) in db.closures
    ensures CapabilitiesOf(k, after, suite, last) == CapabilitiesOf(k, db, suite, last)
  {
    forall d | d in db.capabilities && Open(db.capabilities[d].status)
      ensures db.capabilities[d].suite != suite || !InPrefix(k, db.capabilities[d].caseId, last)
    {
      OpenIsElsewhere(k, db, d, suite, last);
    }
    hide InPrefix;
  }

  /** Only a completion adds a call, and not to a closed case. */
  lemma ClosedCallsStay(k: Contract, db: Database, e: Event, suite: string, last: nat)
    requires Ordered(k, db) && CaseSealed(db) && ValidContract(k)
    requires last < |k.cases| && (suite, k.cases[last]) in db.closures
    ensures CallsOf(k, Next(k, db, e).calls, suite, last) == CallsOf(k, db.calls, suite, last)
  {
    hide CallsOf, IssuedRows, Clash, InFlight, Recorded, Position, Ordered, CaseSealed, InPrefix;
    var after := Next(k, db, e);
    if after.calls != db.calls {
      OpenIsElsewhere(k, db, e.digest, suite, last);
      CallElsewhere(k, db.calls, after.calls[|db.calls|], suite, last);
    }
  }

  lemma NextKeepsEvidence(k: Contract, db: Database, e: Event, suite: string, caseId: string)
    requires Inv(k, db) && CaseLedger(k, db, suite, caseId).Ok?
    ensures CaseLedger(k, Next(k, db, e), suite, caseId) == CaseLedger(k, db, suite, caseId)
  {
    NextKeepsInv(k, db, e);
    ClosedRowsStay(k, db, Next(k, db, e), suite, Position(k, caseId));
    ClosedCallsStay(k, db, e, suite, Position(k, caseId));
    hide Next, CallsOf, CapabilitiesOf, CallInv, Scoped, Ordered, CaseSealed, SuiteSealed;
  }

  lemma {:induction false} EvidenceStays(k: Contract, db: Database, es: seq<Event>, n: nat, suite: string, caseId: string)
    requires ValidContract(k) && Inv(k, db) && n <= |es| && CaseLedger(k, db, suite, caseId).Ok?
    ensures CaseLedger(k, After(k, db, es, n), suite, caseId) == CaseLedger(k, db, suite, caseId)
  {
    hide Next, CaseLedger, Inv;
    if n > 0 {
      EvidenceStays(k, db, es, n - 1, suite, caseId);
      RunKeepsInv(k, db, es, n - 1);
      NextKeepsEvidence(k, After(k, db, es, n - 1), es[n - 1], suite, caseId);
    }
  }

  lemma ClosureIsReadable(k: Contract, db: Database, suite: string, caseId: string, now: real)
    requires Named(k, db)
    ensures var step := CloseCaseStep(k, db, suite, caseId, now);
            step.answer.Ok? ==> CaseLedger(k, step.next, suite, caseId).Ok?
                                && CaseLedger(k, step.next, suite, caseId).value.closed == step.answer.value
  {
    hide CapabilitiesOf, CallsOf, InFlight, Unused;
  }

  /** From the moment a case is closed, the evidence read for it and all earlier cases never changes: neither its
      calls, nor its capabilities, nor the closing time. `before` is any reachable history, `more` anything after it. */
  lemma ClosedEvidenceIsFinal(k: Contract, before: seq<Event>, suite: string, caseId: string, now: real, more: seq<Event>)
    requires ValidContract(k)
    ensures var step := CloseCaseStep(k, After(k, EMPTY, before, |before|), suite, caseId, now);
            step.answer.Ok? ==>
              && CaseLedger(k, step.next, suite, caseId).Ok?
              && CaseLedger(k, step.next, suite, caseId).value.closed == step.answer.value
              && CaseLedger(k, After(k, step.next, more, |more|), suite, caseId) == CaseLedger(k, step.next, suite, caseId)
  {
    ReachableInv(k, before);
    var db := After(k, EMPTY, before, |before|);
    var step := CloseCaseStep(k, db, suite, caseId, now);
    ClosureIsReadable(k, db, suite, caseId, now);
    hide After, CloseCaseStep, CaseLedger, CallInv, Scoped, Named, Ordered, CaseSealed, SuiteSealed, Evolves;
    if step.answer.Ok? {
      CloseCaseKeepsInv(k, db, suite, caseId, now);
      EvidenceStays(k, step.next, more, |more|, suite, caseId);
    }
  }

  lemma {:induction false} SpentStays(k: Contract, db: Database, es: seq<Event>, from: nat, to: nat, digest: Digest)
    requires Inv(k, db) && from <= to <= |es|
    requires digest in After(k, db, es, from).capabilities
    requires After(k, db, es, from).capabilities[digest].status != Issued
    ensures digest in After(k, db, es, to).capabilities && After(k, db, es, to).capabilities[digest].status != Issued
  {
    hide Next, Inv;
    if from < to {
      SpentStays(k, db, es, from, to - 1, digest);
      RunKeepsInv(k, db, es, to - 1);
      NextKeepsInv(k, After(k, db, es, to - 1), es[to - 1]);
    }
  }

  /** One use: however the requests interleave, a token that was granted once is refused at every later attempt. */
  lemma GrantedOnce(k: Contract, es: seq<Event>, i: nat, j: nat)
    requires ValidContract(k) && i < j < |es| && es[i].Reserving? && es[j].Reserving?
    requires es[i].token.digest == es[j].token.digest
    requires ReserveStep(After(k, EMPTY, es, i), es[i].token, es[i].model, es[i].now).answer.Ok?
    ensures ReserveStep(After(k, EMPTY, es, j), es[j].token, es[j].model, es[j].now).answer.Refused?
  {
    hide InScope, Inv, Evolves;
    ReachableInv(k, []);
    assert After(k, EMPTY, es, i + 1).capabilities[es[i].token.digest].status == Reserved;
    SpentStays(k, EMPTY, es, i + 1, j, es[i].token.digest);
  }
}
