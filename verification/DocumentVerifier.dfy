/**
 The P02 case verifier: one pass over the two calls of a closed ledger record, compared with the worker's own account
 and with an independent read of the stored source. Fields of the wrong type or missing are rejected by the original
 and have no counterpart in these typed records.
 */
module DocumentVerifier {
  import opened Results
  import opened CallLedger
  import DocumentProvider
  import Text

  /** What the verifier expects of a case. */
  datatype Case = Case(suite: Id, execution: Id, valid: bool, title: string, text: string)

  datatype Settings = Settings(source: Digest, runner: Digest, bucket: string, mode: string, native: bool)

  /** The worker's account of one call, and of the SDK clients it made. */
  datatype Local = Local(operation: Operation, complete: bool, http: int, request: Digest, response: Digest,
                         native: bool, service: string, sdkOperation: string)

  datatype Client = Client(service: string, region: string, native: bool)

  datatype WorkerStatus = Returned | Rejected | OtherStatus

  /** The raw SDK responses the worker kept; `vector` is `None` when the vector is not 1024 finite numbers. */
  datatype Native = Native(store: Id, http: int, vector: Option<Digest>, tokens: int)

  datatype Worker = Worker(source: Digest, status: WorkerStatus, native: bool, mode: string, clients: Option<seq<Client>>,
                           calls: seq<Local>, result: Option<(Response, Response)>, raw: Option<Native>)

  /** The learner's execution record. */
  datatype Learner = Learner(finished: bool, closure: bool, suite: Id, execution: Id, source: Digest, runner: Digest,
                             started: real, closed: real, worker: Worker)

  /** An independent read of the stored source. */
  datatype Reading = Reading(mode: string, key: string, source: Digest, size: nat, id: Id)

  datatype Verdict = Verdict(calls: nat, providers: seq<Id>, reading: Option<Id>)

  function SourceText(c: Case): string { "# " + c.title + "\n\n" + c.text + "\n" }

  function PayloadAt(c: Case, i: nat): Payload {
    if i == 0 then StorePayload(DocumentProvider.SourceKey(c.execution), SourceText(c)) else EmbedPayload(c.text)
  }

  function OperationAt(i: nat): Operation { if i == 0 then StoreSource else Embed }

  // ---------------------------------------------------------------- what acceptance means

  predicate KnownMode(mode: string) { mode == "aws" || mode == "contract" }

  /** The record is this case's, of these builds, closed within 180 seconds, as the learner's record says. */
  predicate HeaderMatches(z: Settings, c: Case, l: Learner, e: Execution) {
    && e.closed.Some? && l.finished && l.closure
    && e.suite == c.suite == l.suite && l.execution == c.execution
    && e.source == z.source == l.source && e.runner == z.runner == l.runner
    && Usable(e.started) && Usable(e.closed.value) && 0.0 <= e.closed.value - e.started < 180.0
    && l.started == e.started && l.closed == e.closed.value
    && l.worker.source == z.source
  }

  predicate ClientsMatch(z: Settings, c: Case, w: Worker) {
    z.native ==>
      && w.native && KnownMode(z.mode) && w.clients.Some?
      && var clients := w.clients.value;
         if c.valid then
           && w.mode == z.mode && |clients| == 2
           && {clients[0].service, clients[1].service} == {"s3", "bedrock-runtime"}
           && forall i :: 0 <= i < 2 ==> clients[i].region == "us-east-1" && clients[i].native
         else clients == []
  }

  /** Call `i` is the operation, number and payload of the case, complete, and the worker reports the same. */
  predicate CallMatches(z: Settings, c: Case, call: Call, local: Local, i: nat) {
    && (z.native ==> && local.native && local.service == (if i == 0 then "s3" else "bedrock-runtime")
                     && local.sdkOperation == (if i == 0 then "PutObject" else "InvokeModel"))
    && call.operation == OperationAt(i) && call.sequence == i + 1 && call.status == Complete
    && Usable(call.started) && call.finished.Some? && Usable(call.finished.value)
    && call.request == OfPayload(PayloadAt(c, i))
    && local.operation == OperationAt(i) && local.complete && local.http == 200 && local.request == call.request
    && call.response.Some? && local.response == OfResponse(call.response.value)
    && call.response.value.provider.Some? && Bounded(call.response.value.provider.value)
  }

  predicate EvidenceMatches(z: Settings, c: Case, stored: Body, embedded: Body, r: Reading) {
    && KnownMode(z.mode) && stored.Stored? && embedded.Embedded?
    && stored.mode == z.mode && embedded.mode == z.mode && r.mode == z.mode
    && stored.key == DocumentProvider.SourceKey(c.execution)
    && stored.uri == DocumentProvider.SourceUri(z.bucket, stored.key)
    && stored.source == OfBytes(SourceText(c)) && stored.size == Text.Utf8Length(SourceText(c))
    && r.key == stored.key && r.source == OfBytes(SourceText(c)) && r.size == Text.Utf8Length(SourceText(c))
    && embedded.model == DocumentProvider.MODEL && embedded.input == OfBytes(c.text)
    && embedded.dimension == 1024 && embedded.tokens > 0
    && -0.001 < embedded.norm - 1.0 < 0.001
  }

  predicate RawMatches(z: Settings, w: Worker, first: Response, second: Body)
    requires first.provider.Some? && second.Embedded?
  {
    z.native ==>
      && w.raw.Some? && w.raw.value.store == first.provider.value && w.raw.value.http == 200
      && w.raw.value.vector == Some(second.vector) && w.raw.value.tokens == second.tokens
  }

  /** What an accepted valid case looks like, without reference to the order of checking. */
  predicate ValidCase(z: Settings, c: Case, l: Learner, e: Execution, r: Reading) {
    && e.closed.Some? && l.worker.status == Returned && |e.calls| == 2 && |l.worker.calls| == 2
    && CallMatches(z, c, e.calls[0], l.worker.calls[0], 0)
    && CallMatches(z, c, e.calls[1], l.worker.calls[1], 1)
    && e.started <= e.calls[0].started <= e.calls[0].finished.value
       <= e.calls[1].started <= e.calls[1].finished.value <= e.closed.value
    && var first, second := e.calls[0].response.value, e.calls[1].response.value;
       && first.provider.value != second.provider.value
       && EvidenceMatches(z, c, first.body, second.body, r)
       && Bounded(r.id) && r.id != first.provider.value && r.id != second.provider.value
       && l.worker.result == Some((first, second))
       && RawMatches(z, l.worker, first, second.body)
  }

  predicate Acceptable(z: Settings, c: Case, l: Learner, e: Execution, r: Reading) {
    && HeaderMatches(z, c, l, e)
    && ClientsMatch(z, c, l.worker)
    && if c.valid then ValidCase(z, c, l, e, r)
       else l.worker.status == Rejected && e.calls == [] && l.worker.calls == []
  }

  // ---------------------------------------------------------------- the one-pass check

  /** `verify_case`: accepts exactly the acceptable records, and names the provider requests in order. */
  method VerifyCase(z: Settings, c: Case, l: Learner, e: Execution, r: Reading) returns (verdict: Option<Verdict>)
    ensures verdict.Some? <==> Acceptable(z, c, l, e, r)
    ensures verdict.Some? && !c.valid ==> verdict.value == Verdict(0, [], None)
    ensures verdict.Some? && c.valid ==>
              verdict.value == Verdict(2, [e.calls[0].response.value.provider.value,
                                           e.calls[1].response.value.provider.value], Some(r.id))
  {
    hide EvidenceMatches, ClientsMatch, RawMatches, CallMatches;
    if !HeaderMatches(z, c, l, e) { return None; }
    if !ClientsMatch(z, c, l.worker) { return None; }
    var calls, locals := e.calls, l.worker.calls;
    if !c.valid {
      if l.worker.status != Rejected || calls != [] || locals != [] { return None; }
      return Some(Verdict(0, [], None));
    }
    if l.worker.status != Returned || |calls| != 2 || |locals| != 2 { return None; }
    var previousEnd := e.started;
    var identities: seq<Id> := [];
    var index := 0;
    while index < 2
      invariant 0 <= index <= 2 && |identities| == index
      invariant forall i :: 0 <= i < index ==> Checked(z, c, calls[i], locals[i], i)
      invariant forall i :: 0 <= i < index ==> identities[i] == calls[i].response.value.provider.value
      invariant previousEnd == if index == 0 then e.started else calls[index - 1].finished.value
      invariant index > 0 ==> e.started <= calls[0].started <= calls[0].finished.value <= e.closed.value
      invariant index > 1 ==> calls[0].finished.value <= calls[1].started <= calls[1].finished.value <= e.closed.value
      invariant index > 1 ==> identities[0] != identities[1]
    {
      var call, local := calls[index], locals[index];
      if !CallMatches(z, c, call, local, index) { return None; }
      assert Checked(z, c, call, local, index) by { MatchedIsChecked(z, c, call, local, index); }
      if !(previousEnd <= call.started <= call.finished.value <= e.closed.value) { return None; }
      previousEnd := call.finished.value;
      var identity := call.response.value.provider.value;
      if identity in identities { return None; }
      identities := identities + [identity];
      index := index + 1;
    }
    var stored, embedded := calls[0].response.value.body, calls[1].response.value.body;
    if !EvidenceMatches(z, c, stored, embedded, r) { return None; }
    if !Bounded(r.id) || r.id in identities { return None; }
    if l.worker.result != Some((calls[0].response.value, calls[1].response.value)) { return None; }
    assert embedded.Embedded? by { EvidenceIsEmbedded(z, c, stored, embedded, r); }
    if !RawMatches(z, l.worker, calls[0].response.value, embedded) { return None; }
    verdict := Some(Verdict(2, identities, Some(r.id)));
  }

  predicate Checked(z: Settings, c: Case, call: Call, local: Local, i: nat) {
    && CallMatches(z, c, call, local, i)
    && call.finished.Some? && call.response.Some? && call.response.value.provider.Some?
  }

  lemma MatchedIsChecked(z: Settings, c: Case, call: Call, local: Local, i: nat)
    requires CallMatches(z, c, call, local, i)
    ensures Checked(z, c, call, local, i)
  {
  }

  lemma EvidenceIsEmbedded(z: Settings, c: Case, stored: Body, embedded: Body, r: Reading)
    requires EvidenceMatches(z, c, stored, embedded, r)
    ensures embedded.Embedded?
  {
  }

  // ---------------------------------------------------------------- what the ledger guarantees the verifier

  /** The case ran: its payloads were reserved in order, both calls completed, and it closed within 180 seconds. */
  predicate Ran(z: Settings, c: Case, e: Execution) {
    && e.suite == c.suite && e.source == z.source && e.runner == z.runner
    && e.closed.Some? && e.closed.value - e.started < 180.0
    && |e.calls| == 2
    && forall i :: 0 <= i < 2 ==>
         && e.calls[i].operation == OperationAt(i) && e.calls[i].status == Complete
         && e.calls[i].request == OfPayload(PayloadAt(c, i))
  }

  /** The worker reports what happened: each call's request and response, the result, and its SDK clients. */
  predicate Reports(z: Settings, c: Case, l: Learner, e: Execution)
    requires Ran(z, c, e)
  {
    && l.finished && l.closure && l.suite == c.suite && l.execution == c.execution
    && l.source == z.source && l.runner == z.runner && l.worker.source == z.source
    && l.started == e.started && l.closed == e.closed.value
    && l.worker.status == Returned && |l.worker.calls| == 2 && ClientsMatch(z, c, l.worker)
    && (forall i :: 0 <= i < 2 ==> e.calls[i].response.Some? ==>
          l.worker.calls[i] == Local(OperationAt(i), true, 200, e.calls[i].request, OfResponse(e.calls[i].response.value),
                                     z.native, if i == 0 then "s3" else "bedrock-runtime",
                                     if i == 0 then "PutObject" else "InvokeModel"))
    && (e.calls[0].response.Some? && e.calls[1].response.Some? ==>
          && l.worker.result == Some((e.calls[0].response.value, e.calls[1].response.value))
          && (e.calls[0].response.value.provider.Some? && e.calls[1].response.value.body.Embedded? ==>
                RawMatches(z, l.worker, e.calls[0].response.value, e.calls[1].response.value.body)))
  }

  /** The stored source reads back as it was written, under a request of its own. */
  predicate ReadsBack(z: Settings, c: Case, e: Execution, r: Reading) {
    && r.mode == z.mode && r.key == DocumentProvider.SourceKey(c.execution)
    && r.source == OfBytes(SourceText(c)) && r.size == Text.Utf8Length(SourceText(c))
    && Bounded(r.id)
    && forall i :: 0 <= i < |e.calls| ==> Entry(e.calls[i], ProviderColumn) != Some(r.id)
  }

  predicate Normalised(e: Execution) {
    && |e.calls| == 2 && e.calls[1].response.Some? && e.calls[1].response.value.body.Embedded?
    && -0.001 < e.calls[1].response.value.body.norm - 1.0 < 0.001
  }

  lemma ChainHolds(e: Execution, t: real)
    requires Shaped(Document, e) && InOrder(e, t) && e.closed.Some? && |e.calls| == 2
    requires forall i :: 0 <= i < 2 ==> e.calls[i].status == Complete
    ensures e.calls[0].finished.Some? && e.calls[1].finished.Some?
    ensures 0.0 < e.started <= e.calls[0].started <= e.calls[0].finished.value
              <= e.calls[1].started <= e.calls[1].finished.value <= e.closed.value
  {
  }

  lemma ProvidersDiffer(db: Database, x: Id)
    requires Unique(db, ProviderColumn) && x in db && |db[x].calls| == 2
    requires Entry(db[x].calls[0], ProviderColumn).Some?
    ensures Entry(db[x].calls[0], ProviderColumn) != Entry(db[x].calls[1], ProviderColumn)
  {
    var first := Entry(db[x].calls[0], ProviderColumn).value;
    var one, two := Place(x, 0), Place(x, 1);
    assert one != two && Holds(db, ProviderColumn, one, first);
    assert !Holds(db, ProviderColumn, two, first);
  }

  /** What the ledger guarantees about a closed execution with two complete calls. */
  ghost predicate Guaranteed(e: Execution) {
    && e.closed.Some? && |e.calls| == 2
    && (forall i :: 0 <= i < 2 ==> Filled(Document, e.calls[i]) && e.calls[i].sequence == i + 1)
    && e.calls[0].finished.Some? && e.calls[1].finished.Some?
    && 0.0 < e.started <= e.calls[0].started <= e.calls[0].finished.value
         <= e.calls[1].started <= e.calls[1].finished.value <= e.closed.value
    && Entry(e.calls[0], ProviderColumn) != Entry(e.calls[1], ProviderColumn)
  }

  /** The evidence recorded for the case is the adapter's own. */
  lemma RecordedEvidence(bucket: string, mode: string, z: Settings, c: Case, e: Execution, r: Reading)
    requires Ran(z, c, e) && z.bucket == bucket && z.mode == mode && KnownMode(mode) && ReadsBack(z, c, e, r)
    requires Guaranteed(e) && forall i :: 0 <= i < 2 ==> DocumentProvider.Honest(bucket, mode, c.execution, e.calls[i])
    ensures e.calls[0].response.Some? && e.calls[1].response.Some?
    ensures e.calls[1].response.value.body.Embedded?
    ensures EvidenceMatches(z, c, e.calls[0].response.value.body, e.calls[1].response.value.body, r) <==> Normalised(e)
  {
    assert e.calls[0].operation == StoreSource && e.calls[1].operation == Embed;
    assert DocumentProvider.Honest(bucket, mode, c.execution, e.calls[0]);
    assert DocumentProvider.Honest(bucket, mode, c.execution, e.calls[1]);
  }

  lemma GoodRecord(bucket: string, mode: string, s: DocumentProvider.System, t: real, x: Id)
    requires DocumentProvider.Good(bucket, mode, s, t) && x in s.db && s.db[x].closed.Some? && |s.db[x].calls| == 2
    requires forall i :: 0 <= i < 2 ==> s.db[x].calls[i].status == Complete
    ensures Guaranteed(s.db[x])
    ensures forall i :: 0 <= i < 2 ==> DocumentProvider.Honest(bucket, mode, x, s.db[x].calls[i])
  {
    hide Unique, DocumentProvider.Honest, DocumentProvider.Linked;
    var e := s.db[x];
    assert Shaped(Document, e) && InOrder(e, t);
    ChainHolds(e, t);
    assert Filled(Document, e.calls[0]) && Filled(Document, e.calls[1]);
    ProvidersDiffer(s.db, x);
  }

  lemma ReportedIsAcceptable(z: Settings, c: Case, l: Learner, e: Execution, r: Reading)
    requires c.valid && Ran(z, c, e) && Reports(z, c, l, e) && ReadsBack(z, c, e, r) && Guaranteed(e)
    requires e.calls[0].response.Some? && e.calls[1].response.Some? && e.calls[1].response.value.body.Embedded?
    ensures Acceptable(z, c, l, e, r)
       <==> EvidenceMatches(z, c, e.calls[0].response.value.body, e.calls[1].response.value.body, r)
  {
    hide EvidenceMatches, ClientsMatch, RawMatches;
    assert Filled(Document, e.calls[0]) && Filled(Document, e.calls[1]);
    assert CallMatches(z, c, e.calls[0], l.worker.calls[0], 0);
    assert CallMatches(z, c, e.calls[1], l.worker.calls[1], 1);
    hide CallMatches, Filled, Ran;
  }

  /** Completeness: after any interleaving on a clock that does not run backwards, a case that ran through the
      provider and closed in time, and is truthfully reported, is accepted exactly when its vector is normalised:
      the ledger alone guarantees every number, order, digest and identity check. */
  lemma RunIsAccepted(bucket: string, mode: string, es: seq<DocumentProvider.Event>, z: Settings, c: Case, l: Learner,
                      r: Reading)
    requires DocumentProvider.Steady(es) && (mode == "aws" || mode == "contract")
    requires z.bucket == bucket && z.mode == mode && c.valid
    requires c.execution in DocumentProvider.After(bucket, mode, es, |es|).db
    requires var e := DocumentProvider.After(bucket, mode, es, |es|).db[c.execution];
             Ran(z, c, e) && Reports(z, c, l, e) && ReadsBack(z, c, e, r)
    ensures var e := DocumentProvider.After(bucket, mode, es, |es|).db[c.execution];
            Acceptable(z, c, l, e, r) <==> Normalised(e)
  {
    var s := DocumentProvider.After(bucket, mode, es, |es|);
    var t := if |es| > 0 then es[|es| - 1].now else 0.0;
    DocumentProvider.RunKeepsGood(bucket, mode, es, |es|, t);
    hide *;
    GoodRecord(bucket, mode, s, t, c.execution);
    RecordedEvidence(bucket, mode, z, c, s.db[c.execution], r);
    ReportedIsAcceptable(z, c, l, s.db[c.execution], r);
  }

  /** The recorded response of call `i` is what the adapter builds for the case's own payload. */
  ghost predicate Provided(bucket: string, mode: string, c: Case, call: Call, i: nat) {
    call.response.Some? && exists reply ::
      DocumentProvider.Evidence(bucket, mode, c.execution, OperationAt(i), PayloadAt(c, i), reply)
      == Answered(call.response.value)
  }

  lemma MatchedIsProvided(bucket: string, mode: string, z: Settings, c: Case, call: Call, local: Local, i: nat)
    requires CallMatches(z, c, call, local, i) && DocumentProvider.Honest(bucket, mode, c.execution, call)
    ensures Provided(bucket, mode, c, call, i)
  {
    hide DocumentProvider.Evidence, PayloadAt;
    var reply :| DocumentProvider.Evidence(bucket, mode, c.execution, call.operation, call.request.payload, reply)
      == Answered(call.response.value);
    assert DocumentProvider.Evidence(bucket, mode, c.execution, OperationAt(i), PayloadAt(c, i), reply)
        == Answered(call.response.value);
  }

  /** An object's address names its bucket. */
  lemma SameBucket(a: string, b: string, key: string)
    requires DocumentProvider.SourceUri(a, key) == DocumentProvider.SourceUri(b, key)
    ensures a == b
  {
    var x, y := DocumentProvider.SourceUri(a, key), DocumentProvider.SourceUri(b, key);
    assert |x| == 5 + |a| + 1 + |key| && |y| == 5 + |b| + 1 + |key|;
    assert a == x[5..5 + |a|] && b == y[5..5 + |b|];
  }

  /** Soundness against any report: whatever the worker and the reading claim, and on any clock, a valid case is
      accepted only if this very system, in this mode and bucket, stored the case's text and embedded it. */
  lemma AcceptedWasProvided(bucket: string, mode: string, es: seq<DocumentProvider.Event>, z: Settings, c: Case,
                            l: Learner, r: Reading)
    requires c.execution in DocumentProvider.After(bucket, mode, es, |es|).db && c.valid
    requires Acceptable(z, c, l, DocumentProvider.After(bucket, mode, es, |es|).db[c.execution], r)
    ensures var e := DocumentProvider.After(bucket, mode, es, |es|).db[c.execution];
            && z.bucket == bucket && z.mode == mode && |e.calls| == 2
            && Provided(bucket, mode, c, e.calls[0], 0) && Provided(bucket, mode, c, e.calls[1], 1)
  {
    DocumentProvider.RunKeepsHonest(bucket, mode, es, |es|);
    var db := DocumentProvider.After(bucket, mode, es, |es|).db;
    hide DocumentProvider.After, DocumentProvider.Honest, DocumentProvider.Linked, CallMatches, RawMatches, ClientsMatch;
    hide HeaderMatches;
    var e := db[c.execution];
    assert DocumentProvider.Honest(bucket, mode, c.execution, e.calls[0])
           && DocumentProvider.Honest(bucket, mode, c.execution, e.calls[1]);
    MatchedIsProvided(bucket, mode, z, c, e.calls[0], l.worker.calls[0], 0);
    MatchedIsProvided(bucket, mode, z, c, e.calls[1], l.worker.calls[1], 1);
    StoredHere(bucket, mode, z, c, e.calls[0], e.calls[1].response.value.body, r);
  }

  lemma StoredHere(bucket: string, mode: string, z: Settings, c: Case, call: Call, embedded: Body, r: Reading)
    requires Provided(bucket, mode, c, call, 0) && EvidenceMatches(z, c, call.response.value.body, embedded, r)
    ensures z.bucket == bucket && z.mode == mode
  {
    SameBucket(bucket, z.bucket, DocumentProvider.SourceKey(c.execution));
  }

  /** Soundness: an accepted valid case holds exactly two completed calls, the store before the embedding and not
      overlapping it, inside an interval shorter than 180 seconds, for the case's own text, under three different
      provider requests. */
  lemma AcceptedIsSequential(z: Settings, c: Case, l: Learner, e: Execution, r: Reading)
    requires Acceptable(z, c, l, e, r) && c.valid
    ensures |e.calls| == 2 && e.closed.Some? && forall i :: 0 <= i < 2 ==> e.calls[i].status == Complete
    ensures e.calls[0].operation == StoreSource && e.calls[1].operation == Embed
    ensures e.calls[0].finished.Some? && e.calls[1].finished.Some?
    ensures e.started <= e.calls[0].started && e.calls[0].finished.value <= e.calls[1].started
            && e.calls[1].finished.value <= e.closed.value < e.started + 180.0
    ensures e.calls[0].request == OfPayload(StorePayload("h02/knowledge/" + c.execution.text + ".md",
                                                         "# " + c.title + "\n\n" + c.text + "\n"))
    ensures e.calls[1].request == OfPayload(EmbedPayload(c.text))
    ensures Entry(e.calls[0], ProviderColumn).Some? && Entry(e.calls[1], ProviderColumn).Some?
    ensures Distinct([Entry(e.calls[0], ProviderColumn).value, Entry(e.calls[1], ProviderColumn).value, r.id])
  {
    hide EvidenceMatches, ClientsMatch, RawMatches;
    assert CallMatches(z, c, e.calls[0], l.worker.calls[0], 0) && CallMatches(z, c, e.calls[1], l.worker.calls[1], 1);
  }

  /** What an accepted valid case leaves open of its evidence: the stored object and the reading are fixed by the case, the
      bucket and the mode, and of the embedding only the vector, its token count and its norm within 0.001 are free. */
  lemma AcceptedEvidenceIs(z: Settings, c: Case, l: Learner, e: Execution, r: Reading)
    requires Acceptable(z, c, l, e, r) && c.valid
    ensures |e.calls| == 2 && e.calls[0].response.Some? && e.calls[1].response.Some?
    ensures var key, text := "h02/knowledge/" + c.execution.text + ".md", "# " + c.title + "\n\n" + c.text + "\n";
            var size, embedded := Text.Utf8Length(text), e.calls[1].response.value.body;
            && e.calls[0].response.value.body == Stored(z.mode, key, "s3://" + z.bucket + "/" + key, OfBytes(text), size)
            && r == Reading(z.mode, key, OfBytes(text), size, r.id)
            && embedded.Embedded?
            && embedded == Embedded(z.mode, "amazon.titan-embed-text-v2:0", OfBytes(c.text), embedded.tokens, 1024,
                                    embedded.norm, embedded.vector)
            && 1 <= embedded.tokens && 0.999 < embedded.norm && embedded.norm < 1.001
            && (z.native ==> l.worker.raw.Some? && l.worker.raw.value.http == 200)
  {
    hide ClientsMatch, CallMatches, HeaderMatches;
    assert CallMatches(z, c, e.calls[0], l.worker.calls[0], 0) && CallMatches(z, c, e.calls[1], l.worker.calls[1], 1);
    assert e.calls[0].response.Some? by { MatchedIsChecked(z, c, e.calls[0], l.worker.calls[0], 0); }
    assert e.calls[1].response.Some? by { MatchedIsChecked(z, c, e.calls[1], l.worker.calls[1], 1); }
    assert EvidenceMatches(z, c, e.calls[0].response.value.body, e.calls[1].response.value.body, r);
  }

  /** Whatever the order in which a worker lists its two SDK clients. */
  predicate SameClients(a: seq<Client>, b: seq<Client>) {
    a == b || (|a| == 2 && b == [a[1], a[0]])
  }

  /** The evidence leaves the learner nothing to choose: under native checks, two reports that are accepted for the same
      record are the same report, up to the order of the clients, and two accepted readings differ in their request
      identifier only. */
  lemma AcceptedReportsAgree(z: Settings, c: Case, e: Execution, l: Learner, m: Learner, r: Reading, q: Reading)
    requires z.native && c.valid && Acceptable(z, c, l, e, r) && Acceptable(z, c, m, e, q)
    ensures l.worker.clients.Some? && m.worker.clients.Some?
            && SameClients(l.worker.clients.value, m.worker.clients.value)
    ensures m.(worker := m.worker.(clients := l.worker.clients)) == l
    ensures q.(id := r.id) == r
  {
    ClientsAgree(z, c, l.worker, m.worker);
    LocalsAgree(z, c, e, l, m);
    hide ClientsMatch, CallMatches, SameClients;
  }

  /** Under native checks the worker of a valid case used exactly one S3 and one Bedrock client, in either order, both
      native and in the one region. */
  lemma ClientsMatchIff(z: Settings, c: Case, w: Worker)
    requires z.native && c.valid
    ensures var s3, bedrock := Client("s3", "us-east-1", true), Client("bedrock-runtime", "us-east-1", true);
            ClientsMatch(z, c, w) <==>
            && w.native && KnownMode(z.mode) && w.mode == z.mode
            && (w.clients == Some([s3, bedrock]) || w.clients == Some([bedrock, s3]))
  {
    if w.clients.Some? && |w.clients.value| == 2 {
      var a := w.clients.value;
      assert a == [a[0], a[1]];
      assert a[0].service in {a[0].service, a[1].service} && a[1].service in {a[0].service, a[1].service};
      assert "s3" in {"s3", "bedrock-runtime"} && "bedrock-runtime" in {"s3", "bedrock-runtime"};
      assert "s3" != "bedrock-runtime";
    }
  }

  lemma ClientsAgree(z: Settings, c: Case, w: Worker, v: Worker)
    requires z.native && c.valid && ClientsMatch(z, c, w) && ClientsMatch(z, c, v)
    ensures w.clients.Some? && v.clients.Some? && SameClients(w.clients.value, v.clients.value)
    ensures w.native && v.native && w.mode == v.mode == z.mode
  {
    var a, b := w.clients.value, v.clients.value;
    assert {a[0].service, a[1].service} == {b[0].service, b[1].service};
    assert a[0].service in {"s3", "bedrock-runtime"} && "s3" in {a[0].service, a[1].service};
    assert a[1].service in {a[0].service, a[1].service} && "bedrock-runtime" in {a[0].service, a[1].service};
    assert b[0].service in {"s3", "bedrock-runtime"} && b[1].service in {"s3", "bedrock-runtime"};
    assert "s3" in {b[0].service, b[1].service} && "bedrock-runtime" in {b[0].service, b[1].service};
    assert a[0].service == b[0].service || a[0].service == b[1].service;
    if a[0].service == b[0].service {
      assert a == [a[0], a[1]] && b == [b[0], b[1]];
    } else {
      assert b == [b[0], b[1]] && a[1] == b[0] && a[0] == b[1];
    }
  }

  lemma LocalsAgree(z: Settings, c: Case, e: Execution, l: Learner, m: Learner)
    requires z.native && c.valid && |e.calls| == 2 && |l.worker.calls| == 2 && |m.worker.calls| == 2
    requires forall i :: 0 <= i < 2 ==> CallMatches(z, c, e.calls[i], l.worker.calls[i], i)
    requires forall i :: 0 <= i < 2 ==> CallMatches(z, c, e.calls[i], m.worker.calls[i], i)
    ensures l.worker.calls == m.worker.calls
  {
    assert l.worker.calls[0] == m.worker.calls[0] && l.worker.calls[1] == m.worker.calls[1];
  }

  /** An accepted invalid case called nobody: no call was reserved, none is reported, and the worker rejected it without
      making an SDK client. */
  lemma AcceptedInvalidIsEmpty(z: Settings, c: Case, l: Learner, e: Execution, r: Reading)
    requires Acceptable(z, c, l, e, r) && !c.valid
    ensures e.calls == [] && l.worker.calls == [] && l.worker.status == Rejected
    ensures z.native ==> l.worker.clients == Some([])
    ensures e.closed.Some? && e.closed.value < e.started + 180.0 && e.suite == c.suite
  {
  }
}
