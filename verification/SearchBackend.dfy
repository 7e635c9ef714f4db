/**
 One P03 provider call of a registered suite, against a journal that other requests change while it runs.
 The suite copied a resource snapshot when it was prepared; the call compares the copy with the journal before
 and after each SDK call.
 */
module SearchBackend {
  import opened Results
  import opened Text
  import opened SearchJournal

  const PREPARE_SECONDS := 30.0

  /** An SDK response; `Malformed` stands for every shape the adapter cannot read. */
  datatype Response<T> = Malformed | Response(httpStatus: int, requestId: string, body: T)

  datatype Job = Job(
    id: string, knowledgeBase: string, dataSource: string, status: string, statistics: map<string, int>)

  /** `rest` stands for the text, the score and the metadata. */
  datatype Hit = Hit(kind: string, uri: string, rest: string)

  datatype Hits = Hits(results: seq<Hit>, nextToken: string)

  datatype Observation = Observation(binding: Binding, status: string, statistics: map<string, int>, requestId: string)

  datatype Retrieval = Retrieval(binding: Binding, requestId: string, observed: Observation, results: seq<Hit>)

  const STATUSES := {"STARTING", "IN_PROGRESS", "COMPLETE", "FAILED", "STOPPING", "STOPPED"}

  /** What the suite's preparation stores: the snapshot its reader returned, if it was valid and in time. */
  function BindSuite(reading: Outcome<Snapshot>, started: real, finished: real): Option<Snapshot> {
    if reading.Ok? && ValidSnapshot(reading.value) && Usable(finished) && 0.0 <= finished - started < PREPARE_SECONDS
    then Some(reading.value)
    else None
  }

  /** `current_resources`: the reader must return exactly what the suite was bound to. */
  predicate Current(expected: Snapshot, reading: Outcome<Snapshot>) {
    reading.Ok? && ValidSnapshot(reading.value) && reading.value == expected
  }

  /** The binding the factory gives the adapter: the suite's own alias for the job. */
  function Aliased(expected: Snapshot, job: string): Binding
    requires expected.binding.Some?
  {
    expected.binding.value.(currentJob := job)
  }

  /** `request_id`: a successful response with a usable identity. */
  predicate HasIdentity<T>(r: Response<T>) {
    && r.Response?
    && r.httpStatus == 200
    && 1 <= |r.requestId| <= 256
    && exists i :: 0 <= i < |r.requestId| && !Blank(r.requestId[i])
  }

  predicate StatusOk(binding: Binding, r: Response<Job>) {
    && HasIdentity(r)
    && r.body.id == binding.providerJob
    && r.body.knowledgeBase == binding.knowledgeBase
    && r.body.dataSource == binding.dataSource
    && r.body.status in STATUSES
    && forall name :: name in r.body.statistics ==> r.body.statistics[name] >= 0
  }

  predicate HitsOk(binding: Binding, statusId: string, r: Response<Hits>) {
    && HasIdentity(r)
    && |r.body.results| <= 3
    && r.body.nextToken == ""
    && r.requestId != statusId
    && forall i :: 0 <= i < |r.body.results| ==> r.body.results[i].kind == "S3" && binding.prefix < r.body.results[i].uri
  }

  /** `job_status`, with the reader's answers at its two comparisons; `None` is any exception. */
  function JobStatus(expected: Snapshot, job: string, before: Outcome<Snapshot>, r: Response<Job>,
                     after: Outcome<Snapshot>): Option<Observation>
    requires expected.binding.Some?
  {
    var binding := Aliased(expected, job);
    if Current(expected, before) && StatusOk(binding, r) && Current(expected, after)
    then Some(Observation(binding, r.body.status, r.body.statistics, r.requestId))
    else None
  }

  /** `RegisteredBackend.retrieve` on an AWS suite, whose snapshot has a binding: the reader is consulted when the
      adapter is built, twice by
      `job_status`, and before and after the search. */
  function Retrieve(expected: Snapshot, job: string, readings: seq<Outcome<Snapshot>>,
                    status: Response<Job>, found: Response<Hits>): Option<Retrieval>
    requires |readings| == 5
  {
    if expected.binding.None? || !Current(expected, readings[0]) then None
    else
      var observed := JobStatus(expected, job, readings[1], status, readings[2]);
      if observed.None? then None
      else if observed.value.status != "COMPLETE"
              || "numberOfDocumentsFailed" !in observed.value.statistics
              || observed.value.statistics["numberOfDocumentsFailed"] != 0
      then None
      else if !Current(expected, readings[3]) then None
      else if !HitsOk(observed.value.binding, observed.value.requestId, found) then None
      else if !Current(expected, readings[4]) then None
      else Some(Retrieval(observed.value.binding, found.requestId, observed.value, found.body.results))
  }

  const SUITE_SECONDS := 240.0

  /** A suite row as `lookup` reads it: its state, contract digest, start and stored snapshot. */
  datatype Suite = Suite(prepared: bool, contract: string, started: real, snapshot: Option<Snapshot>)

  /** The row `prepare` leaves: prepared with the bound snapshot, or in error without one. */
  function Prepared(contract: string, started: real, finished: real, reading: Outcome<Snapshot>): Suite {
    var bound := BindSuite(reading, started, finished);
    Suite(bound.Some?, contract, started, bound)
  }

  /** `lookup`, once the job's row names the suite: the stored snapshot of a prepared suite of this contract that is
      younger than 240 seconds. */
  function Lookup(suite: Option<Suite>, contract: string, now: real): Outcome<Snapshot> {
    if suite.None? then Refused(404)
    else if !suite.value.prepared || suite.value.contract != contract
            || !Usable(now) || !(0.0 <= now - suite.value.started < SUITE_SECONDS)
            || suite.value.snapshot.None? || !ValidSnapshot(suite.value.snapshot.value)
    then Refused(409)
    else Ok(suite.value.snapshot.value)
  }

  /** The whole call: `lookup`, then `retrieve` on the stored snapshot. */
  function RegisteredRetrieve(suite: Option<Suite>, contract: string, now: real, job: string,
                              readings: seq<Outcome<Snapshot>>, status: Response<Job>, found: Response<Hits>)
    : Option<Retrieval>
    requires |readings| == 5
  {
    var expected := Lookup(suite, contract, now);
    if expected.Refused? then None else Retrieve(expected.value, job, readings, status, found)
  }

  /** What the provider itself has to answer for the call to succeed: the job the binding names, complete and without
      a failed document, and at most three S3 objects under the binding's prefix, in one page, under another request. */
  ghost predicate Answered(expected: Snapshot, status: Response<Job>, found: Response<Hits>) {
    && expected.binding.Some?
    && status.Response? && found.Response? && status.httpStatus == found.httpStatus == 200
    && 1 <= |status.requestId| <= 256 && (exists c :: c in status.requestId && !Blank(c))
    && 1 <= |found.requestId| <= 256 && (exists c :: c in found.requestId && !Blank(c))
    && status.requestId != found.requestId
    && var binding, job := expected.binding.value, status.body;
       && job.id == binding.providerJob && job.knowledgeBase == binding.knowledgeBase
       && job.dataSource == binding.dataSource && job.status == "COMPLETE"
       && "numberOfDocumentsFailed" in job.statistics && job.statistics["numberOfDocumentsFailed"] == 0
       && (forall name :: name in job.statistics ==> 0 <= job.statistics[name])
       && |found.body.results| <= 3 && found.body.nextToken == ""
       && forall hit :: hit in found.body.results ==> hit.kind == "S3" && binding.prefix < hit.uri
  }

  /** All five readings are the same. */
  ghost predicate AllRead(readings: seq<Outcome<Snapshot>>, reading: Outcome<Snapshot>)
    requires |readings| == 5
  {
    forall i :: 0 <= i < 5 ==> readings[i] == reading
  }

  lemma AnsweredIff(expected: Snapshot, job: string, status: Response<Job>, found: Response<Hits>)
    ensures Answered(expected, status, found)
       <==> && expected.binding.Some? && StatusOk(Aliased(expected, job), status)
            && status.body.status == "COMPLETE"
            && "numberOfDocumentsFailed" in status.body.statistics && status.body.statistics["numberOfDocumentsFailed"] == 0
            && HitsOk(Aliased(expected, job), status.requestId, found)
  {
    if found.Response? {
      assert forall i :: 0 <= i < |found.body.results| ==> found.body.results[i] in found.body.results;
      assert forall i :: 0 <= i < |found.requestId| ==> found.requestId[i] in found.requestId;
    }
    if status.Response? {
      assert forall i :: 0 <= i < |status.requestId| ==> status.requestId[i] in status.requestId;
    }
  }

  /** A call bound to a reading succeeds exactly when the provider answered and every later reading is that one. */
  lemma RetrieveIff(bound: Outcome<Snapshot>, job: string, readings: seq<Outcome<Snapshot>>,
                    status: Response<Job>, found: Response<Hits>)
    requires bound.Ok? && ValidSnapshot(bound.value) && |readings| == 5
    ensures Retrieve(bound.value, job, readings, status, found).Some?
            <==> Answered(bound.value, status, found) && AllRead(readings, bound)
  {
    hide ValidSnapshot, StatusOk, HitsOk, Answered;
    AnsweredIff(bound.value, job, status, found);
    assert AllRead(readings, bound) ==>
        readings[0] == bound && readings[1] == bound && readings[2] == bound && readings[3] == bound && readings[4] == bound;
  }

  /** `job_status` on its own: it succeeds exactly when both readings are the suite's own and the provider named this
      job in one of the six states, with counts that are not negative; and it reports that state and those counts. */
  lemma JobStatusIff(expected: Snapshot, job: string, before: Outcome<Snapshot>, r: Response<Job>,
                     after: Outcome<Snapshot>)
    requires expected.binding.Some? && ValidSnapshot(expected)
    ensures var b, answer := expected.binding.value, JobStatus(expected, job, before, r, after);
            && (answer.Some? <==>
                  && before == after == Ok(expected)
                  && r.Response? && r.httpStatus == 200 && 1 <= |r.requestId| <= 256
                  && (exists c :: c in r.requestId && !Blank(c))
                  && r.body.id == b.providerJob && r.body.knowledgeBase == b.knowledgeBase
                  && r.body.dataSource == b.dataSource
                  && r.body.status in ["STARTING", "IN_PROGRESS", "COMPLETE", "FAILED", "STOPPING", "STOPPED"]
                  && forall name :: name in r.body.statistics ==> 0 <= r.body.statistics[name])
            && (answer.Some? ==>
                  answer.value == Observation(b.(currentJob := job), r.body.status, r.body.statistics, r.requestId))
  {
    hide ValidSnapshot;
    if r.Response? {
      assert forall i :: 0 <= i < |r.requestId| ==> r.requestId[i] in r.requestId;
    }
  }

  /** What the reader returns at the five comparisons, `at[i]` steps after the suite was bound. */
  ghost function Readings(j: Journal, cs: seq<Command>, at: seq<nat>, release: nat): (r: seq<Outcome<Snapshot>>)
    requires |at| == 5 && forall i :: 0 <= i < 5 ==> at[i] <= |cs|
    ensures |r| == 5 && forall i :: 0 <= i < 5 ==> r[i] == Resources(After(j, cs, at[i]), release)
  {
    seq(5, i requires 0 <= i < 5 => Resources(After(j, cs, at[i]), release))
  }

  /** What a suite is bound to is what the journal exposed, and it carries an AWS binding. */
  lemma BoundReading(j: Journal, release: nat, started: real, finished: real, expected: Snapshot)
    requires Valid(j) && BindSuite(Resources(j, release), started, finished) == Some(expected)
    ensures Resources(j, release) == Ok(expected) && expected.binding.Some? && ValidSnapshot(expected)
  {
    hide ValidSnapshot, Resources, Valid;
    ReadsAreBound(j, release);
  }

  lemma ReadingsAgreeIffUntouched(j: Journal, cs: seq<Command>, at: seq<nat>, release: nat)
    requires Valid(j) && Resources(j, release).Ok?
    requires |at| == 5 && (forall i :: 0 <= i < 5 ==> at[i] <= at[4]) && at[4] <= |cs|
    ensures AllRead(Readings(j, cs, at, release), Resources(j, release)) <==> Untouched(j, cs, at[4])
  {
    var r := Readings(j, cs, at, release);
    assert forall i :: 0 <= i < 5 && Untouched(j, cs, at[4]) ==> After(j, cs, at[i]) == j;
    hide Valid, Resources, After, Readings, Untouched;
    ReadableAgainIffUntouched(j, cs, at[4], release);
    if AllRead(r, Resources(j, release)) {
      assert r[4] == Resources(j, release);
    }
  }

  lemma BoundCallSucceedsIff(
      j: Journal, cs: seq<Command>, at: seq<nat>, release: nat, job: string, status: Response<Job>, found: Response<Hits>)
    requires Valid(j) && Resources(j, release).Ok?
    requires |at| == 5 && (forall i :: 0 <= i < 5 ==> at[i] <= at[4]) && at[4] <= |cs|
    ensures ValidSnapshot(Resources(j, release).value)
    ensures Retrieve(Resources(j, release).value, job, Readings(j, cs, at, release), status, found).Some?
            <==> Answered(Resources(j, release).value, status, found) && Untouched(j, cs, at[4])
  {
    hide *;
    ReadsAreBound(j, release);
    RetrieveIff(Resources(j, release), job, Readings(j, cs, at, release), status, found);
    ReadingsAgreeIffUntouched(j, cs, at, release);
  }

  /** The suite can still be looked up. */
  predicate Registered(suite: Suite, contract: string, now: real) {
    suite.prepared && suite.contract == contract && Usable(now) && 0.0 <= now - suite.started < SUITE_SECONDS
  }

  lemma RegisteredRetrieveIff(suite: Suite, snapshot: Snapshot, contract: string, now: real, job: string,
                              readings: seq<Outcome<Snapshot>>, status: Response<Job>, found: Response<Hits>)
    requires |readings| == 5 && ValidSnapshot(snapshot)
    ensures RegisteredRetrieve(Some(suite.(snapshot := Some(snapshot))), contract, now, job, readings, status, found).Some?
       <==> Registered(suite, contract, now) && Retrieve(snapshot, job, readings, status, found).Some?
  {
    hide ValidSnapshot, Retrieve;
  }

  /** A suite stored the snapshot that journal `j` exposed when it was bound. Whatever requests reach the journal
      between that moment and the end of a later call, the call succeeds exactly when the suite can still be looked
      up, the provider answered, and not one of those requests took effect: no new preparation, publication, failure
      or deletion, not even one that was undone. */
  lemma CallSucceedsIffJournalUntouched(
      j: Journal, suite: Suite, contract: string, now: real, cs: seq<Command>, at: seq<nat>, release: nat, job: string,
      status: Response<Job>, found: Response<Hits>)
    requires Valid(j) && Resources(j, release).Ok?
    requires |at| == 5 && (forall i :: 0 <= i < 5 ==> at[i] <= at[4]) && at[4] <= |cs|
    ensures RegisteredRetrieve(Some(suite.(snapshot := Some(Resources(j, release).value))), contract, now, job,
                               Readings(j, cs, at, release), status, found).Some?
       <==> && Registered(suite, contract, now)
            && Answered(Resources(j, release).value, status, found)
            && Untouched(j, cs, at[4])
  {
    hide *;
    BoundCallSucceedsIff(j, cs, at, release, job, status, found);
    RegisteredRetrieveIff(suite, Resources(j, release).value, contract, now, job, Readings(j, cs, at, release), status,
                          found);
  }

  /** From preparation to answer: the call of a suite succeeds exactly when the journal exposed a snapshot within 30
      seconds of the preparation's start, the contract is still the same, the call comes within 240 seconds of that
      start, the provider answered, and no request to the journal took effect in between. */
  lemma PreparedCallIff(
      j: Journal, contract: string, started: real, finished: real, current: string, now: real, cs: seq<Command>,
      at: seq<nat>, release: nat, job: string, status: Response<Job>, found: Response<Hits>)
    requires Valid(j)
    requires |at| == 5 && (forall i :: 0 <= i < 5 ==> at[i] <= at[4]) && at[4] <= |cs|
    ensures RegisteredRetrieve(Some(Prepared(contract, started, finished, Resources(j, release))), current, now, job,
                               Readings(j, cs, at, release), status, found).Some?
       <==> && Resources(j, release).Ok? && Usable(finished) && started <= finished && finished < started + 30.0
            && contract == current && Usable(now) && started <= now && now < started + 240.0
            && Answered(Resources(j, release).value, status, found)
            && Untouched(j, cs, at[4])
  {
    var suite := Prepared(contract, started, finished, Resources(j, release));
    if Resources(j, release).Ok? {
      ReadsAreBound(j, release);
      CallSucceedsIffJournalUntouched(j, suite, current, now, cs, at, release, job, status, found);
    }
    hide Valid, ValidSnapshot, Resources, Readings, Retrieve, Answered, Untouched;
  }

  /** What a successful call returns. */
  lemma RetrieveReturns(expected: Snapshot, job: string, readings: seq<Outcome<Snapshot>>, status: Response<Job>,
                        found: Response<Hits>)
    requires |readings| == 5 && Retrieve(expected, job, readings, status, found).Some?
    ensures expected.binding.Some? && status.Response? && found.Response?
    ensures var r := Retrieve(expected, job, readings, status, found).value;
            && r.results == found.body.results && r.requestId == found.requestId
            && r.binding == r.observed.binding == expected.binding.value.(currentJob := job)
            && r.observed.requestId == status.requestId && r.observed.status == status.body.status
            && r.observed.statistics == status.body.statistics
  {
    hide ValidSnapshot;
  }

  /** Whatever reached the journal in between, the answer of a successful call holds the provider's own hits, request
      identifiers and job statistics, under the suite's alias for the job; and every hit lies under the prefix that the
      journal exposes at the end of the call. */
  lemma AnswerIsTheProviders(
      j: Journal, contract: string, started: real, finished: real, current: string, now: real, cs: seq<Command>,
      at: seq<nat>, release: nat, job: string, status: Response<Job>, found: Response<Hits>)
    requires Valid(j)
    requires |at| == 5 && (forall i :: 0 <= i < 5 ==> at[i] <= at[4]) && at[4] <= |cs|
    ensures var answer := RegisteredRetrieve(Some(Prepared(contract, started, finished, Resources(j, release))), current,
                                             now, job, Readings(j, cs, at, release), status, found);
            var exposed := Resources(After(j, cs, at[4]), release);
            answer.Some? ==>
              && status.Response? && found.Response? && exposed.Ok? && exposed.value.binding.Some?
              && var r, binding := answer.value, exposed.value.binding.value;
                 && r.results == found.body.results && r.requestId == found.requestId
                 && r.observed.requestId == status.requestId && r.observed.statistics == status.body.statistics
                 && r.observed.status == "COMPLETE" && r.requestId != r.observed.requestId
                 && r.binding == r.observed.binding == binding.(currentJob := job)
                 && forall hit :: hit in r.results ==> hit.kind == "S3" && binding.prefix < hit.uri
  {
    var exposed, readings := Resources(j, release), Readings(j, cs, at, release);
    PreparedCallIff(j, contract, started, finished, current, now, cs, at, release, job, status, found);
    assert Untouched(j, cs, at[4]) ==> After(j, cs, at[4]) == j;
    hide Valid, ValidSnapshot, Resources, Readings, Retrieve, Untouched, After, HasIdentity;
    if RegisteredRetrieve(Some(Prepared(contract, started, finished, exposed)), current, now, job, readings, status,
                          found).Some? {
      RetrieveReturns(exposed.value, job, readings, status, found);
    }
  }
}
