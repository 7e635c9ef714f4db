/**
 What an invocation of the P02 provider records and answers, and how its stages refine it.
 */
module ProviderStories {
  import opened Results
  import opened CallLedger
  import opened DocumentProvider
  import Text

  // ---------------------------------------------------------------- the evidence

  /** The payload a store or an embedding may have. */
  ghost predicate Proper(x: Id, op: Operation, payload: Payload) {
    if op == StoreSource
    then payload.StorePayload? && payload.key == "h02/knowledge/" + x.text + ".md" && payload.content != ""
    else payload.EmbedPayload? && 1 <= |payload.text| <= 4000
  }

  /** What the adapter records of the reply. */
  ghost predicate Records(bucket: string, mode: string, payload: Payload, reply: Reply, response: Response) {
    && response.observation.None?
    && match payload
       case StorePayload(key, content) =>
         && reply == PutReply(response.provider)
         && response.body == Stored(mode, key, "s3://" + bucket + "/" + key, OfBytes(content), Text.Utf8Length(content))
       case EmbedPayload(text) =>
         && response.body.Embedded?
         && var b := response.body;
            && b == Embedded(mode, "amazon.titan-embed-text-v2:0", OfBytes(text), b.tokens, 1024, b.norm, b.vector)
            && reply == ModelReply(response.provider, 1024, b.tokens, b.norm, b.vector) && b.tokens >= 1 && b.norm > 0.0
       case OtherPayload(_) => false
  }

  /** The adapter answers exactly for a proper payload and a complete reply under a usable request identifier, and then
      with what it records. */
  lemma EvidenceIs(bucket: string, mode: string, x: Id, op: Operation, payload: Payload, reply: Reply, response: Response)
    ensures Evidence(bucket, mode, x, op, payload, reply) == Answered(response)
       <==> && Proper(x, op, payload) && Records(bucket, mode, payload, reply, response)
            && response.provider.Some? && 1 <= |response.provider.value.text| <= 256
  {
  }

  /** On any clock, over every run, each completed call holds the evidence of the payload it reserved: the key and
      address of the source, its hash and byte length, or the hash of the embedded text with the model's own numbers.
      */
  lemma CompletedCallsHoldEvidence(bucket: string, mode: string, es: seq<DocumentProvider.Event>, x: Id, i: nat)
    requires var db := DocumentProvider.After(bucket, mode, es, |es|).db;
             x in db && i < |db[x].calls| && db[x].calls[i].response.Some?
    ensures var call := DocumentProvider.After(bucket, mode, es, |es|).db[x].calls[i];
            && call.request.OfPayload? && Proper(x, call.operation, call.request.payload)
            && exists reply :: Records(bucket, mode, call.request.payload, reply, call.response.value)
  {
    RunKeepsHonest(bucket, mode, es, |es|);
    var call := DocumentProvider.After(bucket, mode, es, |es|).db[x].calls[i];
    hide DocumentProvider.After, Linked;
    assert Honest(bucket, mode, x, call);
    hide Evidence, Proper, Records;
    var reply :| Evidence(bucket, mode, x, call.operation, call.request.payload, reply) == Answered(call.response.value);
    EvidenceIs(bucket, mode, x, call.operation, call.request.payload, reply, call.response.value);
  }

  // ---------------------------------------------------------------- one invocation

  /** What an undisturbed invocation leaves: nothing when it was not reserved; otherwise one new call, of its payload
      and stamped with its first stamp, completed with the very response it answers, or in error at its last stamp. */
  lemma InvokeRecords(db: Database, bucket: string, mode: string, claim: Claim, payload: Payload, fits: bool,
                      reply: Reply, t1: real, t2: real, t3: real)
    ensures
      var step := InvokeStep(db, bucket, mode, claim, payload, fits, reply, t1, t2, t3);
      var x := claim.execution;
      var reserved := fits && ReserveStep(Document, db, claim.(request := Some(OfPayload(payload))), t1).answer.Ok?;
      && (!reserved ==> step.next == db && step.answer.Refused?)
      && (reserved ==>
            && x in db && x in step.next && |step.next[x].calls| == |db[x].calls| + 1
            && (forall y :: y in db && y != x ==> y in step.next && step.next[y] == db[y])
            && step.next[x].calls[..|db[x].calls|] == db[x].calls
            && var call := step.next[x].calls[|db[x].calls|];
               && call.request == OfPayload(payload) && Some(call.operation) == claim.operation && call.started == t1
               && (if step.answer.Ok?
                   then call.status == Complete && call.finished == Some(t2) && call.response == Some(step.answer.value)
                   else call.response == None && (call.finished == Some(t3) || call.status == Pending)))
  {
    hide Used, Evidence;
    var asked := claim.(request := Some(OfPayload(payload)));
    if fits && ReserveStep(Document, db, asked, t1).answer.Ok? {
      ReservedIsLast(db, asked, t1);
    }
  }

  /** An invocation answers exactly when its payload fits, its call is reserved, the adapter answers and the ledger
      accepts the answer. */
  lemma InvokeIff(db: Database, bucket: string, mode: string, claim: Claim, payload: Payload, fits: bool,
                  reply: Reply, t1: real, t2: real, t3: real)
    ensures
      var reserved := ReserveStep(Document, db, claim.(request := Some(OfPayload(payload))), t1);
      InvokeStep(db, bucket, mode, claim, payload, fits, reply, t1, t2, t3).answer.Ok?
      <==> && fits && reserved.answer.Ok?
           && Evidence(bucket, mode, claim.execution, claim.operation.value, payload, reply).Answered?
           && FinishStep(Document, reserved.next, claim.execution, claim.operation.value,
                         Evidence(bucket, mode, claim.execution, claim.operation.value, payload, reply), t2).answer.Ok?
  {
    hide FinishStep, Evidence, Busy;
  }

  /** What a refused invocation answers: 422 for a payload that does not fit, the refusal of its reservation, and after
      that 502 exactly when the call is recorded as an error; only where even that fails, 409 and a pending call. */
  lemma InvokeRefusals(db: Database, bucket: string, mode: string, claim: Claim, payload: Payload, fits: bool,
                       reply: Reply, t1: real, t2: real, t3: real)
    ensures
      var step := InvokeStep(db, bucket, mode, claim, payload, fits, reply, t1, t2, t3);
      var reserved := ReserveStep(Document, db, claim.(request := Some(OfPayload(payload))), t1);
      var x := claim.execution;
      if !fits then step == Step(db, Refused(422))
      else if reserved.answer.Refused? then step == Step(db, Refused(reserved.answer.status))
      else
        && x in step.next && |step.next[x].calls| > 0
        && var status := step.next[x].calls[|step.next[x].calls| - 1].status;
           && (step.answer == Refused(502) <==> status == Error)
           && (step.answer == Refused(409) <==> status == Pending)
           && (step.answer.Ok? <==> status == Complete)
  {
    hide Used, Evidence;
    var asked := claim.(request := Some(OfPayload(payload)));
    if fits && ReserveStep(Document, db, asked, t1).answer.Ok? {
      ReservedIsLast(db, asked, t1);
    }
  }

  /** The concurrent stages refine `invoke`: run one after the other with nothing in between, they leave the ledger as
      the undisturbed invocation does, and nothing in flight. */
  lemma StagesRefineInvoke(s: System, bucket: string, mode: string, claim: Claim, payload: Payload, reply: Reply,
                           t1: real, t2: real, t3: real)
    requires claim.operation.Some? && (claim.execution, claim.operation.value) !in s.flights
    ensures
      var x, op := claim.execution, claim.operation.value;
      var s1 := DocumentProvider.Next(bucket, mode, s, Starting(claim, payload, t1));
      var s2 := DocumentProvider.Next(bucket, mode, s1, Settling(x, op, reply, t2));
      var s3 := DocumentProvider.Next(bucket, mode, s2, GivingUp(x, op, t3));
      && s3.db == InvokeStep(s.db, bucket, mode, claim, payload, true, reply, t1, t2, t3).next
      && (x, op) !in s3.flights
  {
    hide FinishStep, Evidence;
    var asked := claim.(request := Some(OfPayload(payload)));
    RefusedReserve(s.db, asked, t1);
    hide ReserveStep;
  }

  lemma RefusedReserve(db: Database, c: Claim, now: real)
    ensures ReserveStep(Document, db, c, now).answer.Refused? ==> ReserveStep(Document, db, c, now).next == db
  {
    hide Busy;
  }

  // ---------------------------------------------------------------- a run as a whole

  /** Registrations and closings reach the ledger in a run: an execution comes into being and closes exactly by the
      requests that may do so. */
  lemma LifeTakesEffect(bucket: string, mode: string, s: System, reg: Registration, token: Digest, x: Id, now: real)
    ensures reg.execution in DocumentProvider.Next(bucket, mode, s, Enrolling(Some(reg), token, now)).db
       <==> || reg.execution in s.db
            || (now > 0.0 && forall y :: y in s.db ==> s.db[y].token != token)
    ensures x in s.db ==>
              var after := DocumentProvider.Next(bucket, mode, s, Ending(x, now)).db;
              x in after
              && (after[x].closed.Some?
                  <==> || s.db[x].closed.Some?
                       || (now > 0.0 && s.db[x].started <= now
                           && forall i :: 0 <= i < |s.db[x].calls| ==>
                                && s.db[x].calls[i].status != Pending
                                && (s.db[x].calls[i].finished.Some? ==> s.db[x].calls[i].finished.value <= now)))
  {
  }

  /** A failing invocation can only be given up, one that is not failing cannot, and a step leaves all others alone. */
  lemma FailingIsFinal(bucket: string, mode: string, s: System, e: DocumentProvider.Event, x: Id, op: Operation)
    requires (x, op) in s.flights
    ensures var after := DocumentProvider.Next(bucket, mode, s, e).flights;
            && (s.flights[(x, op)].failing && !(e.GivingUp? && e.execution == x && e.operation == op) && !e.Starting? ==>
                  (x, op) in after && after[(x, op)] == s.flights[(x, op)])
            && (!s.flights[(x, op)].failing && e.GivingUp? ==> (x, op) in after && after[(x, op)] == s.flights[(x, op)])
            && (e.GivingUp? && e.execution == x && e.operation == op ==>
                  ((x, op) !in after <==> s.flights[(x, op)].failing))
  {
    hide Evidence, FinishStep, ReserveStep, RegisterStep, CloseStep;
  }
}
