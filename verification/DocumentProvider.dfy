/**
 The P02 provider adapter over the ledger: it reserves, calls the SDK, and records either the evidence or an error.
 `System` interleaves any number of invocations with registrations and closures.
 */
module DocumentProvider {
  import opened Results
  import opened CallLedger
  import Text

  const MODEL := "amazon.titan-embed-text-v2:0"

  /** What the SDK call gave: an exception, or the response fields the adapter reads. */
  datatype Reply =
    | Raised
    | PutReply(id: Option<Id>)
    | ModelReply(id: Option<Id>, dimension: int, tokens: int, norm: real, vector: Digest)

  function SourceKey(x: Id): string { "h02/knowledge/" + x.text + ".md" }

  function SourceUri(bucket: string, key: string): string { "s3://" + bucket + "/" + key }

  /** `_store` and `_embed`: the evidence for a reply, or `Failed` where the adapter raises. */
  function Evidence(bucket: string, mode: string, x: Id, op: Operation, payload: Payload, reply: Reply): Result {
    if op == StoreSource then
      if payload.StorePayload? && payload.key == SourceKey(x) && payload.content != ""
         && reply.PutReply? && reply.id.Some? && Bounded(reply.id.value)
      then Answered(Response(reply.id, None,
                             Stored(mode, payload.key, SourceUri(bucket, payload.key), OfBytes(payload.content),
                                    Text.Utf8Length(payload.content))))
      else Failed
    else
      if payload.EmbedPayload? && 1 <= |payload.text| <= 4000
         && reply.ModelReply? && reply.dimension == 1024 && reply.tokens >= 1 && reply.norm > 0.0
         && reply.id.Some? && Bounded(reply.id.value)
      then Answered(Response(reply.id, None,
                             Embedded(mode, MODEL, OfBytes(payload.text), reply.tokens, reply.dimension, reply.norm,
                                      reply.vector)))
      else Failed
  }

  /** One undisturbed `invoke`; the stamps are those of the reserve, the finish and the error finish. */
  function InvokeStep(db: Database, bucket: string, mode: string, claim: Claim, payload: Payload, fits: bool,
                      reply: Reply, t1: real, t2: real, t3: real): Step<Response>
  {
    if !fits then Step(db, Refused(422))
    else
      var reserved := ReserveStep(Document, db, claim.(request := Some(OfPayload(payload))), t1);
      if reserved.answer.Refused? then Step(db, Refused(reserved.answer.status))
      else
        var x, op := claim.execution, claim.operation.value;
        var result := Evidence(bucket, mode, x, op, payload, reply);
        var finished := FinishStep(Document, reserved.next, x, op, result, t2);
        if result.Answered? && finished.answer.Ok? then Step(finished.next, Ok(result.response))
        else
          var failed := FinishStep(Document, reserved.next, x, op, Failed, t3);
          Step(failed.next, Refused(if failed.answer.Ok? then 502 else failed.answer.status))
  }

  class Provider {
    const ledger: Ledger
    const bucket: string
    const mode: string

    constructor (ledger: Ledger, bucket: string, mode: string)
      requires ledger.profile == Document && bucket != "" && (mode == "aws" || mode == "contract")
      ensures this.ledger == ledger && this.bucket == bucket && this.mode == mode
    {
      this.ledger, this.bucket, this.mode := ledger, bucket, mode;
    }

    method Invoke(claim: Claim, payload: Payload, fits: bool, reply: Reply, t1: real, t2: real, t3: real)
      returns (r: Outcome<Response>)
      requires ledger.profile == Document
      modifies ledger
      ensures Step(ledger.executions, r)
           == InvokeStep(old(ledger.executions), bucket, mode, claim, payload, fits, reply, t1, t2, t3)
    {
      hide FinishStep, Evidence;
      if !fits { return Refused(422); }
      var reserved := ledger.Reserve(claim.(request := Some(OfPayload(payload))), t1);
      if reserved.Refused? { return Refused(reserved.status); }
      var x, op := claim.execution, claim.operation.value;
      ghost var during := ledger.executions;
      var result := Evidence(bucket, mode, x, op, payload, reply);
      if result.Answered? {
        var finished := ledger.Finish(x, op, result, t2);
        if finished.Ok? { return Ok(result.response); }
        RefusedFinish(during, x, op, result, t2);
      }
      var failed := ledger.Finish(x, op, Failed, t3);
      r := Refused(if failed.Ok? then 502 else failed.status);
    }
  }

  lemma RefusedFinish(db: Database, x: Id, op: Operation, result: Result, now: real)
    ensures var step := FinishStep(Document, db, x, op, result, now); step.answer.Refused? ==> step.next == db
  {
    hide Used, Find;
  }

  lemma ReservedIsLast(db: Database, claim: Claim, now: real)
    requires ReserveStep(Document, db, claim, now).answer.Ok?
    ensures claim.operation.Some? && claim.execution in db
    ensures var calls := ReserveStep(Document, db, claim, now).next[claim.execution].calls;
            |calls| == |db[claim.execution].calls| + 1 && Find(calls, claim.operation.value) == |calls| - 1
  {
    var rest := db[claim.execution].calls;
    var calls := ReserveStep(Document, db, claim, now).next[claim.execution].calls;
    assert !Busy(rest, claim.operation.value);
    assert forall i :: 0 <= i < |rest| ==> calls[i] == rest[i];
    assert forall i :: 0 <= i < |rest| ==> calls[i].operation != claim.operation.value;
    assert calls[|rest|].operation == claim.operation.value;
  }

  /** An undisturbed invocation never leaves its call pending unless a stamp steps back or is unusable. */
  lemma InvokeSettles(db: Database, bucket: string, mode: string, claim: Claim, payload: Payload, fits: bool,
                      reply: Reply, t1: real, t2: real, t3: real)
    requires AllShaped(Document, db) && t1 <= t2 && t1 <= t3
    ensures var step := InvokeStep(db, bucket, mode, claim, payload, fits, reply, t1, t2, t3);
            step.next != db ==>
              && claim.execution in step.next
              && var calls := step.next[claim.execution].calls;
                 |calls| > 0 && calls[|calls| - 1].status == if step.answer.Ok? then Complete else Error
  {
    hide Used, Evidence;
    var reserved := ReserveStep(Document, db, claim.(request := Some(OfPayload(payload))), t1);
    if fits && reserved.answer.Ok? {
      var calls := reserved.next[claim.execution].calls;
      ReservedIsLast(db, claim.(request := Some(OfPayload(payload))), t1);
    }
  }

  // ---------------------------------------------------------------- concurrent invocations

  /** An invocation between its reserve and its last finish; `failing` once its first finish did not succeed. */
  datatype Flight = Flight(payload: Payload, failing: bool)

  datatype System = System(db: Database, flights: map<(Id, Operation), Flight>)

  const IDLE := System(map[], map[])

  datatype Event =
    | Enrolling(reg: Option<Registration>, token: Digest, now: real)
    | Starting(claim: Claim, payload: Payload, now: real)
    | Settling(execution: Id, operation: Operation, reply: Reply, now: real)
    | GivingUp(execution: Id, operation: Operation, now: real)
    | Ending(execution: Id, now: real)

  function Next(bucket: string, mode: string, s: System, e: Event): System {
    match e
    case Enrolling(reg, token, now) => s.(db := RegisterStep(s.db, reg, token, now).next)
    case Ending(x, now) => s.(db := CloseStep(s.db, x, now).next)
    case Starting(claim, payload, now) =>
      var step := ReserveStep(Document, s.db, claim.(request := Some(OfPayload(payload))), now);
      if step.answer.Refused? then s
      else System(step.next, s.flights[(claim.execution, claim.operation.value) := Flight(payload, false)])
    case Settling(x, op, reply, now) =>
      if (x, op) !in s.flights || s.flights[(x, op)].failing then s
      else
        var result := Evidence(bucket, mode, x, op, s.flights[(x, op)].payload, reply);
        var step := FinishStep(Document, s.db, x, op, result, now);
        if result.Answered? && step.answer.Ok? then System(step.next, s.flights - {(x, op)})
        else s.(flights := s.flights[(x, op) := s.flights[(x, op)].(failing := true)])
    case GivingUp(x, op, now) =>
      if (x, op) !in s.flights || !s.flights[(x, op)].failing then s
      else System(FinishStep(Document, s.db, x, op, Failed, now).next, s.flights - {(x, op)})
  }

  function After(bucket: string, mode: string, es: seq<Event>, n: nat): System
    requires n <= |es|
  {
    if n == 0 then IDLE else Next(bucket, mode, After(bucket, mode, es, n - 1), es[n - 1])
  }

  ghost predicate Steady(es: seq<Event>) {
    forall i, j :: 0 <= i < j < |es| ==> es[i].now <= es[j].now
  }

  /** Each step is one ledger step, or leaves the ledger alone. */
  lemma NextIsLedgerStep(bucket: string, mode: string, s: System, e: Event)
    ensures Next(bucket, mode, s, e).db == s.db
            || exists l: CallLedger.Event ::
                 l.now == e.now && Next(bucket, mode, s, e).db == CallLedger.Next(Document, s.db, l)
  {
    hide RegisterStep, FinishStep, CloseStep, Evidence, Busy;
    var after := Next(bucket, mode, s, e).db;
    if after != s.db {
      var l := match e
        case Enrolling(reg, token, now) => CallLedger.Event.Registering(reg, token, now)
        case Starting(claim, payload, now) => CallLedger.Event.Reserving(claim.(request := Some(OfPayload(payload))), now)
        case Settling(x, op, reply, now) =>
          CallLedger.Event.Finishing(x, op, Evidence(bucket, mode, x, op, s.flights[(x, op)].payload, reply), now)
        case GivingUp(x, op, now) => CallLedger.Event.Finishing(x, op, Failed, now)
        case Ending(x, now) => CallLedger.Event.Closing(x, now);
      assert l.now == e.now && after == CallLedger.Next(Document, s.db, l);
    }
  }

  /** The recorded response is what the adapter builds from the payload that was reserved. */
  ghost predicate Honest(bucket: string, mode: string, x: Id, c: Call) {
    c.response.Some? ==>
      c.request.OfPayload? &&
      exists reply :: Evidence(bucket, mode, x, c.operation, c.request.payload, reply) == Answered(c.response.value)
  }

  ghost predicate AllHonest(bucket: string, mode: string, db: Database) {
    forall x, i :: x in db && 0 <= i < |db[x].calls| ==> Honest(bucket, mode, x, db[x].calls[i])
  }

  /** The invocation in flight for an operation is the one that reserved its row. */
  ghost predicate Linked(s: System) {
    forall key :: key in s.flights ==> Reserved(s.db, key.0, key.1, s.flights[key].payload)
  }

  ghost predicate Reserved(db: Database, x: Id, op: Operation, payload: Payload) {
    x in db && Find(db[x].calls, op) < |db[x].calls| && db[x].calls[Find(db[x].calls, op)].request == OfPayload(payload)
  }

  /** A ledger step keeps every row's place, operation and request. */
  ghost predicate RowGrows(e: Execution, after: Execution) {
    && |e.calls| <= |after.calls|
    && forall i :: 0 <= i < |e.calls| ==>
         after.calls[i].operation == e.calls[i].operation && after.calls[i].request == e.calls[i].request
  }

  ghost predicate Grows(db: Database, after: Database) {
    forall x :: x in db ==> x in after && RowGrows(db[x], after[x])
  }

  lemma RowOfNextGrows(db: Database, l: CallLedger.Event, x: Id)
    requires x in db
    ensures x in CallLedger.Next(Document, db, l) && RowGrows(db[x], CallLedger.Next(Document, db, l)[x])
  {
    hide Busy, Used, Closable, Identified, Offers, Usable;
  }

  lemma LedgerGrows(db: Database, l: CallLedger.Event)
    ensures Grows(db, CallLedger.Next(Document, db, l))
  {
    hide RowGrows, CallLedger.Next;
    var after := CallLedger.Next(Document, db, l);
    forall x | x in db ensures x in after && RowGrows(db[x], after[x]) {
      RowOfNextGrows(db, l, x);
    }
  }

  lemma GrowsKeepsReserved(db: Database, after: Database, x: Id, op: Operation, payload: Payload)
    requires Grows(db, after) && Reserved(db, x, op, payload)
    ensures Reserved(after, x, op, payload)
  {
    var i := Find(db[x].calls, op);
    assert Find(after[x].calls, op) == i;
  }

  lemma NextGrows(bucket: string, mode: string, s: System, e: Event)
    ensures Grows(s.db, Next(bucket, mode, s, e).db)
  {
    NextIsLedgerStep(bucket, mode, s, e);
    hide Next;
    var after := Next(bucket, mode, s, e).db;
    if after != s.db {
      var l: CallLedger.Event :| l.now == e.now && after == CallLedger.Next(Document, s.db, l);
      LedgerGrows(s.db, l);
    }
  }

  lemma StartingReserves(db: Database, claim: Claim, payload: Payload, now: real)
    requires ReserveStep(Document, db, claim.(request := Some(OfPayload(payload))), now).answer.Ok?
    ensures claim.operation.Some?
    ensures Reserved(ReserveStep(Document, db, claim.(request := Some(OfPayload(payload))), now).next,
                     claim.execution, claim.operation.value, payload)
  {
    ReservedIsLast(db, claim.(request := Some(OfPayload(payload))), now);
    hide Find, Busy;
  }

  lemma NextKeepsLinked(bucket: string, mode: string, s: System, e: Event)
    requires Linked(s)
    ensures Linked(Next(bucket, mode, s, e))
  {
    var after := Next(bucket, mode, s, e);
    NextGrows(bucket, mode, s, e);
    if e.Starting? && after != s { StartingReserves(s.db, e.claim, e.payload, e.now); }
    hide ReserveStep, FinishStep, RegisterStep, CloseStep, Evidence, Grows, Reserved;
    forall key | key in after.flights ensures Reserved(after.db, key.0, key.1, after.flights[key].payload) {
      if key in s.flights && after.flights[key].payload == s.flights[key].payload {
        GrowsKeepsReserved(s.db, after.db, key.0, key.1, s.flights[key].payload);
      }
    }
  }

  lemma NextKeepsHonest(bucket: string, mode: string, s: System, e: Event)
    requires Linked(s) && AllHonest(bucket, mode, s.db)
    ensures AllHonest(bucket, mode, Next(bucket, mode, s, e).db)
  {
    hide Busy, Used, Closable, Evidence;
    var after := Next(bucket, mode, s, e).db;
    match e
    case Enrolling(reg, token, now) =>
    case Ending(x, now) =>
    case Starting(claim, payload, now) =>
    case GivingUp(x, op, now) =>
    case Settling(x, op, reply, now) =>
      if after != s.db {
        assert Reserved(s.db, x, op, s.flights[(x, op)].payload);
        var i := Find(s.db[x].calls, op);
        assert Honest(bucket, mode, x, after[x].calls[i]) by {
          assert Evidence(bucket, mode, x, op, s.flights[(x, op)].payload, reply)
              == Answered(after[x].calls[i].response.value);
        }
      }
  }

  /** On any clock, every recorded response is the adapter's own. */
  lemma {:induction false} RunKeepsHonest(bucket: string, mode: string, es: seq<Event>, n: nat)
    requires n <= |es|
    ensures Linked(After(bucket, mode, es, n)) && AllHonest(bucket, mode, After(bucket, mode, es, n).db)
  {
    if n > 0 {
      RunKeepsHonest(bucket, mode, es, n - 1);
      hide Next, Linked, AllHonest;
      NextKeepsLinked(bucket, mode, After(bucket, mode, es, n - 1), es[n - 1]);
      NextKeepsHonest(bucket, mode, After(bucket, mode, es, n - 1), es[n - 1]);
    }
  }

  /** Everything the ledger of a running system keeps, up to the stamp `t`. */
  ghost predicate Good(bucket: string, mode: string, s: System, t: real) {
    && CallLedger.Inv(Document, s.db) && AllInOrder(s.db, t)
    && Linked(s) && AllHonest(bucket, mode, s.db)
  }

  lemma NextKeepsGood(bucket: string, mode: string, s: System, e: Event)
    requires Good(bucket, mode, s, e.now)
    ensures Good(bucket, mode, Next(bucket, mode, s, e), e.now)
  {
    NextKeepsLinked(bucket, mode, s, e);
    NextKeepsHonest(bucket, mode, s, e);
    NextIsLedgerStep(bucket, mode, s, e);
    hide Next, Linked, AllHonest, AllInOrder, AllShaped, Unique;
    if Next(bucket, mode, s, e).db != s.db {
      var l: CallLedger.Event :| l.now == e.now && Next(bucket, mode, s, e).db == CallLedger.Next(Document, s.db, l);
      CallLedger.NextKeepsInv(Document, s.db, l);
      NextKeepsOrder(Document, s.db, l);
    }
  }

  lemma {:induction false} RunKeepsGood(bucket: string, mode: string, es: seq<Event>, n: nat, t: real)
    requires n <= |es| && Steady(es) && (n > 0 ==> es[n - 1].now <= t)
    ensures Good(bucket, mode, After(bucket, mode, es, n), t)
  {
    if n > 0 {
      RunKeepsGood(bucket, mode, es, n - 1, es[n - 1].now);
      hide Next, Good;
      NextKeepsGood(bucket, mode, After(bucket, mode, es, n - 1), es[n - 1]);
      LaterIsGood(bucket, mode, After(bucket, mode, es, n), es[n - 1].now, t);
    }
  }

  lemma LaterIsGood(bucket: string, mode: string, s: System, t: real, u: real)
    requires Good(bucket, mode, s, t) && t <= u
    ensures Good(bucket, mode, s, u)
  {
    hide Linked, AllHonest, AllShaped, Unique;
  }
}
