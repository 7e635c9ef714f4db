/**
 What a row of the P02 and P03 execution ledgers tells of the run, on any clock, and when each request is accepted.
 */
module CallStories {
  import opened Results
  import opened CallLedger

  // ---------------------------------------------------------------- what happened at a step

  /** Step `k` registered the execution under this token. */
  ghost predicate RegisteredAt(p: Profile, es: seq<Event>, k: nat, x: Id, e: Execution) {
    && k < |es| && x !in After(p, map[], es, k) && e.started > 0.0
    && es[k] == Registering(Some(Registration(e.suite, x, e.source, e.runner, e.job)), e.token, e.started)
  }

  /** Step `k` reserved the call, with the execution's own token and suite, while it was open and younger than 180
      seconds. */
  ghost predicate ReservedAt(p: Profile, es: seq<Event>, k: nat, x: Id, e: Execution, call: Call) {
    && k < |es|
    && es[k] == Reserving(Claim(Some(e.token), e.suite, x, Some(call.operation), Some(call.request)), call.started)
    && e.started <= call.started && call.started < e.started + 180.0
    && x in After(p, map[], es, k) && After(p, map[], es, k)[x].closed.None?
  }

  /** Step `k` ended the call: with this response, or with a failure. */
  ghost predicate FinishedAt(es: seq<Event>, k: nat, x: Id, call: Call) {
    && k < |es| && es[k].Finishing? && es[k].execution == x && es[k].operation == call.operation
    && call.finished == Some(es[k].now)
    && es[k].result == if call.status == Complete && call.response.Some? then Answered(call.response.value) else Failed
  }

  ghost predicate ClosedAt(es: seq<Event>, k: nat, x: Id, e: Execution) {
    k < |es| && e.closed.Some? && es[k] == Closing(x, e.closed.value)
  }

  // ---------------------------------------------------------------- the whole story

  ghost predicate CallTold(p: Profile, es: seq<Event>, n: nat, x: Id, e: Execution, call: Call) {
    && (exists k: nat :: k < n && ReservedAt(p, es, k, x, e, call))
    && (call.finished.Some? ==> exists k: nat :: k < n && FinishedAt(es, k, x, call))
  }

  ghost predicate Told(p: Profile, es: seq<Event>, n: nat, x: Id, e: Execution) {
    && (exists k: nat :: k < n && RegisteredAt(p, es, k, x, e))
    && (forall i :: 0 <= i < |e.calls| ==> CallTold(p, es, n, x, e, e.calls[i]))
    && (e.closed.Some? ==> exists k: nat :: k < n && ClosedAt(es, k, x, e))
  }

  ghost predicate AllTold(p: Profile, es: seq<Event>, n: nat)
    requires n <= |es|
  {
    forall x :: x in After(p, map[], es, n) ==> Told(p, es, n, x, After(p, map[], es, n)[x])
  }

  /** The columns of an execution that no step changes. */
  ghost predicate SameRow(e: Execution, after: Execution) {
    && after.suite == e.suite && after.source == e.source && after.runner == e.runner && after.job == e.job
    && after.token == e.token && after.started == e.started
  }

  /** What a step may do to one execution. */
  lemma NextRow(p: Profile, db: Database, e: Event, x: Id)
    requires x in Next(p, db, e) && (x in db ==> Shaped(p, db[x]))
    ensures var row := Next(p, db, e)[x];
            if x !in db then
              && row.calls == [] && row.closed.None? && row.started > 0.0
              && e == Registering(Some(Registration(row.suite, x, row.source, row.runner, row.job)), row.token, row.started)
            else
              && SameRow(db[x], row)
              && (|| row == db[x]
                  || (e == Closing(x, e.now) && row == db[x].(closed := Some(e.now)))
                  || (Appends(db[x], row, e, x) && row.closed == db[x].closed)
                  || (e.Finishing? && e.execution == x && row.closed == db[x].closed
                      && exists i: nat :: Settles(db[x], row, e, i)))
  {
    hide Busy, Used, Closable, Identified, Offers;
    if x in db && e.Finishing? && e.execution == x && Next(p, db, e)[x] != db[x] {
      assert Settles(db[x], Next(p, db, e)[x], e, Find(db[x].calls, e.operation));
    }
  }

  ghost predicate Appends(e: Execution, row: Execution, event: Event, x: Id) {
    && |row.calls| == |e.calls| + 1 && row.calls[..|e.calls|] == e.calls
    && var call := row.calls[|e.calls|];
       && event == Reserving(Claim(Some(e.token), e.suite, x, Some(call.operation), Some(call.request)), call.started)
       && call.finished.None? && e.started <= call.started && call.started < e.started + 180.0 && e.closed.None?
  }

  ghost predicate Settles(e: Execution, row: Execution, event: Event, i: nat)
    requires event.Finishing?
  {
    && i < |e.calls| == |row.calls| && row.calls == e.calls[i := row.calls[i]]
    && e.calls[i].operation == event.operation && e.calls[i].finished.None?
    && row.calls[i].(status := e.calls[i].status, finished := None, response := e.calls[i].response) == e.calls[i]
    && row.calls[i].finished == Some(event.now)
    && event.result == (if row.calls[i].status == Complete && row.calls[i].response.Some?
                        then Answered(row.calls[i].response.value) else Failed)
  }

  lemma StillTold(p: Profile, es: seq<Event>, n: nat, x: Id, e: Execution, after: Execution, call: Call)
    requires CallTold(p, es, n, x, e, call) && SameRow(e, after)
    ensures CallTold(p, es, n + 1, x, after, call)
  {
    hide After;
    var k: nat :| k < n && ReservedAt(p, es, k, x, e, call);
    assert ReservedAt(p, es, k, x, after, call);
  }

  lemma SettledIsTold(p: Profile, es: seq<Event>, n: nat, x: Id, e: Execution, after: Execution, i: nat)
    requires n < |es| && es[n].Finishing? && es[n].execution == x && SameRow(e, after) && Settles(e, after, es[n], i)
    requires CallTold(p, es, n, x, e, e.calls[i])
    ensures CallTold(p, es, n + 1, x, after, after.calls[i])
  {
    hide After;
    var k: nat :| k < n && ReservedAt(p, es, k, x, e, e.calls[i]);
    assert ReservedAt(p, es, k, x, after, after.calls[i]);
    assert FinishedAt(es, n, x, after.calls[i]);
  }

  lemma RowIsTold(p: Profile, es: seq<Event>, n: nat, x: Id)
    requires n < |es| && x in After(p, map[], es, n + 1) && AllShaped(p, After(p, map[], es, n))
    requires x in After(p, map[], es, n) ==> Told(p, es, n, x, After(p, map[], es, n)[x])
    ensures Told(p, es, n + 1, x, After(p, map[], es, n + 1)[x])
  {
    var db, row := After(p, map[], es, n), After(p, map[], es, n + 1)[x];
    assert After(p, map[], es, n + 1) == Next(p, db, es[n]);
    NextRow(p, db, es[n], x);
    hide After, Next, AllShaped, CallTold;
    if x !in db {
      assert RegisteredAt(p, es, n, x, row);
    } else {
      var e := db[x];
      var k: nat :| k < n && RegisteredAt(p, es, k, x, e);
      assert RegisteredAt(p, es, k, x, row);
      CallsAreTold(p, es, n, x, e, row);
      if row.closed.Some? {
        if row.closed == e.closed {
          var c: nat :| c < n && ClosedAt(es, c, x, e);
          assert ClosedAt(es, c, x, row);
        } else {
          assert ClosedAt(es, n, x, row);
        }
      }
    }
  }

  lemma CallsAreTold(p: Profile, es: seq<Event>, n: nat, x: Id, e: Execution, row: Execution)
    requires n < |es| && x in After(p, map[], es, n) && After(p, map[], es, n)[x] == e && SameRow(e, row)
    requires forall i :: 0 <= i < |e.calls| ==> CallTold(p, es, n, x, e, e.calls[i])
    requires || row.calls == e.calls || Appends(e, row, es[n], x)
             || (es[n].Finishing? && es[n].execution == x && exists i: nat :: Settles(e, row, es[n], i))
    ensures forall i :: 0 <= i < |row.calls| ==> CallTold(p, es, n + 1, x, row, row.calls[i])
  {
    hide After;
    var m := |e.calls|;
    forall i | 0 <= i < |row.calls| ensures CallTold(p, es, n + 1, x, row, row.calls[i]) {
      if row.calls == e.calls {
        StillTold(p, es, n, x, e, row, e.calls[i]);
      } else if Appends(e, row, es[n], x) {
        if i < m {
          assert row.calls[i] == row.calls[..m][i] == e.calls[i];
          StillTold(p, es, n, x, e, row, e.calls[i]);
        } else {
          assert ReservedAt(p, es, n, x, row, row.calls[i]);
        }
      } else {
        var j: nat :| Settles(e, row, es[n], j);
        if i == j { SettledIsTold(p, es, n, x, e, row, j); } else { StillTold(p, es, n, x, e, row, e.calls[i]); }
      }
    }
  }

  /** Over every run, on any clock, each execution tells who registered and who closed it, and each call who reserved
      it, with the execution's own token and suite and less than 180 seconds after its start, and how it ended. */
  lemma {:induction false} ExecutionsTellTheRun(p: Profile, es: seq<Event>, n: nat)
    requires n <= |es|
    ensures AllTold(p, es, n)
  {
    hide Next, Told, Inv;
    if n > 0 {
      ExecutionsTellTheRun(p, es, n - 1);
      ReachableIsShaped(p, es, n - 1);
      hide AllShaped;
      var db := After(p, map[], es, n);
      forall x | x in db ensures Told(p, es, n, x, db[x]) { RowIsTold(p, es, n - 1, x); }
    }
  }

  lemma ReachableIsShaped(p: Profile, es: seq<Event>, n: nat)
    requires n <= |es|
    ensures AllShaped(p, After(p, map[], es, n))
  {
    RunKeepsInv(p, map[], es, n);
    hide After, Unique, Shaped;
  }

  // ---------------------------------------------------------------- when a request is accepted

  lemma RegisteredIff(db: Database, reg: Option<Registration>, token: Digest, now: real)
    ensures var step := RegisterStep(db, reg, token, now);
            step.answer.Ok? <==> && reg.Some? && now > 0.0 && reg.value.execution !in db
                                 && forall x :: x in db ==> db[x].token != token
    ensures var step := RegisterStep(db, reg, token, now);
            step.answer.Ok? ==> && reg.value.execution in step.next && step.answer.value == now
                                && step.next[reg.value.execution].calls == []
    ensures var step := RegisterStep(db, reg, token, now);
            !step.answer.Ok? ==> step == Step(db, Refused(if reg.None? then 422 else 409))
  {
  }

  /** A reservation is accepted exactly with the execution's token and suite, while it is open and younger than 180
      seconds, when every earlier call is complete and this operation is new; it gets the next sequence number. A
      malformed request is refused with 422, an unknown execution with 404, another token with 401, another suite with
      403, and anything else with 409. */
  lemma ReservedIff(p: Profile, db: Database, c: Claim, now: real)
    ensures var step := ReserveStep(p, db, c, now);
            && (step.answer.Ok? <==>
                  && c.operation.Some? && Offers(p, c.operation.value) && c.request.Some? && c.execution in db && now > 0.0
                  && var e := db[c.execution];
                     && c.token == Some(e.token) && c.suite == e.suite
                     && e.closed.None? && e.started <= now && now < e.started + 180.0
                     && forall i :: 0 <= i < |e.calls| ==>
                          e.calls[i].status == Complete && e.calls[i].operation != c.operation.value)
            && (step.answer.Ok? ==>
                  && c.execution in step.next && |step.next[c.execution].calls| == step.answer.value
                  && step.answer.value == |db[c.execution].calls| + 1)
            && (!step.answer.Ok? ==>
                  step == Step(db, Refused(
                    if c.operation.None? || !Offers(p, c.operation.value) || c.request.None? then 422
                    else if c.token.None? then 401
                    else if c.execution !in db then 404
                    else if c.token.value != db[c.execution].token then 401
                    else if c.suite != db[c.execution].suite then 403
                    else 409)))
  {
  }

  /** A call ends exactly while it is the pending one of an open execution, at a stamp not before its start, by a
      failure or by a response with the identifiers its profile needs, none of them used before. */
  lemma FinishedIff(p: Profile, db: Database, x: Id, op: Operation, result: Result, now: real)
    requires AllShaped(p, db)
    ensures var step := FinishStep(p, db, x, op, result, now);
            && (step.answer.Ok? <==>
                  && x in db && now > 0.0 && db[x].closed.None? && db[x].calls != []
                  && var call := db[x].calls[|db[x].calls| - 1];
                     && call.operation == op && call.status == Pending && call.started <= now
                     && match result
                        case Failed => true
                        case Malformed => false
                        case Answered(r) =>
                          && (p == Document ==> r.provider.Some? && Bounded(r.provider.value) && r.observation.None?)
                          && (p == Search ==>
                                && r.observation.Some? && Bounded(r.observation.value)
                                && (r.provider.Some? ==> Bounded(r.provider.value)))
                          && Unused(db, ProviderColumn, r.provider) && Unused(db, ObservationColumn, r.observation))
            && (step.answer.Ok? ==> x in step.next && |step.next[x].calls| == |db[x].calls|
                                    && step.next[x].calls[|db[x].calls| - 1].status
                                       == if result.Failed? then Error else Complete)
            && (!step.answer.Ok? ==>
                  step == Step(db, Refused(
                    if result.Malformed? || (result.Answered? && !Identified(p, result.response)) then 502
                    else if x !in db then 404
                    else 409)))
  {
    hide Used, Bounded, Find, Shaped, Unused;
    if x in db { PendingIsNewest(p, db[x], op); }
    if result.Answered? {
      UnusedIff(db, ProviderColumn, result.response.provider);
      UnusedIff(db, ObservationColumn, result.response.observation);
    }
  }

  lemma PendingIsNewest(p: Profile, e: Execution, op: Operation)
    requires Shaped(p, e)
    ensures var i, last := Find(e.calls, op), |e.calls| - 1;
            && (i < |e.calls| && e.calls[i].status == Pending
                <==> e.calls != [] && e.calls[last].operation == op && e.calls[last].status == Pending)
            && (i < |e.calls| && e.calls[i].status == Pending ==> i == last)
  {
    if e.calls != [] && e.calls[|e.calls| - 1].operation == op { assert Find(e.calls, op) == |e.calls| - 1; }
  }

  /** No call of any execution has the identifier in this column. */
  ghost predicate Unused(db: Database, column: Column, id: Option<Id>) {
    id.Some? ==> forall x, i :: x in db && 0 <= i < |db[x].calls| ==> Entry(db[x].calls[i], column) != id
  }

  lemma UnusedIff(db: Database, column: Column, id: Option<Id>)
    ensures Unused(db, column, id) <==> !Used(db, column, id)
  {
  }

  /** An execution closes exactly at a stamp not before its start and the end of any call, when every call has ended;
      closing it again returns the recorded stamp. */
  lemma ClosedIff(db: Database, x: Id, now: real)
    ensures var step := CloseStep(db, x, now);
            && (step.answer.Ok? <==>
                  && x in db
                  && (db[x].closed.Some?
                      || (&& now > 0.0 && db[x].started <= now
                          && forall i :: 0 <= i < |db[x].calls| ==>
                               && db[x].calls[i].status != Pending
                               && (db[x].calls[i].finished.Some? ==> db[x].calls[i].finished.value <= now))))
            && (step.answer.Ok? ==> x in step.next && step.next[x].closed == Some(step.answer.value))
            && (step.answer.Ok? && db[x].closed.Some? ==> step.next == db)
            && (step.answer.Ok? && db[x].closed.None? ==> step.answer.value == now)
            && (!step.answer.Ok? ==> step == Step(db, Refused(if x in db then 409 else 404)))
  {
  }
}
