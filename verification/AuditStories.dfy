/**
 What travels through the audit pipeline: every row of every table holds what the accepting request put there, over all
 runs, and every post ends in exactly one of the counters.
 */
module AuditStories {
  import opened Results
  import opened Text
  import opened Outbox
  import opened AuditSender
  import opened EventCollector
  import opened AuditPipeline

  // ---------------------------------------------------------------- what happened at a step

  /** Step `k` accepted an event into the sender's queue. */
  ghost predicate AcceptedAt(capacity: nat, logs: bool, es: seq<Event>, k: nat) {
    k < |es| && es[k].Enqueue?
    && After(capacity, logs, es, k + 1).accepted == After(capacity, logs, es, k).accepted + [es[k].id]
  }

  /** Step `k` stored an event at the collector. */
  ghost predicate CommittedAt(capacity: nat, logs: bool, es: seq<Event>, k: nat) {
    k < |es| && (es[k].Arrive? || es[k].Foreign?)
    && After(capacity, logs, es, k + 1).committed == After(capacity, logs, es, k).committed + [es[k].request.id]
  }

  /** An event is accepted exactly when its identifier is new, the queue has room and its body has at most 16384 bytes.
      */
  lemma AcceptedIff(capacity: nat, logs: bool, es: seq<Event>, k: nat)
    requires k < |es| && es[k].Enqueue?
    ensures var p := After(capacity, logs, es, k);
            && (AcceptedAt(capacity, logs, es, k)
                <==> Fresh(p, es[k].id) && |p.sender.pending| < capacity && Utf8Length(es[k].body) <= 16384)
            && (AcceptedAt(capacity, logs, es, k) || After(capacity, logs, es, k + 1).accepted == p.accepted)
  {
    var p := After(capacity, logs, es, k);
    RunKeepsInv(capacity, logs, es, k);
    assert SenderInv(p, capacity);
    assert After(capacity, logs, es, k + 1) == Next(p, capacity, logs, es[k]);
    hide After, Ids, Keyed, Distinct;
    assert es[k].id in Ids(p.sender.pending) ==> es[k].id in p.accepted;
  }

  // ---------------------------------------------------------------- the content of an accepted event

  ghost predicate SentAs<B(!new)>(q: seq<Row<B>>, id: string, body: B, created: real) {
    forall row :: row in q && row.id == id ==> row.body == body && row.created == created
  }

  /** Wherever the event is, it has the body it was accepted with. */
  ghost predicate Carries(p: Pipeline, logs: bool, id: string, body: string, created: real) {
    && id in p.accepted
    && SentAs(p.sender.pending, id, body, created)
    && (id in p.wire ==> p.wire[id] == body)
    && (id in p.collector.events ==> p.collector.events[id].body == body)
    && (logs ==> forall row :: row in p.collector.outbox && row.id == id ==> row.body.body == body)
  }

  lemma PersistingCarries(p: Pipeline, capacity: nat, logs: bool, r: Request, id: string, body: string, created: real)
    requires Carries(p, logs, id, body, created) && (r.id == id ==> r.body == body)
    ensures Carries(Persisting(p, logs, r).0, logs, id, body, created)
  {
    hide Ids;
  }

  lemma RequestCarries(p: Pipeline, capacity: nat, logs: bool, e: Event, id: string, body: string, created: real)
    requires Inv(p, capacity, logs) && Carries(p, logs, id, body, created) && (e.Arrive? || e.Foreign?)
    ensures Carries(Next(p, capacity, logs, e), logs, id, body, created)
  {
    hide Inv, Ids, Retained, Persisting;
    var r := e.request;
    if (e.Arrive? && r.id in p.wire && r.body == p.wire[r.id]) || (e.Foreign? && Fresh(p, r.id)) {
      PersistingCarries(p, capacity, logs, r, id, body, created);
    }
  }

  lemma EnqueueCarries(p: Pipeline, capacity: nat, logs: bool, e: Event, id: string, body: string, created: real)
    requires Inv(p, capacity, logs) && Carries(p, logs, id, body, created) && e.Enqueue?
    ensures Carries(Next(p, capacity, logs, e), logs, id, body, created)
  {
    hide Inv, Ids;
  }

  lemma WorkerCarries(p: Pipeline, capacity: nat, logs: bool, e: Event, id: string, body: string, created: real)
    requires Carries(p, logs, id, body, created)
    requires e.Select? || e.Acknowledge? || e.Fail? || e.Delete? || e.Crash?
    ensures Carries(Next(p, capacity, logs, e), logs, id, body, created)
  {
    hide Ids, Oldest, Without;
  }

  lemma ShipperCarries(p: Pipeline, capacity: nat, logs: bool, e: Event, id: string, body: string, created: real)
    requires Carries(p, logs, id, body, created)
    requires e.ShipSelect? || e.ShipAcknowledge? || e.ShipFail? || e.ShipDelete? || e.ShipCrash?
    ensures Carries(Next(p, capacity, logs, e), logs, id, body, created)
  {
    hide Ids, Oldest, Without;
  }

  lemma NextCarries(p: Pipeline, capacity: nat, logs: bool, e: Event, id: string, body: string, created: real)
    requires Inv(p, capacity, logs) && Carries(p, logs, id, body, created)
    ensures Carries(Next(p, capacity, logs, e), logs, id, body, created)
  {
    hide *;
    if e.Enqueue? {
      EnqueueCarries(p, capacity, logs, e, id, body, created);
    } else if e.Arrive? || e.Foreign? {
      RequestCarries(p, capacity, logs, e, id, body, created);
    } else if e.Select? || e.Acknowledge? || e.Fail? || e.Delete? || e.Crash? {
      WorkerCarries(p, capacity, logs, e, id, body, created);
    } else {
      ShipperCarries(p, capacity, logs, e, id, body, created);
    }
  }

  lemma AcceptanceCarries(capacity: nat, logs: bool, es: seq<Event>, k: nat)
    requires AcceptedAt(capacity, logs, es, k)
    ensures Carries(After(capacity, logs, es, k + 1), logs, es[k].id, es[k].body, es[k].created)
  {
    var p, e := After(capacity, logs, es, k), es[k];
    RunKeepsInv(capacity, logs, es, k);
    assert SenderInv(p, capacity) && DeliveryInv(p) && CommitInv(p);
    assert After(capacity, logs, es, k + 1) == Next(p, capacity, logs, e);
    AcceptedIff(capacity, logs, es, k);
    NewIsNowhere(p, capacity, logs, e.id);
    hide After, AcceptedAt, Inv, Ids, Keyed, Distinct;
  }

  /** A new identifier is in no table and on no wire. */
  lemma NewIsNowhere(p: Pipeline, capacity: nat, logs: bool, id: string)
    requires Inv(p, capacity, logs) && Fresh(p, id)
    ensures id !in p.wire && id !in p.collector.events
    ensures forall row :: row in p.sender.pending ==> row.id != id
    ensures logs ==> forall row :: row in p.collector.outbox ==> row.id != id
    ensures id !in Ids(p.sender.pending)
  {
    assert forall row :: row in p.sender.pending ==> row.id in Ids(p.sender.pending);
    assert forall row :: row in p.collector.outbox ==> row.id in Ids(p.collector.outbox);
  }

  /** Over every run, an accepted event keeps its content: wherever it is later pending, posted, stored or logged, it is
      with the body it was accepted with, and while it is pending with the moment it was accepted. */
  lemma {:induction false} ContentIsKept(capacity: nat, logs: bool, es: seq<Event>, k: nat, n: nat)
    requires k < n <= |es| && AcceptedAt(capacity, logs, es, k)
    ensures Carries(After(capacity, logs, es, n), logs, es[k].id, es[k].body, es[k].created)
    decreases n
  {
    hide Next, Carries, Inv;
    if n == k + 1 {
      AcceptanceCarries(capacity, logs, es, k);
    } else {
      ContentIsKept(capacity, logs, es, k, n - 1);
      RunKeepsInv(capacity, logs, es, n - 1);
      NextCarries(After(capacity, logs, es, n - 1), capacity, logs, es[n - 1], es[k].id, es[k].body, es[k].created);
    }
  }

  // ---------------------------------------------------------------- what a row tells of the run

  /** Step `k` stored exactly this record. */
  ghost predicate RecordedAt(capacity: nat, logs: bool, es: seq<Event>, k: nat, id: string, record: Record) {
    && CommittedAt(capacity, logs, es, k) && es[k].request.id == id
    && record == Record(es[k].request.body, es[k].request.stamp)
  }

  ghost predicate AcceptanceTold(capacity: nat, logs: bool, es: seq<Event>, n: nat)
    requires n <= |es|
  {
    forall id :: id in After(capacity, logs, es, n).accepted ==>
      exists k: nat :: k < n && AcceptedAt(capacity, logs, es, k) && es[k].id == id
  }

  ghost predicate EventTold(capacity: nat, logs: bool, es: seq<Event>, n: nat, id: string, record: Record) {
    exists k: nat :: k < n && RecordedAt(capacity, logs, es, k, id, record)
  }

  ghost predicate LogTold(capacity: nat, logs: bool, es: seq<Event>, n: nat, row: Row<Record>) {
    exists k: nat :: k < n && RecordedAt(capacity, logs, es, k, row.id, row.body) && es[k].request.created == row.created
  }

  ghost predicate RecordsTold(capacity: nat, logs: bool, es: seq<Event>, n: nat)
    requires n <= |es|
  {
    var c := After(capacity, logs, es, n).collector;
    && (forall id :: id in c.events ==> EventTold(capacity, logs, es, n, id, c.events[id]))
    && (forall row :: row in c.outbox ==> LogTold(capacity, logs, es, n, row))
  }

  lemma NextAccepted(p: Pipeline, capacity: nat, logs: bool, e: Event)
    ensures var after := Next(p, capacity, logs, e).accepted;
            after == p.accepted || (e.Enqueue? && after == p.accepted + [e.id])
  {
    hide Ids, Retained, Without, Oldest;
  }

  /** Every accepted identifier was accepted by a step. */
  lemma {:induction false} AcceptancesAreSteps(capacity: nat, logs: bool, es: seq<Event>, n: nat)
    requires n <= |es|
    ensures AcceptanceTold(capacity, logs, es, n)
  {
    hide Next;
    if n > 0 {
      AcceptancesAreSteps(capacity, logs, es, n - 1);
      var p := After(capacity, logs, es, n - 1);
      NextAccepted(p, capacity, logs, es[n - 1]);
      if After(capacity, logs, es, n).accepted != p.accepted {
        assert AcceptedAt(capacity, logs, es, n - 1);
      }
    }
  }

  lemma NextRecords(p: Pipeline, capacity: nat, logs: bool, e: Event)
    ensures var p' := Next(p, capacity, logs, e);
            var stored := (e.Arrive? || e.Foreign?) && p'.committed == p.committed + [e.request.id];
            && (forall id :: id in p'.collector.events ==>
                  || (id in p.collector.events && p'.collector.events[id] == p.collector.events[id])
                  || (stored && id == e.request.id
                      && p'.collector.events[id] == Record(e.request.body, e.request.stamp)))
            && (forall row :: row in p'.collector.outbox ==>
                  || row in p.collector.outbox
                  || (stored && row == Row(e.request.id, Record(e.request.body, e.request.stamp), e.request.created)))
  {
    hide Ids;
  }

  /** Over every run, each event row and each log row holds the body, the timestamp and, for the log, the creation time
      of a request that stored it. */
  lemma {:induction false} RecordsTellTheRun(capacity: nat, logs: bool, es: seq<Event>, n: nat)
    requires n <= |es|
    ensures RecordsTold(capacity, logs, es, n)
  {
    hide Next;
    if n > 0 {
      RecordsTellTheRun(capacity, logs, es, n - 1);
      var p, e := After(capacity, logs, es, n - 1), es[n - 1];
      NextRecords(p, capacity, logs, e);
      var p' := After(capacity, logs, es, n);
      assert p' == Next(p, capacity, logs, e);
      hide After;
      forall id | id in p'.collector.events ensures EventTold(capacity, logs, es, n, id, p'.collector.events[id]) {
        if id in p.collector.events && p'.collector.events[id] == p.collector.events[id] {
          assert EventTold(capacity, logs, es, n - 1, id, p.collector.events[id]);
        } else {
          assert RecordedAt(capacity, logs, es, n - 1, id, p'.collector.events[id]);
        }
      }
      forall row | row in p'.collector.outbox ensures LogTold(capacity, logs, es, n, row) {
        if row in p.collector.outbox {
          assert LogTold(capacity, logs, es, n - 1, row);
        } else {
          assert RecordedAt(capacity, logs, es, n - 1, row.id, row.body);
        }
      }
    }
  }

  /** A row still at the sender tells who accepted it, and with what. */
  lemma PendingTellsTheRun(capacity: nat, logs: bool, es: seq<Event>, n: nat, row: Row<string>)
    requires n <= |es| && row in After(capacity, logs, es, n).sender.pending
    ensures exists k: nat :: k < n && AcceptedAt(capacity, logs, es, k) && es[k] == Enqueue(row.id, row.body, row.created)
  {
    RunKeepsInv(capacity, logs, es, n);
    AcceptancesAreSteps(capacity, logs, es, n);
    var p := After(capacity, logs, es, n);
    assert SenderInv(p, capacity) && row.id in Ids(p.sender.pending);
    var k: nat :| k < n && AcceptedAt(capacity, logs, es, k) && es[k].id == row.id;
    ContentIsKept(capacity, logs, es, k, n);
    hide After, AcceptedAt, Inv;
  }

  // ---------------------------------------------------------------- what the counters count

  /** Attempts to enqueue a new event. */
  function Tried(capacity: nat, logs: bool, es: seq<Event>, n: nat): nat
    requires n <= |es|
  {
    if n == 0 then 0
    else Tried(capacity, logs, es, n - 1)
         + if es[n - 1].Enqueue? && Fresh(After(capacity, logs, es, n - 1), es[n - 1].id) then 1 else 0
  }

  /** Posts the sender's worker began, and those it lost in a crash. */
  function Posted(capacity: nat, logs: bool, es: seq<Event>, n: nat): nat
    requires n <= |es|
  {
    if n == 0 then 0
    else
      var p := After(capacity, logs, es, n - 1);
      Posted(capacity, logs, es, n - 1)
      + if es[n - 1].Select? && p.worker.Idle? && p.sender.pending != [] then 1 else 0
  }

  function Crashed(capacity: nat, logs: bool, es: seq<Event>, n: nat): nat
    requires n <= |es|
  {
    if n == 0 then 0
    else Crashed(capacity, logs, es, n - 1)
         + if es[n - 1].Crash? && !After(capacity, logs, es, n - 1).worker.Idle? then 1 else 0
  }

  /** The same for the log shipper. */
  function Shipped(capacity: nat, logs: bool, es: seq<Event>, n: nat): nat
    requires n <= |es|
  {
    if n == 0 then 0
    else
      var p := After(capacity, logs, es, n - 1);
      Shipped(capacity, logs, es, n - 1)
      + if es[n - 1].ShipSelect? && p.shipper.Idle? && p.collector.outbox != [] then 1 else 0
  }

  function ShipCrashed(capacity: nat, logs: bool, es: seq<Event>, n: nat): nat
    requires n <= |es|
  {
    if n == 0 then 0
    else ShipCrashed(capacity, logs, es, n - 1)
         + if es[n - 1].ShipCrash? && !After(capacity, logs, es, n - 1).shipper.Idle? then 1 else 0
  }

  function Busy(w: Worker): nat { if w.Idle? then 0 else 1 }

  /** What a step adds to each side of the balance. */
  lemma EnqueueBalances(p: Pipeline, capacity: nat, logs: bool, e: Event)
    requires Inv(p, capacity, logs)
    ensures var p' := Next(p, capacity, logs, e);
            p'.sender.accepted + p'.sender.rejected
            == p.sender.accepted + p.sender.rejected + (if e.Enqueue? && Fresh(p, e.id) then 1 else 0)
  {
    assert e.Enqueue? && e.id in Ids(p.sender.pending) ==> e.id in p.accepted;
    hide Inv, Ids, Persisting;
  }

  lemma PostBalances(p: Pipeline, capacity: nat, logs: bool, e: Event)
    ensures var p' := Next(p, capacity, logs, e);
            p'.sender.delivered + p'.sender.failures + Busy(p'.worker) + (if e.Crash? && !p.worker.Idle? then 1 else 0)
            == p.sender.delivered + p.sender.failures + Busy(p.worker)
               + (if e.Select? && p.worker.Idle? && p.sender.pending != [] then 1 else 0)
  {
    hide Ids, Retained, Without, Persisted, Oldest;
  }

  lemma ShipBalances(p: Pipeline, capacity: nat, logs: bool, e: Event)
    ensures var p' := Next(p, capacity, logs, e);
            p'.collector.delivered + p'.collector.failures + Busy(p'.shipper)
            + (if e.ShipCrash? && !p.shipper.Idle? then 1 else 0)
            == p.collector.delivered + p.collector.failures + Busy(p.shipper)
               + (if e.ShipSelect? && p.shipper.Idle? && p.collector.outbox != [] then 1 else 0)
  {
    hide Ids, Retained, Without, Enqueued, Oldest;
  }

  /** Over every run, every new event was accepted or rejected, and every post, of an event or of a log, was delivered,
      failed, was lost in a crash or is still under way. */
  lemma {:induction false} CountersBalance(capacity: nat, logs: bool, es: seq<Event>, n: nat)
    requires n <= |es|
    ensures var p := After(capacity, logs, es, n);
            && Tried(capacity, logs, es, n) == p.sender.accepted + p.sender.rejected
            && Posted(capacity, logs, es, n)
               == p.sender.delivered + p.sender.failures + Crashed(capacity, logs, es, n) + Busy(p.worker)
            && Shipped(capacity, logs, es, n)
               == p.collector.delivered + p.collector.failures + ShipCrashed(capacity, logs, es, n) + Busy(p.shipper)
  {
    hide Next, Fresh, Inv, Busy;
    if n == 0 {
      assert Busy(Idle) == 0 by { IdleIsNotBusy(); }
    } else {
      CountersBalance(capacity, logs, es, n - 1);
      RunKeepsInv(capacity, logs, es, n - 1);
      EnqueueBalances(After(capacity, logs, es, n - 1), capacity, logs, es[n - 1]);
      PostBalances(After(capacity, logs, es, n - 1), capacity, logs, es[n - 1]);
      ShipBalances(After(capacity, logs, es, n - 1), capacity, logs, es[n - 1]);
    }
  }

  lemma IdleIsNotBusy()
    ensures Busy(Idle) == 0
  {
  }

  // ---------------------------------------------------------------- retention

  /** Storing a request keeps an event, the new one included, exactly when it is at most a day old or its log still
      waits; whatever is not stored deletes nothing. */
  lemma KeptIff(p: Pipeline, logs: bool, r: Request, id: string)
    ensures var (p', receipt) := Persisting(p, logs, r);
            var stamp := if id == r.id then r.stamp
                         else if id in p.collector.events then p.collector.events[id].stamp else 0;
            && (receipt == Ok(Stored) ==>
                  (id in p'.collector.events <==>
                     && (id == r.id || id in p.collector.events)
                     && (r.now - stamp <= 24 * 60 * 60 * 1000 || id in Ids(p'.collector.outbox))))
            && (receipt != Ok(Stored) ==> p' == p)
  {
    hide Ids;
  }

  // ---------------------------------------------------------------- what enters and leaves a queue

  /** The sender by itself: a new event is accepted exactly when there is room and it is small enough, and it goes to the
      end of the queue; too large or too many are counted as rejected, and a repeated identifier changes nothing. */
  lemma EnqueuedIff(s: Sender, capacity: nat, id: string, body: string, now: real)
    ensures var (s', answer) := Enqueued(s, capacity, id, body, now);
            var fits := |s.pending| < capacity && Utf8Length(body) <= 16384;
            && (answer.Some? <==> fits && id !in Ids(s.pending))
            && (answer.Some? ==> answer.value == id && s'.pending == s.pending + [Row(id, body, now)]
                                 && s'.accepted == s.accepted + 1 && s'.rejected == s.rejected)
            && (answer.None? ==> s' == s.(rejected := s.rejected + if fits then 0 else 1))
            && (Keyed(s.pending) ==> Keyed(s'.pending))
  {
    hide Utf8Length;
  }

  /** A waiting event leaves the queue in exactly one step: the deletion after its own acknowledgement. The same step, and
      no other, counts a delivery. */
  lemma OnlyDeliveryRemoves(p: Pipeline, capacity: nat, logs: bool, e: Event, id: string)
    requires Inv(p, capacity, logs)
    ensures var p' := Next(p, capacity, logs, e);
            && (id in Ids(p.sender.pending) ==>
                  (id in Ids(p'.sender.pending) <==> !(e.Delete? && p.worker == Acknowledged(id))))
            && p'.sender.delivered == p.sender.delivered + (if e.Delete? && p.worker.Acknowledged? then 1 else 0)
  {
    assert SenderInv(p, capacity);
    hide Inv, DeliveryInv, CommitInv, LogInv, Persisted, Oldest, LogSettled, Keyed, Fresh;
  }

  /** The same for a waiting log. */
  lemma OnlyShippingRemoves(p: Pipeline, capacity: nat, logs: bool, e: Event, id: string)
    requires Inv(p, capacity, logs)
    ensures var p' := Next(p, capacity, logs, e);
            && (id in Ids(p.collector.outbox) ==>
                  (id in Ids(p'.collector.outbox) <==> !(e.ShipDelete? && p.shipper == Acknowledged(id))))
            && p'.collector.delivered == p.collector.delivered + (if e.ShipDelete? && p.shipper.Acknowledged? then 1 else 0)
  {
    hide Inv, Oldest, Settled, Enqueued, Keyed, Fresh, Retained;
  }

  /** Step `m` deleted the event after it was acknowledged. */
  ghost predicate DeliveredAt(capacity: nat, logs: bool, es: seq<Event>, m: nat, id: string) {
    m < |es| && es[m].Delete? && After(capacity, logs, es, m).worker == Acknowledged(id)
  }

  /** Over every run, an accepted event waits until it is delivered, and never again after that. */
  lemma {:induction false} PendingIffUndelivered(capacity: nat, logs: bool, es: seq<Event>, k: nat, n: nat)
    requires k < n <= |es| && AcceptedAt(capacity, logs, es, k)
    ensures es[k].id in Ids(After(capacity, logs, es, n).sender.pending)
       <==> forall m :: k < m < n ==> !DeliveredAt(capacity, logs, es, m, es[k].id)
    decreases n
  {
    hide Next, Inv;
    var id, p := es[k].id, After(capacity, logs, es, n - 1);
    RunKeepsInv(capacity, logs, es, n - 1);
    if n == k + 1 {
      AcceptedIsPending(p, capacity, logs, es[k]);
    } else {
      PendingIffUndelivered(capacity, logs, es, k, n - 1);
      OnlyDeliveryRemoves(p, capacity, logs, es[n - 1], id);
      AcceptedStays(capacity, logs, es, k, n - 1);
      assert After(capacity, logs, es, n) == Next(p, capacity, logs, es[n - 1]);
      assert DeliveredAt(capacity, logs, es, n - 1, id) <==> es[n - 1].Delete? && p.worker == Acknowledged(id);
      assert (forall m :: k < m < n ==> !DeliveredAt(capacity, logs, es, m, id))
        <==> (forall m :: k < m < n - 1 ==> !DeliveredAt(capacity, logs, es, m, id))
             && !DeliveredAt(capacity, logs, es, n - 1, id);
      if id !in Ids(p.sender.pending) { GoneStays(p, capacity, logs, es[n - 1], id); }
      hide DeliveredAt, Ids;
    }
  }

  lemma AcceptedIsPending(p: Pipeline, capacity: nat, logs: bool, e: Event)
    requires e.Enqueue? && Next(p, capacity, logs, e).accepted == p.accepted + [e.id]
    ensures e.id in Ids(Next(p, capacity, logs, e).sender.pending)
  {
    hide Persisted, Oldest;
  }

  /** An identifier that was accepted is never accepted again. */
  lemma GoneStays(p: Pipeline, capacity: nat, logs: bool, e: Event, id: string)
    requires id in p.accepted && id !in Ids(p.sender.pending)
    ensures id !in Ids(Next(p, capacity, logs, e).sender.pending)
  {
    hide Persisted, Oldest;
  }

  lemma {:induction false} AcceptedStays(capacity: nat, logs: bool, es: seq<Event>, k: nat, n: nat)
    requires k < n <= |es| && AcceptedAt(capacity, logs, es, k)
    ensures es[k].id in After(capacity, logs, es, n).accepted
    decreases n
  {
    hide Next;
    if n > k + 1 {
      AcceptedStays(capacity, logs, es, k, n - 1);
      NextAccepted(After(capacity, logs, es, n - 1), capacity, logs, es[n - 1]);
    }
  }

  /** What a request gets: its event is a duplicate exactly when it is stored; otherwise, with logs, a full backlog refuses
      it and a log of the same event still waiting makes it fail. Only then is it stored. Without logs no log is queued. */
  lemma ReceiptIs(c: Collector, logs: bool, id: string, body: string, created: real, stamp: int, now: int)
    ensures var (c', receipt) := Persisted(c, logs, id, body, created, stamp, now);
            && (receipt == Ok(Duplicate) <==> id in c.events)
            && (receipt == Refused(503) <==> id !in c.events && logs && |c.outbox| >= 10000)
            && (receipt == Refused(500) <==> id !in c.events && logs && |c.outbox| < 10000 && id in Ids(c.outbox))
            && (receipt == Ok(Stored) <==> receipt !in {Ok(Duplicate), Refused(503), Refused(500)})
            && c'.outbox == c.outbox + (if receipt == Ok(Stored) && logs
                                        then [Row(id, Record(body, stamp), created)] else [])
  {
  }

  // ---------------------------------------------------------------- one post at a time, and what it achieves

  /** A busy worker keeps its event until the post ends: nothing else can make it post another one. */
  lemma WorkersKeepTheirRow(p: Pipeline, capacity: nat, logs: bool, e: Event)
    ensures var after := Next(p, capacity, logs, e).worker;
            && (p.worker.Posting? && !e.Fail? && !e.Crash? ==>
                  after == p.worker || (e.Acknowledge? && after == Acknowledged(p.worker.id)))
            && (p.worker.Acknowledged? && !e.Delete? && !e.Crash? ==> after == p.worker)
            && (e.Crash? ==> after == Idle)
    ensures var after := Next(p, capacity, logs, e).shipper;
            && (p.shipper.Posting? && !e.ShipFail? && !e.ShipCrash? ==>
                  after == p.shipper || (e.ShipAcknowledge? && after == Acknowledged(p.shipper.id)))
            && (p.shipper.Acknowledged? && !e.ShipDelete? && !e.ShipCrash? ==> after == p.shipper)
            && (e.ShipCrash? ==> after == Idle)
  {
    hide Persisted, Enqueued, Settled, LogSettled, Oldest, Fresh;
  }

  /** An undisturbed post of a longest waiting event that the collector takes, as new or as a duplicate, delivers it: the
      event is committed, leaves the queue alone, and counts as delivered. */
  lemma UndisturbedPostDelivers(p: Pipeline, capacity: nat, logs: bool, r: Request)
    requires Inv(p, capacity, logs) && p.worker.Idle? && p.sender.pending != []
    requires var row := Oldest(p.sender.pending).value; r.id == row.id && r.body == row.body
    requires Persisting(p, logs, r).1.Ok?
    ensures var p1 := Next(p, capacity, logs, Select);
            var p2 := Next(p1, capacity, logs, Arrive(r));
            var p3 := Next(p2, capacity, logs, Acknowledge);
            var p4 := Next(p3, capacity, logs, Delete);
            && p4.worker.Idle? && r.id in p4.committed && r.id !in Ids(p4.sender.pending)
            && (forall x :: x in p.sender.pending && x.id != r.id ==> x in p4.sender.pending)
            && p4.sender.delivered == p.sender.delivered + 1 && p4.sender.failures == p.sender.failures
  {
    var p1 := Next(p, capacity, logs, Select);
    var p2 := Next(p1, capacity, logs, Arrive(r));
    NextKeepsInv(p, capacity, logs, Select);
    NextKeepsInv(p1, capacity, logs, Arrive(r));
    PostArrives(p, capacity, logs, r);
    assert DeliveryInv(p2);
    hide Inv, Persisted, Persisting, Oldest;
  }

  lemma PostArrives(p: Pipeline, capacity: nat, logs: bool, r: Request)
    requires p.worker.Idle? && p.sender.pending != []
    requires var row := Oldest(p.sender.pending).value; r.id == row.id && r.body == row.body
    requires Persisting(p, logs, r).1.Ok?
    ensures var p1 := Next(p, capacity, logs, Select);
            var p2 := Next(p1, capacity, logs, Arrive(r));
            p2.worker == Posting(r.id) && p2.sender == p.sender && r.id in p2.replies
  {
    hide Persisted, Oldest;
  }

  /** A post that fails keeps the event and counts a failure. */
  lemma FailedPostKeeps(p: Pipeline, capacity: nat, logs: bool)
    requires p.worker.Idle? && p.sender.pending != []
    ensures var after := Next(Next(p, capacity, logs, Select), capacity, logs, Fail);
            after.worker.Idle? && after.sender == p.sender.(failures := p.sender.failures + 1)
  {
    hide Oldest;
  }

  /** The same for a log. */
  lemma UndisturbedShippingDelivers(p: Pipeline, capacity: nat, logs: bool)
    requires p.shipper.Idle? && p.collector.outbox != []
    ensures var id := Oldest(p.collector.outbox).value.id;
            var p1 := Next(p, capacity, logs, ShipSelect);
            var p2 := Next(p1, capacity, logs, ShipAcknowledge);
            var p3 := Next(p2, capacity, logs, ShipDelete);
            && p3.shipper.Idle? && id in p3.shipped && id !in Ids(p3.collector.outbox)
            && (forall x :: x in p.collector.outbox && x.id != id ==> x in p3.collector.outbox)
            && p3.collector.delivered == p.collector.delivered + 1 && p3.collector.events == p.collector.events
    ensures var after := Next(Next(p, capacity, logs, ShipSelect), capacity, logs, ShipFail);
            after.shipper.Idle? && after.collector == p.collector.(failures := p.collector.failures + 1)
  {
    hide Oldest;
  }

  lemma NoLogIsQueued(p: Pipeline, capacity: nat, e: Event)
    requires p.queued == [] && p.collector.outbox == []
    ensures Next(p, capacity, false, e).queued == [] && Next(p, capacity, false, e).collector.outbox == []
  {
    hide Retained, Enqueued, Settled, Fresh;
  }

  /** A collector that ships no logs never queues one. */
  lemma {:induction false} WithoutLogsNothingIsQueued(capacity: nat, es: seq<Event>, n: nat)
    requires n <= |es|
    ensures After(capacity, false, es, n).queued == [] && After(capacity, false, es, n).collector.outbox == []
  {
    hide Next;
    if n > 0 {
      WithoutLogsNothingIsQueued(capacity, es, n - 1);
      NoLogIsQueued(After(capacity, false, es, n - 1), capacity, es[n - 1]);
    }
  }
}
