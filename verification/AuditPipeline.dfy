/**
 Sender outbox, collector and log shipper together, with every crash, lost acknowledgement, late or repeated POST
 and concurrent producer. The sender and the log shipper each have one worker.
 */
module AuditPipeline {
  import opened Results
  import opened Outbox
  import opened AuditSender
  import opened EventCollector

  /** Where a worker stands inside `flush_once`. */
  datatype Worker = Idle | Posting(id: string) | Acknowledged(id: string)

  /** The two databases and workers, the network, and what has happened so far. `wire` holds the ids whose POST has
      left the sender, with the body that was posted: the collector may process it at any later time, any number of
      times. `replies` holds the ids the collector has answered with success. The last five fields are history:
      accepted events, commits to `events_v2` and to `log_outbox` in order, events that retention deleted, and events
      whose log was acknowledged. */
  datatype Pipeline = Pipeline(
    sender: Sender, worker: Worker, wire: map<string, string>, replies: set<string>,
    collector: Collector, shipper: Worker,
    accepted: seq<string>, committed: seq<string>, queued: seq<string>, expired: set<string>, shipped: set<string>)

  const EMPTY := Pipeline(Sender([], 0, 0, 0, 0), Idle, map[], {}, Collector(map[], [], 0, 0), Idle, [], [], [], {}, {})

  /** A POST at the collector: the event id, the posted body, and the clock readings of `persist`. */
  datatype Request = Request(id: string, body: string, created: real, stamp: int, now: int)

  datatype Event =
    | Enqueue(id: string, body: string, created: real)
    | Select
    | Arrive(request: Request)
    | Acknowledge
    | Fail
    | Delete
    | Crash
    | Foreign(request: Request)
    | ShipSelect
    | ShipAcknowledge
    | ShipFail
    | ShipDelete
    | ShipCrash

  /** A UUID nobody has used. */
  predicate Fresh(p: Pipeline, id: string) {
    id !in p.accepted && id !in p.committed
  }

  function Enqueuing(p: Pipeline, capacity: nat, id: string, body: string, now: real): Pipeline {
    if !Fresh(p, id) then p
    else
      var (sender, event) := Enqueued(p.sender, capacity, id, body, now);
      p.(sender := sender, accepted := if event.Some? then p.accepted + [id] else p.accepted)
  }

  /** A request reaches `persist`. */
  function Persisting(p: Pipeline, logs: bool, r: Request): (Pipeline, Outcome<Receipt>) {
    var (collector, receipt) := Persisted(p.collector, logs, r.id, r.body, r.created, r.stamp, r.now);
    if receipt == Ok(Stored) then
      (p.(collector := collector,
          committed := p.committed + [r.id],
          queued := if logs then p.queued + [r.id] else p.queued,
          expired := p.expired + (p.collector.events.Keys + {r.id} - collector.events.Keys)), receipt)
    else (p, receipt)
  }

  function Next(p: Pipeline, capacity: nat, logs: bool, e: Event): Pipeline {
    match e
    case Enqueue(id, body, created) => Enqueuing(p, capacity, id, body, created)
    case Select =>
      var row := Oldest(p.sender.pending);
      if p.worker.Idle? && row.Some?
      then p.(worker := Posting(row.value.id), wire := p.wire[row.value.id := row.value.body])
      else p
    case Arrive(r) =>
      if r.id !in p.wire || r.body != p.wire[r.id] then p
      else
        var (p', receipt) := Persisting(p, logs, r);
        if receipt.Ok? then p'.(replies := p'.replies + {r.id}) else p'
    case Acknowledge =>
      if p.worker.Posting? && p.worker.id in p.replies then p.(worker := Acknowledged(p.worker.id)) else p
    case Fail =>
      if p.worker.Posting? then p.(worker := Idle, sender := Settled(p.sender, p.worker.id, false)) else p
    case Delete =>
      if p.worker.Acknowledged? then p.(worker := Idle, sender := Settled(p.sender, p.worker.id, true)) else p
    case Crash => p.(worker := Idle)
    case Foreign(r) =>
      if !Fresh(p, r.id) then p else Persisting(p, logs, r).0
    case ShipSelect =>
      var row := Oldest(p.collector.outbox);
      if p.shipper.Idle? && row.Some? then p.(shipper := Posting(row.value.id)) else p
    case ShipAcknowledge =>
      if p.shipper.Posting? then p.(shipper := Acknowledged(p.shipper.id), shipped := p.shipped + {p.shipper.id}) else p
    case ShipFail =>
      if p.shipper.Posting? then p.(shipper := Idle, collector := LogSettled(p.collector, p.shipper.id, false)) else p
    case ShipDelete =>
      if p.shipper.Acknowledged?
      then p.(shipper := Idle, collector := LogSettled(p.collector, p.shipper.id, true))
      else p
    case ShipCrash => p.(shipper := Idle)
  }

  function After(capacity: nat, logs: bool, es: seq<Event>, n: nat): Pipeline
    requires n <= |es|
  {
    if n == 0 then EMPTY else Next(After(capacity, logs, es, n - 1), capacity, logs, es[n - 1])
  }

  // ---------------------------------------------------------------- what every step keeps

  /** The sender: every accepted event is delivered or pending, and the queue is bounded. */
  ghost predicate SenderInv(p: Pipeline, capacity: nat) {
    && |p.sender.pending| <= capacity
    && Keyed(p.sender.pending)
    && |p.accepted| == p.sender.accepted == p.sender.delivered + |p.sender.pending|
    && (forall id :: id in Ids(p.sender.pending) ==> id in p.accepted)
    && Distinct(p.accepted)
    && (p.worker.Idle? || p.worker.id in Ids(p.sender.pending))
  }

  /** Sender and collector: an event leaves `pending` only after it was committed. */
  ghost predicate DeliveryInv(p: Pipeline) {
    && (forall id :: id in p.accepted ==> id in Ids(p.sender.pending) || id in p.committed)
    && (forall id :: id in p.wire ==> id in p.accepted)
    && (forall id :: id in p.replies ==> id in p.committed)
    && (p.worker.Acknowledged? ==> p.worker.id in p.replies)
  }

  /** The collector: an event is committed again only after retention deleted it. */
  ghost predicate CommitInv(p: Pipeline) {
    && (forall id :: id in p.committed ==> id in p.collector.events || id in p.expired)
    && (forall id :: id in p.collector.events ==> id in p.committed)
    && (forall i, k :: 0 <= i < k < |p.committed| && p.committed[i] == p.committed[k] ==> p.committed[i] in p.expired)
  }

  /** Collector and log shipper, with an OTLP endpoint. */
  ghost predicate LogInv(p: Pipeline) {
    && p.queued == p.committed
    && |p.queued| == p.collector.delivered + |p.collector.outbox|
    && (p.shipper.Idle? || p.shipper.id in Ids(p.collector.outbox))
    && Keyed(p.collector.outbox)
    && |p.collector.outbox| <= BACKLOG
    && (forall id :: id in Ids(p.collector.outbox) ==> id in p.collector.events)
    && (forall id :: id in p.committed ==> id in Ids(p.collector.outbox) || id in p.shipped)
    && (forall id :: id in p.expired ==> id in p.shipped)
    && (p.shipper.Acknowledged? ==> p.shipper.id in p.shipped)
  }

  ghost predicate Inv(p: Pipeline, capacity: nat, logs: bool) {
    SenderInv(p, capacity) && DeliveryInv(p) && CommitInv(p) && (logs ==> LogInv(p))
  }

  lemma PersistingKeeps(p: Pipeline, capacity: nat, logs: bool, r: Request)
    requires Inv(p, capacity, logs)
    ensures
      var (p', receipt) := Persisting(p, logs, r);
      && Inv(p', capacity, logs)
      && (receipt.Ok? ==> r.id in p'.committed)
      && p'.wire == p.wire && p'.replies == p.replies && p'.accepted == p.accepted
  {
    hide Ids, Retained, Without, Oldest;
    var (p', receipt) := Persisting(p, logs, r);
    if receipt == Ok(Stored) {
      PersistingCommits(p, logs, r);
      if logs { PersistingLogs(p, r); }
    }
  }

  lemma PersistingCommits(p: Pipeline, logs: bool, r: Request)
    requires CommitInv(p)
    ensures CommitInv(Persisting(p, logs, r).0)
  {
    hide Ids;
    var p' := Persisting(p, logs, r).0;
    if p'.committed != p.committed {
      assert forall x :: x in p'.committed <==> x in p.committed || x == r.id;
    }
  }

  lemma AppendedIds<B(!new)>(q: seq<Row<B>>, row: Row<B>)
    requires Keyed(q) && row.id !in Ids(q)
    ensures Keyed(q + [row]) && Ids(q + [row]) == Ids(q) + {row.id}
  {
    forall i | 0 <= i < |q| ensures q[i].id != row.id { assert q[i] in q; }
  }

  lemma PersistingLogs(p: Pipeline, r: Request)
    requires CommitInv(p) && LogInv(p)
    ensures LogInv(Persisting(p, true, r).0)
  {
    var (p', receipt) := Persisting(p, true, r);
    if receipt == Ok(Stored) {
      AppendedIds(p.collector.outbox, Row(r.id, Record(r.body, r.stamp), r.created));
      hide Ids;
      assert forall x :: x in p'.committed <==> x in p.committed || x == r.id;
      assert p'.collector.outbox == p.collector.outbox + [Row(r.id, Record(r.body, r.stamp), r.created)];
    }
  }

  lemma EnqueueKeeps(p: Pipeline, capacity: nat, logs: bool, e: Event)
    requires Inv(p, capacity, logs) && e.Enqueue?
    ensures Inv(Next(p, capacity, logs, e), capacity, logs)
  {
    var p' := Next(p, capacity, logs, e);
    if p'.accepted != p.accepted {
      AppendedIds(p.sender.pending, Row(e.id, e.body, e.created));
      hide Ids;
      assert p'.accepted == p.accepted + [e.id];
      assert forall x :: x in p'.accepted <==> x in p.accepted || x == e.id;
    }
  }

  /** A reply to a committed event concerns nobody but the sender's worker. */
  lemma ReplyKeeps(p: Pipeline, capacity: nat, logs: bool, id: string)
    requires Inv(p, capacity, logs) && id in p.committed
    ensures Inv(p.(replies := p.replies + {id}), capacity, logs)
  {
    hide Ids, Keyed, Distinct;
  }

  lemma RequestKeeps(p: Pipeline, capacity: nat, logs: bool, e: Event)
    requires Inv(p, capacity, logs) && (e.Arrive? || e.Foreign?)
    ensures Inv(Next(p, capacity, logs, e), capacity, logs)
  {
    hide Persisting, Inv;
    PersistingKeeps(p, capacity, logs, e.request);
    var (p', receipt) := Persisting(p, logs, e.request);
    if receipt.Ok? { ReplyKeeps(p', capacity, logs, e.request.id); }
  }

  /** Between transactions the sender's worker only moves; a failure also counts. */
  lemma WorkerKeeps(p: Pipeline, capacity: nat, logs: bool, e: Event)
    requires Inv(p, capacity, logs) && (e.Select? || e.Acknowledge? || e.Fail? || e.Crash?)
    ensures Inv(Next(p, capacity, logs, e), capacity, logs)
  {
    hide Keyed, Distinct;
  }

  lemma DeleteKeepsSender(p: Pipeline, capacity: nat, logs: bool, e: Event)
    requires SenderInv(p, capacity) && DeliveryInv(p) && e.Delete?
    ensures SenderInv(Next(p, capacity, logs, e), capacity) && DeliveryInv(Next(p, capacity, logs, e))
  {
    hide Without, Keyed, Ids;
    if p.worker.Acknowledged? { WithoutOne(p.sender.pending, p.worker.id); }
  }

  lemma DeleteKeeps(p: Pipeline, capacity: nat, logs: bool, e: Event)
    requires Inv(p, capacity, logs) && e.Delete?
    ensures Inv(Next(p, capacity, logs, e), capacity, logs)
  {
    DeleteKeepsSender(p, capacity, logs, e);
    hide Ids, Without, Keyed, SenderInv, DeliveryInv;
  }

  lemma ShipperKeeps(p: Pipeline, capacity: nat, logs: bool, e: Event)
    requires Inv(p, capacity, logs) && (e.ShipSelect? || e.ShipAcknowledge? || e.ShipFail? || e.ShipCrash?)
    ensures Inv(Next(p, capacity, logs, e), capacity, logs)
  {
    hide Keyed, Distinct;
  }

  lemma ShipDeleteKeepsLogs(p: Pipeline, capacity: nat, e: Event)
    requires LogInv(p) && e.ShipDelete?
    ensures LogInv(Next(p, capacity, true, e))
  {
    hide Without, Keyed, Ids;
    if p.shipper.Acknowledged? {
      var outbox := p.collector.outbox;
      WithoutOne(outbox, p.shipper.id);
      assert |Without(outbox, p.shipper.id)| <= |outbox|;
    }
  }

  lemma ShipDeleteKeeps(p: Pipeline, capacity: nat, logs: bool, e: Event)
    requires Inv(p, capacity, logs) && e.ShipDelete?
    ensures Inv(Next(p, capacity, logs, e), capacity, logs)
  {
    if logs { ShipDeleteKeepsLogs(p, capacity, e); }
    hide Ids, Without, Keyed, Distinct, LogInv;
  }

  lemma NextKeepsInv(p: Pipeline, capacity: nat, logs: bool, e: Event)
    requires Inv(p, capacity, logs)
    ensures Inv(Next(p, capacity, logs, e), capacity, logs)
  {
    hide *;
    if e.Enqueue? {
      EnqueueKeeps(p, capacity, logs, e);
    } else if e.Arrive? || e.Foreign? {
      RequestKeeps(p, capacity, logs, e);
    } else if e.Delete? {
      DeleteKeeps(p, capacity, logs, e);
    } else if e.ShipDelete? {
      ShipDeleteKeeps(p, capacity, logs, e);
    } else if e.Select? || e.Acknowledge? || e.Fail? || e.Crash? {
      WorkerKeeps(p, capacity, logs, e);
    } else {
      ShipperKeeps(p, capacity, logs, e);
    }
  }

  lemma {:induction false} RunKeepsInv(capacity: nat, logs: bool, es: seq<Event>, n: nat)
    requires n <= |es|
    ensures Inv(After(capacity, logs, es, n), capacity, logs)
  {
    hide Next;
    if n > 0 {
      hide Inv;
      RunKeepsInv(capacity, logs, es, n - 1);
      NextKeepsInv(After(capacity, logs, es, n - 1), capacity, logs, es[n - 1]);
    }
  }

  // ---------------------------------------------------------------- main results

  /** In every reachable state: an accepted event is pending at the sender or was committed by the collector; the
      counters balance, accepted = delivered + pending; the queue respects its capacity; and with an OTLP endpoint
      every unacknowledged log belongs to a stored event, retention deleted acknowledged events only, and the logs
      balance too, queued = delivered + waiting. */
  lemma NothingLost(capacity: nat, logs: bool, es: seq<Event>)
    ensures
      var p := After(capacity, logs, es, |es|);
      && (forall id :: id in p.accepted ==> id in Ids(p.sender.pending) || id in p.committed)
      && p.sender.accepted == |p.accepted| && p.sender.accepted == p.sender.delivered + |p.sender.pending|
      && |p.sender.pending| <= capacity
      && (logs ==> Ids(p.collector.outbox) <= p.collector.events.Keys && p.expired <= p.shipped)
      && (logs ==> |p.queued| == p.collector.delivered + |p.collector.outbox|)
  {
    hide After, Ids;
    RunKeepsInv(capacity, logs, es, |es|);
  }

  /** In every reachable state each accepted event that left the sender and that retention never deleted was stored
      exactly once, and its log was queued exactly once, whatever was repeated, lost or interrupted. */
  lemma ExactlyOnce(capacity: nat, es: seq<Event>, id: string)
    ensures
      var p := After(capacity, true, es, |es|);
      id !in p.expired && id in p.accepted && id !in Ids(p.sender.pending) ==>
        && p.queued == p.committed
        && exists i :: 0 <= i < |p.committed| && p.committed[i] == id
                       && forall k :: 0 <= k < |p.committed| && k != i ==> p.committed[k] != id
  {
    var p := After(capacity, true, es, |es|);
    RunKeepsInv(capacity, true, es, |es|);
    hide After, Ids;
    if id !in p.expired && id in p.accepted && id !in Ids(p.sender.pending) {
      var i :| 0 <= i < |p.committed| && p.committed[i] == id;
      assert forall k :: 0 <= k < |p.committed| && k != i ==> p.committed[k] != id;
    }
  }

  /** When a posted event arrives, it is stored exactly when it is not stored and, with an OTLP endpoint, there is room
      for its log; a stored one is answered as a duplicate. An event that was stored before is not stored any more only
      because retention deleted it. */
  lemma ArrivalStoresIff(capacity: nat, logs: bool, es: seq<Event>, r: Request)
    ensures
      var p := After(capacity, logs, es, |es|);
      r.id in p.wire && r.body == p.wire[r.id] ==>
        var p' := Next(p, capacity, logs, Arrive(r));
        && (p'.committed == p.committed + [r.id]
            <==> r.id !in p.collector.events && (logs ==> |p.collector.outbox| < BACKLOG))
        && (p'.committed == p.committed + [r.id] || p'.collector == p.collector)
        && (r.id in p'.replies <==>
              r.id in p.replies || r.id in p.collector.events || p'.committed == p.committed + [r.id])
        && (r.id in p.committed && r.id !in p.collector.events ==> r.id in p.expired)
  {
    RunKeepsInv(capacity, logs, es, |es|);
    hide After, Ids, Retained;
  }

  const EARLY := Request("a", "", 1.0, 1, 1)
  const LATER := Request("b", "", 2.0, RETENTION_MS + 2, RETENTION_MS + 2)
  const AGAIN := Request("a", "", 3.0, RETENTION_MS + 3, RETENTION_MS + 3)

  /** One event, accepted, posted, stored and logged, whose acknowledgement has not reached the sender. */
  const UNCONFIRMED := Pipeline(
    Sender([Row("a", "", 1.0)], 1, 0, 0, 0), Posting("a"), map["a" := ""], {"a"},
    Collector(map["a" := Record("", 1)], [], 1, 0), Idle, ["a"], ["a"], ["a"], {}, {"a"})

  const SENT := EMPTY.(sender := Sender([Row("a", "", 1.0)], 1, 0, 0, 0), accepted := ["a"],
                      worker := Posting("a"), wire := map["a" := ""])

  lemma FirstPost()
    ensures Next(Next(EMPTY, 1, true, Enqueue("a", "", 1.0)), 1, true, Select) == SENT
  {
    var p1 := Next(EMPTY, 1, true, Enqueue("a", "", 1.0));
    assert p1 == EMPTY.(sender := Sender([Row("a", "", 1.0)], 1, 0, 0, 0), accepted := ["a"]);
  }

  lemma FirstArrival()
    ensures Next(SENT, 1, true, Arrive(EARLY))
         == SENT.(replies := {"a"}, collector := Collector(map["a" := Record("", 1)], [Row("a", Record("", 1), 1.0)], 0, 0),
                  committed := ["a"], queued := ["a"])
  {
    var p := Next(SENT, 1, true, Arrive(EARLY));
    assert p.collector.events == map["a" := Record("", 1)] && p.expired == {};
  }

  lemma FirstDelivery()
    ensures var p := Next(Next(Next(EMPTY, 1, true, Enqueue("a", "", 1.0)), 1, true, Select), 1, true, Arrive(EARLY));
            Next(Next(Next(p, 1, true, ShipSelect), 1, true, ShipAcknowledge), 1, true, ShipDelete) == UNCONFIRMED
  {
    FirstPost();
    FirstArrival();
    hide Persisting, Enqueuing;
  }

  lemma SecondDelivery()
    ensures Next(Next(UNCONFIRMED, 1, true, Foreign(LATER)), 1, true, Arrive(AGAIN)).committed == ["a", "b", "a"]
  {
    var p := Next(UNCONFIRMED, 1, true, Foreign(LATER));
    assert p.committed == ["a", "b"] && p.wire == map["a" := ""] && |p.collector.outbox| == 1;
    assert "a" !in p.collector.events;
    assert p.collector.outbox[0].id == "b";
  }

  /** Exactly-once storage does not survive retention: an event whose acknowledgement was lost can be stored again
      a day later, on a clock that never runs backwards. */
  lemma StoredTwice()
    ensures
      var es := [Enqueue("a", "", 1.0), Select, Arrive(EARLY), ShipSelect, ShipAcknowledge, ShipDelete,
                 Foreign(LATER), Arrive(AGAIN)];
      && EARLY.stamp <= EARLY.now <= LATER.stamp <= LATER.now <= AGAIN.stamp <= AGAIN.now
      && After(1, true, es, 8).committed == ["a", "b", "a"]
  {
    hide Next;
    var es := [Enqueue("a", "", 1.0), Select, Arrive(EARLY), ShipSelect, ShipAcknowledge, ShipDelete,
               Foreign(LATER), Arrive(AGAIN)];
    FirstDelivery();
    SecondDelivery();
    assert After(1, true, es, 1) == Next(EMPTY, 1, true, es[0]);
    assert After(1, true, es, 2) == Next(Next(EMPTY, 1, true, es[0]), 1, true, es[1]);
    assert After(1, true, es, 4) == Next(Next(After(1, true, es, 2), 1, true, es[2]), 1, true, es[3]);
    assert After(1, true, es, 6) == Next(Next(After(1, true, es, 4), 1, true, es[4]), 1, true, es[5]) == UNCONFIRMED;
  }
}
