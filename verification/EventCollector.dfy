/** The collector's event table, retention, and its log outbox with the worker that ships it. */
module EventCollector {
  import opened Results
  import opened Outbox

  const BACKLOG := 10000
  const RETENTION_MS := 86400000

  /** What `persist` builds from a posted event and stores both in `events_v2` and in the log: the decision, the excerpt
      and the hash are functions of the posted text and of the policy, so the text and the timestamp stand for it. */
  datatype Record = Record(body: string, stamp: int)

  /** `events_v2`, `log_outbox`, and the two counters of `log_delivery_statistics`. */
  datatype Collector = Collector(events: map<string, Record>, outbox: seq<Row<Record>>, delivered: nat, failures: nat)

  datatype Receipt = Stored | Duplicate

  /** `DELETE FROM events_v2 WHERE timestamp_ms < ? AND id NOT IN (SELECT event_id FROM log_outbox)` */
  function Retained(c: Collector, now: int): (events: map<string, Record>)
    ensures events.Keys <= c.events.Keys
    ensures forall id :: id in events ==> events[id] == c.events[id]
    ensures forall id :: id in c.events ==>
              (id in events <==> c.events[id].stamp >= now - RETENTION_MS || id in Ids(c.outbox))
  {
    map id | id in c.events && (c.events[id].stamp >= now - RETENTION_MS || id in Ids(c.outbox)) :: c.events[id]
  }

  /** The transaction of `persist`. `stamp` is the record's timestamp, `now` the clock at the deletion, `logs`
      whether an OTLP endpoint is configured. An id that is only in the outbox violates its primary key. */
  function Persisted(c: Collector, logs: bool, id: string, body: string, created: real, stamp: int, now: int)
    : (Collector, Outcome<Receipt>)
  {
    if id in c.events then (c, Ok(Duplicate))
    else if logs && |c.outbox| >= BACKLOG then (c, Refused(503))
    else if logs && id in Ids(c.outbox) then (c, Refused(500))
    else
      var stored := c.(events := c.events[id := Record(body, stamp)],
                       outbox := if logs then c.outbox + [Row(id, Record(body, stamp), created)] else c.outbox);
      (stored.(events := Retained(stored, now)), Ok(Stored))
  }

  /** The closing transaction of the log worker's `flush_once`. */
  function LogSettled(c: Collector, id: string, acknowledged: bool): Collector {
    if acknowledged then c.(outbox := Without(c.outbox, id), delivered := c.delivered + 1)
    else c.(failures := c.failures + 1)
  }

  class EventStore {
    var events: map<string, Record>
    var outbox: seq<Row<Record>>
    var delivered: nat
    var failures: nat

    function State(): Collector reads this { Collector(events, outbox, delivered, failures) }

    constructor ()
      ensures State() == Collector(map[], [], 0, 0)
    {
      events, outbox, delivered, failures := map[], [], 0, 0;
    }

    method Persist(logs: bool, id: string, body: string, created: real, stamp: int, now: int)
      returns (r: Outcome<Receipt>)
      modifies this
      ensures (State(), r) == Persisted(old(State()), logs, id, body, created, stamp, now)
    {
      if id in events { return Ok(Duplicate); }
      if logs && |outbox| >= BACKLOG { return Refused(503); }
      if logs && id in Ids(outbox) { return Refused(500); }
      events := events[id := Record(body, stamp)];
      if logs { outbox := outbox + [Row(id, Record(body, stamp), created)]; }
      events := Retained(State(), now);
      r := Ok(Stored);
    }

    /** The row the log worker is about to ship: a log that has waited longest, unless none is waiting. */
    method NextLog() returns (row: Option<Row<Record>>)
      ensures row.None? <==> outbox == []
      ensures row.Some? ==> Longest(outbox, row.value)
    {
      row := Oldest(outbox);
    }

    /** The rest of the log worker's `flush_once`, once the record was acknowledged with no rejected record or not. */
    method SettleLog(row: Row<Record>, acknowledged: bool) returns (flushed: bool)
      modifies this
      ensures State() == LogSettled(old(State()), row.id, acknowledged) && flushed == acknowledged
    {
      if !acknowledged {
        failures := failures + 1;
        return false;
      }
      outbox := Without(outbox, row.id);
      delivered := delivered + 1;
      flushed := true;
    }

    /** The log worker's `flush_once` with no request in between: one of the longest waiting logs leaves the outbox
        exactly when it was acknowledged, and no event row is touched. */
    method FlushLog(acknowledged: bool) returns (flushed: bool)
      modifies this
      ensures events == old(events)
      ensures old(outbox) == [] ==> !flushed && State() == old(State())
      ensures old(outbox) != [] ==>
                flushed == acknowledged
                && exists row :: Longest(old(outbox), row) && State() == LogSettled(old(State()), row.id, acknowledged)
    {
      var row := NextLog();
      if row.None? { return false; }
      flushed := SettleLog(row.value, acknowledged);
    }
  }
}
