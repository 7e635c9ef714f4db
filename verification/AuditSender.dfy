/** The gateway's bounded audit outbox. */
module AuditSender {
  import opened Results
  import opened Text
  import opened Outbox

  const BODY_BYTES := 16384

  /** `pending` and the four counters of `statistics`. */
  datatype Sender = Sender(pending: seq<Row<string>>, accepted: nat, delivered: nat, failures: nat, rejected: nat)

  /** The transaction of `enqueue`; the answer is the event id, or nothing when the event is rejected.
      A repeated id violates the primary key: the exception rolls everything back. */
  function Enqueued(s: Sender, capacity: nat, id: string, body: string, now: real): (Sender, Option<string>) {
    if |s.pending| >= capacity || Utf8Length(body) > BODY_BYTES then (s.(rejected := s.rejected + 1), None)
    else if id in Ids(s.pending) then (s, None)
    else (s.(pending := s.pending + [Row(id, body, now)], accepted := s.accepted + 1), Some(id))
  }

  /** The closing transaction of `flush_once`. */
  function Settled(s: Sender, id: string, acknowledged: bool): Sender {
    if acknowledged then s.(pending := Without(s.pending, id), delivered := s.delivered + 1)
    else s.(failures := s.failures + 1)
  }

  class AuditDelivery {
    const capacity: nat
    var pending: seq<Row<string>>
    var accepted: nat
    var delivered: nat
    var failures: nat
    var rejected: nat

    function State(): Sender reads this { Sender(pending, accepted, delivered, failures, rejected) }

    constructor (capacity: nat)
      ensures State() == Sender([], 0, 0, 0, 0) && this.capacity == capacity
    {
      this.capacity := capacity;
      pending, accepted, delivered, failures, rejected := [], 0, 0, 0, 0;
    }

    method Enqueue(id: string, body: string, now: real) returns (event: Option<string>)
      modifies this
      ensures (State(), event) == Enqueued(old(State()), capacity, id, body, now)
    {
      var size := |pending|;
      if size >= capacity || Utf8Length(body) > BODY_BYTES {
        rejected := rejected + 1;
        return None;
      }
      if id in Ids(pending) { return None; }
      pending := pending + [Row(id, body, now)];
      accepted := accepted + 1;
      event := Some(id);
    }

    /** The row `flush_once` is about to post: an event that has waited longest, unless none is waiting. */
    method Next() returns (row: Option<Row<string>>)
      ensures row.None? <==> pending == []
      ensures row.Some? ==> Longest(pending, row.value)
    {
      row := Oldest(pending);
    }

    /** The rest of `flush_once`, once the POST was acknowledged with the row's own id or not. */
    method Settle(row: Row<string>, acknowledged: bool) returns (flushed: bool)
      modifies this
      ensures State() == Settled(old(State()), row.id, acknowledged) && flushed == acknowledged
    {
      if !acknowledged {
        failures := failures + 1;
        return false;
      }
      pending := Without(pending, row.id);
      delivered := delivered + 1;
      flushed := true;
    }

    /** `flush_once` with no producer in between; `reply` is the event id in the collector's answer, or nothing when
        the POST raised. One of the longest waiting events leaves the queue exactly when its own id came back. */
    method FlushOnce(reply: Option<string>) returns (flushed: bool)
      modifies this
      ensures old(pending) == [] ==> !flushed && State() == old(State())
      ensures old(pending) != [] ==>
                exists row :: (&& Longest(old(pending), row)
                               && flushed == (reply == Some(row.id))
                               && State() == Settled(old(State()), row.id, flushed))
    {
      var row := Next();
      if row.None? { return false; }
      flushed := Settle(row.value, reply == Some(row.value.id));
    }
  }
}
