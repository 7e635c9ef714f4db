/** A durable queue table (`pending`, `log_outbox`): rows keyed by event id, read in order of creation. */
module Outbox {
  import opened Results

  datatype Row<B> = Row(id: string, body: B, created: real)

  function Ids<B(==)>(q: seq<Row<B>>): set<string> {
    set r | r in q :: r.id
  }

  /** The primary key. */
  ghost predicate Keyed<B>(q: seq<Row<B>>) {
    forall i, k :: 0 <= i < k < |q| ==> q[i].id != q[k].id
  }

  /** `SELECT event_id,body ... ORDER BY created LIMIT 1`; ties go to the earliest insertion. */
  function Oldest<B(!new)>(q: seq<Row<B>>): (r: Option<Row<B>>)
    ensures r.None? <==> q == []
    ensures r.Some? ==> r.value in q && forall x :: x in q ==> r.value.created <= x.created
  {
    if q == [] then None
    else
      var rest := Oldest(q[1..]);
      if rest.Some? && rest.value.created < q[0].created then rest else Some(q[0])
  }

  /** No row of the queue was created before this one. */
  ghost predicate Longest<B(!new)>(q: seq<Row<B>>, row: Row<B>) {
    row in q && forall x :: x in q ==> row.created <= x.created
  }

  /** `DELETE ... WHERE event_id=?` */
  function Without<B(!new)>(q: seq<Row<B>>, id: string): (r: seq<Row<B>>)
    ensures forall x :: x in r <==> x in q && x.id != id
    ensures id !in Ids(q) ==> r == q
  {
    if q == [] then [] else (if q[0].id == id then [] else [q[0]]) + Without(q[1..], id)
  }

  lemma {:induction false} WithoutKeyed<B(!new)>(q: seq<Row<B>>, id: string)
    requires Keyed(q)
    ensures Keyed(Without(q, id))
  {
    if q != [] {
      var rest := Without(q[1..], id);
      WithoutKeyed(q[1..], id);
      forall k | 0 <= k < |rest| ensures rest[k].id != q[0].id { assert rest[k] in q[1..]; }
    }
  }

  lemma {:induction false} WithoutLength<B(!new)>(q: seq<Row<B>>, id: string)
    requires Keyed(q) && id in Ids(q)
    ensures |Without(q, id)| == |q| - 1
  {
    if q[0].id == id {
      assert id !in Ids(q[1..]);
    } else {
      assert q == [q[0]] + q[1..];
      WithoutLength(q[1..], id);
    }
  }

  /** Deleting an id that is present removes exactly its one row. */
  lemma WithoutOne<B(!new)>(q: seq<Row<B>>, id: string)
    requires Keyed(q)
    ensures Keyed(Without(q, id))
    ensures Ids(Without(q, id)) == Ids(q) - {id}
    ensures id in Ids(q) ==> |Without(q, id)| == |q| - 1
  {
    hide Without;
    WithoutKeyed(q, id);
    if id in Ids(q) { WithoutLength(q, id); }
  }
}
