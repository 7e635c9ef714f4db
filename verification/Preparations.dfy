/**
 The rows of a preparation journal (`p03_preparations`, `p04_preparations`), whatever a published row holds.
 At most one preparation is active; publication, failure and deletion never make an older row the newest again.
 */
module Preparations {
  import opened Results
  import opened Text

  datatype Phase = Preparing | Ready | Error | Deleted

  /** SHA-256 of the resource template: a free constructor, so equal digests mean equal templates. The template
      is a function of the account and of the program, whose text `release` stands for. */
  datatype Digest = TemplateDigest(account: string, release: nat)

  /** One row; its position in the journal is the `sequence` column. */
  datatype Row<S> = Row(
    operation: string, account: string, digest: Digest, started: real,
    finished: Option<real>, phase: Phase, snapshot: Option<S>)

  predicate AccountNumber(s: string) {
    |s| == 12 && forall i :: 0 <= i < 12 ==> Digit(s[i])
  }

  // ---------------------------------------------------------------- one statement each

  function FindFrom<S>(rows: seq<Row<S>>, operation: string, i: nat): (at: Option<nat>)
    requires i <= |rows|
    ensures at.Some? ==> i <= at.value < |rows| && rows[at.value].operation == operation
    ensures at.None? ==> forall k :: i <= k < |rows| ==> rows[k].operation != operation
    decreases |rows| - i
  {
    if i == |rows| then None
    else if rows[i].operation == operation then Some(i)
    else FindFrom(rows, operation, i + 1)
  }

  /** `SELECT * ... WHERE operation_id=?` */
  function Find<S>(rows: seq<Row<S>>, operation: string): (at: Option<nat>)
    ensures at.Some? ==> at.value < |rows| && rows[at.value].operation == operation
    ensures at.None? ==> forall k :: 0 <= k < |rows| ==> rows[k].operation != operation
  {
    FindFrom(rows, operation, 0)
  }

  predicate Busy<S>(rows: seq<Row<S>>) {
    exists i :: 0 <= i < |rows| && rows[i].phase == Preparing
  }

  /** The insertion of `begin`: one account for the whole journal, a valid clock, a new operation, and the
      partial unique index on the active row. */
  function Begun<S>(rows: seq<Row<S>>, operation: string, account: string, release: nat, now: real)
    : Outcome<seq<Row<S>>>
  {
    if !CanonicalUuid(operation) || !AccountNumber(account) then Refused(422)
    else if rows != [] && rows[|rows| - 1].account != account then Refused(409)
    else if !Usable(now) || Find(rows, operation).Some? || Busy(rows) then Refused(409)
    else Ok(rows + [Row(operation, account, TemplateDigest(account, release), now, None, Preparing, None)])
  }

  /** The row `publish` and `fail` look up; both refuse any other phase. */
  function Active<S>(rows: seq<Row<S>>, operation: string): (at: Option<nat>)
    ensures at.Some? ==> at.value < |rows| && rows[at.value].operation == operation && rows[at.value].phase == Preparing
  {
    var at := Find(rows, operation);
    if at.Some? && rows[at.value].phase == Preparing then at else None
  }

  /** The row update of `publish`, once the snapshot itself was accepted. */
  function Completed<S>(rows: seq<Row<S>>, operation: string, snapshot: S, now: real, limit: real)
    : Outcome<seq<Row<S>>>
  {
    var at := Active(rows, operation);
    if at.None? || !Usable(now) || !(0.0 <= now - rows[at.value].started <= limit) then Refused(409)
    else Ok(rows[at.value := rows[at.value].(phase := Ready, finished := Some(now), snapshot := Some(snapshot))])
  }

  function Failed<S>(rows: seq<Row<S>>, operation: string, now: real): Outcome<seq<Row<S>>> {
    var at := Active(rows, operation);
    if at.None? || !Usable(now) || now < rows[at.value].started then Refused(409)
    else Ok(rows[at.value := rows[at.value].(phase := Error, finished := Some(now))])
  }

  function Retired<S>(row: Row<S>): Row<S> {
    if row.phase == Ready then row.(phase := Deleted) else row
  }

  /** `UPDATE ... SET state='deleted' WHERE state='ready'`. */
  function RetireAll<S>(rows: seq<Row<S>>): (r: seq<Row<S>>)
    ensures |r| == |rows|
    ensures forall i :: 0 <= i < |rows| ==> r[i] == Retired(rows[i])
  {
    seq(|rows|, i requires 0 <= i < |rows| => Retired(rows[i]))
  }

  // ---------------------------------------------------------------- what every step keeps

  ghost predicate RowOk<S>(row: Row<S>) {
    && Usable(row.started)
    && row.digest.account == row.account
    && (row.phase == Preparing <==> row.finished == None)
    && (row.finished.Some? ==> row.started <= row.finished.value)
    && (row.snapshot.Some? <==> row.phase == Ready || row.phase == Deleted)
  }

  ghost predicate Inv<S>(rows: seq<Row<S>>) {
    && (forall i :: 0 <= i < |rows| ==> RowOk(rows[i]))
    && (forall i, k :: 0 <= i < k < |rows| ==> rows[i].operation != rows[k].operation)
    && (forall i :: 0 <= i < |rows| ==> rows[i].account == rows[0].account)
    && (forall i :: 0 <= i < |rows| - 1 ==> rows[i].phase != Preparing)
  }

  ghost predicate Identified<S>(rows: seq<Row<S>>) {
    forall i :: 0 <= i < |rows| ==> CanonicalUuid(rows[i].operation) && AccountNumber(rows[i].account)
  }

  /** The four statements that change a journal. */
  datatype Edit<S> =
    | Insert(operation: string, account: string, release: nat, now: real)
    | Complete(operation: string, snapshot: S, now: real, limit: real)
    | Abort(operation: string, now: real)
    | Delete

  function Edited<S>(rows: seq<Row<S>>, e: Edit<S>): Outcome<seq<Row<S>>> {
    match e
    case Insert(operation, account, release, now) => Begun(rows, operation, account, release, now)
    case Complete(operation, snapshot, now, limit) => Completed(rows, operation, snapshot, now, limit)
    case Abort(operation, now) => Failed(rows, operation, now)
    case Delete => Ok(RetireAll(rows))
  }

  lemma InsertKeepsInv<S>(rows: seq<Row<S>>, operation: string, account: string, release: nat, now: real)
    requires Inv(rows) && Begun(rows, operation, account, release, now).Ok?
    ensures Inv(Begun(rows, operation, account, release, now).value)
  {
    hide CanonicalUuid, AccountNumber;
  }

  /** Settling the active row: only its phase, its end and its snapshot may change. */
  lemma SettleKeepsInv<S>(rows: seq<Row<S>>, at: nat, settled: Row<S>)
    requires Inv(rows) && at < |rows| && RowOk(settled) && settled.phase != Preparing
    requires settled.operation == rows[at].operation && settled.account == rows[at].account
    ensures Inv(rows[at := settled])
  {
    hide RowOk;
  }

  lemma DeleteKeepsInv<S>(rows: seq<Row<S>>)
    requires Inv(rows)
    ensures Inv(RetireAll(rows))
  {
    forall i | 0 <= i < |rows| ensures RowOk(RetireAll(rows)[i]) { assert RowOk(rows[i]); }
  }

  lemma EditKeepsInv<S>(rows: seq<Row<S>>, e: Edit<S>)
    requires Inv(rows) && Edited(rows, e).Ok?
    ensures Inv(Edited(rows, e).value)
  {
    match e {
      case Insert(operation, account, release, now) => InsertKeepsInv(rows, operation, account, release, now);
      case Complete(operation, _, _, _) =>
        var at := Active(rows, operation).value;
        assert RowOk(rows[at]);
        SettleKeepsInv(rows, at, Edited(rows, e).value[at]);
      case Abort(operation, _) =>
        var at := Active(rows, operation).value;
        assert RowOk(rows[at]);
        SettleKeepsInv(rows, at, Edited(rows, e).value[at]);
      case Delete => DeleteKeepsInv(rows);
    }
    hide Inv, Active, Begun, RetireAll;
  }

  lemma EditKeepsIdentified<S>(rows: seq<Row<S>>, e: Edit<S>)
    requires Identified(rows) && Edited(rows, e).Ok?
    ensures Identified(Edited(rows, e).value)
  {
  }

  /** The newest row is published. */
  ghost predicate Exposing<S>(rows: seq<Row<S>>) {
    rows != [] && rows[|rows| - 1].phase == Ready
  }

  /** The operation is in the journal and is not the newest published one. */
  ghost predicate Superseded<S>(rows: seq<Row<S>>, operation: string) {
    exists i :: 0 <= i < |rows| && rows[i].operation == operation && (i < |rows| - 1 || rows[i].phase == Deleted)
  }

  lemma SupersededStays<S>(rows: seq<Row<S>>, e: Edit<S>, operation: string)
    requires Inv(rows) && Edited(rows, e).Ok? && Superseded(rows, operation)
    ensures Superseded(Edited(rows, e).value, operation)
  {
    var i :| 0 <= i < |rows| && rows[i].operation == operation && (i < |rows| - 1 || rows[i].phase == Deleted);
    assert Edited(rows, e).value[i].operation == operation;
  }

  /** Whatever changes a journal whose newest row is published supersedes that row. */
  lemma EditSupersedes<S>(rows: seq<Row<S>>, e: Edit<S>)
    requires Inv(rows) && Exposing(rows) && Edited(rows, e).Ok?
    ensures Superseded(Edited(rows, e).value, rows[|rows| - 1].operation)
  {
    var last := |rows| - 1;
    assert !Busy(rows);
    assert Edited(rows, e).value[last].operation == rows[last].operation;
  }

  lemma SupersededIsNotExposed<S>(rows: seq<Row<S>>, operation: string)
    requires Inv(rows) && Superseded(rows, operation) && Exposing(rows)
    ensures rows[|rows| - 1].operation != operation
  {
  }

  // ---------------------------------------------------------------- when an edit is accepted

  /** A preparation begins exactly when the journal has no other account, not this operation, and nothing active. */
  lemma InsertAcceptedIff<S>(rows: seq<Row<S>>, operation: string, account: string, release: nat, now: real)
    requires Inv(rows)
    ensures Begun(rows, operation, account, release, now).Ok?
       <==> && CanonicalUuid(operation) && AccountNumber(account) && Usable(now)
            && forall i :: 0 <= i < |rows| ==>
                 rows[i].account == account && rows[i].operation != operation && rows[i].phase != Preparing
  {
    hide CanonicalUuid, AccountNumber, RowOk;
  }

  /** The preparation that may be settled: the newest one, while it is active. */
  ghost predicate Settling<S>(rows: seq<Row<S>>, operation: string, now: real) {
    && rows != [] && rows[|rows| - 1].operation == operation && rows[|rows| - 1].phase == Preparing
    && Usable(now) && rows[|rows| - 1].started <= now
  }

  lemma ActiveIsNewest<S>(rows: seq<Row<S>>, operation: string)
    requires Inv(rows)
    ensures Active(rows, operation).Some?
       <==> rows != [] && rows[|rows| - 1].operation == operation && rows[|rows| - 1].phase == Preparing
    ensures Active(rows, operation).Some? ==> Active(rows, operation).value == |rows| - 1
  {
  }

  /** Only the newest row differs, and it has reached this phase. */
  ghost predicate NewestBecame<S>(before: seq<Row<S>>, after: seq<Row<S>>, phase: Phase) {
    && before != [] && |after| == |before| && after[..|before| - 1] == before[..|before| - 1]
    && after[|before| - 1].operation == before[|before| - 1].operation && after[|before| - 1].phase == phase
  }

  lemma CompleteAcceptedIff<S>(rows: seq<Row<S>>, operation: string, snapshot: S, now: real, limit: real)
    requires Inv(rows)
    ensures Completed(rows, operation, snapshot, now, limit).Ok?
       <==> Settling(rows, operation, now) && now <= rows[|rows| - 1].started + limit
  {
    hide Inv, Active;
    ActiveIsNewest(rows, operation);
  }

  lemma AbortAcceptedIff<S>(rows: seq<Row<S>>, operation: string, now: real)
    requires Inv(rows)
    ensures Failed(rows, operation, now).Ok? <==> Settling(rows, operation, now)
  {
    hide Inv, Active;
    ActiveIsNewest(rows, operation);
  }

  // ---------------------------------------------------------------- what a row tells of the run

  /** The journal after the first `n` entries of a log of accepted edits; `None` is a step that edited nothing. */
  function Replayed<S>(log: seq<Option<Edit<S>>>, n: nat): seq<Row<S>>
    requires n <= |log|
  {
    if n == 0 then []
    else
      var before := Replayed(log, n - 1);
      if log[n - 1].Some? && Edited(before, log[n - 1].value).Ok? then Edited(before, log[n - 1].value).value else before
  }

  lemma {:induction false} ReplayedPrefix<S>(log: seq<Option<Edit<S>>>, longer: seq<Option<Edit<S>>>, n: nat)
    requires n <= |log| <= |longer| && longer[..|log|] == log
    ensures Replayed(log, n) == Replayed(longer, n)
  {
    hide Edited;
    if n > 0 {
      ReplayedPrefix(log, longer, n - 1);
      assert longer[n - 1] == longer[..|log|][n - 1];
    }
  }

  /** Entry `k` of the log inserted the row. */
  ghost predicate InsertedAt<S>(log: seq<Option<Edit<S>>>, k: nat, row: Row<S>) {
    k < |log| && log[k] == Some(Insert(row.operation, row.account, row.digest.release, row.started))
  }

  /** Entry `k` of the log published the row. */
  ghost predicate CompletedAt<S>(log: seq<Option<Edit<S>>>, k: nat, row: Row<S>) {
    && k < |log| && log[k].Some? && log[k].value.Complete? && log[k].value.operation == row.operation
    && Some(log[k].value.snapshot) == row.snapshot && Some(log[k].value.now) == row.finished
  }

  ghost predicate AbortedAt<S>(log: seq<Option<Edit<S>>>, k: nat, row: Row<S>) {
    k < |log| && row.finished.Some? && log[k] == Some(Abort(row.operation, row.finished.value))
  }

  ghost predicate DeletedAt<S>(log: seq<Option<Edit<S>>>, k: nat) {
    k < |log| && log[k] == Some(Delete)
  }

  /** What the entries before `n` say of a row: it was inserted with its operation, account, template and start, and
      then settled as its phase says, at its end and with its snapshot. */
  ghost predicate Told<S>(log: seq<Option<Edit<S>>>, n: nat, row: Row<S>) {
    exists b: nat ::
      && b < n && InsertedAt(log, b, row)
      && match row.phase
         case Preparing => row.finished.None? && row.snapshot.None?
         case Ready => exists c: nat :: b < c < n && CompletedAt(log, c, row)
         case Error => exists a: nat :: b < a < n && AbortedAt(log, a, row)
         case Deleted => exists c: nat, d: nat :: b < c < d < n && CompletedAt(log, c, row) && DeletedAt(log, d)
  }

  ghost predicate AllTold<S>(log: seq<Option<Edit<S>>>, n: nat, rows: seq<Row<S>>) {
    forall i :: 0 <= i < |rows| ==> Told(log, n, rows[i])
  }

  lemma StillTold<S>(log: seq<Option<Edit<S>>>, n: nat, row: Row<S>)
    requires Told(log, n, row)
    ensures Told(log, n + 1, row)
  {
    hide InsertedAt, CompletedAt, AbortedAt, DeletedAt;
  }

  lemma CompletionIsTold<S>(log: seq<Option<Edit<S>>>, n: nat, row: Row<S>, snapshot: S, now: real, limit: real)
    requires Told(log, n, row) && row.phase == Preparing
    requires n < |log| && log[n] == Some(Complete(row.operation, snapshot, now, limit))
    ensures Told(log, n + 1, row.(phase := Ready, finished := Some(now), snapshot := Some(snapshot)))
  {
    var b: nat :| b < n && InsertedAt(log, b, row);
    var after := row.(phase := Ready, finished := Some(now), snapshot := Some(snapshot));
    assert InsertedAt(log, b, after) && CompletedAt(log, n, after);
  }

  lemma FailureIsTold<S>(log: seq<Option<Edit<S>>>, n: nat, row: Row<S>, now: real)
    requires Told(log, n, row) && row.phase == Preparing && n < |log| && log[n] == Some(Abort(row.operation, now))
    ensures Told(log, n + 1, row.(phase := Error, finished := Some(now)))
  {
    var b: nat :| b < n && InsertedAt(log, b, row);
    var after := row.(phase := Error, finished := Some(now));
    assert InsertedAt(log, b, after) && AbortedAt(log, n, after);
  }

  lemma DeletionIsTold<S>(log: seq<Option<Edit<S>>>, n: nat, row: Row<S>)
    requires Told(log, n, row) && n < |log| && log[n] == Some(Delete)
    ensures Told(log, n + 1, Retired(row))
  {
    StillTold(log, n, row);
    if row.phase == Ready {
      var b: nat, c: nat :| b < c < n && InsertedAt(log, b, row) && CompletedAt(log, c, row);
      assert InsertedAt(log, b, Retired(row)) && CompletedAt(log, c, Retired(row)) && DeletedAt(log, n);
    }
  }

  lemma StepIsTold<S>(log: seq<Option<Edit<S>>>, n: nat, rows: seq<Row<S>>, e: Edit<S>)
    requires AllTold(log, n, rows) && n < |log| && log[n] == Some(e) && Edited(rows, e).Ok?
    ensures AllTold(log, n + 1, Edited(rows, e).value)
  {
    var after := Edited(rows, e).value;
    forall i | 0 <= i < |after| ensures Told(log, n + 1, after[i]) {
      if i < |rows| {
        StillTold(log, n, rows[i]);
        match e
        case Insert(_, _, _, _) =>
        case Complete(operation, snapshot, now, limit) =>
          if Active(rows, operation) == Some(i) { CompletionIsTold(log, n, rows[i], snapshot, now, limit); }
        case Abort(operation, now) =>
          if Active(rows, operation) == Some(i) { FailureIsTold(log, n, rows[i], now); }
        case Delete => DeletionIsTold(log, n, rows[i]);
      } else {
        assert InsertedAt(log, n, after[i]);
      }
    }
  }

  /** Over every run, each row tells what happened to it, and in that order. */
  lemma {:induction false} RowsTellTheRun<S>(log: seq<Option<Edit<S>>>, n: nat)
    requires n <= |log|
    ensures AllTold(log, n, Replayed(log, n))
  {
    hide Told, Edited;
    if n > 0 {
      var before := Replayed(log, n - 1);
      RowsTellTheRun(log, n - 1);
      if log[n - 1].Some? && Edited(before, log[n - 1].value).Ok? {
        StepIsTold(log, n - 1, before, log[n - 1].value);
      } else {
        forall i | 0 <= i < |before| ensures Told(log, n, before[i]) { StillTold(log, n - 1, before[i]); }
      }
    }
  }
}
