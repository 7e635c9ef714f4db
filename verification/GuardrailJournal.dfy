/**
 The P04 preparation journal. Unlike the P03 one, what it publishes does not name the operation that published it,
 so the same snapshot can be published again.
 */
module GuardrailJournal {
  import opened Results
  import opened Text
  import opened Preparations

  const PREPARATION_SECONDS := 300.0

  /** `arn:aws:bedrock:us-east-1:<account>:guardrail/<identifier>` */
  datatype Arn = Arn(account: string, identifier: string)

  datatype Mode = Aws | Contract

  datatype Snapshot = Snapshot(mode: Mode, guardrail: string, arn: Option<Arn>, policyDigest: Digest)

  /** `resource_snapshot`: the values the validator returns unchanged. */
  predicate ValidSnapshot(s: Snapshot) {
    match s.mode
    case Contract => s.arn == None && s.guardrail == "p04contract"
    case Aws =>
      && s.arn.Some? && AccountNumber(s.arn.value.account) && s.arn.value.identifier == s.guardrail
      && s.guardrail != [] && forall c :: c in s.guardrail ==> Digit(c) || Lower(c)
  }

  predicate ValidEvidence(ids: seq<string>) {
    && 3 <= |ids| <= 200
    && (forall id :: id in ids ==> 1 <= |id| <= 256 && forall c :: c in id ==> c < '\U{80}')
    && (forall i, k :: 0 <= i < k < |ids| ==> ids[i] != ids[k])
  }

  datatype Step<T> = Step(next: seq<Row<Snapshot>>, answer: Outcome<T>)

  predicate Publishable(row: Row<Snapshot>, snapshot: Snapshot, release: nat) {
    && snapshot.mode == Aws && snapshot.arn.Some?
    && snapshot.policyDigest == TemplateDigest(row.account, release)
    && row.digest == TemplateDigest(row.account, release)
    && snapshot.arn.value.account == row.account
  }

  function BeginStep(rows: seq<Row<Snapshot>>, operation: string, account: string, release: nat, now: real): Step<()> {
    match Begun(rows, operation, account, release, now)
    case Refused(status) => Step(rows, Refused(status))
    case Ok(rows') => Step(rows', Ok(()))
  }

  function PublishStep(rows: seq<Row<Snapshot>>, operation: string, snapshot: Snapshot, ids: seq<string>,
                       release: nat, now: real): Step<()>
  {
    if !CanonicalUuid(operation) then Step(rows, Refused(422))
    else
      var at := Active(rows, operation);
      var rows' := Completed(rows, operation, snapshot, now, PREPARATION_SECONDS);
      if ValidSnapshot(snapshot) && ValidEvidence(ids) && at.Some?
         && Publishable(rows[at.value], snapshot, release) && rows'.Ok?
      then Step(rows'.value, Ok(()))
      else Step(rows, Refused(409))
  }

  function FailStep(rows: seq<Row<Snapshot>>, operation: string, now: real): Step<()> {
    if !CanonicalUuid(operation) then Step(rows, Refused(422))
    else
      match Failed(rows, operation, now)
      case Refused(status) => Step(rows, Refused(status))
      case Ok(rows') => Step(rows', Ok(()))
  }

  function Resources(rows: seq<Row<Snapshot>>, release: nat): Outcome<Snapshot> {
    if rows != [] && rows[|rows| - 1].phase == Ready && rows[|rows| - 1].snapshot.Some?
       && ValidSnapshot(rows[|rows| - 1].snapshot.value)
       && Publishable(rows[|rows| - 1], rows[|rows| - 1].snapshot.value, release)
    then Ok(rows[|rows| - 1].snapshot.value)
    else Refused(409)
  }

  class PreparationStore {
    var rows: seq<Row<Snapshot>>

    constructor ()
      ensures rows == []
    {
      rows := [];
    }

    method Begin(operation: string, account: string, release: nat, now: real) returns (r: Outcome<()>)
      modifies this
      ensures Step(rows, r) == BeginStep(old(rows), operation, account, release, now)
    {
      if !CanonicalUuid(operation) || !AccountNumber(account) { return Refused(422); }
      if |rows| > 0 && rows[|rows| - 1].account != account { return Refused(409); }
      if !Usable(now) { return Refused(409); }
      var taken := Find(rows, operation);
      if taken.Some? || Busy(rows) { return Refused(409); }
      rows := rows + [Row(operation, account, TemplateDigest(account, release), now, None, Preparing, None)];
      r := Ok(());
    }

    method Publish(operation: string, snapshot: Snapshot, ids: seq<string>, release: nat, now: real)
      returns (r: Outcome<()>)
      modifies this
      ensures Step(rows, r) == PublishStep(old(rows), operation, snapshot, ids, release, now)
    {
      if !CanonicalUuid(operation) { return Refused(422); }
      if !ValidSnapshot(snapshot) || !ValidEvidence(ids) { return Refused(409); }
      var at := Find(rows, operation);
      if at.None? || rows[at.value].phase != Preparing || !Usable(now) { return Refused(409); }
      var row := rows[at.value];
      if !Publishable(row, snapshot, release) { return Refused(409); }
      if !(0.0 <= now - row.started <= PREPARATION_SECONDS) { return Refused(409); }
      rows := rows[at.value := row.(phase := Ready, finished := Some(now), snapshot := Some(snapshot))];
      r := Ok(());
    }

    method Fail(operation: string, now: real) returns (r: Outcome<()>)
      modifies this
      ensures Step(rows, r) == FailStep(old(rows), operation, now)
    {
      if !CanonicalUuid(operation) { return Refused(422); }
      var at := Find(rows, operation);
      if at.None? || rows[at.value].phase != Preparing { return Refused(409); }
      if !Usable(now) || now < rows[at.value].started { return Refused(409); }
      rows := rows[at.value := rows[at.value].(phase := Error, finished := Some(now))];
      r := Ok(());
    }
  }

  // ---------------------------------------------------------------- runs

  datatype Command =
    | DoBegin(operation: string, account: string, release: nat, now: real)
    | DoPublish(operation: string, snapshot: Snapshot, ids: seq<string>, release: nat, now: real)
    | DoFail(operation: string, now: real)
    | DoRemove

  function Apply(rows: seq<Row<Snapshot>>, c: Command): seq<Row<Snapshot>> {
    match c
    case DoBegin(operation, account, release, now) => BeginStep(rows, operation, account, release, now).next
    case DoPublish(operation, snapshot, ids, release, now) =>
      PublishStep(rows, operation, snapshot, ids, release, now).next
    case DoFail(operation, now) => FailStep(rows, operation, now).next
    case DoRemove => RetireAll(rows)
  }

  function After(rows: seq<Row<Snapshot>>, cs: seq<Command>, n: nat): seq<Row<Snapshot>>
    requires n <= |cs|
  {
    if n == 0 then rows else Apply(After(rows, cs, n - 1), cs[n - 1])
  }

  ghost function EditOf(c: Command): Edit<Snapshot> {
    match c
    case DoBegin(operation, account, release, now) => Insert(operation, account, release, now)
    case DoPublish(operation, snapshot, _, release, now) => Complete(operation, snapshot, now, PREPARATION_SECONDS)
    case DoFail(operation, now) => Abort(operation, now)
    case DoRemove => Delete
  }

  lemma ApplyEdits(rows: seq<Row<Snapshot>>, c: Command)
    ensures Apply(rows, c) == rows || Edited(rows, EditOf(c)) == Ok(Apply(rows, c))
  {
    hide ValidSnapshot, ValidEvidence;
  }

  /** A published row holds a snapshot that passed every check of the publication. */
  ghost predicate Sound(row: Row<Snapshot>) {
    row.snapshot.Some? ==>
      && row.finished.Some? && row.finished.value - row.started <= PREPARATION_SECONDS
      && ValidSnapshot(row.snapshot.value) && Publishable(row, row.snapshot.value, row.digest.release)
  }

  ghost predicate AllSound(rows: seq<Row<Snapshot>>) {
    forall i :: 0 <= i < |rows| ==> Sound(rows[i])
  }

  lemma ApplyKeepsSound(rows: seq<Row<Snapshot>>, c: Command)
    requires Inv(rows) && AllSound(rows)
    ensures AllSound(Apply(rows, c))
  {
    hide ValidSnapshot, ValidEvidence;
  }

  lemma ApplyKeepsInv(rows: seq<Row<Snapshot>>, c: Command)
    requires Inv(rows)
    ensures Inv(Apply(rows, c))
  {
    hide Apply;
    ApplyEdits(rows, c);
    if Apply(rows, c) != rows { EditKeepsInv(rows, EditOf(c)); }
  }

  lemma {:induction false} RunKeepsValid(rows: seq<Row<Snapshot>>, cs: seq<Command>, n: nat)
    requires Inv(rows) && AllSound(rows) && n <= |cs|
    ensures Inv(After(rows, cs, n)) && AllSound(After(rows, cs, n))
  {
    hide Inv, AllSound, Apply;
    if n > 0 {
      RunKeepsValid(rows, cs, n - 1);
      ApplyKeepsInv(After(rows, cs, n - 1), cs[n - 1]);
      ApplyKeepsSound(After(rows, cs, n - 1), cs[n - 1]);
    }
  }

  lemma ReadableIffExposing(rows: seq<Row<Snapshot>>, release: nat)
    requires Inv(rows) && AllSound(rows)
    ensures Resources(rows, release).Ok? <==> Exposing(rows) && rows[|rows| - 1].digest.release == release
    ensures Resources(rows, release).Ok? ==> rows[|rows| - 1].snapshot == Some(Resources(rows, release).value)
  {
    hide ValidSnapshot;
    if Exposing(rows) { assert Sound(rows[|rows| - 1]); }
  }

  /** From an empty database, over every run: resources are readable exactly when the newest preparation is
      published and belongs to this release, so no failed, unfinished or deleted preparation exposes an older one. */
  lemma Exposure(cs: seq<Command>, release: nat)
    ensures
      var rows := After([], cs, |cs|);
      && Inv(rows) && AllSound(rows)
      && (Resources(rows, release).Ok? <==> Exposing(rows) && rows[|rows| - 1].digest.release == release)
      && (Resources(rows, release).Ok? ==> rows[|rows| - 1].snapshot == Some(Resources(rows, release).value))
  {
    RunKeepsValid([], cs, |cs|);
    hide *;
    ReadableIffExposing(After([], cs, |cs|), release);
  }

  // ---------------------------------------------------------------- a binding that was replaced can return

  lemma StepSupersedes(rows: seq<Row<Snapshot>>, c: Command, operation: string)
    requires Inv(rows) && Apply(rows, c) != rows
    requires Superseded(rows, operation) || (Exposing(rows) && rows[|rows| - 1].operation == operation)
    ensures Superseded(Apply(rows, c), operation)
  {
    hide Apply;
    ApplyEdits(rows, c);
    if Superseded(rows, operation) {
      SupersededStays(rows, EditOf(c), operation);
    } else {
      EditSupersedes(rows, EditOf(c));
    }
  }

  lemma {:induction false} RunFromExposed(rows: seq<Row<Snapshot>>, cs: seq<Command>, n: nat)
    requires Inv(rows) && AllSound(rows) && Exposing(rows) && n <= |cs|
    ensures (forall k :: 0 <= k <= n ==> After(rows, cs, k) == rows)
            || Superseded(After(rows, cs, n), rows[|rows| - 1].operation)
  {
    hide Apply, AllSound, Inv, Superseded;
    if n > 0 {
      RunFromExposed(rows, cs, n - 1);
      RunKeepsValid(rows, cs, n - 1);
      var before := After(rows, cs, n - 1);
      if Apply(before, cs[n - 1]) != before {
        StepSupersedes(before, cs[n - 1], rows[|rows| - 1].operation);
      }
    }
  }

  /** When the same snapshot is read before and after some steps, none of them took effect if and only if the newest
      preparation is still the same one: the operation is what a comparison of snapshots misses. */
  lemma UntouchedIffSameOperation(rows: seq<Row<Snapshot>>, cs: seq<Command>, n: nat, release: nat)
    requires Inv(rows) && AllSound(rows) && Resources(rows, release).Ok? && n <= |cs|
    requires Resources(After(rows, cs, n), release) == Resources(rows, release)
    ensures rows != [] && After(rows, cs, n) != []
    ensures (forall k :: 0 <= k <= n ==> After(rows, cs, k) == rows)
       <==> After(rows, cs, n)[|After(rows, cs, n)| - 1].operation == rows[|rows| - 1].operation
  {
    var later := After(rows, cs, n);
    RunKeepsValid(rows, cs, n);
    hide After, Resources, Inv, AllSound;
    ReadableIffExposing(rows, release);
    ReadableIffExposing(later, release);
    RunFromExposed(rows, cs, n);
    if Superseded(later, rows[|rows| - 1].operation) {
      SupersededIsNotExposed(later, rows[|rows| - 1].operation);
    }
  }

  /** The P03 guarantee does not hold here, from any readable journal: a second preparation of the unchanged
      guardrail hides the snapshot while it runs and then exposes it again, so comparing the snapshot before and
      after a call does not show the preparation in between. */
  lemma PreparationBetweenEqualReads(rows: seq<Row<Snapshot>>, release: nat, operation: string, ids: seq<string>,
                                     begun: real, published: real)
    requires Inv(rows) && AllSound(rows) && Resources(rows, release).Ok?
    requires CanonicalUuid(operation) && Find(rows, operation).None? && ValidEvidence(ids)
    requires Usable(begun) && 0.0 <= published - begun <= PREPARATION_SECONDS
    ensures
      var snapshot := Resources(rows, release).value;
      var between := BeginStep(rows, operation, rows[0].account, release, begun);
      var after := PublishStep(between.next, operation, snapshot, ids, release, published);
      && between.answer.Ok? && after.answer.Ok?
      && Resources(between.next, release) == Refused(409)
      && Resources(after.next, release) == Ok(snapshot)
  {
    hide ValidEvidence, CanonicalUuid;
    var snapshot := Resources(rows, release).value;
    assert Sound(rows[|rows| - 1]);
    assert !Busy(rows);
    var between := BeginStep(rows, operation, rows[0].account, release, begun).next;
    assert between == rows + [Row(operation, rows[0].account, TemplateDigest(rows[0].account, release), begun,
                                  None, Preparing, None)];
    assert between[|rows|].operation == operation;
    assert Find(between, operation) == Some(|rows|);
  }

  // ---------------------------------------------------------------- acceptance, and what a row tells of the run

  /** The edits of the first `n` commands; `None` is a command that changed nothing. */
  ghost function Log(cs: seq<Command>, n: nat): (log: seq<Option<Edit<Snapshot>>>)
    requires n <= |cs|
    ensures |log| == n
  {
    if n == 0 then []
    else
      var before := After([], cs, n - 1);
      Log(cs, n - 1) + [if Apply(before, cs[n - 1]) == before then None else Some(EditOf(cs[n - 1]))]
  }

  lemma {:induction false} LogReplays(cs: seq<Command>, n: nat, m: nat)
    requires m <= n <= |cs|
    ensures Replayed(Log(cs, n), m) == After([], cs, m)
    decreases m, n
  {
    hide Apply, Edited;
    if m > 0 {
      if n == m {
        LogReplays(cs, n - 1, n - 1);
        ReplayedPrefix(Log(cs, n - 1), Log(cs, n), n - 1);
        ApplyEdits(After([], cs, n - 1), cs[n - 1]);
      } else {
        LogReplays(cs, n - 1, m);
        ReplayedPrefix(Log(cs, n - 1), Log(cs, n), m);
      }
    }
  }

  /** Over every run from the empty database, each row was inserted by an accepted begin with exactly its operation,
      account, template and start, and then published, failed or deleted as its phase says, at its recorded end and
      with its recorded snapshot. */
  lemma JournalTellsTheRun(cs: seq<Command>)
    ensures AllTold(Log(cs, |cs|), |cs|, After([], cs, |cs|))
  {
    LogReplays(cs, |cs|, |cs|);
    RowsTellTheRun(Log(cs, |cs|), |cs|);
    hide AllTold, Replayed, After, Log;
  }

  /** A begin is accepted exactly when the journal has no other account, not this operation and nothing active. */
  lemma BeginAcceptedIff(rows: seq<Row<Snapshot>>, operation: string, account: string, release: nat, now: real)
    requires Inv(rows)
    ensures BeginStep(rows, operation, account, release, now).answer.Ok?
       <==> && CanonicalUuid(operation) && AccountNumber(account) && Usable(now)
            && forall i :: 0 <= i < |rows| ==>
                 rows[i].account == account && rows[i].operation != operation && rows[i].phase != Preparing
  {
    InsertAcceptedIff(rows, operation, account, release, now);
    hide Inv, CanonicalUuid, AccountNumber;
  }

  /** What a published snapshot must say: a guardrail of the row's account under the template the row began with, which
      is still the current one. */
  ghost predicate OfPreparation(row: Row<Snapshot>, snapshot: Snapshot, release: nat) {
    && row.digest == snapshot.policyDigest == TemplateDigest(row.account, release)
    && snapshot.mode == Aws && snapshot.arn == Some(Arn(row.account, snapshot.guardrail))
    && snapshot.guardrail != "" && forall c :: c in snapshot.guardrail ==> Digit(c) || Lower(c)
  }

  /** A publication is accepted exactly when the newest preparation is active, is this operation, began at most 300
      seconds ago, the snapshot is one of this preparation, and there are 3 to 200 different request identifiers. */
  lemma PublishAcceptedIff(rows: seq<Row<Snapshot>>, operation: string, snapshot: Snapshot, ids: seq<string>,
                           release: nat, now: real)
    requires Inv(rows) && Identified(rows)
    ensures PublishStep(rows, operation, snapshot, ids, release, now).answer.Ok?
       <==> && Settling(rows, operation, now) && now <= rows[|rows| - 1].started + 300.0
            && OfPreparation(rows[|rows| - 1], snapshot, release)
            && 3 <= |ids| <= 200 && Distinct(ids)
            && forall id :: id in ids ==> 1 <= |id| <= 256 && forall c :: c in id ==> c < '\U{80}'
  {
    CompleteAcceptedIff(rows, operation, snapshot, now, PREPARATION_SECONDS);
    ActiveIsNewest(rows, operation);
    assert rows != [] ==> CanonicalUuid(rows[|rows| - 1].operation) && AccountNumber(rows[|rows| - 1].account);
    hide Inv, Active, AccountNumber, CanonicalUuid, Settling;
  }

  /** A failure is accepted exactly for the newest preparation while it is active. */
  lemma FailAcceptedIff(rows: seq<Row<Snapshot>>, operation: string, now: real)
    requires Inv(rows) && Identified(rows)
    ensures FailStep(rows, operation, now).answer.Ok? <==> Settling(rows, operation, now)
  {
    AbortAcceptedIff(rows, operation, now);
    assert rows != [] ==> CanonicalUuid(rows[|rows| - 1].operation);
    hide Inv, Failed, CanonicalUuid;
  }

  /** The journals of which acceptance speaks are the reachable ones. */
  lemma {:induction false} RunKeepsIdentified(cs: seq<Command>, n: nat)
    requires n <= |cs|
    ensures Identified(After([], cs, n))
  {
    hide Apply, Identified;
    if n == 0 {
      NoRowsAreIdentified();
    } else {
      RunKeepsIdentified(cs, n - 1);
      var before := After([], cs, n - 1);
      ApplyEdits(before, cs[n - 1]);
      if Apply(before, cs[n - 1]) != before { EditKeepsIdentified(before, EditOf(cs[n - 1])); }
    }
  }

  lemma NoRowsAreIdentified()
    ensures Identified<Snapshot>([])
  {
  }

  /** What each request does: a begin adds one active row, a publication and a failure end the newest one; a refusal
      changes nothing, with 422 exactly for an operation or account of the wrong form. */
  lemma AnswersAre(rows: seq<Row<Snapshot>>, operation: string, account: string, snapshot: Snapshot, ids: seq<string>,
                   release: nat, now: real)
    requires Inv(rows)
    ensures var begin := BeginStep(rows, operation, account, release, now);
            if begin.answer.Ok?
            then |begin.next| == |rows| + 1 && begin.next[..|rows|] == rows
                 && begin.next[|rows|].operation == operation && begin.next[|rows|].phase == Preparing
            else begin == Step(rows, Refused(if CanonicalUuid(operation) && AccountNumber(account) then 409 else 422))
    ensures var publish := PublishStep(rows, operation, snapshot, ids, release, now);
            if publish.answer.Ok? then NewestBecame(rows, publish.next, Ready)
            else publish == Step(rows, Refused(if CanonicalUuid(operation) then 409 else 422))
    ensures var fail := FailStep(rows, operation, now);
            if fail.answer.Ok? then NewestBecame(rows, fail.next, Error)
            else fail == Step(rows, Refused(if CanonicalUuid(operation) then 409 else 422))
  {
    ActiveIsNewest(rows, operation);
    hide Inv, Active, ValidSnapshot, ValidEvidence, Publishable, CanonicalUuid, AccountNumber;
  }

  /** The request is accepted; a deletion when there is something to delete. */
  ghost predicate Accepted(rows: seq<Row<Snapshot>>, c: Command) {
    match c
    case DoBegin(operation, account, release, now) => BeginStep(rows, operation, account, release, now).answer.Ok?
    case DoPublish(operation, snapshot, ids, release, now) =>
      PublishStep(rows, operation, snapshot, ids, release, now).answer.Ok?
    case DoFail(operation, now) => FailStep(rows, operation, now).answer.Ok?
    case DoRemove => exists i :: 0 <= i < |rows| && rows[i].phase == Ready
  }

  /** A request changes the journal exactly when it is accepted. */
  lemma ChangesIffAccepted(rows: seq<Row<Snapshot>>, c: Command)
    requires Inv(rows)
    ensures Apply(rows, c) != rows <==> Accepted(rows, c)
  {
    match c {
      case DoBegin(_, _, _, _) =>
        hide Inv, CanonicalUuid, AccountNumber;
      case DoPublish(operation, _, _, _, _) =>
        ActiveIsNewest(rows, operation);
        hide Inv, ValidSnapshot, ValidEvidence, Publishable, CanonicalUuid;
      case DoFail(operation, _) =>
        ActiveIsNewest(rows, operation);
        hide Inv, CanonicalUuid;
      case DoRemove =>
        hide Inv;
    }
  }

  /** What an accepted request does to readers: a publication makes exactly its snapshot readable under its release, and
      a begin, a failure or a deletion makes nothing readable under any release. */
  lemma AcceptedAreSeen(rows: seq<Row<Snapshot>>, operation: string, account: string, snapshot: Snapshot,
                        ids: seq<string>, release: nat, now: real, other: nat)
    requires Inv(rows)
    ensures var publish := PublishStep(rows, operation, snapshot, ids, release, now);
            publish.answer.Ok? ==> Resources(publish.next, release) == Ok(snapshot)
    ensures var begin := BeginStep(rows, operation, account, release, now);
            begin.answer.Ok? ==> Resources(begin.next, other) == Refused(409)
    ensures var fail := FailStep(rows, operation, now);
            fail.answer.Ok? ==> Resources(fail.next, other) == Refused(409)
    ensures Resources(RetireAll(rows), other) == Refused(409)
  {
    ActiveIsNewest(rows, operation);
    hide Inv, Active, ValidSnapshot, ValidEvidence, CanonicalUuid, AccountNumber;
  }
}
