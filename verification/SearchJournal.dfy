/**
 The P03 preparation journal: a publication replaces the shared resource state, and an unfinished or failed
 preparation hides everything published before it.
 */
module SearchJournal {
  import opened Results
  import opened Text
  import opened Preparations

  const REGION := "us-east-1"
  const KNOWLEDGE := "/h03/knowledge/"
  const CONTRACT_URI := "s3://p03-contract/h03/knowledge/current-policy.md"
  const PREPARATION_SECONDS := 900.0

  datatype Specification = Specification(account: string, region: string, bucket: string, digest: Digest)

  function Template(account: string, release: nat): Specification {
    Specification(account, REGION, "owasp-guided-p03-" + account + "-source", TemplateDigest(account, release))
  }

  function SourcePrefix(specification: Specification): string {
    "s3://" + specification.bucket + KNOWLEDGE
  }

  datatype Binding = Binding(
    currentJob: string, providerJob: string, knowledgeBase: string, dataSource: string,
    prefix: string, region: string)

  datatype Mode = Aws | Contract

  datatype Snapshot = Snapshot(mode: Mode, binding: Option<Binding>, uris: seq<string>)

  predicate NativeIdentifier(s: string) {
    1 <= |s| <= 128 && forall c :: c in s ==> Digit(c) || Lower(c) || Upper(c) || c == '-'
  }

  /** `s3://[a-z0-9][a-z0-9.-]{1,61}[a-z0-9]/h03/knowledge/` */
  predicate KnowledgePrefix(s: string) {
    && 23 <= |s| <= 83
    && s[..5] == "s3://"
    && s[|s| - 15..] == KNOWLEDGE
    && (var bucket := s[5..|s| - 15];
        && (Digit(bucket[0]) || Lower(bucket[0]))
        && (Digit(bucket[|bucket| - 1]) || Lower(bucket[|bucket| - 1]))
        && forall c :: c in bucket ==> Digit(c) || Lower(c) || c == '.' || c == '-')
  }

  predicate ValidBinding(b: Binding) {
    && NativeIdentifier(b.currentJob) && NativeIdentifier(b.providerJob)
    && NativeIdentifier(b.knowledgeBase) && NativeIdentifier(b.dataSource)
    && b.region == REGION && KnowledgePrefix(b.prefix)
  }

  /** `resource_snapshot`: the values the validator returns unchanged. */
  predicate ValidSnapshot(s: Snapshot) {
    match s.mode
    case Contract => s.binding == None && s.uris == [CONTRACT_URI]
    case Aws =>
      && s.binding.Some?
      && ValidBinding(s.binding.value)
      && 1 <= |s.uris| <= 16
      && (forall u :: u in s.uris ==> s.binding.value.prefix < u)
      && (forall i, j :: 0 <= i < j < |s.uris| ==> s.uris[i] != s.uris[j])
  }

  /** `p03_preparations` and the P03 row of `resource_state`. The JSON columns are compared as values:
      the encoder is canonical, so equal text means equal values. */
  datatype Journal = Journal(rows: seq<Row<Snapshot>>, current: Option<Snapshot>)

  const EMPTY := Journal([], None)

  datatype Step<T> = Step(next: Journal, answer: Outcome<T>)

  /** The job id a publication of this operation must carry. */
  function JobOf(operation: string): string {
    "p03-" + UuidHex(operation)
  }

  /** Different operations publish different jobs. */
  lemma JobOfInjective(a: string, b: string)
    requires CanonicalUuid(a) && CanonicalUuid(b) && a != b
    ensures JobOf(a) != JobOf(b)
  {
    if JobOf(a) == JobOf(b) {
      assert JobOf(a)[4..] == UuidHex(a) && JobOf(b)[4..] == UuidHex(b);
      UuidHexInjective(a, b);
    }
  }

  // ---------------------------------------------------------------- one transaction each

  /** The comparison `publish` makes between the row, the snapshot and the current template. */
  predicate Publishable(row: Row<Snapshot>, snapshot: Snapshot, release: nat) {
    var specification := Template(row.account, release);
    && snapshot.mode == Aws
    && snapshot.binding.Some?
    && row.digest == specification.digest
    && snapshot.binding.value.region == specification.region
    && snapshot.binding.value.prefix == SourcePrefix(specification)
    && snapshot.binding.value.currentJob == JobOf(row.operation)
    && snapshot.uris == [SourcePrefix(specification) + "current-policy.md"]
  }

  function BeginStep(j: Journal, operation: string, account: string, release: nat, now: real): Step<Specification> {
    match Begun(j.rows, operation, account, release, now)
    case Refused(status) => Step(j, Refused(status))
    case Ok(rows) => Step(j.(rows := rows), Ok(Template(account, release)))
  }

  function PublishStep(j: Journal, operation: string, snapshot: Snapshot, release: nat, now: real): Step<Snapshot> {
    var at := Active(j.rows, operation);
    var rows := Completed(j.rows, operation, snapshot, now, PREPARATION_SECONDS);
    if ValidSnapshot(snapshot) && at.Some? && Publishable(j.rows[at.value], snapshot, release) && rows.Ok?
    then Step(Journal(rows.value, Some(snapshot)), Ok(snapshot))
    else Step(j, Refused(409))
  }

  function FailStep(j: Journal, operation: string, now: real): Step<()> {
    match Failed(j.rows, operation, now)
    case Refused(status) => Step(j, Refused(status))
    case Ok(rows) => Step(j.(rows := rows), Ok(()))
  }

  /** The journal part of the resource deletion. */
  function RemoveStep(j: Journal): Journal {
    Journal(RetireAll(j.rows), None)
  }

  /** What the newest row exposes, if anything. */
  function Resources(j: Journal, release: nat): Outcome<Snapshot> {
    if j.rows != [] && j.current.Some?
       && j.rows[|j.rows| - 1].phase == Ready && j.current == j.rows[|j.rows| - 1].snapshot
       && j.rows[|j.rows| - 1].digest == Template(j.rows[|j.rows| - 1].account, release).digest
       && ValidSnapshot(j.current.value)
    then Ok(j.current.value)
    else Refused(409)
  }

  // ---------------------------------------------------------------- the store

  class PreparationStore {
    var rows: seq<Row<Snapshot>>
    var current: Option<Snapshot>

    function State(): Journal reads this { Journal(rows, current) }

    constructor ()
      ensures State() == EMPTY
    {
      rows, current := [], None;
    }

    method Begin(operation: string, account: string, release: nat, now: real) returns (r: Outcome<Specification>)
      modifies this
      ensures Step(State(), r) == BeginStep(old(State()), operation, account, release, now)
    {
      if !CanonicalUuid(operation) || !AccountNumber(account) { return Refused(422); }
      var specification := Template(account, release);
      if |rows| > 0 && rows[|rows| - 1].account != account { return Refused(409); }
      if !Usable(now) { return Refused(409); }
      var taken := Find(rows, operation);
      if taken.Some? || Busy(rows) { return Refused(409); }
      rows := rows + [Row(operation, account, specification.digest, now, None, Preparing, None)];
      r := Ok(specification);
    }

    method Publish(operation: string, snapshot: Snapshot, release: nat, now: real) returns (r: Outcome<Snapshot>)
      modifies this
      ensures Step(State(), r) == PublishStep(old(State()), operation, snapshot, release, now)
    {
      if !ValidSnapshot(snapshot) { return Refused(409); }
      if snapshot.mode != Aws { return Refused(409); }
      var at := Find(rows, operation);
      if at.None? || rows[at.value].phase != Preparing { return Refused(409); }
      var row := rows[at.value];
      if !Usable(now) { return Refused(409); }
      if !Publishable(row, snapshot, release) || !(0.0 <= now - row.started <= PREPARATION_SECONDS) {
        return Refused(409);
      }
      current := Some(snapshot);
      rows := rows[at.value := row.(phase := Ready, finished := Some(now), snapshot := Some(snapshot))];
      r := Ok(snapshot);
    }

    method Fail(operation: string, now: real) returns (r: Outcome<()>)
      modifies this
      ensures Step(State(), r) == FailStep(old(State()), operation, now)
    {
      var at := Find(rows, operation);
      if at.None? || rows[at.value].phase != Preparing { return Refused(409); }
      if !Usable(now) || now < rows[at.value].started { return Refused(409); }
      rows := rows[at.value := rows[at.value].(phase := Error, finished := Some(now))];
      r := Ok(());
    }

    method Remove()
      modifies this
      ensures State() == RemoveStep(old(State()))
    {
      current := None;
      rows := RetireAll(rows);
    }

    method ReadResources(release: nat) returns (r: Outcome<Snapshot>)
      ensures r == Resources(State(), release)
    {
      if |rows| == 0 { return Refused(409); }
      var row := rows[|rows| - 1];
      if row.phase != Ready || current.None? || current != row.snapshot { return Refused(409); }
      if row.digest != Template(row.account, release).digest { return Refused(409); }
      if !ValidSnapshot(current.value) { return Refused(409); }
      r := Ok(current.value);
    }
  }

  // ---------------------------------------------------------------- runs

  datatype Command =
    | DoBegin(operation: string, account: string, release: nat, now: real)
    | DoPublish(operation: string, snapshot: Snapshot, release: nat, now: real)
    | DoFail(operation: string, now: real)
    | DoRemove

  function Apply(j: Journal, c: Command): Journal {
    match c
    case DoBegin(operation, account, release, now) => BeginStep(j, operation, account, release, now).next
    case DoPublish(operation, snapshot, release, now) => PublishStep(j, operation, snapshot, release, now).next
    case DoFail(operation, now) => FailStep(j, operation, now).next
    case DoRemove => RemoveStep(j)
  }

  /** The journal after the first `n` commands. */
  function After(j: Journal, cs: seq<Command>, n: nat): Journal
    requires n <= |cs|
  {
    if n == 0 then j else Apply(After(j, cs, n - 1), cs[n - 1])
  }

  /** The statement a command executes on the rows when it is accepted. */
  ghost function EditOf(c: Command): Edit<Snapshot> {
    match c
    case DoBegin(operation, account, release, now) => Insert(operation, account, release, now)
    case DoPublish(operation, snapshot, release, now) => Complete(operation, snapshot, now, PREPARATION_SECONDS)
    case DoFail(operation, now) => Abort(operation, now)
    case DoRemove => Delete
  }

  /** Every command is either refused, and changes nothing, or makes its one edit. */
  lemma ApplyEdits(j: Journal, c: Command)
    ensures Apply(j, c) == j || Edited(j.rows, EditOf(c)) == Ok(Apply(j, c).rows)
  {
  }

  // ---------------------------------------------------------------- what every run keeps

  /** The newest ready row. */
  ghost function NewestReady(rows: seq<Row<Snapshot>>, n: nat): Option<Snapshot>
    requires n <= |rows|
  {
    if n == 0 then None
    else if rows[n - 1].phase == Ready then rows[n - 1].snapshot
    else NewestReady(rows, n - 1)
  }

  /** A published row holds a snapshot that passed every check of the publication. */
  ghost predicate Sound(row: Row<Snapshot>) {
    row.snapshot.Some? ==>
      && row.finished.Some? && row.finished.value - row.started <= PREPARATION_SECONDS
      && ValidSnapshot(row.snapshot.value)
      && Publishable(row, row.snapshot.value, row.digest.release)
  }

  ghost predicate AllSound(j: Journal) {
    forall i :: 0 <= i < |j.rows| ==> Sound(j.rows[i])
  }

  /** A published row names the operation that published it. */
  ghost predicate Named(j: Journal) {
    forall i :: 0 <= i < |j.rows| && j.rows[i].snapshot.Some? ==>
      && j.rows[i].snapshot.value.binding.Some?
      && j.rows[i].snapshot.value.binding.value.currentJob == JobOf(j.rows[i].operation)
  }

  ghost predicate Valid(j: Journal) {
    Inv(j.rows) && Identified(j.rows) && Named(j) && Current(j)
  }

  lemma {:induction false} NewestReadyFrame(rows: seq<Row<Snapshot>>, rows': seq<Row<Snapshot>>, n: nat)
    requires n <= |rows| && n <= |rows'|
    requires forall i :: 0 <= i < n ==> rows[i] == rows'[i]
    ensures NewestReady(rows, n) == NewestReady(rows', n)
  {
    if n > 0 { NewestReadyFrame(rows, rows', n - 1); }
  }

  lemma {:induction false} NoneReady(rows: seq<Row<Snapshot>>, n: nat)
    requires n <= |rows|
    requires forall i :: 0 <= i < |rows| ==> rows[i].phase != Ready
    ensures NewestReady(rows, n) == None
  {
    if n > 0 { NoneReady(rows, n - 1); }
  }

  /** The resource state repeats the newest ready row. */
  ghost predicate Current(j: Journal) {
    j.current == NewestReady(j.rows, |j.rows|)
  }

  lemma BeginKeepsCurrent(j: Journal, operation: string, account: string, release: nat, now: real)
    requires Current(j)
    ensures Current(BeginStep(j, operation, account, release, now).next)
  {
    var j' := BeginStep(j, operation, account, release, now).next;
    if j' != j { NewestReadyFrame(j.rows, j'.rows, |j.rows|); }
  }

  lemma PublishKeepsCurrent(j: Journal, operation: string, snapshot: Snapshot, release: nat, now: real)
    requires Inv(j.rows) && Current(j)
    ensures Current(PublishStep(j, operation, snapshot, release, now).next)
  {
    if Active(j.rows, operation).Some? { ActiveIsNewest(j.rows, operation); }
    hide Inv, Active, Publishable, ValidSnapshot;
  }

  lemma FailKeepsCurrent(j: Journal, operation: string, now: real)
    requires Inv(j.rows) && Current(j)
    ensures Current(FailStep(j, operation, now).next)
  {
    var j' := FailStep(j, operation, now).next;
    if Active(j.rows, operation).Some? {
      ActiveIsNewest(j.rows, operation);
      NewestReadyFrame(j.rows, j'.rows, |j.rows| - 1);
    }
    hide Inv, Active;
  }

  lemma RemoveKeepsCurrent(j: Journal)
    ensures Current(RemoveStep(j))
  {
    NoneReady(RemoveStep(j).rows, |j.rows|);
  }

  lemma ApplyKeepsCurrent(j: Journal, c: Command)
    requires Inv(j.rows) && Current(j)
    ensures Current(Apply(j, c))
  {
    match c {
      case DoBegin(operation, account, release, now) => BeginKeepsCurrent(j, operation, account, release, now);
      case DoPublish(operation, snapshot, release, now) => PublishKeepsCurrent(j, operation, snapshot, release, now);
      case DoFail(operation, now) => FailKeepsCurrent(j, operation, now);
      case DoRemove => RemoveKeepsCurrent(j);
    }
    hide Inv, Current, BeginStep, PublishStep, FailStep, RemoveStep;
  }

  lemma ApplyKeepsNamed(j: Journal, c: Command)
    requires Inv(j.rows) && Named(j)
    ensures Named(Apply(j, c))
  {
  }

  lemma ApplyKeepsValid(j: Journal, c: Command)
    requires Valid(j)
    ensures Valid(Apply(j, c))
  {
    ApplyEdits(j, c);
    ApplyKeepsCurrent(j, c);
    ApplyKeepsNamed(j, c);
    if Apply(j, c) != j {
      EditKeepsInv(j.rows, EditOf(c));
      EditKeepsIdentified(j.rows, EditOf(c));
    }
  }

  lemma {:induction false} RunKeepsValid(j: Journal, cs: seq<Command>, n: nat)
    requires Valid(j) && n <= |cs|
    ensures Valid(After(j, cs, n))
  {
    hide Valid, Apply;
    if n > 0 {
      RunKeepsValid(j, cs, n - 1);
      ApplyKeepsValid(After(j, cs, n - 1), cs[n - 1]);
    }
  }

  lemma RetiredSound(row: Row<Snapshot>)
    requires Sound(row)
    ensures Sound(Retired(row))
  {
  }

  lemma ApplyKeepsSound(j: Journal, c: Command)
    requires Inv(j.rows) && AllSound(j)
    ensures AllSound(Apply(j, c))
  {
    var j' := Apply(j, c);
    match c {
      case DoBegin(_, _, _, _) =>
      case DoPublish(operation, snapshot, release, now) =>
        if j' != j {
          var at := Active(j.rows, operation).value;
          assert Publishable(j.rows[at], snapshot, release);
          assert Sound(j'.rows[at]);
        }
      case DoFail(operation, now) =>
      case DoRemove =>
        forall i | 0 <= i < |j.rows| ensures Sound(j'.rows[i]) { RetiredSound(j.rows[i]); }
    }
  }

  lemma ValidRows(j: Journal)
    requires Valid(j)
    ensures Inv(j.rows)
  {
  }

  lemma {:induction false} RunKeepsSound(j: Journal, cs: seq<Command>, n: nat)
    requires Valid(j) && AllSound(j) && n <= |cs|
    ensures AllSound(After(j, cs, n))
  {
    hide Valid, AllSound, Apply;
    if n > 0 {
      RunKeepsSound(j, cs, n - 1);
      RunKeepsValid(j, cs, n - 1);
      ValidRows(After(j, cs, n - 1));
      ApplyKeepsSound(After(j, cs, n - 1), cs[n - 1]);
    }
  }

  lemma ValidExposure(j: Journal, release: nat)
    requires Valid(j) && AllSound(j)
    ensures Resources(j, release).Ok? <==> Exposing(j.rows) && j.rows[|j.rows| - 1].digest.release == release
    ensures Resources(j, release).Ok? ==>
              var newest := j.rows[|j.rows| - 1];
              Sound(newest) && newest.snapshot == Some(Resources(j, release).value)
  {
    if Exposing(j.rows) { assert Sound(j.rows[|j.rows| - 1]); }
  }

  lemma EmptyIsSound()
    ensures Valid(EMPTY) && AllSound(EMPTY)
  {
  }

  /** From an empty database, over every run: the rows share one account, only the newest can be active, the
      resource state repeats the newest ready row, and resources are readable exactly when the newest
      preparation is published and belongs to this release. What is read passed every publication check. */
  lemma Exposure(cs: seq<Command>, release: nat)
    ensures
      var j := After(EMPTY, cs, |cs|);
      && Valid(j)
      && (Resources(j, release).Ok? <==> Exposing(j.rows) && j.rows[|j.rows| - 1].digest.release == release)
      && (Resources(j, release).Ok? ==>
            var newest := j.rows[|j.rows| - 1];
            Sound(newest) && newest.snapshot == Some(Resources(j, release).value))
  {
    hide After, Valid, AllSound, Exposing, Resources, Sound;
    EmptyIsSound();
    RunKeepsValid(EMPTY, cs, |cs|);
    RunKeepsSound(EMPTY, cs, |cs|);
    ValidExposure(After(EMPTY, cs, |cs|), release);
  }

  /** None of the first `n` commands took effect on the journal. */
  ghost predicate Untouched(j: Journal, cs: seq<Command>, n: nat)
    requires n <= |cs|
  {
    forall k :: 0 <= k <= n ==> After(j, cs, k) == j
  }

  // ---------------------------------------------------------------- a binding that was replaced never returns

  lemma StepSupersedes(rows: seq<Row<Snapshot>>, before: Journal, c: Command, operation: string)
    requires Inv(before.rows) && Apply(before, c) != before
    requires Superseded(before.rows, operation)
             || (Exposing(before.rows) && before.rows[|before.rows| - 1].operation == operation)
    ensures Superseded(Apply(before, c).rows, operation)
  {
    ApplyEdits(before, c);
    if Superseded(before.rows, operation) {
      SupersededStays(before.rows, EditOf(c), operation);
    } else {
      EditSupersedes(before.rows, EditOf(c));
    }
  }

  lemma {:induction false} RunFromExposed(j: Journal, cs: seq<Command>, n: nat)
    requires Valid(j) && Exposing(j.rows) && n <= |cs|
    ensures Untouched(j, cs, n)
            || Superseded(After(j, cs, n).rows, j.rows[|j.rows| - 1].operation)
  {
    hide Apply, Resources, Valid;
    if n > 0 {
      RunFromExposed(j, cs, n - 1);
      RunKeepsValid(j, cs, n - 1);
      var before := After(j, cs, n - 1);
      if Apply(before, cs[n - 1]) != before {
        ValidRows(before);
        StepSupersedes(j.rows, before, cs[n - 1], j.rows[|j.rows| - 1].operation);
      }
    }
  }

  lemma DifferentPublications(r: Snapshot, r': Snapshot, a: string, b: string)
    requires r.binding.Some? && r'.binding.Some?
    requires r.binding.value.currentJob == JobOf(a) && r'.binding.value.currentJob == JobOf(b)
    requires CanonicalUuid(a) && CanonicalUuid(b) && a != b
    ensures r != r'
  {
    JobOfInjective(a, b);
  }

  lemma ReadsNewest(j: Journal, release: nat)
    requires Resources(j, release).Ok?
    ensures Exposing(j.rows) && j.rows[|j.rows| - 1].snapshot == Some(Resources(j, release).value)
  {
  }

  lemma ReadsAreBound(j: Journal, release: nat)
    requires Valid(j) && Resources(j, release).Ok?
    ensures Resources(j, release).value.binding.Some? && ValidSnapshot(Resources(j, release).value)
  {
    hide ValidSnapshot;
    ReadsNewest(j, release);
  }

  lemma SupersededReadsDiffer(j: Journal, later: Journal)
    requires Valid(j) && Exposing(j.rows) && Valid(later) && Exposing(later.rows)
    requires Superseded(later.rows, j.rows[|j.rows| - 1].operation)
    ensures later.rows[|later.rows| - 1].snapshot != j.rows[|j.rows| - 1].snapshot
  {
    var newest, newest' := j.rows[|j.rows| - 1], later.rows[|later.rows| - 1];
    SupersededIsNotExposed(later.rows, newest.operation);
    DifferentPublications(newest.snapshot.value, newest'.snapshot.value, newest.operation, newest'.operation);
  }

  lemma SameReadSameJournal(j: Journal, cs: seq<Command>, n: nat, release: nat)
    requires Valid(j) && Resources(j, release).Ok? && n <= |cs|
    requires Resources(After(j, cs, n), release) == Resources(j, release)
    ensures Untouched(j, cs, n)
  {
    hide After, Resources, Untouched, Valid, Exposing, Superseded;
    ReadsNewest(j, release);
    ReadsNewest(After(j, cs, n), release);
    RunFromExposed(j, cs, n);
    RunKeepsValid(j, cs, n);
    if Superseded(After(j, cs, n).rows, j.rows[|j.rows| - 1].operation) {
      SupersededReadsDiffer(j, After(j, cs, n));
    }
  }

  /** The stale-read argument: a snapshot that was readable is readable again, after any steps in between,
      exactly when none of those steps changed the journal. No begin, failure, publication or deletion can
      take effect and be undone. */
  lemma ReadableAgainIffUntouched(j: Journal, cs: seq<Command>, n: nat, release: nat)
    requires Valid(j) && Resources(j, release).Ok? && n <= |cs|
    ensures Resources(After(j, cs, n), release) == Resources(j, release)
            <==> Untouched(j, cs, n)
  {
    assert Untouched(j, cs, n) ==> After(j, cs, n) == j;
    hide After, Resources, Valid, Untouched;
    if Resources(After(j, cs, n), release) == Resources(j, release) {
      SameReadSameJournal(j, cs, n, release);
    }
  }

  // ---------------------------------------------------------------- acceptance, and what a row tells of the run

  /** The edits of the first `n` commands; `None` is a command that changed nothing. */
  ghost function Log(cs: seq<Command>, n: nat): (log: seq<Option<Edit<Snapshot>>>)
    requires n <= |cs|
    ensures |log| == n
  {
    if n == 0 then []
    else
      var before := After(EMPTY, cs, n - 1);
      Log(cs, n - 1) + [if Apply(before, cs[n - 1]) == before then None else Some(EditOf(cs[n - 1]))]
  }

  lemma {:induction false} LogReplays(cs: seq<Command>, n: nat, m: nat)
    requires m <= n <= |cs|
    ensures Replayed(Log(cs, n), m) == After(EMPTY, cs, m).rows
    decreases m, n
  {
    hide Apply, Edited;
    if m > 0 {
      if n == m {
        LogReplays(cs, n - 1, n - 1);
        ReplayedPrefix(Log(cs, n - 1), Log(cs, n), n - 1);
        ApplyEdits(After(EMPTY, cs, n - 1), cs[n - 1]);
      } else {
        LogReplays(cs, n - 1, m);
        ReplayedPrefix(Log(cs, n - 1), Log(cs, n), m);
      }
    }
  }

  /** Over every run from the empty database, each row was inserted by an accepted begin with exactly its operation,
      account, template and start, and then published, failed or deleted as its phase says, at its recorded end and
      with its recorded snapshot. */
  lemma JournalTellsTheRun(cs: seq<Command>)
    ensures AllTold(Log(cs, |cs|), |cs|, After(EMPTY, cs, |cs|).rows)
  {
    LogReplays(cs, |cs|, |cs|);
    RowsTellTheRun(Log(cs, |cs|), |cs|);
    hide AllTold, Replayed, After, Log;
  }

  /** What a published snapshot must say: the job of its operation, and the one document under the prefix of its
      account. */
  ghost predicate OfPreparation(row: Row<Snapshot>, snapshot: Snapshot, release: nat) {
    && row.digest == TemplateDigest(row.account, release)
    && snapshot.mode == Aws && snapshot.binding.Some?
    && var b := snapshot.binding.value;
       && b.currentJob == "p03-" + UuidHex(row.operation)
       && NativeIdentifier(b.providerJob) && NativeIdentifier(b.knowledgeBase) && NativeIdentifier(b.dataSource)
       && b.region == "us-east-1"
       && b.prefix == "s3://owasp-guided-p03-" + row.account + "-source/h03/knowledge/"
       && snapshot.uris == [b.prefix + "current-policy.md"]
  }

  /** The characters of a bucket name. */
  predicate BucketCharacters(s: string) {
    forall c :: c in s ==> Digit(c) || Lower(c) || c == '.' || c == '-'
  }

  lemma BucketPrefix(bucket: string)
    requires 3 <= |bucket| <= 63 && BucketCharacters(bucket)
    requires Lower(bucket[0]) && Lower(bucket[|bucket| - 1])
    ensures KnowledgePrefix("s3://" + bucket + KNOWLEDGE)
  {
    var s := "s3://" + bucket + KNOWLEDGE;
    assert |"s3://"| == 5 && |KNOWLEDGE| == 15;
    assert s[..5] == "s3://" && s[5..|s| - 15] == bucket && s[|s| - 15..] == KNOWLEDGE;
  }

  lemma BucketAffixes()
    ensures BucketCharacters("owasp-guided-p03-") && BucketCharacters("-source")
  {
    var a, b := "owasp-guided-p03-", "-source";
    assert forall i :: 0 <= i < |a| ==> Digit(a[i]) || Lower(a[i]) || a[i] == '-';
    assert forall i :: 0 <= i < |b| ==> Lower(b[i]) || b[i] == '-';
  }

  lemma PrefixOfAccount(account: string, release: nat)
    requires AccountNumber(account)
    ensures SourcePrefix(Template(account, release)) == "s3://owasp-guided-p03-" + account + "-source/h03/knowledge/"
    ensures KnowledgePrefix(SourcePrefix(Template(account, release)))
  {
    var bucket := "owasp-guided-p03-" + account + "-source";
    assert "s3://" + bucket + KNOWLEDGE == "s3://owasp-guided-p03-" + account + "-source/h03/knowledge/";
    assert BucketCharacters(bucket) by {
      BucketAffixes();
      assert forall c :: c in account ==> Digit(c);
    }
    assert |bucket| == 36 && bucket[0] == 'o' && bucket[35] == 'e';
    hide BucketCharacters, KnowledgePrefix;
    BucketPrefix(bucket);
  }

  lemma JobIsNative(operation: string)
    requires CanonicalUuid(operation)
    ensures NativeIdentifier(JobOf(operation))
  {
  }

  lemma PublishableIff(row: Row<Snapshot>, snapshot: Snapshot, release: nat)
    requires AccountNumber(row.account) && CanonicalUuid(row.operation)
    ensures ValidSnapshot(snapshot) && Publishable(row, snapshot, release) <==> OfPreparation(row, snapshot, release)
  {
    PrefixOfAccount(row.account, release);
    JobIsNative(row.operation);
    hide NativeIdentifier, KnowledgePrefix, AccountNumber, CanonicalUuid, UuidHex;
    if OfPreparation(row, snapshot, release) {
      assert snapshot.binding.value.prefix < snapshot.uris[0];
    }
  }

  /** A begin is accepted exactly when the journal has no other account, not this operation and nothing active; it is
      answered with the template of its account, whose digest the new row carries. */
  lemma BeginAcceptedIff(j: Journal, operation: string, account: string, release: nat, now: real)
    requires Inv(j.rows)
    ensures var step := BeginStep(j, operation, account, release, now);
            && (step.answer.Ok? <==>
                  && CanonicalUuid(operation) && AccountNumber(account) && Usable(now)
                  && forall i :: 0 <= i < |j.rows| ==>
                       && j.rows[i].account == account && j.rows[i].operation != operation
                       && j.rows[i].phase != Preparing)
            && (step.answer.Ok? ==>
                  && step.answer.value == Specification(account, "us-east-1", "owasp-guided-p03-" + account + "-source",
                                                        TemplateDigest(account, release))
                  && step.next.rows != [] && step.next.rows[|step.next.rows| - 1].digest == step.answer.value.digest)
  {
    InsertAcceptedIff(j.rows, operation, account, release, now);
    hide Inv, CanonicalUuid, AccountNumber;
  }

  /** A failure is accepted exactly for the newest preparation while it is active. */
  lemma FailAcceptedIff(j: Journal, operation: string, now: real)
    requires Inv(j.rows)
    ensures FailStep(j, operation, now).answer.Ok? <==> Settling(j.rows, operation, now)
  {
    AbortAcceptedIff(j.rows, operation, now);
    hide Inv, Settling, Failed;
  }

  /** A publication is accepted exactly when the newest preparation is active, is this operation, began at most 900
      seconds ago, and the snapshot is the one this preparation has to produce under the current template. */
  lemma PublishAcceptedIff(j: Journal, operation: string, snapshot: Snapshot, release: nat, now: real)
    requires Valid(j)
    ensures PublishStep(j, operation, snapshot, release, now).answer.Ok?
       <==> && Settling(j.rows, operation, now) && now <= j.rows[|j.rows| - 1].started + 900.0
            && OfPreparation(j.rows[|j.rows| - 1], snapshot, release)
  {
    CompleteAcceptedIff(j.rows, operation, snapshot, now, PREPARATION_SECONDS);
    ActiveIsNewest(j.rows, operation);
    if j.rows != [] { PublishableIff(j.rows[|j.rows| - 1], snapshot, release); }
    hide Inv, Active, OfPreparation, Publishable, ValidSnapshot, AccountNumber, CanonicalUuid, Settling;
  }

  /** What each request does: a begin adds one active row, a publication and a failure end the newest one; a refusal
      changes nothing, with 422 exactly for a begin whose operation or account has the wrong form. */
  lemma AnswersAre(j: Journal, operation: string, account: string, snapshot: Snapshot, release: nat, now: real)
    requires Inv(j.rows)
    ensures var begin := BeginStep(j, operation, account, release, now);
            if begin.answer.Ok?
            then |begin.next.rows| == |j.rows| + 1 && begin.next.rows[..|j.rows|] == j.rows
                 && begin.next.rows[|j.rows|].operation == operation && begin.next.rows[|j.rows|].phase == Preparing
                 && begin.next.current == j.current
            else begin == Step(j, Refused(if CanonicalUuid(operation) && AccountNumber(account) then 409 else 422))
    ensures var publish := PublishStep(j, operation, snapshot, release, now);
            if publish.answer.Ok? then NewestBecame(j.rows, publish.next.rows, Ready)
            else publish == Step(j, Refused(409))
    ensures var fail := FailStep(j, operation, now);
            if fail.answer.Ok? then NewestBecame(j.rows, fail.next.rows, Error) && fail.next.current == j.current
            else fail == Step(j, Refused(409))
  {
    ActiveIsNewest(j.rows, operation);
    hide Inv, Active, ValidSnapshot, Publishable, CanonicalUuid, AccountNumber;
  }

  /** The request is accepted; a deletion when there is something to delete. */
  ghost predicate Accepted(j: Journal, c: Command) {
    match c
    case DoBegin(operation, account, release, now) => BeginStep(j, operation, account, release, now).answer.Ok?
    case DoPublish(operation, snapshot, release, now) => PublishStep(j, operation, snapshot, release, now).answer.Ok?
    case DoFail(operation, now) => FailStep(j, operation, now).answer.Ok?
    case DoRemove => j.current.Some? || exists i :: 0 <= i < |j.rows| && j.rows[i].phase == Ready
  }

  lemma ChangesIffAccepted(j: Journal, c: Command)
    requires Inv(j.rows)
    ensures Apply(j, c) != j <==> Accepted(j, c)
  {
    match c {
      case DoBegin(operation, account, release, now) =>
        AnswersAre(j, operation, account, Snapshot(Contract, None, []), release, now);
        hide Inv, BeginStep;
      case DoPublish(operation, snapshot, release, now) =>
        AnswersAre(j, operation, "", snapshot, release, now);
        ActiveIsNewest(j.rows, operation);
        hide Inv, ValidSnapshot, Publishable;
      case DoFail(operation, now) =>
        ActiveIsNewest(j.rows, operation);
        hide Inv;
      case DoRemove =>
        hide Inv;
    }
  }

  /** The journal was untouched exactly when none of the requests was accepted. */
  lemma {:induction false} UntouchedIffNoneAccepted(j: Journal, cs: seq<Command>, n: nat)
    requires Valid(j) && n <= |cs|
    ensures Untouched(j, cs, n) <==> forall i :: 0 <= i < n ==> !Accepted(After(j, cs, i), cs[i])
  {
    hide Apply, Accepted, Inv, Identified, Named, Current;
    if n > 0 {
      UntouchedIffNoneAccepted(j, cs, n - 1);
      RunKeepsValid(j, cs, n - 1);
      ChangesIffAccepted(After(j, cs, n - 1), cs[n - 1]);
      assert After(j, cs, n) == Apply(After(j, cs, n - 1), cs[n - 1]);
      assert Untouched(j, cs, n) <==> Untouched(j, cs, n - 1) && After(j, cs, n) == j;
      assert Untouched(j, cs, n - 1) ==> After(j, cs, n - 1) == j;
    }
  }

  /** What an accepted request does to readers, from every reachable journal: a publication makes exactly its snapshot
      readable under its release, and a begin, a failure or a deletion makes nothing readable under any release. */
  lemma AcceptedAreSeen(j: Journal, operation: string, account: string, snapshot: Snapshot, release: nat, now: real,
                        other: nat)
    requires Valid(j)
    ensures var publish := PublishStep(j, operation, snapshot, release, now);
            publish.answer.Ok? ==> Resources(publish.next, release) == publish.answer == Ok(snapshot)
    ensures var begin := BeginStep(j, operation, account, release, now);
            begin.answer.Ok? ==> Resources(begin.next, other) == Refused(409)
    ensures var fail := FailStep(j, operation, now);
            fail.answer.Ok? ==> Resources(fail.next, other) == Refused(409)
    ensures Resources(RemoveStep(j), other) == Refused(409)
  {
    ActiveIsNewest(j.rows, operation);
    hide Inv, Identified, Named, Current, Active, ValidSnapshot, CanonicalUuid, AccountNumber;
  }
}
