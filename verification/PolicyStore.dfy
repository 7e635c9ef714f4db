/**
 The guardrail policy store: content-addressed bundles, an active pointer, drafts that are tested before they are
 promoted, rollback, and recovery after a crash in the middle of a start, a promotion or a rollback.
 */
module PolicyStore {
  import opened Results
  import Text

  const TEST_SECONDS := 3600

  /** A policy directory, with the version text of its `policy.yaml`. */
  datatype Bundle = Bundle(version: string, content: string)

  /** SHA-256 of the directory: a free constructor. A digest is always well formed, so the format checks of the
      pointer file, the marker names and the rollback target have no other case here. */
  datatype Digest = Sha256(bundle: Bundle)

  datatype Stage = Draft | Tested | Active

  datatype Metadata = Metadata(digest: Digest, base: Digest, stage: Stage, created: int, tested: int, activated: int)

  /** The state directory. */
  datatype Disk = Disk(
    bundles: map<Digest, Bundle>, pointer: Option<Digest>, activated: set<Digest>, drafts: map<Digest, Metadata>)

  /** `tuple(map(int, version.split(".")))`, where every part is a decimal number; `n` is the part being read. */
  function Numbers(version: string, n: Option<nat>): Option<seq<nat>> {
    if version == "" then
      if n.None? then None else Some([n.value])
    else if version[0] == '.' then
      var rest := Numbers(version[1..], None);
      if n.None? || rest.None? then None else Some([n.value] + rest.value)
    else if Text.Digit(version[0]) then
      Numbers(version[1..], Some(10 * (if n.Some? then n.value else 0) + (version[0] as int - '0' as int)))
    else None
  }

  /** Python's order of tuples. */
  predicate Greater(a: seq<nat>, b: seq<nat>) {
    a != [] && (b == [] || a[0] > b[0] || (a[0] == b[0] && Greater(a[1..], b[1..])))
  }

  /** The seed's version is newer; a version that is not made of numbers raises, and so is not. */
  predicate Later(a: string, b: string) {
    var x, y := Numbers(a, None), Numbers(b, None);
    x.Some? && y.Some? && Greater(x.value, y.value)
  }

  /** `load_bundle` of a stored directory, with the comparison every caller makes. */
  predicate Loads(d: Disk, digest: Digest) {
    digest in d.bundles && Sha256(d.bundles[digest]) == digest
  }

  // ---------------------------------------------------------------- the writes of one operation, one by one

  /** Why the pointer changes. */
  datatype Cause = Seeded | Promoted(tested: int, at: int) | RolledBack

  /** One atomic change of the directory: a renamed bundle, the renamed pointer file, markers, renamed metadata. */
  datatype Write =
    | PutBundle(bundle: Bundle)
    | SetPointer(to: Digest, cause: Cause)
    | Mark(digests: set<Digest>)
    | PutDraft(metadata: Metadata)

  function Written(d: Disk, x: Write): Disk {
    match x
    case PutBundle(b) => if Sha256(b) in d.bundles then d else d.(bundles := d.bundles[Sha256(b) := b])
    case SetPointer(to, _) => d.(pointer := Some(to))
    case Mark(digests) => d.(activated := d.activated + digests)
    case PutDraft(m) => d.(drafts := d.drafts[m.digest := m])
  }

  /** The directory after the first `n` writes of a plan. */
  function WrittenAll(d: Disk, plan: seq<Write>, n: nat): Disk
    requires n <= |plan|
  {
    if n == 0 then d else Written(WrittenAll(d, plan, n - 1), plan[n - 1])
  }

  /** The bases the start-up loop remembers. */
  function PromotedBases(d: Disk): set<Digest> {
    set x | x in d.drafts && d.drafts[x].stage == Active :: d.drafts[x].base
  }

  /** The constructor: seed an empty directory, then remember what is active and what was promoted over. */
  function StartPlan(d: Disk, seed: Bundle): seq<Write> {
    match d.pointer
    case None => [PutBundle(seed), SetPointer(Sha256(seed), Seeded), Mark({Sha256(seed)}), Mark(PromotedBases(d))]
    case Some(digest) => [Mark({digest}), Mark(PromotedBases(d))]
  }

  /** Whether the constructor can load what it is about to serve. */
  predicate Startable(d: Disk, seed: Bundle) {
    match d.pointer
    case None => Sha256(seed) in d.bundles ==> Loads(d, Sha256(seed))
    case Some(digest) => Loads(d, digest)
  }

  /** `promote`: the pointer, the marker, the metadata. */
  function PromotePlan(m: Metadata, now: int, done: int): seq<Write> {
    [SetPointer(m.digest, Promoted(m.tested, now)), Mark({m.digest}),
     PutDraft(m.(stage := Active, activated := done))]
  }

  function RollbackPlan(target: Digest): seq<Write> {
    [SetPointer(target, RolledBack)]
  }

  predicate Promotable(d: Disk, active: Digest, digest: Digest, expected: Digest, now: int) {
    && digest in d.drafts && Loads(d, digest) && d.drafts[digest].digest == digest
    && active == expected && d.drafts[digest].base == expected
    && d.drafts[digest].stage == Tested && now - d.drafts[digest].tested <= TEST_SECONDS
  }

  predicate Restorable(d: Disk, active: Digest, target: Digest, expected: Digest) {
    active == expected && target != expected && target in d.activated && Loads(d, target)
  }

  predicate Testable(d: Disk, active: Digest, digest: Digest, expected: Digest) {
    && digest in d.drafts && Loads(d, digest) && d.drafts[digest].digest == digest
    && active == expected && d.drafts[digest].base == expected
    && d.drafts[digest].stage != Active
  }

  function MarkedTested(d: Disk, digest: Digest, now: int): Disk
    requires digest in d.drafts
  {
    Written(d, PutDraft(d.drafts[digest].(stage := Tested, tested := now)))
  }

  /** The bundle and metadata writes shared by `create_draft` and `create_seed_draft`: an existing draft with the
      same base is returned as it is, one with another base is a conflict (after the bundle was stored). */
  function Drafted(d: Disk, b: Bundle, base: Digest, now: int): (Disk, Option<Metadata>) {
    var stored := Written(d, PutBundle(b));
    var digest := Sha256(b);
    if digest in d.drafts then (stored, if d.drafts[digest].base == base then Some(d.drafts[digest]) else None)
    else
      var m := Metadata(digest, base, Draft, now, 0, 0);
      (Written(stored, PutDraft(m)), Some(m))
  }

  // ---------------------------------------------------------------- the store

  /** The store over its directory; `active` is what the running process serves. Exceptions are `None`/`false`. */
  class Store {
    var bundles: map<Digest, Bundle>
    var pointer: Option<Digest>
    var activated: set<Digest>
    var drafts: map<Digest, Metadata>
    var active: Option<Digest>

    function State(): Disk reads this { Disk(bundles, pointer, activated, drafts) }

    constructor ()
      ensures State() == Disk(map[], None, {}, map[]) && active == None
    {
      bundles, pointer, activated, drafts, active := map[], None, {}, map[], None;
    }

    /** The constructor of the original, run over the directory an earlier process left. */
    method Start(seed: Bundle) returns (ok: bool)
      modifies this
      ensures ok == Startable(old(State()), seed)
      ensures ok ==> var plan := StartPlan(old(State()), seed);
                     State() == WrittenAll(old(State()), plan, |plan|) && active == pointer
      ensures !ok ==> active == old(active) && State() == if old(pointer).Some? then old(State())
                                                          else old(State()).(pointer := Some(Sha256(seed)))
    {
      if pointer.None? {
        if Sha256(seed) !in bundles { bundles := bundles[Sha256(seed) := seed]; }
        pointer := Some(Sha256(seed));
      }
      if !Loads(State(), pointer.value) { return false; }
      active := pointer;
      activated := activated + {pointer.value};
      activated := activated + PromotedBases(State());
      ok := true;
      ghost var d, plan := old(State()), StartPlan(old(State()), seed);
      assert WrittenAll(d, plan, 1) == Written(d, plan[0]);
      assert WrittenAll(d, plan, 2) == Written(WrittenAll(d, plan, 1), plan[1]);
      assert |plan| == 4 ==> WrittenAll(d, plan, 3) == Written(WrittenAll(d, plan, 2), plan[2]);
    }

    method CreateDraft(base: Digest, b: Bundle, now: int) returns (m: Option<Metadata>)
      requires active.Some?
      modifies this
      ensures active == old(active)
      ensures (State(), m) == if base != old(active).value || b.version == old(active).value.bundle.version
                              then (old(State()), None) else Drafted(old(State()), b, base, now)
    {
      if base != active.value { return None; }
      if b.version == active.value.bundle.version { return None; }
      var digest := Sha256(b);
      if digest !in bundles { bundles := bundles[digest := b]; }
      if digest in drafts {
        if drafts[digest].base != base { return None; }
        return Some(drafts[digest]);
      }
      var metadata := Metadata(digest, base, Draft, now, 0, 0);
      drafts := drafts[digest := metadata];
      m := Some(metadata);
    }

    method CreateSeedDraft(expected: Digest, seed: Bundle, now: int) returns (m: Option<Metadata>)
      requires active.Some?
      modifies this
      ensures active == old(active)
      ensures (State(), m) == if old(active).value != expected || Sha256(seed) == expected
                                 || !Later(seed.version, expected.bundle.version)
                              then (old(State()), None) else Drafted(old(State()), seed, expected, now)
    {
      if active.value != expected { return None; }
      if Sha256(seed) == active.value || !Later(seed.version, active.value.bundle.version) { return None; }
      var digest := Sha256(seed);
      if digest !in bundles { bundles := bundles[digest := seed]; }
      if digest in drafts {
        if drafts[digest].base != expected { return None; }
        return Some(drafts[digest]);
      }
      var metadata := Metadata(digest, expected, Draft, now, 0, 0);
      drafts := drafts[digest := metadata];
      m := Some(metadata);
    }

    method MarkTested(digest: Digest, expected: Digest, now: int) returns (ok: bool)
      requires active.Some?
      modifies this
      ensures active == old(active) && ok == Testable(old(State()), old(active).value, digest, expected)
      ensures State() == if ok then MarkedTested(old(State()), digest, now) else old(State())
    {
      if digest !in drafts || !Loads(State(), digest) || drafts[digest].digest != digest { return false; }
      if active.value != expected || drafts[digest].base != expected { return false; }
      if drafts[digest].stage != Draft && drafts[digest].stage != Tested { return false; }
      drafts := drafts[digest := drafts[digest].(stage := Tested, tested := now)];
      ok := true;
    }

    method Promote(digest: Digest, expected: Digest, now: int, done: int) returns (previous: Option<Digest>)
      requires active.Some?
      modifies this
      ensures previous == if Promotable(old(State()), old(active).value, digest, expected, now)
                          then old(active) else None
      ensures previous.Some? ==>
                State() == WrittenAll(old(State()), PromotePlan(old(State()).drafts[digest], now, done), 3)
                && active == Some(digest)
      ensures previous.None? ==> State() == old(State()) && active == old(active)
    {
      if digest !in drafts || !Loads(State(), digest) || drafts[digest].digest != digest { return None; }
      if active.value != expected || drafts[digest].base != expected { return None; }
      if drafts[digest].stage != Tested || now - drafts[digest].tested > TEST_SECONDS { return None; }
      previous := active;
      pointer := Some(digest);
      active := Some(digest);
      activated := activated + {digest};
      drafts := drafts[digest := drafts[digest].(stage := Active, activated := done)];
      ghost var d, plan := old(State()), PromotePlan(old(State()).drafts[digest], now, done);
      assert WrittenAll(d, plan, 1) == Written(d, plan[0]);
      assert WrittenAll(d, plan, 2) == Written(WrittenAll(d, plan, 1), plan[1]);
    }

    method Rollback(target: Digest, expected: Digest) returns (previous: Option<Digest>)
      requires active.Some?
      modifies this
      ensures previous == if Restorable(old(State()), old(active).value, target, expected) then old(active) else None
      ensures previous.Some? ==> State() == WrittenAll(old(State()), RollbackPlan(target), 1) && active == Some(target)
      ensures previous.None? ==> State() == old(State()) && active == old(active)
    {
      if active.value != expected { return None; }
      if target == expected { return None; }
      if target !in activated { return None; }
      if !Loads(State(), target) { return None; }
      previous := active;
      pointer := Some(target);
      active := Some(target);
    }
  }

  // ---------------------------------------------------------------- runs with crashes

  /** One value the pointer took, and why. */
  datatype Change = Change(to: Digest, cause: Cause)

  /** A successful test of a draft while `base` was active. */
  datatype Test = Test(digest: Digest, base: Digest, at: int)

  /** The directory, what the running process serves if there is one, and two history variables. */
  datatype World = World(disk: Disk, active: Option<Digest>, history: seq<Change>, tests: set<Test>)

  const FIRST := World(Disk(map[], None, {}, map[]), None, [], {})

  /** `writes` is the number of writes done before the process dies; an operation that does them all completes. */
  datatype Event =
    | Boot(seed: Bundle, writes: nat)
    | Die
    | DoCreateDraft(base: Digest, bundle: Bundle, now: int)
    | DoCreateSeedDraft(base: Digest, bundle: Bundle, now: int)
    | DoMarkTested(digest: Digest, expected: Digest, now: int)
    | DoPromote(digest: Digest, expected: Digest, now: int, done: int, writes: nat)
    | DoRollback(digest: Digest, expected: Digest, writes: nat)

  function Logged(history: seq<Change>, x: Write): seq<Change> {
    if x.SetPointer? then history + [Change(x.to, x.cause)] else history
  }

  /** One write of an operation that is under way: the process is not serving yet. */
  function Doing(w: World, x: Write): World {
    World(Written(w.disk, x), None, Logged(w.history, x), w.tests)
  }

  function DoingAll(w: World, plan: seq<Write>, n: nat): World
    requires n <= |plan|
  {
    if n == 0 then w.(active := None) else Doing(DoingAll(w, plan, n - 1), plan[n - 1])
  }

  /** An operation interrupted after `writes` writes, or completed. */
  function Performed(w: World, plan: seq<Write>, writes: nat): World {
    if writes < |plan| then DoingAll(w, plan, writes)
    else
      var done := DoingAll(w, plan, |plan|);
      done.(active := done.disk.pointer)
  }

  function Next(w: World, e: Event): World {
    match e
    case Boot(seed, writes) =>
      if w.active.Some? || !Startable(w.disk, seed) then w else Performed(w, StartPlan(w.disk, seed), writes)
    case Die => w.(active := None)
    case DoCreateDraft(base, b, now) =>
      if w.active != Some(base) || b.version == base.bundle.version then w
      else w.(disk := Drafted(w.disk, b, base, now).0)
    case DoCreateSeedDraft(base, b, now) =>
      if w.active != Some(base) || Sha256(b) == base || !Later(b.version, base.bundle.version) then w
      else w.(disk := Drafted(w.disk, b, base, now).0)
    case DoMarkTested(digest, expected, now) =>
      if w.active.None? || !Testable(w.disk, w.active.value, digest, expected) then w
      else w.(disk := MarkedTested(w.disk, digest, now), tests := w.tests + {Test(digest, expected, now)})
    case DoPromote(digest, expected, now, done, writes) =>
      if w.active.None? || !Promotable(w.disk, w.active.value, digest, expected, now) then w
      else Performed(w, PromotePlan(w.disk.drafts[digest], now, done), writes)
    case DoRollback(digest, expected, writes) =>
      if w.active.None? || !Restorable(w.disk, w.active.value, digest, expected) then w
      else Performed(w, RollbackPlan(digest), writes)
  }

  function After(es: seq<Event>, n: nat): World
    requires n <= |es|
  {
    if n == 0 then FIRST else Next(After(es, n - 1), es[n - 1])
  }

  // ---------------------------------------------------------------- what every write keeps

  /** The pointer has held this digest. */
  ghost predicate Held(history: seq<Change>, digest: Digest) {
    exists i :: 0 <= i < |history| && history[i].to == digest
  }

  /** The pointer change at position `i`: the initial seed; the promotion of a draft that was tested, at most an
      hour before, against the digest it replaces; or the return to a digest that was active earlier. */
  ghost predicate Justified(history: seq<Change>, tests: set<Test>, i: nat)
    requires i < |history|
  {
    match history[i].cause
    case Seeded => i == 0
    case Promoted(tested, at) =>
      i > 0 && at - tested <= TEST_SECONDS && Test(history[i].to, history[i - 1].to, tested) in tests
    case RolledBack => exists k :: 0 <= k < i && history[k].to == history[i].to
  }

  ghost predicate HistoryInv(w: World) {
    && (w.disk.pointer == if w.history == [] then None else Some(w.history[|w.history| - 1].to))
    && (forall i :: 0 <= i < |w.history| ==> Justified(w.history, w.tests, i))
    && (forall i :: 0 <= i < |w.history| ==> w.history[i].to in w.disk.bundles)
    && (forall digest :: digest in w.disk.bundles ==> Sha256(w.disk.bundles[digest]) == digest)
  }

  /** The markers, up to the one write in which the pointer is ahead of them. */
  ghost predicate MarkerInv(w: World) {
    && (forall digest :: digest in w.disk.activated ==> Held(w.history, digest))
    && (forall digest :: Held(w.history, digest) ==> digest in w.disk.activated || Some(digest) == w.disk.pointer)
  }

  ghost predicate DraftInv(w: World) {
    forall x :: x in w.disk.drafts ==>
      var m := w.disk.drafts[x];
      && m.digest == x && x in w.disk.bundles
      && (m.stage == Active ==> m.base in w.disk.activated)
      && (m.stage == Tested ==> Test(x, m.base, m.tested) in w.tests)
  }

  ghost predicate RunningInv(w: World) {
    w.active.Some? ==> w.active == w.disk.pointer && w.active.value in w.disk.activated
  }

  ghost predicate Inv(w: World) {
    HistoryInv(w) && MarkerInv(w) && DraftInv(w) && RunningInv(w)
  }

  lemma HeldGrows(history: seq<Change>, c: Change, digest: Digest)
    ensures Held(history + [c], digest) <==> Held(history, digest) || digest == c.to
  {
    if Held(history, digest) {
      var i :| 0 <= i < |history| && history[i].to == digest;
      assert (history + [c])[i].to == digest;
    }
    assert (history + [c])[|history|].to == c.to;
  }

  lemma JustifiedStays(history: seq<Change>, c: Change, tests: set<Test>, i: nat)
    requires i < |history| && Justified(history, tests, i)
    ensures Justified(history + [c], tests, i)
  {
    if history[i].cause.RolledBack? {
      var k :| 0 <= k < i && history[k].to == history[i].to;
      assert (history + [c])[k].to == (history + [c])[i].to;
    }
  }

  /** A pointer write with a cause keeps the invariant, provided the markers had caught up. */
  lemma PointerKeepsInv(w: World, x: Write)
    requires Inv(w) && x.SetPointer? && x.to in w.disk.bundles
    requires forall digest :: Held(w.history, digest) ==> digest in w.disk.activated
    requires Justified(w.history + [Change(x.to, x.cause)], w.tests, |w.history|)
    ensures Inv(Doing(w, x))
  {
    var c := Change(x.to, x.cause);
    forall i | 0 <= i < |w.history| + 1 ensures Justified(w.history + [c], w.tests, i) {
      if i < |w.history| { JustifiedStays(w.history, c, w.tests, i); }
    }
    forall digest { HeldGrows(w.history, c, digest); }
    hide Held, Justified;
  }

  lemma MarkKeepsInv(w: World, x: Write)
    requires Inv(w) && x.Mark? && forall digest :: digest in x.digests ==> Held(w.history, digest)
    ensures Inv(Doing(w, x))
  {
    hide Held, Justified;
  }

  lemma BundleKeepsInv(w: World, x: Write)
    requires Inv(w) && x.PutBundle?
    ensures Inv(Doing(w, x)) && Sha256(x.bundle) in Doing(w, x).disk.bundles
  {
    hide Held, Justified;
  }

  lemma MetadataKeepsInv(w: World, x: Write)
    requires Inv(w) && x.PutDraft? && x.metadata.digest in w.disk.bundles
    requires x.metadata.stage == Active ==> x.metadata.base in w.disk.activated
    requires x.metadata.stage == Tested ==> Test(x.metadata.digest, x.metadata.base, x.metadata.tested) in w.tests
    ensures Inv(Doing(w, x))
  {
    hide Held, Justified;
  }

  /** A running process has a marker for everything the pointer has held. */
  lemma RunningIsMarked(w: World)
    requires Inv(w) && w.active.Some?
    ensures forall digest :: Held(w.history, digest) <==> digest in w.disk.activated
    ensures Held(w.history, w.active.value)
  {
    assert w.history[|w.history| - 1].to == w.active.value;
  }

  lemma BasesAreHeld(w: World)
    requires Inv(w)
    ensures forall digest :: digest in PromotedBases(w.disk) ==> Held(w.history, digest)
  {
    hide Held, Justified;
  }

  lemma BootKeepsInv(w: World, seed: Bundle, n: nat)
    requires Inv(w) && w.active.None? && n <= |StartPlan(w.disk, seed)|
    ensures Inv(DoingAll(w, StartPlan(w.disk, seed), n))
    ensures n == |StartPlan(w.disk, seed)| ==>
              var done := DoingAll(w, StartPlan(w.disk, seed), n);
              done.disk.pointer.Some? && done.disk.pointer.value in done.disk.activated
  {
    hide Inv, PromotedBases;
    var plan := StartPlan(w.disk, seed);
    BasesAreHeld(w);
    var w1 := Doing(w, plan[0]);
    assert DoingAll(w, plan, 0) == w;
    assert n >= 1 ==> DoingAll(w, plan, 1) == w1;
    var w2 := Doing(w1, plan[1]);
    assert n >= 2 ==> DoingAll(w, plan, 2) == w2;
    if w.disk.pointer.Some? {
      PointerIsHeld(w);
      MarkKeepsInv(w, plan[0]);
      MarkKeepsInv(w1, plan[1]);
    } else {
      EmptyHistory(w);
      BundleKeepsInv(w, plan[0]);
      PointerKeepsInv(w1, plan[1]);
      var w3 := Doing(w2, plan[2]);
      assert n >= 3 ==> DoingAll(w, plan, 3) == w3;
      forall digest { HeldGrows([], Change(Sha256(seed), Seeded), digest); }
      MarkKeepsInv(w2, plan[2]);
      MarkKeepsInv(w3, plan[3]);
    }
  }

  lemma PointerIsHeld(w: World)
    requires Inv(w) && w.disk.pointer.Some?
    ensures Held(w.history, w.disk.pointer.value)
  {
    assert w.history[|w.history| - 1].to == w.disk.pointer.value;
  }

  lemma EmptyHistory(w: World)
    requires Inv(w) && w.disk.pointer.None?
    ensures w.history == [] && w.disk.activated == {} && PromotedBases(w.disk) == {}
  {
  }

  lemma PromotePointerKeepsInv(w: World, e: Event)
    requires Inv(w) && w.active.Some? && e.DoPromote?
    requires Promotable(w.disk, w.active.value, e.digest, e.expected, e.now)
    ensures var w1 := Doing(w, PromotePlan(w.disk.drafts[e.digest], e.now, e.done)[0]);
            Inv(w1) && Held(w1.history, e.digest)
  {
    var m := w.disk.drafts[e.digest];
    var c := Change(e.digest, Promoted(m.tested, e.now));
    RunningIsMarked(w);
    assert w.history != [] && w.history[|w.history| - 1].to == w.active.value;
    assert Justified(w.history + [c], w.tests, |w.history|);
    PointerKeepsInv(w, SetPointer(e.digest, Promoted(m.tested, e.now)));
    HeldGrows(w.history, c, e.digest);
  }

  /** The second and the third write of a promotion, after the pointer. */
  lemma PromoteMarks(w: World, e: Event)
    requires Inv(w) && w.active.Some? && e.DoPromote?
    requires Promotable(w.disk, w.active.value, e.digest, e.expected, e.now)
    ensures var plan := PromotePlan(w.disk.drafts[e.digest], e.now, e.done);
            var w2 := Doing(Doing(w, plan[0]), plan[1]);
            Inv(w2) && w2.disk == w.disk.(pointer := Some(e.digest), activated := w.disk.activated + {e.digest})
  {
    var plan := PromotePlan(w.disk.drafts[e.digest], e.now, e.done);
    PromotePointerKeepsInv(w, e);
    hide Inv, Held;
    MarkKeepsInv(Doing(w, plan[0]), plan[1]);
  }

  lemma PromoteRecords(w: World, e: Event)
    requires Inv(w) && w.active.Some? && e.DoPromote?
    requires Promotable(w.disk, w.active.value, e.digest, e.expected, e.now)
    ensures var plan := PromotePlan(w.disk.drafts[e.digest], e.now, e.done);
            var w3 := Doing(Doing(Doing(w, plan[0]), plan[1]), plan[2]);
            Inv(w3) && w3.disk.pointer == Some(e.digest) && e.digest in w3.disk.activated
  {
    var plan := PromotePlan(w.disk.drafts[e.digest], e.now, e.done);
    PromoteMarks(w, e);
    assert e.digest in w.disk.bundles && e.expected in w.disk.activated;
    hide Inv;
    MetadataKeepsInv(Doing(Doing(w, plan[0]), plan[1]), plan[2]);
  }

  lemma PromoteKeepsInv(w: World, e: Event, n: nat)
    requires Inv(w) && w.active.Some? && e.DoPromote? && n <= 3
    requires Promotable(w.disk, w.active.value, e.digest, e.expected, e.now)
    ensures Inv(DoingAll(w, PromotePlan(w.disk.drafts[e.digest], e.now, e.done), n))
    ensures n == 3 ==> var done := DoingAll(w, PromotePlan(w.disk.drafts[e.digest], e.now, e.done), n);
                       done.disk.pointer == Some(e.digest) && e.digest in done.disk.activated
  {
    StoppedKeepsInv(w);
    PromotePointerKeepsInv(w, e);
    PromoteMarks(w, e);
    PromoteRecords(w, e);
    ThreeWrites(w, PromotePlan(w.disk.drafts[e.digest], e.now, e.done));
    hide *;
  }

  lemma ThreeWrites(w: World, plan: seq<Write>)
    requires |plan| == 3
    ensures DoingAll(w, plan, 0) == w.(active := None)
    ensures DoingAll(w, plan, 1) == Doing(w, plan[0])
    ensures DoingAll(w, plan, 2) == Doing(Doing(w, plan[0]), plan[1])
    ensures DoingAll(w, plan, 3) == Doing(Doing(Doing(w, plan[0]), plan[1]), plan[2])
  {
    hide Written;
    assert DoingAll(w, plan, 1) == Doing(DoingAll(w, plan, 0), plan[0]);
    assert DoingAll(w, plan, 2) == Doing(DoingAll(w, plan, 1), plan[1]);
    assert DoingAll(w, plan, 3) == Doing(DoingAll(w, plan, 2), plan[2]);
  }

  lemma StoppedKeepsInv(w: World)
    requires Inv(w)
    ensures Inv(w.(active := None))
  {
    hide Held, Justified;
  }

  lemma RollbackKeepsInv(w: World, e: Event, n: nat)
    requires Inv(w) && w.active.Some? && e.DoRollback? && n <= 1
    requires Restorable(w.disk, w.active.value, e.digest, e.expected)
    ensures Inv(DoingAll(w, RollbackPlan(e.digest), n))
    ensures n == 1 ==> var done := DoingAll(w, RollbackPlan(e.digest), n);
                       done.disk.pointer == Some(e.digest) && e.digest in done.disk.activated
  {
    RunningIsMarked(w);
    var k :| 0 <= k < |w.history| && w.history[k].to == e.digest;
    assert (w.history + [Change(e.digest, RolledBack)])[k].to == e.digest;
    PointerKeepsInv(w, SetPointer(e.digest, RolledBack));
    hide Inv;
  }

  lemma DraftingKeepsInv(w: World, b: Bundle, base: Digest, now: int)
    requires Inv(w) && w.active == Some(base)
    ensures Inv(w.(disk := Drafted(w.disk, b, base, now).0))
  {
    hide Held, Justified;
  }

  lemma TestingKeepsInv(w: World, digest: Digest, expected: Digest, now: int)
    requires Inv(w) && w.active.Some? && Testable(w.disk, w.active.value, digest, expected)
    ensures Inv(w.(disk := MarkedTested(w.disk, digest, now), tests := w.tests + {Test(digest, expected, now)}))
  {
    var tests := w.tests + {Test(digest, expected, now)};
    forall i | 0 <= i < |w.history| ensures Justified(w.history, tests, i) {
      assert Justified(w.history, w.tests, i);
    }
    hide Held, Justified;
  }

  /** An operation keeps the invariant when each of its writes does and the last leaves the pointer marked. */
  lemma PerformedKeepsInv(w: World, plan: seq<Write>, writes: nat)
    requires Inv(DoingAll(w, plan, if writes < |plan| then writes else |plan|))
    requires var disk := DoingAll(w, plan, |plan|).disk;
             writes >= |plan| ==> disk.pointer.Some? && disk.pointer.value in disk.activated
    ensures Inv(Performed(w, plan, writes))
  {
    hide HistoryInv, MarkerInv, DraftInv, DoingAll;
    if writes >= |plan| {
      var done := DoingAll(w, plan, |plan|);
      ServingKeepsInv(done);
    }
  }

  lemma ServingKeepsInv(w: World)
    requires Inv(w) && w.disk.pointer.Some? && w.disk.pointer.value in w.disk.activated
    ensures Inv(w.(active := w.disk.pointer))
  {
    hide Held, Justified;
  }

  lemma OperationKeepsInv(w: World, e: Event)
    requires Inv(w) && (e.Boot? || e.DoPromote? || e.DoRollback?)
    ensures Inv(Next(w, e))
  {
    hide Inv, DoingAll, Performed, Startable, Restorable;
    if e.Boot? && w.active.None? && Startable(w.disk, e.seed) {
      var plan := StartPlan(w.disk, e.seed);
      BootKeepsInv(w, e.seed, if e.writes < |plan| then e.writes else |plan|);
      PerformedKeepsInv(w, plan, e.writes);
    } else if e.DoPromote? && w.active.Some? && Promotable(w.disk, w.active.value, e.digest, e.expected, e.now) {
      PromoteKeepsInv(w, e, if e.writes < 3 then e.writes else 3);
      PerformedKeepsInv(w, PromotePlan(w.disk.drafts[e.digest], e.now, e.done), e.writes);
    } else if e.DoRollback? && w.active.Some? && Restorable(w.disk, w.active.value, e.digest, e.expected) {
      RollbackKeepsInv(w, e, if e.writes < 1 then e.writes else 1);
      PerformedKeepsInv(w, RollbackPlan(e.digest), e.writes);
    }
  }

  lemma NextKeepsInv(w: World, e: Event)
    requires Inv(w)
    ensures Inv(Next(w, e))
  {
    match e {
      case Die => StoppedKeepsInv(w);
      case DoCreateDraft(base, b, now) =>
        if w.active == Some(base) { DraftingKeepsInv(w, b, base, now); }
        hide Drafted, Inv;
      case DoCreateSeedDraft(base, b, now) =>
        if w.active == Some(base) { DraftingKeepsInv(w, b, base, now); }
        hide Drafted, Inv;
      case DoMarkTested(digest, expected, now) =>
        if w.active.Some? && Testable(w.disk, w.active.value, digest, expected) {
          TestingKeepsInv(w, digest, expected, now);
        }
        hide Inv;
      case _ =>
        OperationKeepsInv(w, e);
        hide *;
    }
  }

  lemma {:induction false} RunKeepsInv(es: seq<Event>, n: nat)
    requires n <= |es|
    ensures Inv(After(es, n))
  {
    hide Next;
    if n > 0 {
      hide Inv;
      RunKeepsInv(es, n - 1);
      NextKeepsInv(After(es, n - 1), es[n - 1]);
    }
  }

  // ---------------------------------------------------------------- main results

  /** Over every run, with a crash after any write of a start, a promotion or a rollback: while a process serves,
      the markers are exactly the digests the pointer has ever held; every pointer change is justified; and what
      is served is the digest in the active pointer. */
  lemma MarkersAreHistory(es: seq<Event>)
    ensures
      var w := After(es, |es|);
      && (w.active.Some? ==>
            && w.active == w.disk.pointer
            && forall digest :: digest in w.disk.activated <==> Held(w.history, digest))
      && (forall i :: 0 <= i < |w.history| ==> Justified(w.history, w.tests, i))
      && w.disk.pointer == (if w.history == [] then None else Some(w.history[|w.history| - 1].to))
  {
    RunKeepsInv(es, |es|);
    var w := After(es, |es|);
    if w.active.Some? { RunningIsMarked(w); }
    hide After, Held, Justified;
  }

  /** Wherever a process died, the next complete start serves the digest in the active pointer, or the seed when it
      was never written, and restores the marker that the interrupted operation did not write. */
  lemma RecoveryAlwaysServes(es: seq<Event>, seed: Bundle, writes: nat)
    requires writes >= 4
    ensures
      var w := After(es, |es|);
      w.active.None? ==>
        var w' := Next(w, Boot(seed, writes));
        && w'.active == (if w.disk.pointer.Some? then w.disk.pointer else Some(Sha256(seed)))
        && (forall digest :: digest in w'.disk.activated <==> Held(w'.history, digest))
  {
    var w := After(es, |es|);
    RunKeepsInv(es, |es|);
    hide After;
    if w.active.None? {
      assert Startable(w.disk, seed);
      NextKeepsInv(w, Boot(seed, writes));
      var plan := StartPlan(w.disk, seed);
      BootKeepsInv(w, seed, |plan|);
      StartPointer(w, seed);
      RunningIsMarked(Next(w, Boot(seed, writes)));
      hide Inv, Held, StartPlan;
    }
  }

  lemma StartPointer(w: World, seed: Bundle)
    ensures var plan := StartPlan(w.disk, seed);
            DoingAll(w, plan, |plan|).disk.pointer
            == if w.disk.pointer.Some? then w.disk.pointer else Some(Sha256(seed))
  {
    var plan := StartPlan(w.disk, seed);
    assert DoingAll(w, plan, 0) == w.(active := None);
    assert DoingAll(w, plan, 1) == Doing(DoingAll(w, plan, 0), plan[0]);
    assert DoingAll(w, plan, 2) == Doing(DoingAll(w, plan, 1), plan[1]);
    if w.disk.pointer.None? {
      assert DoingAll(w, plan, 3) == Doing(DoingAll(w, plan, 2), plan[2]);
    }
  }

  lemma RolledBackServes(w: World, target: Digest, expected: Digest)
    requires w.active.Some? && Restorable(w.disk, w.active.value, target, expected)
    ensures Next(w, DoRollback(target, expected, 1)).active == Some(target)
  {
    var plan := RollbackPlan(target);
    assert DoingAll(w, plan, 1) == Doing(DoingAll(w, plan, 0), plan[0]);
  }

  /** In every reachable serving state, a rollback is accepted exactly when it names the active digest as expected
      and asks for another digest that was active before; afterwards exactly that digest is served. */
  lemma RollbackIff(es: seq<Event>, target: Digest, expected: Digest)
    requires After(es, |es|).active.Some?
    ensures
      var w := After(es, |es|);
      var w' := Next(w, DoRollback(target, expected, 1));
      if expected == w.active.value && target != expected && Held(w.history, target)
      then w'.active == Some(target)
      else w' == w
  {
    RunKeepsInv(es, |es|);
    hide *;
    RollbackStepIff(After(es, |es|), target, expected);
  }

  lemma RollbackStepIff(w: World, target: Digest, expected: Digest)
    requires Inv(w) && w.active.Some?
    ensures var w' := Next(w, DoRollback(target, expected, 1));
            if expected == w.active.value && target != expected && Held(w.history, target)
            then w'.active == Some(target)
            else w' == w
  {
    RestorableIff(w, target, expected);
    hide Inv, Held;
    if Restorable(w.disk, w.active.value, target, expected) {
      RolledBackServes(w, target, expected);
      hide Next;
    }
    hide Performed, Restorable;
  }

  lemma RestorableIff(w: World, target: Digest, expected: Digest)
    requires Inv(w) && w.active.Some?
    ensures Restorable(w.disk, w.active.value, target, expected)
       <==> expected == w.active.value && target != expected && Held(w.history, target)
  {
    RunningIsMarked(w);
    assert Held(w.history, target) ==> Loads(w.disk, target);
  }

  // ---------------------------------------------------------------- a write that raises in a serving process

  /** A promotion whose write number `writes` raises while the process goes on: it serves the new bundle from the
      pointer write on. */
  function RaisedPromotion(w: World, e: Event, writes: nat): World
    requires w.active.Some? && e.DoPromote? && e.digest in w.disk.drafts && writes < 3
  {
    var stopped := DoingAll(w, PromotePlan(w.disk.drafts[e.digest], e.now, e.done), writes);
    stopped.(active := if writes == 0 then w.active else stopped.disk.pointer)
  }

  ghost predicate MarkersEqualHistory(w: World) {
    forall digest :: digest in w.disk.activated <==> Held(w.history, digest)
  }

  lemma RaisedIs(w: World, e: Event, writes: nat)
    requires w.active.Some? && e.DoPromote? && e.digest in w.disk.drafts && w.disk.drafts[e.digest].digest == e.digest
    requires writes < 3
    ensures var raised := RaisedPromotion(w, e, writes);
            && raised.disk.activated == (if writes == 2 then w.disk.activated + {e.digest} else w.disk.activated)
            && forall digest :: Held(raised.history, digest)
                                <==> Held(w.history, digest) || (writes > 0 && digest == e.digest)
  {
    var m := w.disk.drafts[e.digest];
    var c := Change(e.digest, Promoted(m.tested, e.now));
    ThreeWrites(w, PromotePlan(m, e.now, e.done));
    forall digest ensures Held(w.history + [c], digest) <==> Held(w.history, digest) || digest == e.digest {
      HeldGrows(w.history, c, digest);
    }
    hide Held;
  }

  /** In every reachable serving state, a promotion interrupted by an exception leaves the markers equal to the
      history if and only if it was not the marker write that raised, or the digest was active before. */
  lemma RaisedPromotionMarksIff(es: seq<Event>, e: Event, writes: nat)
    requires After(es, |es|).active.Some? && e.DoPromote? && writes < 3
    requires var w := After(es, |es|); Promotable(w.disk, w.active.value, e.digest, e.expected, e.now)
    ensures var w := After(es, |es|);
            && MarkersEqualHistory(w)
            && (MarkersEqualHistory(RaisedPromotion(w, e, writes)) <==> writes != 1 || Held(w.history, e.digest))
  {
    RunKeepsInv(es, |es|);
    var w := After(es, |es|);
    hide After;
    RunningIsMarked(w);
    RaisedIs(w, e, writes);
    hide Held, Inv, RaisedPromotion, Loads;
  }

  /** What a serving process can rely on before a promotion of a digest that was never active. */
  lemma BeforePromotion(w: World, e: Event)
    requires Inv(w) && w.active.Some? && e.DoPromote? && !Held(w.history, e.digest)
    requires Promotable(w.disk, w.active.value, e.digest, e.expected, e.now)
    ensures e.digest !in w.disk.activated && e.digest !in PromotedBases(w.disk) && e.digest != e.expected
    ensures e.expected in w.disk.activated && Loads(w.disk, e.expected) && w.active == Some(e.expected)
  {
    RunningIsMarked(w);
    BasesAreHeld(w);
  }

  lemma RaisedAtMarker(w: World, e: Event)
    requires w.active.Some? && e.DoPromote? && e.digest in w.disk.drafts && w.disk.drafts[e.digest].digest == e.digest
    ensures var raised := RaisedPromotion(w, e, 1);
            && raised.disk == w.disk.(pointer := Some(e.digest)) && raised.active == Some(e.digest)
            && Held(raised.history, e.digest)
  {
    var m := w.disk.drafts[e.digest];
    ThreeWrites(w, PromotePlan(m, e.now, e.done));
    HeldGrows(w.history, Change(e.digest, Promoted(m.tested, e.now)), e.digest);
    hide Held;
  }

  /** The promotion raised at its marker: what is served has no marker, and the digest it replaced has one. */
  lemma AfterRaise(w: World, e: Event)
    requires Inv(w) && w.active.Some? && e.DoPromote? && !Held(w.history, e.digest)
    requires Promotable(w.disk, w.active.value, e.digest, e.expected, e.now)
    ensures Unmarked(RaisedPromotion(w, e, 1), e.digest, e.expected)
  {
    BeforePromotion(w, e);
    RaisedAtMarker(w, e);
    hide Inv, Held, RaisedPromotion;
  }

  ghost predicate Unmarked(w: World, digest: Digest, earlier: Digest) {
    && w.active == Some(digest) && Held(w.history, digest) && digest != earlier
    && digest !in w.disk.activated && digest !in PromotedBases(w.disk)
    && earlier in w.disk.activated && Loads(w.disk, earlier)
  }

  lemma UnmarkedIsLost(w: World, digest: Digest, earlier: Digest, seed: Bundle, restart: nat)
    requires Unmarked(w, digest, earlier) && restart >= 4
    ensures var back := Next(w, DoRollback(earlier, digest, 1));
            var again := Next(back.(active := None), Boot(seed, restart));
            && back.active == Some(earlier) && again.active == Some(earlier)
            && Held(again.history, digest) && digest !in again.disk.activated
  {
    RolledBackTo(w, earlier, digest);
    var back := Next(w, DoRollback(earlier, digest, 1));
    hide Held, Next;
    assert PromotedBases(back.disk) == PromotedBases(w.disk);
    RestartedOn(back.(active := None), seed, restart, earlier);
  }

  /** The loss outlives the process: after such an exception and a rollback to the digest that was active before, the
      pointer has held a digest without a marker, and no complete restart brings the marker back. */
  lemma LostMarkerStaysLost(es: seq<Event>, e: Event, seed: Bundle, restart: nat)
    requires After(es, |es|).active.Some? && e.DoPromote? && restart >= 4
    requires var w := After(es, |es|);
             Promotable(w.disk, w.active.value, e.digest, e.expected, e.now) && !Held(w.history, e.digest)
    ensures var w := RaisedPromotion(After(es, |es|), e, 1);
            var back := Next(w, DoRollback(e.expected, e.digest, 1));
            var again := Next(back.(active := None), Boot(seed, restart));
            && back.active == Some(e.expected) && again.active == Some(e.expected)
            && Held(again.history, e.digest) && e.digest !in again.disk.activated
  {
    RunKeepsInv(es, |es|);
    AfterRaise(After(es, |es|), e);
    UnmarkedIsLost(RaisedPromotion(After(es, |es|), e, 1), e.digest, e.expected, seed, restart);
    hide *;
  }

  lemma RolledBackTo(w: World, target: Digest, expected: Digest)
    requires w.active == Some(expected) && target != expected && target in w.disk.activated && Loads(w.disk, target)
    ensures var back := Next(w, DoRollback(target, expected, 1));
            back == World(w.disk.(pointer := Some(target)), Some(target), w.history + [Change(target, RolledBack)], w.tests)
    ensures forall digest :: Held(w.history, digest) ==>
              Held(Next(w, DoRollback(target, expected, 1)).history, digest)
  {
    var plan := RollbackPlan(target);
    assert DoingAll(w, plan, 1) == Doing(DoingAll(w, plan, 0), plan[0]);
    forall digest { HeldGrows(w.history, Change(target, RolledBack), digest); }
  }

  /** A complete restart marks what is active and what was promoted over, and nothing else. */
  lemma RestartedOn(w: World, seed: Bundle, writes: nat, digest: Digest)
    requires w.active.None? && w.disk.pointer == Some(digest) && Loads(w.disk, digest) && writes >= 4
    ensures Next(w, Boot(seed, writes))
         == World(w.disk.(activated := w.disk.activated + {digest} + PromotedBases(w.disk)), Some(digest),
                  w.history, w.tests)
  {
    var plan := StartPlan(w.disk, seed);
    assert DoingAll(w, plan, 1) == Doing(DoingAll(w, plan, 0), plan[0]);
    assert DoingAll(w, plan, 2) == Doing(DoingAll(w, plan, 1), plan[1]);
    assert w.disk.activated + {digest} + PromotedBases(w.disk) == (w.disk.activated + {digest}) + PromotedBases(w.disk);
  }
}
