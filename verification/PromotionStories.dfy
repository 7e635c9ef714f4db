/**
 What the draft metadata of the policy store says of the run, over all runs with crashes: who drafted, tested and
 promoted a bundle, when a test or a promotion takes effect, and that a completed promotion is final.
 */
module PromotionStories {
  import opened Results
  import opened PolicyStore

  // ---------------------------------------------------------------- what happened at a step

  /** Step `c` asked for a draft of this bundle over the policy that was active, with another version; a seed's version
      must be newer. */
  ghost predicate DraftedAt(es: seq<Event>, c: nat, digest: Digest) {
    && c < |es| && (es[c].DoCreateDraft? || es[c].DoCreateSeedDraft?)
    && Sha256(es[c].bundle) == digest && After(es, c).active == Some(es[c].base)
    && (es[c].DoCreateDraft? ==> es[c].bundle.version != es[c].base.bundle.version)
    && (es[c].DoCreateSeedDraft? ==> digest != es[c].base && Later(es[c].bundle.version, es[c].base.bundle.version))
  }

  /** Step `t` marked the draft as tested. */
  ghost predicate TestedAt(es: seq<Event>, t: nat, digest: Digest) {
    && t < |es| && es[t].DoMarkTested? && es[t].digest == digest
    && var w := After(es, t);
       w.active.Some? && Testable(w.disk, w.active.value, digest, es[t].expected)
  }

  /** Step `k` promoted the draft and did all three writes. */
  ghost predicate CompletedAt(es: seq<Event>, k: nat, digest: Digest) {
    && k < |es| && es[k].DoPromote? && es[k].digest == digest && es[k].writes >= 3
    && var w := After(es, k);
       w.active.Some? && Promotable(w.disk, w.active.value, digest, es[k].expected, es[k].now)
  }

  // ---------------------------------------------------------------- what one step does to the metadata

  lemma StartKeepsDrafts(w: World, seed: Bundle, n: nat)
    requires n <= |StartPlan(w.disk, seed)|
    ensures DoingAll(w, StartPlan(w.disk, seed), n).disk.drafts == w.disk.drafts
  {
    var plan := StartPlan(w.disk, seed);
    assert n >= 1 ==> DoingAll(w, plan, 1) == Doing(DoingAll(w, plan, 0), plan[0]);
    assert n >= 2 ==> DoingAll(w, plan, 2) == Doing(DoingAll(w, plan, 1), plan[1]);
    assert n >= 3 ==> DoingAll(w, plan, 3) == Doing(DoingAll(w, plan, 2), plan[2]);
    assert n >= 4 ==> DoingAll(w, plan, 4) == Doing(DoingAll(w, plan, 3), plan[3]);
    hide StartPlan, PromotedBases;
  }

  lemma PromotionDrafts(w: World, m: Metadata, now: int, done: int, writes: nat)
    ensures Performed(w, PromotePlan(m, now, done), writes).disk.drafts
         == if writes >= 3 then w.disk.drafts[m.digest := m.(stage := Active, activated := done)] else w.disk.drafts
  {
    ThreeWrites(w, PromotePlan(m, now, done));
  }

  lemma RollbackKeepsDrafts(w: World, target: Digest, writes: nat)
    ensures Performed(w, RollbackPlan(target), writes).disk.drafts == w.disk.drafts
  {
    var plan := RollbackPlan(target);
    assert DoingAll(w, plan, 1) == Doing(DoingAll(w, plan, 0), plan[0]);
  }

  lemma BootKeepsDrafts(w: World, seed: Bundle, writes: nat)
    ensures Next(w, Boot(seed, writes)).disk.drafts == w.disk.drafts
  {
    var plan := StartPlan(w.disk, seed);
    StartKeepsDrafts(w, seed, if writes < |plan| then writes else |plan|);
    hide StartPlan, Startable, DoingAll;
  }

  /** The metadata of one digest before and after a step: only a draft that did not exist, an accepted test and a
      completed promotion of this digest change it. */
  lemma NextMetadata(es: seq<Event>, n: nat, digest: Digest)
    requires n < |es|
    ensures var before, after, e := After(es, n).disk.drafts, After(es, n + 1).disk.drafts, es[n];
            && (digest in after <==> digest in before || DraftedAt(es, n, digest))
            && (digest in after && digest !in before ==> after[digest] == Metadata(digest, e.base, Draft, e.now, 0, 0))
            && (digest in before ==>
                  after[digest] == if TestedAt(es, n, digest) then before[digest].(stage := Tested, tested := e.now)
                                   else if CompletedAt(es, n, digest)
                                   then before[digest].(stage := Active, activated := e.done)
                                   else before[digest])
  {
    var w, e := After(es, n), es[n];
    match e {
      case Boot(seed, writes) => BootKeepsDrafts(w, seed, writes);
      case DoPromote(x, expected, now, done, writes) =>
        if w.active.Some? && Promotable(w.disk, w.active.value, x, expected, now) {
          PromotionDrafts(w, w.disk.drafts[x], now, done, writes);
        }
      case DoRollback(x, _, writes) => RollbackKeepsDrafts(w, x, writes);
      case _ =>
    }
    assert After(es, n + 1) == Next(w, e);
    hide After, Performed, StartPlan, PromotePlan, RollbackPlan, Startable, Restorable, Loads, Later;
  }

  // ---------------------------------------------------------------- the story of a draft

  /** The first request for the draft. */
  ghost predicate FirstDraftAt(es: seq<Event>, c: nat, digest: Digest) {
    DraftedAt(es, c, digest) && forall u :: 0 <= u < c ==> !DraftedAt(es, u, digest)
  }

  /** The last test of the draft among the first `n` steps. */
  ghost predicate LastTestAt(es: seq<Event>, n: nat, t: nat, digest: Digest) {
    t < n && TestedAt(es, t, digest) && forall u :: t < u < n ==> !TestedAt(es, u, digest)
  }

  ghost predicate Untested(es: seq<Event>, n: nat, digest: Digest) {
    forall t :: 0 <= t < n ==> !TestedAt(es, t, digest)
  }

  ghost predicate Unpromoted(es: seq<Event>, n: nat, digest: Digest) {
    forall k :: 0 <= k < n ==> !CompletedAt(es, k, digest)
  }

  ghost predicate WasDrafted(es: seq<Event>, n: nat, digest: Digest, m: Metadata) {
    exists c: nat :: c < n && FirstDraftAt(es, c, digest) && es[c].base == m.base && es[c].now == m.created
  }

  ghost predicate WasTested(es: seq<Event>, n: nat, digest: Digest, m: Metadata) {
    exists t: nat :: LastTestAt(es, n, t, digest) && es[t].now == m.tested && es[t].expected == m.base
  }

  ghost predicate WasPromoted(es: seq<Event>, n: nat, digest: Digest, m: Metadata) {
    exists k: nat :: && k < n && CompletedAt(es, k, digest) && es[k].expected == m.base && es[k].done == m.activated
                     && Unpromoted(es, k, digest)
  }

  /** The metadata of a draft names the policy it was drafted against, the last test and the one completed promotion. */
  ghost predicate Told(es: seq<Event>, n: nat, digest: Digest, m: Metadata) {
    && m.digest == digest && WasDrafted(es, n, digest, m)
    && match m.stage
       case Draft => m.tested == 0 && m.activated == 0 && Untested(es, n, digest) && Unpromoted(es, n, digest)
       case Tested => m.activated == 0 && WasTested(es, n, digest, m) && Unpromoted(es, n, digest)
       case Active => WasTested(es, n, digest, m) && WasPromoted(es, n, digest, m)
  }

  ghost predicate AllTold(es: seq<Event>, n: nat)
    requires n <= |es|
  {
    var drafts := After(es, n).disk.drafts;
    && (forall digest :: digest in drafts ==> Told(es, n, digest, drafts[digest]))
    && (forall digest :: digest !in drafts ==>
          Unrequested(es, n, digest) && Untested(es, n, digest) && Unpromoted(es, n, digest))
  }

  ghost predicate Unrequested(es: seq<Event>, n: nat, digest: Digest) {
    forall c :: 0 <= c < n ==> !DraftedAt(es, c, digest)
  }

  lemma TestNeedsDraft(es: seq<Event>, n: nat, digest: Digest)
    requires n < |es|
    ensures TestedAt(es, n, digest) ==>
              && digest in After(es, n).disk.drafts && After(es, n).disk.drafts[digest].stage != Active
              && es[n].expected == After(es, n).disk.drafts[digest].base && !CompletedAt(es, n, digest)
    ensures CompletedAt(es, n, digest) ==>
              && digest in After(es, n).disk.drafts && After(es, n).disk.drafts[digest].stage == Tested
              && es[n].expected == After(es, n).disk.drafts[digest].base
  {
    hide After, Loads;
  }

  lemma AbsentIsTold(es: seq<Event>, n: nat, digest: Digest)
    requires n < |es| && digest !in After(es, n).disk.drafts
    requires Unrequested(es, n, digest) && Untested(es, n, digest) && Unpromoted(es, n, digest)
    ensures digest !in After(es, n + 1).disk.drafts ==>
              Unrequested(es, n + 1, digest) && Untested(es, n + 1, digest) && Unpromoted(es, n + 1, digest)
    ensures digest in After(es, n + 1).disk.drafts ==> Told(es, n + 1, digest, After(es, n + 1).disk.drafts[digest])
  {
    NextMetadata(es, n, digest);
    TestNeedsDraft(es, n, digest);
    hide After, DraftedAt, TestedAt, CompletedAt;
    if digest in After(es, n + 1).disk.drafts { assert FirstDraftAt(es, n, digest); }
  }

  lemma DraftCarries(es: seq<Event>, n: nat, digest: Digest, m: Metadata, after: Metadata)
    requires WasDrafted(es, n, digest, m) && after.base == m.base && after.created == m.created
    ensures WasDrafted(es, n + 1, digest, after)
  {
    hide FirstDraftAt;
  }

  lemma TestCarries(es: seq<Event>, n: nat, digest: Digest, m: Metadata, after: Metadata)
    requires WasTested(es, n, digest, m) && !TestedAt(es, n, digest) && after.base == m.base && after.tested == m.tested
    ensures WasTested(es, n + 1, digest, after)
  {
    hide After, Testable;
    var t: nat :| LastTestAt(es, n, t, digest) && es[t].now == m.tested && es[t].expected == m.base;
    assert LastTestAt(es, n + 1, t, digest);
  }

  lemma TestIsTold(es: seq<Event>, n: nat, digest: Digest, m: Metadata)
    requires n < |es| && Told(es, n, digest, m) && m.stage != Active && TestedAt(es, n, digest)
    requires es[n].expected == m.base && !CompletedAt(es, n, digest)
    ensures Told(es, n + 1, digest, m.(stage := Tested, tested := es[n].now))
  {
    var after := m.(stage := Tested, tested := es[n].now);
    DraftCarries(es, n, digest, m, after);
    hide TestedAt, CompletedAt, WasDrafted;
    assert LastTestAt(es, n + 1, n, digest);
  }

  lemma PromotionIsTold(es: seq<Event>, n: nat, digest: Digest, m: Metadata)
    requires n < |es| && Told(es, n, digest, m) && m.stage == Tested && CompletedAt(es, n, digest)
    requires es[n].expected == m.base && !TestedAt(es, n, digest)
    ensures Told(es, n + 1, digest, m.(stage := Active, activated := es[n].done))
  {
    var after := m.(stage := Active, activated := es[n].done);
    DraftCarries(es, n, digest, m, after);
    TestCarries(es, n, digest, m, after);
    hide TestedAt, CompletedAt, WasDrafted, WasTested;
  }

  lemma NothingIsTold(es: seq<Event>, n: nat, digest: Digest, m: Metadata)
    requires n < |es| && Told(es, n, digest, m) && !TestedAt(es, n, digest) && !CompletedAt(es, n, digest)
    ensures Told(es, n + 1, digest, m)
  {
    DraftCarries(es, n, digest, m, m);
    if m.stage != Draft { TestCarries(es, n, digest, m, m); }
    hide TestedAt, CompletedAt, WasDrafted, WasTested;
  }

  lemma PresentIsTold(es: seq<Event>, n: nat, digest: Digest)
    requires n < |es| && digest in After(es, n).disk.drafts
    requires Told(es, n, digest, After(es, n).disk.drafts[digest])
    ensures digest in After(es, n + 1).disk.drafts && Told(es, n + 1, digest, After(es, n + 1).disk.drafts[digest])
  {
    NextMetadata(es, n, digest);
    TestNeedsDraft(es, n, digest);
    var m := After(es, n).disk.drafts[digest];
    assert TestedAt(es, n, digest) ==> es[n].DoMarkTested?;
    assert CompletedAt(es, n, digest) ==> es[n].DoPromote?;
    hide After, TestedAt, CompletedAt, Told;
    if TestedAt(es, n, digest) {
      TestIsTold(es, n, digest, m);
    } else if CompletedAt(es, n, digest) {
      PromotionIsTold(es, n, digest, m);
    } else {
      NothingIsTold(es, n, digest, m);
    }
  }

  lemma NothingToTell(es: seq<Event>)
    ensures AllTold(es, 0)
  {
    hide Told;
  }

  lemma StepTells(es: seq<Event>, n: nat)
    requires n < |es| && AllTold(es, n)
    ensures AllTold(es, n + 1)
  {
    hide After, Told, Unrequested, Untested, Unpromoted;
    var before, after := After(es, n).disk.drafts, After(es, n + 1).disk.drafts;
    forall digest
      ensures if digest in after then Told(es, n + 1, digest, after[digest])
              else Unrequested(es, n + 1, digest) && Untested(es, n + 1, digest) && Unpromoted(es, n + 1, digest)
    {
      if digest in before { PresentIsTold(es, n, digest); } else { AbsentIsTold(es, n, digest); }
    }
  }

  /** Over every run with crashes, the metadata of each draft tells who drafted it first and against what, when it was
      last tested, and which promotion completed; and a digest without metadata was never drafted. */
  lemma {:induction false} MetadataTellsTheRun(es: seq<Event>, n: nat)
    requires n <= |es|
    ensures AllTold(es, n)
  {
    hide *;
    if n == 0 {
      NothingToTell(es);
    } else {
      MetadataTellsTheRun(es, n - 1);
      StepTells(es, n - 1);
    }
  }

  // ---------------------------------------------------------------- a completed promotion is final

  lemma {:induction false} ActiveStays(es: seq<Event>, k: nat, n: nat, digest: Digest)
    requires k < n <= |es| && CompletedAt(es, k, digest)
    ensures digest in After(es, n).disk.drafts
    ensures var m := After(es, n).disk.drafts[digest];
            m.stage == Active && m.base == es[k].expected && m.activated == es[k].done
  {
    NextMetadata(es, n - 1, digest);
    TestNeedsDraft(es, n - 1, digest);
    hide After, Testable, Promotable, DraftedAt;
    if k < n - 1 { ActiveStays(es, k, n - 1, digest); }
  }

  /** A completed promotion is final, over all runs with crashes: its draft is active for ever, whoever asks can never
      test or promote it again, the base it replaced is one the start-up loop remembers, and no other promotion of the
      same digest completes. */
  lemma CompletedIsFinal(es: seq<Event>, k: nat, n: nat, digest: Digest, active: Digest, expected: Digest, now: int)
    requires k < n <= |es| && CompletedAt(es, k, digest)
    ensures var w := After(es, n);
            && digest in w.disk.drafts && w.disk.drafts[digest].stage == Active
            && !Testable(w.disk, active, digest, expected) && !Promotable(w.disk, active, digest, expected, now)
            && es[k].expected in PromotedBases(w.disk)
            && !TestedAt(es, n, digest) && !CompletedAt(es, n, digest)
  {
    ActiveStays(es, k, n, digest);
    hide After, Loads;
  }

  // ---------------------------------------------------------------- when an operation takes effect

  lemma StoredLoads(es: seq<Event>, n: nat, digest: Digest)
    requires n <= |es| && digest in After(es, n).disk.drafts
    ensures Loads(After(es, n).disk, digest) && After(es, n).disk.drafts[digest].digest == digest
  {
    RunKeepsInv(es, n);
    hide After, HistoryInv, MarkerInv, RunningInv;
    LoadsWhatIsDrafted(After(es, n), digest);
  }

  lemma LoadsWhatIsDrafted(w: World, digest: Digest)
    requires HistoryInv(w) && DraftInv(w) && digest in w.disk.drafts
    ensures Loads(w.disk, digest) && w.disk.drafts[digest].digest == digest
  {
    hide Justified;
  }

  /** The draft was requested first against this base. */
  ghost predicate DraftedAgainst(es: seq<Event>, n: nat, digest: Digest, base: Digest) {
    exists c: nat :: c < n && FirstDraftAt(es, c, digest) && es[c].base == base
  }

  lemma FirstIsUnique(es: seq<Event>, a: nat, b: nat, digest: Digest)
    requires FirstDraftAt(es, a, digest) && FirstDraftAt(es, b, digest)
    ensures a == b
  {
    hide DraftedAt;
  }

  lemma LastIsUnique(es: seq<Event>, n: nat, a: nat, b: nat, digest: Digest)
    requires LastTestAt(es, n, a, digest) && LastTestAt(es, n, b, digest)
    ensures a == b
  {
    hide TestedAt;
  }

  /** What the metadata says, read off the run. */
  lemma DraftIs(es: seq<Event>, n: nat, digest: Digest, base: Digest)
    requires n <= |es|
    ensures var drafts := After(es, n).disk.drafts;
            && (digest in drafts <==> exists c: nat :: c < n && DraftedAt(es, c, digest))
            && (DraftedAgainst(es, n, digest, base) <==> digest in drafts && drafts[digest].base == base)
            && (digest in drafts ==> (drafts[digest].stage != Active <==> Unpromoted(es, n, digest)))
  {
    MetadataTellsTheRun(es, n);
    var drafts := After(es, n).disk.drafts;
    hide After, Testable, Promotable, Loads;
    if digest in drafts {
      assert Told(es, n, digest, drafts[digest]);
      var c: nat :| c < n && FirstDraftAt(es, c, digest) && es[c].base == drafts[digest].base;
      if d: nat :| d < n && FirstDraftAt(es, d, digest) && es[d].base == base { FirstIsUnique(es, c, d, digest); }
    }
  }

  lemma LastTestIs(es: seq<Event>, n: nat, digest: Digest, expected: Digest, t: nat)
    requires n <= |es| && LastTestAt(es, n, t, digest)
    ensures digest in After(es, n).disk.drafts
    ensures var m := After(es, n).disk.drafts[digest];
            m.stage != Draft && m.tested == es[t].now && m.base == es[t].expected
  {
    MetadataTellsTheRun(es, n);
    var drafts := After(es, n).disk.drafts;
    hide After, Testable, Promotable, Loads, DraftedAt;
    assert digest in drafts ==> Told(es, n, digest, drafts[digest]);
    if digest in drafts && drafts[digest].stage != Draft {
      var u: nat :| LastTestAt(es, n, u, digest) && es[u].now == drafts[digest].tested
                    && es[u].expected == drafts[digest].base;
      LastIsUnique(es, n, t, u, digest);
    }
  }

  /** A test is accepted exactly when the policy it names is the active one, the draft was first requested against that
      policy, and no promotion of the draft has completed. */
  lemma TestAcceptedIff(es: seq<Event>, digest: Digest, expected: Digest)
    requires After(es, |es|).active.Some?
    ensures var w := After(es, |es|);
            Testable(w.disk, w.active.value, digest, expected)
            <==> && w.active.value == expected && DraftedAgainst(es, |es|, digest, expected)
                 && Unpromoted(es, |es|, digest)
  {
    var w := After(es, |es|);
    DraftIs(es, |es|, digest, expected);
    if digest in w.disk.drafts { StoredLoads(es, |es|, digest); }
    hide After, DraftedAgainst, Unpromoted, Loads;
  }

  lemma PromotableIs(w: World, digest: Digest, expected: Digest, now: int, done: int)
    requires w.active.Some? && w.disk.pointer == w.active
    ensures var w' := Next(w, DoPromote(digest, expected, now, done, 3));
            if Promotable(w.disk, w.active.value, digest, expected, now)
            then w' != w && w'.active == w'.disk.pointer == Some(digest) && digest in w'.disk.activated
            else w' == w
  {
    hide Promotable;
    if Promotable(w.disk, w.active.value, digest, expected, now) {
      PromotableHas(w.disk, w.active.value, digest, expected, now);
      ThreeWrites(w, PromotePlan(w.disk.drafts[digest], now, done));
      assert |Performed(w, PromotePlan(w.disk.drafts[digest], now, done), 3).history| == |w.history| + 1;
      hide DoingAll;
    }
  }

  lemma PromotableHas(d: Disk, active: Digest, digest: Digest, expected: Digest, now: int)
    requires Promotable(d, active, digest, expected, now)
    ensures digest in d.drafts && d.drafts[digest].digest == digest
  {
  }

  /** A promotion takes effect, in every reachable serving state, exactly when it names the active policy as expected
      and the last test of the draft was against that policy and at most 3600 seconds before, unless a promotion of the
      draft has already completed; then exactly that digest is served, and otherwise nothing changes. */
  lemma PromotionIff(es: seq<Event>, digest: Digest, expected: Digest, now: int, done: int)
    requires After(es, |es|).active.Some?
    ensures var w := After(es, |es|);
            var w' := Next(w, DoPromote(digest, expected, now, done, 3));
            if && w.active.value == expected && Unpromoted(es, |es|, digest)
               && exists t: nat :: && LastTestAt(es, |es|, t, digest) && es[t].expected == expected
                                   && now <= es[t].now + 3600
            then w' != w && w'.active == w'.disk.pointer == Some(digest) && digest in w'.disk.activated
            else w' == w
  {
    PromotableIff(es, digest, expected, now);
    RunKeepsInv(es, |es|);
    PromotableIs(After(es, |es|), digest, expected, now, done);
    hide After, Next, Promotable, Unpromoted, LastTestAt, HistoryInv, MarkerInv, DraftInv;
  }

  lemma PromotableIff(es: seq<Event>, digest: Digest, expected: Digest, now: int)
    requires After(es, |es|).active.Some?
    ensures var w := After(es, |es|);
            Promotable(w.disk, w.active.value, digest, expected, now)
            <==> && w.active.value == expected && Unpromoted(es, |es|, digest)
                 && exists t: nat :: && LastTestAt(es, |es|, t, digest) && es[t].expected == expected
                                     && now <= es[t].now + 3600
  {
    var w, n := After(es, |es|), |es|;
    MetadataTellsTheRun(es, n);
    DraftIs(es, n, digest, expected);
    if digest in w.disk.drafts { StoredLoads(es, n, digest); }
    if t: nat :| LastTestAt(es, n, t, digest) && es[t].expected == expected && now <= es[t].now + 3600 {
      LastTestIs(es, n, digest, expected, t);
    }
    hide After, Testable, Loads, DraftedAt, DraftedAgainst, Unpromoted, WasDrafted, WasPromoted;
    if Promotable(w.disk, w.active.value, digest, expected, now) {
      assert Told(es, n, digest, w.disk.drafts[digest]);
    }
  }

  // ---------------------------------------------------------------- drafting and starting

  /** `create_draft` and `create_seed_draft` answer with the stored metadata, unless it has another base; they store the
      bundle in any case and never change another draft. */
  lemma DraftAnswers(d: Disk, b: Bundle, base: Digest, now: int)
    ensures var (after, answer) := Drafted(d, b, base, now);
            && Sha256(b) in after.bundles && Sha256(b) in after.drafts
            && answer == (if after.drafts[Sha256(b)].base == base then Some(after.drafts[Sha256(b)]) else None)
            && after.pointer == d.pointer && after.activated == d.activated
            && after.drafts.Keys == d.drafts.Keys + {Sha256(b)}
            && forall x :: x in d.drafts ==> after.drafts[x] == d.drafts[x]
  {
  }

  /** A complete start remembers the base of every promotion that completed, whatever markers the directory has. */
  lemma StartRemembersBases(w: World, seed: Bundle, writes: nat, digest: Digest, x: Digest)
    requires w.active.None? && w.disk.pointer == Some(digest) && Loads(w.disk, digest) && writes >= 4
    requires x in w.disk.drafts && w.disk.drafts[x].stage == Active
    ensures w.disk.drafts[x].base in Next(w, Boot(seed, writes)).disk.activated
  {
    RestartedOn(w, seed, writes, digest);
    assert w.disk.drafts[x].base in PromotedBases(w.disk);
  }

  // ---------------------------------------------------------------- versions

  /** The order of version numbers: the first difference decides, and a longer version is newer than its beginning. */
  lemma {:induction false} GreaterIff(a: seq<nat>, b: seq<nat>)
    ensures Greater(a, b)
       <==> exists i: nat :: i < |a| && i <= |b| && a[..i] == b[..i] && (i == |b| || a[i] > b[i])
  {
    forall i: nat | 0 < i <= |a| && i <= |b| && a[..i] == b[..i] ensures a[0] == b[0] {
      assert a[..i][0] == b[..i][0];
    }
    if a != [] && b != [] && a[0] == b[0] {
      GreaterIff(a[1..], b[1..]);
      if i: nat :| i < |a[1..]| && i <= |b[1..]| && a[1..][..i] == b[1..][..i] && (i == |b[1..]| || a[1..][i] > b[1..][i]) {
        assert a[..i + 1] == [a[0]] + a[1..][..i] && b[..i + 1] == [b[0]] + b[1..][..i];
        assert i + 1 < |a| && a[..i + 1] == b[..i + 1] && (i + 1 == |b| || a[i + 1] > b[i + 1]);
      }
      if i: nat :| i < |a| && i <= |b| && a[..i] == b[..i] && (i == |b| || a[i] > b[i]) {
        assert i > 0;
        assert a[1..][..i - 1] == a[..i][1..] && b[1..][..i - 1] == b[..i][1..];
        assert i - 1 < |a[1..]| && a[1..][..i - 1] == b[1..][..i - 1]
               && (i - 1 == |b[1..]| || a[1..][i - 1] > b[1..][i - 1]);
      }
    } else if a != [] && b != [] {
      if Greater(a, b) { assert a[..0] == b[..0]; }
      if i: nat :| i < |a| && i <= |b| && a[..i] == b[..i] && (i == |b| || a[i] > b[i]) {
        assert i == 0;
      }
    } else if a != [] {
      assert a[..0] == b[..0];
    }
  }

  function Decimal(n: nat): string {
    if n < 10 then [('0' as int + n) as char] else Decimal(n / 10) + [('0' as int + n % 10) as char]
  }

  /** `1.20.3` */
  function Dotted(numbers: seq<nat>): string
    requires numbers != []
  {
    Decimal(numbers[0]) + if |numbers| == 1 then "" else "." + Dotted(numbers[1..])
  }

  lemma {:induction false} DecimalIsRead(n: nat, rest: string)
    ensures Numbers(Decimal(n) + rest, None) == Numbers(rest, Some(n))
  {
    var digit := if n < 10 then [('0' as int + n) as char] else [('0' as int + n % 10) as char];
    assert ([digit[0]] + rest)[1..] == rest;
    if n >= 10 {
      DecimalIsRead(n / 10, digit + rest);
      assert Decimal(n) + rest == Decimal(n / 10) + (digit + rest);
    }
  }

  lemma {:induction false} DottedIsRead(numbers: seq<nat>)
    requires numbers != []
    ensures Numbers(Dotted(numbers), None) == Some(numbers)
  {
    if |numbers| == 1 {
      DecimalIsRead(numbers[0], "");
      assert Dotted(numbers) == Decimal(numbers[0]) + "" && numbers == [numbers[0]];
      assert Numbers("", Some(numbers[0])) == Some([numbers[0]]);
    } else {
      var rest := Dotted(numbers[1..]);
      DottedIsRead(numbers[1..]);
      DecimalIsRead(numbers[0], "." + rest);
      assert ("." + rest)[1..] == rest;
      assert Numbers("." + rest, Some(numbers[0])) == Some([numbers[0]] + numbers[1..]);
      assert [numbers[0]] + numbers[1..] == numbers && Dotted(numbers) == Decimal(numbers[0]) + ("." + rest);
    }
  }

  /** A seed is newer exactly when its version number is, at the first difference. */
  lemma LaterIff(a: seq<nat>, b: seq<nat>)
    requires a != [] && b != []
    ensures Later(Dotted(a), Dotted(b))
       <==> exists i: nat :: i < |a| && i <= |b| && a[..i] == b[..i] && (i == |b| || a[i] > b[i])
  {
    DottedIsRead(a);
    DottedIsRead(b);
    GreaterIff(a, b);
    hide Dotted, Numbers;
  }

  /** A process that dies serves nothing; the next complete start serves what it served, with the same drafts. */
  lemma RestartServesTheSame(es: seq<Event>, seed: Bundle, writes: nat)
    requires writes >= 4 && After(es, |es|).active.Some?
    ensures var dead := Next(After(es, |es|), Die);
            var again := Next(dead, Boot(seed, writes));
            && dead.active.None? && dead.disk == After(es, |es|).disk
            && again.active == After(es, |es|).active && again.disk.drafts == After(es, |es|).disk.drafts
  {
    RunKeepsInv(es, |es|);
    var w := After(es, |es|);
    hide After;
    assert w.disk.pointer == w.active;
    StartTouchesMarkersOnly(Next(w, Die), seed);
    hide Inv;
  }

  lemma StartTouchesMarkersOnly(w: World, seed: Bundle)
    requires w.disk.pointer.Some?
    ensures var plan := StartPlan(w.disk, seed);
            && |plan| == 2 && DoingAll(w, plan, 2).disk == w.disk.(activated := DoingAll(w, plan, 2).disk.activated)
  {
    hide PromotedBases;
    var plan := StartPlan(w.disk, seed);
    assert DoingAll(w, plan, 2) == Doing(Doing(DoingAll(w, plan, 0), plan[0]), plan[1]);
  }
}
