/**
 The P04 whole-suite check: one pass over the executions in contract order, which compares only neighbours and
 remembers the identifiers it has seen. What the per-case checks return is given.
 */
module GuardrailSuite {
  import opened Results
  import Text

  /** An execution, observation, provider request or audit request identifier. */
  datatype Id = Id(text: string)

  /** A server-owned case; `provider` cases also have a product check. */
  datatype Case = Case(id: string, provider: bool, body: string)

  datatype Build = Build(files: map<string, string>, runner: string, contract: string, source: string)

  datatype Owned = Owned(cases: seq<Case>, files: map<string, string>, runner: string, contract: string)

  const CONTRACT_CASES := 27

  /** What the constructor requires of the cases it loads. */
  ghost predicate ValidContract(k: Owned) {
    |k.cases| == CONTRACT_CASES && forall i, j :: 0 <= i < j < |k.cases| ==> k.cases[i].id != k.cases[j].id
  }

  datatype Labels = Labels(practice: string, activity: string, version: string, suite: string)

  datatype Row = Row(caseId: string, execution: Id)

  datatype Root = Root(labels: Labels, state: string, started: real, finished: real, build: Build, finalBuild: Build,
                       cases: seq<Row>)

  datatype Registration = Registration(labels: Labels, state: string, started: real, prepared: real, contract: string,
                                       resources: string, cases: seq<Row>)

  datatype Record = Record(started: real, closed: real)

  /** What the check of one execution returns when it accepts. */
  datatype Checked = Checked(observation: Option<Id>, provider: Option<Id>, audits: seq<Id>)

  datatype Evidence = Evidence(suite: string, root: Root, registration: Registration, build: Build,
                               records: seq<Record>, resources: string, now: real)

  /** The verdicts of the per-case checks, in contract order: `None` and `false` are refusals. */
  datatype Verdicts = Verdicts(bindings: seq<Option<Checked>>, products: seq<bool>)

  datatype Result = Result(caseId: string, execution: Id, checked: Checked, product: bool)

  // ---------------------------------------------------------------- what acceptance means

  predicate Labelled(l: Labels, suite: string) {
    l == Labels("P04", "H04", "p04-guardrail-v1", suite)
  }

  predicate LowerHex64(s: string) {
    |s| == 64 && forall i :: 0 <= i < |s| ==> Text.LowerHex(s[i])
  }

  predicate HeaderMatches(k: Owned, v: Evidence) {
    var root, reg := v.root, v.registration;
    && Text.CanonicalUuid(v.suite) && Labelled(root.labels, v.suite) && Labelled(reg.labels, v.suite)
    && root.state == "finished" && reg.state == "prepared"
    && 0.0 < root.started <= reg.started <= reg.prepared <= root.finished <= v.now
    && reg.prepared - reg.started < 30.0 && root.finished - root.started < 180.0 && v.now - root.started < 900.0
    && v.build == root.build == root.finalBuild
    && v.build.files == k.files && v.build.runner == k.runner && v.build.contract == reg.contract == k.contract
    && LowerHex64(v.build.source)
    && v.resources == reg.resources
  }

  predicate RowsMatch(k: Owned, v: Evidence) {
    && |v.root.cases| == |v.registration.cases| == |v.records| == |k.cases|
    && (forall i :: 0 <= i < |k.cases| ==> v.root.cases[i].caseId == k.cases[i].id)
    && v.registration.cases == v.root.cases
    && (forall i :: 0 <= i < |k.cases| ==> Text.CanonicalUuid(v.root.cases[i].execution.text))
    && (forall i, j :: 0 <= i < j < |k.cases| ==> v.root.cases[i].execution != v.root.cases[j].execution)
  }

  /** The executions lie inside [prepared, finished], in order, and no two of them overlap. */
  ghost predicate InOrder(v: Evidence) {
    && (forall i :: 0 <= i < |v.records| ==>
          v.registration.prepared <= v.records[i].started <= v.records[i].closed <= v.root.finished)
    && (forall i, j :: 0 <= i < j < |v.records| ==> v.records[i].closed <= v.records[j].started)
  }

  /** The native identifiers of one execution: its provider request, then its audit requests. */
  function NativeOf(c: Checked): seq<Id> {
    (if c.provider.Some? then [c.provider.value] else []) + c.audits
  }

  ghost predicate AllChecked(w: Verdicts, n: nat) {
    n <= |w.bindings| && forall i :: 0 <= i < n ==> w.bindings[i].Some?
  }

  /** The native identifiers of the first `n` executions, in order. */
  ghost function NativeIds(w: Verdicts, n: nat): seq<Id>
    requires AllChecked(w, n)
  {
    if n == 0 then [] else NativeIds(w, n - 1) + NativeOf(w.bindings[n - 1].value)
  }

  ghost predicate ObservationsDiffer(w: Verdicts, n: nat)
    requires AllChecked(w, n)
  {
    forall i, j :: 0 <= i < j < n && w.bindings[i].value.observation.Some? ==>
      w.bindings[i].value.observation != w.bindings[j].value.observation
  }

  function Products(k: Owned, n: nat): nat
    requires n <= |k.cases|
  {
    if n == 0 then 0 else Products(k, n - 1) + if k.cases[n - 1].provider then 1 else 0
  }

  ghost predicate Acceptable(k: Owned, v: Evidence, w: Verdicts) {
    && HeaderMatches(k, v) && RowsMatch(k, v) && InOrder(v)
    && |w.bindings| == |w.products| == |k.cases| && AllChecked(w, |k.cases|)
    && (forall i :: 0 <= i < |k.cases| && k.cases[i].provider ==> w.products[i])
    && ObservationsDiffer(w, |k.cases|) && Distinct(NativeIds(w, |k.cases|))
    && Products(k, |k.cases|) == 4
  }

  // ---------------------------------------------------------------- the one-pass check

  /** The neighbours of the first `n` executions. */
  ghost predicate Chained(v: Evidence, n: nat)
    requires n <= |v.records|
  {
    && (forall i :: 0 <= i < n ==> v.records[i].started <= v.records[i].closed <= v.root.finished)
    && (n > 0 ==> v.registration.prepared <= v.records[0].started)
    && (forall i :: 0 < i < n ==> v.records[i - 1].closed <= v.records[i].started)
  }

  /** Comparing neighbours is enough to order every pair. */
  lemma {:induction false} ChainOrdersAll(v: Evidence, n: nat)
    requires n <= |v.records| && Chained(v, n)
    ensures forall i :: 0 <= i < n ==> v.registration.prepared <= v.records[i].started
    ensures forall i, j :: 0 <= i < j < n ==> v.records[i].closed <= v.records[j].started
  {
    if n > 0 {
      ChainOrdersAll(v, n - 1);
      if n > 1 {
        assert v.records[n - 2].closed <= v.records[n - 1].started;
        assert forall i :: 0 <= i < n - 1 ==> v.records[i].closed <= v.records[n - 2].closed;
      }
    }
  }

  lemma OrderIsChained(v: Evidence)
    ensures InOrder(v) <==> Chained(v, |v.records|)
  {
    if Chained(v, |v.records|) { ChainOrdersAll(v, |v.records|); }
  }

  ghost function Elements(s: seq<Id>): set<Id> { set x | x in s }

  lemma DistinctPrefix(s: seq<Id>, t: seq<Id>)
    requires Distinct(s + t)
    ensures Distinct(s) && Distinct(t) && forall i :: 0 <= i < |t| ==> t[i] !in s
  {
    forall i, j | 0 <= i < j < |s| ensures s[i] != s[j] { assert (s + t)[i] != (s + t)[j]; }
    forall i, j | 0 <= i < j < |t| ensures t[i] != t[j] { assert (s + t)[|s| + i] != (s + t)[|s| + j]; }
    forall i | 0 <= i < |t| ensures t[i] !in s {
      forall j | 0 <= j < |s| ensures s[j] != t[i] { assert (s + t)[j] != (s + t)[|s| + i]; }
    }
  }

  lemma DistinctAppend(s: seq<Id>, x: Id)
    ensures Distinct(s + [x]) <==> Distinct(s) && x !in s
    ensures Elements(s + [x]) == Elements(s) + {x}
  {
    if Distinct(s + [x]) { DistinctPrefix(s, [x]); assert [x][0] !in s; }
  }

  /** The inner loop over one execution's audit requests; stops at the first repeat. */
  method Remember(seen: set<Id>, ghost before: seq<Id>, ids: seq<Id>) returns (next: set<Id>, unseen: bool)
    requires seen == Elements(before) && Distinct(before)
    ensures unseen <==> Distinct(before + ids)
    ensures unseen ==> next == Elements(before + ids)
  {
    next := seen;
    var i := 0;
    assert before + ids[..0] == before;
    while i < |ids|
      invariant 0 <= i <= |ids|
      invariant Distinct(before + ids[..i]) && next == Elements(before + ids[..i])
    {
      assert before + ids[..i + 1] == (before + ids[..i]) + [ids[i]];
      DistinctAppend(before + ids[..i], ids[i]);
      if ids[i] in next {
        assert before + ids == (before + ids[..i + 1]) + ids[i + 1..];
        if Distinct(before + ids) { DistinctPrefix(before + ids[..i + 1], ids[i + 1..]); }
        return next, false;
      }
      next := next + {ids[i]};
      i := i + 1;
    }
    assert ids[..i] == ids;
    unseen := true;
  }

  lemma {:induction false} NativePrefix(w: Verdicts, n: nat, m: nat)
    requires n <= m && AllChecked(w, m) && Distinct(NativeIds(w, m))
    ensures Distinct(NativeIds(w, n))
  {
    if n < m {
      DistinctPrefix(NativeIds(w, m - 1), NativeOf(w.bindings[m - 1].value));
      NativePrefix(w, n, m - 1);
    }
  }

  ghost function ObservationSet(w: Verdicts, n: nat): set<Id>
    requires AllChecked(w, n)
  {
    set i | 0 <= i < n && w.bindings[i].value.observation.Some? :: w.bindings[i].value.observation.value
  }

  /** The first `n` executions pass every check against one another. */
  ghost predicate Good(k: Owned, v: Evidence, w: Verdicts, n: nat)
    requires |w.bindings| == |w.products| == |k.cases| == |v.records|
  {
    && n <= |k.cases| && Chained(v, n) && AllChecked(w, n)
    && ObservationsDiffer(w, n) && Distinct(NativeIds(w, n))
    && forall i :: 0 <= i < n && k.cases[i].provider ==> w.products[i]
  }

  lemma GoodBefore(k: Owned, v: Evidence, w: Verdicts, n: nat)
    requires |w.bindings| == |w.products| == |k.cases| == |v.records|
    requires n <= |k.cases| && Good(k, v, w, |k.cases|)
    ensures Good(k, v, w, n)
  {
    NativePrefix(w, n, |k.cases|);
  }

  /** What one more execution has to satisfy, in terms of the neighbour and of what was seen. */
  ghost predicate Fits(k: Owned, v: Evidence, w: Verdicts, n: nat, previousEnd: real)
    requires |w.bindings| == |w.products| == |k.cases| == |v.records| && n < |k.cases| && AllChecked(w, n)
  {
    && previousEnd <= v.records[n].started <= v.records[n].closed <= v.root.finished
    && w.bindings[n].Some?
    && (w.bindings[n].value.observation.Some? ==> w.bindings[n].value.observation.value !in ObservationSet(w, n))
    && Distinct(NativeIds(w, n) + NativeOf(w.bindings[n].value))
    && (k.cases[n].provider ==> w.products[n])
  }

  lemma FitsIsGood(k: Owned, v: Evidence, w: Verdicts, n: nat, previousEnd: real)
    requires |w.bindings| == |w.products| == |k.cases| == |v.records| && n < |k.cases| && Good(k, v, w, n)
    requires previousEnd == if n == 0 then v.registration.prepared else v.records[n - 1].closed
    ensures Fits(k, v, w, n, previousEnd) <==> Good(k, v, w, n + 1)
  {
    hide NativeOf;
    if w.bindings[n].Some? {
      assert NativeIds(w, n + 1) == NativeIds(w, n) + NativeOf(w.bindings[n].value);
      var observation := w.bindings[n].value.observation;
      if observation.Some? && observation.value in ObservationSet(w, n) {
        var i :| 0 <= i < n && w.bindings[i].value.observation.Some? && w.bindings[i].value.observation == observation;
        assert !ObservationsDiffer(w, n + 1);
      }
    }
  }

  /** The loop of `_verify` over executions, bindings and product checks. */
  method CheckCases(k: Owned, v: Evidence, w: Verdicts) returns (accepted: bool, results: seq<Result>)
    requires |w.bindings| == |w.products| == |k.cases| == |v.records| == |v.root.cases|
    ensures accepted <==> Good(k, v, w, |k.cases|) && Products(k, |k.cases|) == 4
    ensures accepted ==> |results| == |k.cases| && forall i :: 0 <= i < |k.cases| ==>
              results[i] == Result(k.cases[i].id, v.root.cases[i].execution, w.bindings[i].value, k.cases[i].provider)
  {
    hide Chained, ObservationsDiffer, Distinct, NativeOf;
    results := [];
    var previousEnd := v.registration.prepared;
    var observations: set<Id>, native: set<Id>, products := {}, {}, 0;
    assert Good(k, v, w, 0) by { EmptyIsGood(k, v, w); }
    for n := 0 to |k.cases|
      invariant |results| == n && Good(k, v, w, n)
      invariant previousEnd == if n == 0 then v.registration.prepared else v.records[n - 1].closed
      invariant observations == ObservationSet(w, n) && native == Elements(NativeIds(w, n))
      invariant products == Products(k, n)
      invariant forall i :: 0 <= i < n ==>
        results[i] == Result(k.cases[i].id, v.root.cases[i].execution, w.bindings[i].value, k.cases[i].provider)
    {
      FitsIsGood(k, v, w, n, previousEnd);
      if Good(k, v, w, |k.cases|) { GoodBefore(k, v, w, n + 1); }
      hide Good;
      var record := v.records[n];
      if !(previousEnd <= record.started <= record.closed <= v.root.finished) { return false, []; }
      previousEnd := record.closed;
      if w.bindings[n].None? { return false, []; }
      var checked := w.bindings[n].value;
      if checked.observation.Some? {
        if checked.observation.value in observations { return false, []; }
        observations := observations + {checked.observation.value};
      }
      var unseen: bool;
      native, unseen := Remember(native, NativeIds(w, n), NativeOf(checked));
      if !unseen { return false, []; }
      if k.cases[n].provider {
        if !w.products[n] { return false, []; }
        products := products + 1;
      }
      results := results + [Result(k.cases[n].id, v.root.cases[n].execution, checked, k.cases[n].provider)];
    }
    accepted := products == 4;
  }

  lemma EmptyIsGood(k: Owned, v: Evidence, w: Verdicts)
    requires |w.bindings| == |w.products| == |k.cases| == |v.records|
    ensures Good(k, v, w, 0)
  {
  }

  /** `_verify`: accepts exactly the acceptable evidence, and returns one result per case in order. */
  method Verify(k: Owned, v: Evidence, w: Verdicts) returns (accepted: bool, results: seq<Result>)
    requires ValidContract(k) && |w.bindings| == |w.products| == |k.cases|
    ensures accepted <==> Acceptable(k, v, w)
    ensures accepted ==> |results| == |k.cases| && forall i :: 0 <= i < |k.cases| ==>
              results[i] == Result(k.cases[i].id, v.root.cases[i].execution, w.bindings[i].value, k.cases[i].provider)
  {
    if !HeaderMatches(k, v) { return false, []; }
    if !RowsMatch(k, v) { return false, []; }
    OrderIsChained(v);
    hide HeaderMatches, RowsMatch, Chained, NativeIds, ObservationsDiffer, Distinct, Products;
    accepted, results := CheckCases(k, v, w);
  }

  // ---------------------------------------------------------------- what acceptance guarantees

  lemma {:induction false} NativeIsCounted(w: Verdicts, n: nat, i: nat, id: Id)
    requires AllChecked(w, n) && i < n && id in NativeOf(w.bindings[i].value)
    ensures id in NativeIds(w, n)
  {
    if i < n - 1 { NativeIsCounted(w, n - 1, i, id); }
  }

  lemma NativeOfIs(c: Checked, id: Id)
    ensures id in NativeOf(c) <==> c.provider == Some(id) || id in c.audits
    ensures Distinct(NativeOf(c)) <==> Distinct(c.audits) && (c.provider.Some? ==> c.provider.value !in c.audits)
  {
    if c.provider.Some? {
      assert NativeOf(c) == [c.provider.value] + c.audits;
      if Distinct(NativeOf(c)) {
        DistinctPrefix([c.provider.value], c.audits);
        assert forall i :: 0 <= i < |c.audits| ==> c.audits[i] !in [c.provider.value];
      }
    } else {
      assert NativeOf(c) == c.audits;
    }
  }

  /** In accepted evidence no provider or audit request of one execution occurs in another, and none repeats within
      one: the seen-set compares every pair of the whole suite. */
  lemma AcceptedIdentifiersAreGlobal(k: Owned, v: Evidence, w: Verdicts, i: nat, j: nat, id: Id)
    requires Acceptable(k, v, w) && i < j < |k.cases|
    requires w.bindings[i].value.provider == Some(id) || id in w.bindings[i].value.audits
    ensures w.bindings[j].value.provider != Some(id) && id !in w.bindings[j].value.audits
    ensures Distinct(w.bindings[i].value.audits)
    ensures w.bindings[i].value.provider == Some(id) ==> id !in w.bindings[i].value.audits
  {
    NativeOfIs(w.bindings[i].value, id);
    NativeOfIs(w.bindings[j].value, id);
    hide HeaderMatches, RowsMatch, InOrder, ObservationsDiffer, Distinct, NativeOf;
    NativePrefix(w, j + 1, |k.cases|);
    NativePrefix(w, i + 1, |k.cases|);
    NativeIsCounted(w, j, i, id);
    DistinctPrefix(NativeIds(w, j), NativeOf(w.bindings[j].value));
    DistinctPrefix(NativeIds(w, i), NativeOf(w.bindings[i].value));
  }

  /** In accepted evidence the 27 executions are pairwise disjoint in contract order inside [prepared, finished], and
      together they take less than the suite's 180 seconds. */
  lemma AcceptedExecutionsAreDisjoint(k: Owned, v: Evidence, w: Verdicts, i: nat, j: nat)
    requires ValidContract(k) && Acceptable(k, v, w) && i < j < CONTRACT_CASES
    ensures v.registration.prepared <= v.records[i].started <= v.records[i].closed
              <= v.records[j].started <= v.records[j].closed <= v.root.finished
    ensures v.records[j].closed - v.records[i].started < 180.0
    ensures v.root.cases[i].execution != v.root.cases[j].execution && v.root.cases[i].caseId == k.cases[i].id
  {
    hide AllChecked, NativeIds, ObservationsDiffer, Distinct, Products;
  }

  /** Accepted evidence is bound to the owned build and to one suite: the three builds are the owned files, runner and
      contract, from one source; both records carry the suite's labels, the same cases and the same resources; and the
      preparation took less than 30 seconds, the suite less than 180, and the check comes within 900. */
  lemma AcceptedIsBound(k: Owned, v: Evidence, w: Verdicts)
    requires Acceptable(k, v, w)
    ensures v.root.build == v.root.finalBuild == v.build == Build(k.files, k.runner, k.contract, v.build.source)
    ensures |v.build.source| == 64
    ensures v.root.labels == v.registration.labels == Labels("P04", "H04", "p04-guardrail-v1", v.suite)
    ensures v.registration.cases == v.root.cases && |v.root.cases| == |k.cases|
    ensures forall row :: row in v.root.cases ==> Text.CanonicalUuid(row.execution.text)
    ensures v.registration.contract == k.contract && v.registration.resources == v.resources
    ensures v.root.state == "finished" && v.registration.state == "prepared"
    ensures v.root.started <= v.registration.started <= v.registration.prepared <= v.root.finished <= v.now
    ensures v.registration.prepared < v.registration.started + 30.0 && v.root.finished < v.root.started + 180.0
            && v.now < v.root.started + 900.0
  {
    hide AllChecked, NativeIds, ObservationsDiffer, Distinct, Products, InOrder;
  }

  /** `Products` counts the cases that have a product check. */
  lemma {:induction false} ProductsAre(k: Owned, n: nat)
    requires n <= |k.cases|
    ensures Products(k, n) == |set i | 0 <= i < n && k.cases[i].provider|
  {
    if n > 0 {
      ProductsAre(k, n - 1);
      var before, after := set i | 0 <= i < n - 1 && k.cases[i].provider, set i | 0 <= i < n && k.cases[i].provider;
      assert after == if k.cases[n - 1].provider then before + {n - 1} else before;
    }
  }
}
