/**
 What the lab's evidence checks bind: the text a case stands for, the records they select, and the exact condition under
 which an envelope passes.
 */
module LabStories {
  import opened Results
  import opened Text
  import opened LabContract
  import opened LabRunner

  // ---------------------------------------------------------------- the text of a case

  lemma {:induction false} RepeatLength(s: string, n: nat)
    ensures |Repeat(s, n)| == n * |s|
  {
    if n > 0 {
      RepeatLength(s, n - 1);
      assert n * |s| == (n - 1) * |s| + |s|;
    }
  }

  lemma {:induction false} RepeatIs(s: string, n: nat, i: nat)
    requires s != "" && i < |Repeat(s, n)|
    ensures Repeat(s, n)[i] == s[i % |s|]
  {
    var rest := Repeat(s, n - 1);
    assert Repeat(s, n) == s + rest;
    if i >= |s| {
      RepeatIs(s, n - 1, i - |s|);
      ModuloStep(i, |s|);
    } else {
      ModuloSmall(i, |s|);
    }
    hide Repeat;
  }

  lemma ModuloSmall(i: nat, d: nat)
    requires i < d
    ensures i % d == i
  {
  }

  lemma ModuloStep(i: nat, d: nat)
    requires d > 0 && d <= i
    ensures (i - d) % d == i % d
  {
    var q, r := (i - d) / d, (i - d) % d;
    assert i - d == d * q + r;
    assert i == d * (q + 1) + r;
    QuotientIs(i, d, q + 1, r);
  }

  lemma AtLeast(d: int, t: int)
    requires d >= 0
    ensures t >= 1 ==> d * t >= d
    ensures t <= -1 ==> d * t <= -d
  {
  }

  lemma QuotientIs(i: nat, d: nat, q: nat, r: nat)
    requires d > 0 && i == d * q + r && r < d
    ensures i % d == r
  {
    var p, s := i / d, i % d;
    assert i == d * p + s;
    assert d * (q - p) == s - r by { assert d * (q - p) == d * q - d * p; }
    AtLeast(d, q - p);
  }

  /** A case stands for its model output, for its literal input, or for a prefix, a text repeated `n` times and a
      suffix. */
  lemma MaterializedIs(c: Case, i: nat)
    ensures c.direction == "output" ==> Materialized(c) == c.output
    ensures c.direction != "output" && c.input.Literal? ==> Materialized(c) == c.input.value
    ensures c.direction != "output" && c.input.Generated? && c.input.value != "" ==>
              var (g, text, k) := (c.input, Materialized(c), |c.input.prefix|);
              && |text| == k + g.repeats * |g.value| + |g.suffix|
              && text[..k] == g.prefix && text[|text| - |g.suffix|..] == g.suffix
              && (i < g.repeats * |g.value| ==> text[k + i] == g.value[i % |g.value|])
  {
    if c.direction != "output" && c.input.Generated? && c.input.value != "" {
      RepeatLength(c.input.value, c.input.repeats);
      if i < c.input.repeats * |c.input.value| { RepeatIs(c.input.value, c.input.repeats, i); }
    }
  }

  /** A case leaves its event no choice: two events that match it agree in every field that is compared, both show the
      same text, or, where the case allows its hash, the same hash and size. */
  lemma MatchesAgree(c: Case, r: Record, q: Record)
    requires EventMatches(c, r) && EventMatches(c, q)
    ensures r.direction == q.direction && r.scanner == q.scanner && r.decision == q.decision
    ensures c.required <= r.keys && c.required <= q.keys
    ensures "original_text" in r.keys && "original_text" in q.keys ==> r.original == q.original
    ensures "original_text" !in r.keys ==> c.direction == "input" && c.input.Generated? && r.digest.Some? && r.bytes.Some?
    ensures "original_text" !in r.keys && "original_text" !in q.keys ==> r.digest == q.digest && r.bytes == q.bytes
    ensures "original_text" !in r.keys && "original_text" in q.keys ==>
              && q.original.Some? && r.digest == Some(Sha256(q.original.value))
              && r.bytes == Some(Utf8Length(q.original.value))
    ensures c.direction == "output" ==> r.prompt == q.prompt == Some(c.prompt)
  {
    hide Materialized, Utf8Length;
  }

  // ---------------------------------------------------------------- the records that are selected

  /** `at` are the places of the lines that hold an object, in order and without omission. */
  ghost predicate Selects(codec: Codec, lines: seq<string>, at: seq<nat>, records: seq<Record>) {
    && |at| == |records|
    && (forall i :: 0 <= i < |at| ==> at[i] < |lines| && codec.loads(lines[at[i]]) == Object(records[i]))
    && (forall i, j :: 0 <= i < j < |at| ==> at[i] < at[j])
    && (forall n :: 0 <= n < |lines| && codec.loads(lines[n]).Object? ==> n in at)
  }

  lemma SelectsMore(codec: Codec, lines: seq<string>, line: string, at: seq<nat>, records: seq<Record>)
    requires Selects(codec, lines, at, records)
    ensures match codec.loads(line)
            case Object(r) => Selects(codec, lines + [line], at + [|lines|], records + [r])
            case _ => Selects(codec, lines + [line], at, records)
  {
    assert (at + [|lines|])[|at|] == |lines|;
    forall n | 0 <= n < |lines| && codec.loads(lines[n]).Object? ensures n in at + [|lines|] { assert n in at; }
  }

  /** The records of the output are those of its lines that hold an object, in order and without omission. */
  lemma {:induction false} MixedSelects(codec: Codec, lines: seq<string>) returns (at: seq<nat>)
    ensures Selects(codec, lines, at, Mixed(codec, lines))
  {
    if lines == [] {
      at := [];
    } else {
      var front, line := lines[..|lines| - 1], lines[|lines| - 1];
      assert lines == front + [line];
      at := MixedSelects(codec, front);
      SelectsMore(codec, front, line, at, Mixed(codec, front));
      hide Selects;
      at := if codec.loads(line).Object? then at + [|front|] else at;
    }
  }

  // ---------------------------------------------------------------- when an envelope passes

  /** An envelope passes exactly with one policy line of this lab and policy source and one summary line that passed, of
      this lab and number of cases, with a hexadecimal command digest and the hash of the runtime lines between. */
  lemma EnvelopeAcceptedIff(k: Contract, parsed: seq<(string, Record)>)
    ensures EnvelopeIssues(k, parsed) == []
       <==> && |OfEvent(parsed, PolicyCheck)| == 1 && |OfEvent(parsed, ContractSummary)| == 1
            && var policy, summary := OfEvent(parsed, PolicyCheck)[0], OfEvent(parsed, ContractSummary)[0];
               && policy.lab == k.lab && policy.source == k.source
               && summary.status == "PASS" && summary.lab == k.lab && summary.count == Some(|k.cases|)
               && |summary.command| == 64
               && (forall c :: c in summary.command ==> '0' <= c <= '9' || 'a' <= c <= 'f')
               && summary.log == Some(Sha256(WithNewlines(RuntimeLines(parsed))))
  {
    if |OfEvent(parsed, ContractSummary)| == 1 {
      var command := OfEvent(parsed, ContractSummary)[0].command;
      assert forall i :: 0 <= i < |command| ==> command[i] in command;
    }
    hide OfEvent, RuntimeLines, WithNewlines;
  }

  // ---------------------------------------------------------------- case identifiers

  lemma IdsOfMore(front: seq<Case>, last: Case)
    ensures Ids(front + [last]) == Ids(front) + {last.id}
  {
    var cases := front + [last];
    assert cases[|front|] == last && forall c :: 0 <= c < |front| ==> cases[c] == front[c];
    forall id | id in Ids(front) + {last.id} ensures id in Ids(cases) {
      if id == last.id {
        assert cases[|front|].id in Ids(cases);
      } else {
        var c :| 0 <= c < |front| && front[c].id == id;
        assert cases[c].id in Ids(cases);
      }
    }
  }

  lemma UniqueOfMore(front: seq<Case>, last: Case)
    ensures UniqueIds(front + [last]) <==> UniqueIds(front) && last.id !in Ids(front)
  {
    var cases := front + [last];
    assert cases[|front|] == last && forall c :: 0 <= c < |front| ==> cases[c] == front[c];
  }

  /** The case identifiers are unique exactly when there are as many as there are cases. */
  lemma {:induction false} UniqueIdsIff(cases: seq<Case>)
    ensures |Ids(cases)| <= |cases|
    ensures UniqueIds(cases) <==> |Ids(cases)| == |cases|
  {
    if cases == [] {
      assert Ids(cases) == {};
    } else {
      var front, last := cases[..|cases| - 1], cases[|cases| - 1];
      assert cases == front + [last];
      UniqueIdsIff(front);
      IdsOfMore(front, last);
      UniqueOfMore(front, last);
      hide Ids, UniqueIds;
    }
  }
}
