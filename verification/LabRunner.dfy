/**
 The evidence printer of a lab run by host script: it extracts the JSON records from the script's output, checks them,
 and prints the policy line, one line per record, and a summary with the hash of those lines.
 */
module LabRunner {
  import opened Results
  import opened Text
  import opened LabContract

  /** The records among the output lines, as `parse_mixed_json_records` collects them. */
  function Mixed(codec: Codec, lines: seq<string>): seq<Record> {
    if lines == [] then []
    else
      Mixed(codec, lines[..|lines| - 1])
      + match codec.loads(lines[|lines| - 1]) { case Object(record) => [record] case _ => [] }
  }

  method ParseMixed(codec: Codec, text: string) returns (records: seq<Record>)
    ensures records == Mixed(codec, SplitLines(text))
  {
    var lines := SplitLines(text);
    records := [];
    var n := 0;
    while n < |lines|
      invariant 0 <= n <= |lines| && records == Mixed(codec, lines[..n])
    {
      assert lines[..n + 1][..n] == lines[..n];
      var value := codec.loads(lines[n]);
      if value.Object? { records := records + [value.record]; }
      n := n + 1;
    }
    assert lines[..n] == lines;
  }

  /** The compact lines of the records. */
  function RecordLines(codec: Codec, records: seq<Record>): (lines: seq<string>)
    ensures |lines| == |records|
  {
    if records == [] then []
    else RecordLines(codec, records[..|records| - 1]) + [codec.compact(records[|records| - 1])]
  }

  /** A record with nothing but its event. */
  function Plain(event: EventName): Record {
    Record(event, {"event"}, "", "", "", None, "", None, "None", "", "", "", None, None, None, None, map[])
  }

  /** Fields that no check reads. */
  type Unread = m: map<string, string> | m.Keys !! READ witness map[]

  function PolicyRecord(k: Contract, rest: Unread): Record {
    Plain(PolicyCheck).(keys := {"event", "lab_id", "policy_source"} + rest.Keys,
                        lab := k.lab, source := k.source, rest := rest)
  }

  function SummaryRecord(k: Contract, command: string, logs: string, rest: Unread): Record {
    Plain(ContractSummary).(
      keys := {"event", "lab_id", "status", "case_count", "command_sha256", "raw_log_sha256"} + rest.Keys,
      lab := k.lab, status := "PASS", count := Some(|k.cases|), command := command, log := Some(Sha256(logs)),
      rest := rest)
  }

  lemma EndsAreWellFormed(k: Contract, command: string, logs: string, rest: Unread)
    ensures WellFormed(PolicyRecord(k, rest)) && WellFormed(SummaryRecord(k, command, logs, rest))
  {
  }

  /** What a run prints: `rest` stands for the fields of the policy and summary lines that no check reads. */
  function Emitted(codec: Codec, k: Contract, records: seq<Record>, command: string, rest: Unread): string {
    var logs := WithNewlines(RecordLines(codec, records));
    codec.wide(PolicyRecord(k, rest)) + ['\n']
    + (if logs == [] then ['\n'] else logs)
    + (codec.wide(SummaryRecord(k, command, logs, rest)) + ['\n'])
  }

  /** `main` from the script's output on: nothing is summarised unless the evidence is complete. */
  method Report(codec: Codec, k: Contract, stdout: string, command: string, rest: Unread) returns (r: Option<string>)
    ensures r.Some? <==> Complete(k, Mixed(codec, SplitLines(stdout)))
    ensures r.Some? ==> r.value == Emitted(codec, k, Mixed(codec, SplitLines(stdout)), command, rest)
  {
    var records := ParseMixed(codec, stdout);
    var lines: seq<string> := [];
    var n := 0;
    while n < |records|
      invariant 0 <= n <= |records| && lines == RecordLines(codec, records[..n])
    {
      assert records[..n + 1][..n] == records[..n];
      lines := lines + [codec.compact(records[n])];
      n := n + 1;
    }
    assert records[..n] == records;
    var logs := Join(lines);
    if lines != [] {
      JoinThenNewline(lines);
      logs := logs + ['\n'];
    }
    var issues := ValidateEvidence(k, records);
    if issues != [] { return None; }
    var policy := codec.wide(PolicyRecord(k, rest)) + ['\n'];
    var summary := codec.wide(SummaryRecord(k, command, logs, rest)) + ['\n'];
    r := Some(policy + (if logs == [] then ['\n'] else logs) + summary);
  }

  // ---------------------------------------------------------------- the printed text passes the envelope check

  /** The three characters at which a line ends and which the JSON encoder does not escape. */
  predicate Raw(c: char) { c == '\U{85}' || c == '\U{2028}' || c == '\U{2029}' }

  /** JSON encoding of an object round-trips, starts with a brace, and escapes every line boundary but the three. */
  ghost predicate GoodCodec(codec: Codec) {
    && (forall r :: WellFormed(r) ==> codec.loads(codec.compact(r)) == codec.loads(codec.wide(r)) == Object(r))
    && (forall r :: WellFormed(r) ==> Braced(codec.compact(r)) && Braced(codec.wide(r)) && Escaped(codec.compact(r)))
    && (forall line :: codec.loads(line).Object? ==> WellFormed(codec.loads(line).record))
  }

  ghost predicate AllWellFormed(records: seq<Record>) {
    forall r :: r in records ==> WellFormed(r)
  }

  /** Records read from the script's output are well-formed. */
  lemma {:induction false} MixedIsWellFormed(codec: Codec, lines: seq<string>)
    requires GoodCodec(codec)
    ensures AllWellFormed(Mixed(codec, lines))
  {
    if lines != [] { MixedIsWellFormed(codec, lines[..|lines| - 1]); }
  }

  predicate Braced(line: string) { line != "" && line[0] == '{' }

  predicate Escaped(line: string) { forall c :: c in line && Boundary(c) ==> Raw(c) }

  lemma BracedIsNotEmpty(line: string)
    requires Braced(line)
    ensures !Empty(line)
  {
  }

  lemma {:induction false} WithNewlinesAppend(a: seq<string>, b: seq<string>)
    ensures WithNewlines(a + b) == WithNewlines(a) + WithNewlines(b)
  {
    if a == [] {
      assert a + b == b;
    } else {
      assert (a + b)[1..] == a[1..] + b;
      WithNewlinesAppend(a[1..], b);
    }
  }

  lemma {:induction false} ParsedAppend(codec: Codec, a: seq<string>, b: seq<string>)
    ensures Parsed(codec, a + b) == Parsed(codec, a) + Parsed(codec, b)
  {
    if b == [] {
      assert a + b == a;
    } else {
      assert (a + b)[..|a + b| - 1] == a + b[..|b| - 1];
      ParsedAppend(codec, a, b[..|b| - 1]);
    }
  }

  lemma {:induction false} OfEventAppend(a: seq<(string, Record)>, b: seq<(string, Record)>, event: EventName)
    ensures OfEvent(a + b, event) == OfEvent(a, event) + OfEvent(b, event)
  {
    if b == [] {
      assert a + b == a;
    } else {
      assert (a + b)[..|a + b| - 1] == a + b[..|b| - 1];
      OfEventAppend(a, b[..|b| - 1], event);
    }
  }

  lemma {:induction false} RuntimeLinesAppend(a: seq<(string, Record)>, b: seq<(string, Record)>)
    ensures RuntimeLines(a + b) == RuntimeLines(a) + RuntimeLines(b)
  {
    if b == [] {
      assert a + b == a;
    } else {
      assert (a + b)[..|a + b| - 1] == a + b[..|b| - 1];
      RuntimeLinesAppend(a, b[..|b| - 1]);
    }
  }

  /** Every runtime line is one of the lines that were parsed. */
  lemma {:induction false} RuntimeLinesAreLines(codec: Codec, lines: seq<string>)
    ensures forall l :: l in RuntimeLines(Parsed(codec, lines)) ==> l in lines
  {
    if lines != [] {
      var front, last := lines[..|lines| - 1], lines[|lines| - 1];
      RuntimeLinesAreLines(codec, front);
      if !Empty(last) && codec.loads(last).Object? {
        RuntimeLinesAppend(Parsed(codec, front), [(last, codec.loads(last).record)]);
      }
    }
  }

  lemma {:induction false} RecordLinesStep(codec: Codec, records: seq<Record>)
    requires GoodCodec(codec) && records != [] && AllWellFormed(records)
    ensures var front, last := records[..|records| - 1], records[|records| - 1];
            Parsed(codec, RecordLines(codec, records))
            == Parsed(codec, RecordLines(codec, front)) + [(codec.compact(last), last)]
  {
    var front, last := records[..|records| - 1], records[|records| - 1];
    BracedIsNotEmpty(codec.compact(last));
    var lines := RecordLines(codec, records);
    assert lines[..|lines| - 1] == RecordLines(codec, front);
  }

  /** Record lines parse back to the records, so an event occurs among the lines exactly if a record bears it. */
  lemma {:induction false} RecordEvents(codec: Codec, records: seq<Record>, event: EventName)
    requires GoodCodec(codec) && AllWellFormed(records)
    ensures OfEvent(Parsed(codec, RecordLines(codec, records)), event) == []
       <==> forall r :: r in records ==> r.event != event
  {
    if records != [] {
      var front, last := records[..|records| - 1], records[|records| - 1];
      RecordEvents(codec, front, event);
      RecordLinesStep(codec, records);
      var before, line := Parsed(codec, RecordLines(codec, front)), codec.compact(last);
      hide Parsed, RecordLines, GoodCodec;
      OfEventAppend(before, [(line, last)], event);
      SingleEvent(line, last, event);
      hide OfEvent;
      assert records == front + [last];
    }
  }

  predicate Reserved(r: Record) { r.event == PolicyCheck || r.event == ContractSummary }

  lemma {:induction false} RecordRuntimeLines(codec: Codec, records: seq<Record>)
    requires GoodCodec(codec) && AllWellFormed(records) && forall r :: r in records ==> !Reserved(r)
    ensures RuntimeLines(Parsed(codec, RecordLines(codec, records))) == RecordLines(codec, records)
  {
    if records != [] {
      var front, last := records[..|records| - 1], records[|records| - 1];
      assert records == front + [last] && !Reserved(last);
      RecordRuntimeLines(codec, front);
      RecordLinesStep(codec, records);
      RuntimeLinesAppend(Parsed(codec, RecordLines(codec, front)), [(codec.compact(last), last)]);
      assert RecordLines(codec, records) == RecordLines(codec, front) + [codec.compact(last)];
      hide Parsed, RecordLines, GoodCodec;
    }
  }

  /** The emitted text, line by line. */
  function EmittedLines(codec: Codec, k: Contract, records: seq<Record>, command: string, rest: Unread): seq<string> {
    var lines := RecordLines(codec, records);
    [codec.wide(PolicyRecord(k, rest))] + (if lines == [] then [""] else lines)
    + [codec.wide(SummaryRecord(k, command, WithNewlines(lines), rest))]
  }

  lemma {:induction false} EmittedIsLines(codec: Codec, k: Contract, records: seq<Record>, command: string, rest: Unread)
    ensures Emitted(codec, k, records, command, rest) == WithNewlines(EmittedLines(codec, k, records, command, rest))
  {
    var lines := RecordLines(codec, records);
    var policy := codec.wide(PolicyRecord(k, rest));
    var summary := codec.wide(SummaryRecord(k, command, WithNewlines(lines), rest));
    var middle := if lines == [] then [""] else lines;
    WithNewlinesAppend([policy], middle);
    WithNewlinesAppend([policy] + middle, [summary]);
    One(policy);
    One(summary);
    One("");
    assert lines != [] ==> WithNewlines(lines) != [];
  }

  lemma {:induction false} One(line: string)
    ensures WithNewlines([line]) == line + ['\n']
  {
    assert [line][1..] == [];
  }

  /** The policy and summary lines bear no raw boundary character. */
  predicate CleanEnds(codec: Codec, k: Contract, records: seq<Record>, command: string, rest: Unread) {
    && Unbroken(codec.wide(PolicyRecord(k, rest)))
    && Unbroken(codec.wide(SummaryRecord(k, command, WithNewlines(RecordLines(codec, records)), rest)))
  }

  predicate CleanLines(codec: Codec, records: seq<Record>) {
    forall l :: l in RecordLines(codec, records) ==> Unbroken(l)
  }

  /** Unbroken lines are read back as they were written, so the objects are those of the lines. */
  lemma {:induction false} EmittedParses(codec: Codec, k: Contract, records: seq<Record>, command: string, rest: Unread)
    requires GoodCodec(codec) && AllWellFormed(records)
    requires CleanEnds(codec, k, records, command, rest) && CleanLines(codec, records)
    ensures var policy := PolicyRecord(k, rest);
            var summary := SummaryRecord(k, command, WithNewlines(RecordLines(codec, records)), rest);
            Parsed(codec, SplitLines(Emitted(codec, k, records, command, rest)))
            == [(codec.wide(policy), policy)] + Parsed(codec, RecordLines(codec, records)) + [(codec.wide(summary), summary)]
  {
    hide GoodCodec, AllWellFormed, WellFormed, PolicyRecord, SummaryRecord, RecordLines, SplitLines;
    var lines := RecordLines(codec, records);
    EndsAreWellFormed(k, command, WithNewlines(lines), rest);
    var policy := PolicyRecord(k, rest);
    var summary := SummaryRecord(k, command, WithNewlines(lines), rest);
    var middle := if lines == [] then [""] else lines;
    EmittedIsLines(codec, k, records, command, rest);
    var all := EmittedLines(codec, k, records, command, rest);
    assert all == [codec.wide(policy)] + middle + [codec.wide(summary)];
    assert forall l :: l in all ==> Unbroken(l);
    SplitWithNewlines(all);
    ParsedAppend(codec, [codec.wide(policy)] + middle, [codec.wide(summary)]);
    ParsedAppend(codec, [codec.wide(policy)], middle);
    ParsedOne(codec, policy);
    ParsedOne(codec, summary);
    assert Parsed(codec, [""]) == [] by { assert Empty(""); assert [""][..0] == []; }
  }

  lemma {:induction false} ParsedOne(codec: Codec, r: Record)
    requires GoodCodec(codec) && WellFormed(r)
    ensures Parsed(codec, [codec.wide(r)]) == [(codec.wide(r), r)]
  {
    BracedIsNotEmpty(codec.wide(r));
    assert [codec.wide(r)][..0] == [];
    assert Parsed(codec, []) == [];
  }

  /** Text that ends with a newline is split on its own. */
  lemma {:induction false} SplitAppend(x: string, y: string, line: string)
    requires x != "" && x[|x| - 1] == '\n'
    ensures SplitFrom(x + y, line) == SplitFrom(x, line) + SplitLines(y)
    decreases |x|
  {
    var all := x + y;
    if x[0] == '\r' && x[1] == '\n' {
      assert all[2..] == x[2..] + y;
      if |x| > 2 { SplitAppend(x[2..], y, []); } else { assert x[2..] == []; assert all[2..] == y; }
    } else if Boundary(x[0]) {
      assert all[1..] == x[1..] + y;
      if |x| > 1 { SplitAppend(x[1..], y, []); } else { assert x[1..] == []; assert all[1..] == y; }
    } else {
      assert all[1..] == x[1..] + y;
      SplitAppend(x[1..], y, line + [x[0]]);
    }
  }

  /** Whatever the record lines hold, the summary is read as the last object. */
  lemma {:induction false} SummaryIsLast(codec: Codec, k: Contract, records: seq<Record>, command: string, rest: Unread)
    requires GoodCodec(codec) && CleanEnds(codec, k, records, command, rest)
    ensures var summary := SummaryRecord(k, command, WithNewlines(RecordLines(codec, records)), rest);
            var parsed := Parsed(codec, SplitLines(Emitted(codec, k, records, command, rest)));
            |parsed| > 0 && parsed[|parsed| - 1] == (codec.wide(summary), summary)
  {
    hide GoodCodec, AllWellFormed, WellFormed, PolicyRecord, SummaryRecord, RecordLines, Unbroken;
    var logs := WithNewlines(RecordLines(codec, records));
    EndsAreWellFormed(k, command, logs, rest);
    var summary := SummaryRecord(k, command, logs, rest);
    var x := codec.wide(PolicyRecord(k, rest)) + ['\n'] + (if logs == [] then ['\n'] else logs);
    if logs != [] { EndsWithNewline(RecordLines(codec, records)); }
    One(codec.wide(summary));
    assert Emitted(codec, k, records, command, rest) == x + WithNewlines([codec.wide(summary)]);
    SplitAppend(x, WithNewlines([codec.wide(summary)]), []);
    SplitWithNewlines([codec.wide(summary)]);
    ParsedAppend(codec, SplitLines(x), [codec.wide(summary)]);
    ParsedOne(codec, summary);
  }

  lemma {:induction false} RecordLinesEscaped(codec: Codec, records: seq<Record>)
    requires GoodCodec(codec) && AllWellFormed(records)
    ensures forall l :: l in RecordLines(codec, records) ==> Escaped(l)
  {
    if records != [] { RecordLinesEscaped(codec, records[..|records| - 1]); }
  }

  /** A raw boundary character in a record line is hashed when printing and lost when reading back. */
  lemma {:induction false} BrokenLinesChangeTheHash(codec: Codec, records: seq<Record>, text: string)
    requires GoodCodec(codec) && AllWellFormed(records) && !CleanLines(codec, records)
    ensures WithNewlines(RuntimeLines(Parsed(codec, SplitLines(text)))) != WithNewlines(RecordLines(codec, records))
  {
    var l :| l in RecordLines(codec, records) && !Unbroken(l);
    var c :| c in l && Boundary(c);
    RecordLinesEscaped(codec, records);
    LineCharacters(RecordLines(codec, records), c);
    var kept := RuntimeLines(Parsed(codec, SplitLines(text)));
    RuntimeLinesAreLines(codec, SplitLines(text));
    SplitUnbroken(text, []);
    LineCharacters(kept, c);
  }

  /** What the checks see between one policy line and one summary line, both in order. */
  lemma {:induction false} EnvelopeOf(k: Contract, policyLine: string, policy: Record, middle: seq<(string, Record)>,
                   summaryLine: string, summary: Record, logs: string)
    requires policy.event == PolicyCheck && policy.lab == k.lab && policy.source == k.source
    requires summary.event == ContractSummary && summary.status == "PASS" && summary.lab == k.lab
    requires summary.count == Some(|k.cases|) && CommandDigest(summary.command) && summary.log == Some(Sha256(logs))
    ensures EnvelopeIssues(k, [(policyLine, policy)] + middle + [(summaryLine, summary)]) == []
       <==> && OfEvent(middle, PolicyCheck) == [] && OfEvent(middle, ContractSummary) == []
            && WithNewlines(RuntimeLines(middle)) == logs
  {
    SeenBetween(policyLine, policy, middle, summaryLine, summary);
    hide OfEvent, RuntimeLines, WithNewlines, CommandDigest;
  }

  lemma {:induction false} SeenBetween(policyLine: string, policy: Record, middle: seq<(string, Record)>,
                                       summaryLine: string, summary: Record)
    requires policy.event == PolicyCheck && summary.event == ContractSummary
    ensures var all := [(policyLine, policy)] + middle + [(summaryLine, summary)];
            && OfEvent(all, PolicyCheck) == [policy] + OfEvent(middle, PolicyCheck)
            && OfEvent(all, ContractSummary) == OfEvent(middle, ContractSummary) + [summary]
            && RuntimeLines(all) == RuntimeLines(middle)
  {
    var first, last := [(policyLine, policy)], [(summaryLine, summary)];
    EventsBetween(first, middle, last, PolicyCheck);
    EventsBetween(first, middle, last, ContractSummary);
    RuntimeBetween(first, middle, last);
    SingleEvent(policyLine, policy, PolicyCheck);
    SingleEvent(policyLine, policy, ContractSummary);
    SingleEvent(summaryLine, summary, PolicyCheck);
    SingleEvent(summaryLine, summary, ContractSummary);
    hide OfEvent, RuntimeLines;
  }

  lemma {:induction false} CleanAgrees(codec: Codec, k: Contract, records: seq<Record>, command: string, rest: Unread)
    requires GoodCodec(codec) && AllWellFormed(records)
    requires CleanEnds(codec, k, records, command, rest) && CommandDigest(command)
    requires CleanLines(codec, records)
    ensures EnvelopeIssues(k, Parsed(codec, SplitLines(Emitted(codec, k, records, command, rest)))) == []
       <==> forall r :: r in records ==> !Reserved(r)
  {
    var middle, logs := Parsed(codec, RecordLines(codec, records)), WithNewlines(RecordLines(codec, records));
    var policy, summary := PolicyRecord(k, rest), SummaryRecord(k, command, logs, rest);
    EmittedParses(codec, k, records, command, rest);
    EnvelopeOf(k, codec.wide(policy), policy, middle, codec.wide(summary), summary, logs);
    hide Parsed, OfEvent, RuntimeLines, RecordLines, Emitted, WithNewlines, SplitLines, EnvelopeIssues, SplitFrom;
    RecordEvents(codec, records, PolicyCheck);
    RecordEvents(codec, records, ContractSummary);
    if forall r :: r in records ==> !Reserved(r) { RecordRuntimeLines(codec, records); }
  }

  lemma {:induction false} SingleEvent(line: string, r: Record, event: EventName)
    ensures OfEvent([(line, r)], event) == if r.event == event then [r] else []
    ensures RuntimeLines([(line, r)]) == if Reserved(r) then [] else [line]
  {
    assert [(line, r)][..0] == [];
    assert OfEvent([], event) == [];
    assert RuntimeLines([]) == [];
  }

  lemma {:induction false} EventsBetween(a: seq<(string, Record)>, b: seq<(string, Record)>, c: seq<(string, Record)>,
                                         event: EventName)
    ensures OfEvent(a + b + c, event) == OfEvent(a, event) + OfEvent(b, event) + OfEvent(c, event)
  {
    OfEventAppend(a + b, c, event);
    OfEventAppend(a, b, event);
  }

  lemma {:induction false} RuntimeBetween(a: seq<(string, Record)>, b: seq<(string, Record)>, c: seq<(string, Record)>)
    ensures RuntimeLines(a + b + c) == RuntimeLines(a) + RuntimeLines(b) + RuntimeLines(c)
  {
    RuntimeLinesAppend(a + b, c);
    RuntimeLinesAppend(a, b);
  }

  lemma {:induction false} BrokenDisagrees(codec: Codec, k: Contract, records: seq<Record>, command: string, rest: Unread)
    requires GoodCodec(codec) && AllWellFormed(records)
    requires CleanEnds(codec, k, records, command, rest) && !CleanLines(codec, records)
    ensures EnvelopeIssues(k, Parsed(codec, SplitLines(Emitted(codec, k, records, command, rest)))) != []
  {
    var text := Emitted(codec, k, records, command, rest);
    var parsed := Parsed(codec, SplitLines(text));
    SummaryIsLast(codec, k, records, command, rest);
    BrokenLinesChangeTheHash(codec, records, text);
    OtherLogIsAnIssue(k, parsed, WithNewlines(RecordLines(codec, records)));
  }

  /** A single summary, last and with a hash of other lines, is an issue; so is more than one. */
  lemma {:induction false} OtherLogIsAnIssue(k: Contract, parsed: seq<(string, Record)>, logs: string)
    requires |parsed| > 0 && parsed[|parsed| - 1].1.event == ContractSummary
    requires parsed[|parsed| - 1].1.log == Some(Sha256(logs)) && WithNewlines(RuntimeLines(parsed)) != logs
    ensures EnvelopeIssues(k, parsed) != []
  {
    var front, last := parsed[..|parsed| - 1], parsed[|parsed| - 1];
    var summaries := OfEvent(parsed, ContractSummary);
    assert summaries == OfEvent(front, ContractSummary) + [last.1];
    assert summaries[|summaries| - 1] == last.1;
    hide OfEvent, RuntimeLines, WithNewlines, CommandDigest, PolicyIssues;
  }

  /** Printing and checking agree: what a run prints passes the envelope check if and only if no record bears a reserved
      event name and no record line holds one of the three unescaped line boundaries. */
  lemma {:induction false} EnvelopeAgrees(codec: Codec, k: Contract, records: seq<Record>, command: string, rest: Unread)
    requires GoodCodec(codec) && AllWellFormed(records)
    requires CleanEnds(codec, k, records, command, rest) && CommandDigest(command)
    ensures EnvelopeIssues(k, Parsed(codec, SplitLines(Emitted(codec, k, records, command, rest)))) == []
       <==> CleanLines(codec, records) && forall r :: r in records ==> !Reserved(r)
  {
    if CleanLines(codec, records) {
      CleanAgrees(codec, k, records, command, rest);
    } else {
      BrokenDisagrees(codec, k, records, command, rest);
    }
  }
}
