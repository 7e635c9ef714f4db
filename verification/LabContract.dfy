/**
 The checks of a lab run's evidence: that the runtime events are exactly one per contract case, and that the policy
 line, the runtime lines and the summary line of the emitted text belong together.
 */
module LabContract {
  import opened Results
  import opened Text

  /** SHA-256 of a text, as a free constructor. */
  datatype Digest = Sha256(text: string)

  /** The value of an `event` field; the first two are `policy_check` and `contract_summary`. */
  datatype EventName = PolicyCheck | ContractSummary | Other(name: string)

  /** A JSON object, as far as the checks read it; `keys` are the names of all its fields, and a field that is absent
      is an empty string or `None`. `rest` holds the values of all other fields, and of those whose value is not of the
      type the checks expect. */
  datatype Record = Record(
    event: EventName, keys: set<string>,
    lab: string, source: string, status: string, count: Option<int>, command: string, log: Option<Digest>,
    caseId: string, direction: string, scanner: string, decision: string,
    original: Option<string>, digest: Option<Digest>, bytes: Option<int>, prompt: Option<string>,
    rest: map<string, string>)

  /** The fields that the checks read. */
  const READ := {"event", "lab_id", "policy_source", "status", "case_count", "command_sha256", "raw_log_sha256", "case",
                 "direction", "scanner", "application_decision", "original_text", "original_text_sha256",
                 "original_text_bytes", "input_prompt"}

  /** The object has the field, with a value of the expected type. */
  predicate Has(r: Record, name: string) {
    name in r.keys && name !in r.rest
  }

  /** The record is that of a JSON object: its keys are the names of its fields. A missing case reads as `None`, because
      the name is taken through `str`. */
  predicate WellFormed(r: Record) {
    && r.rest.Keys <= r.keys && r.keys - READ <= r.rest.Keys
    && r.event != Other("policy_check") && r.event != Other("contract_summary")
    && (r.event != Other("") ==> Has(r, "event"))
    && (r.lab != "" ==> Has(r, "lab_id"))
    && (r.source != "" ==> Has(r, "policy_source"))
    && (r.status != "" ==> Has(r, "status"))
    && (r.count.Some? <==> Has(r, "case_count"))
    && (r.command != "" ==> Has(r, "command_sha256"))
    && (r.log.Some? <==> Has(r, "raw_log_sha256"))
    && ("case" !in r.keys ==> r.caseId == "None")
    && (r.direction != "" ==> Has(r, "direction"))
    && (r.scanner != "" ==> Has(r, "scanner"))
    && (r.decision != "" ==> Has(r, "application_decision"))
    && (r.original.Some? <==> Has(r, "original_text"))
    && (r.digest.Some? <==> Has(r, "original_text_sha256"))
    && (r.bytes.Some? <==> Has(r, "original_text_bytes"))
    && (r.prompt.Some? <==> Has(r, "input_prompt"))
  }

  datatype Input = Literal(value: string) | Generated(prefix: string, value: string, repeats: nat, suffix: string)

  datatype Case = Case(id: string, direction: string, policy: string, decision: string, required: set<string>,
                       output: string, input: Input, prompt: string)

  /** `sound` stands for the structure checks other than unique case identifiers. */
  datatype Contract = Contract(lab: string, source: string, eventName: EventName, cases: seq<Case>, sound: bool)

  predicate UniqueIds(cases: seq<Case>) {
    forall i, j :: 0 <= i < j < |cases| ==> cases[i].id != cases[j].id
  }

  function Repeat(s: string, n: nat): string { if n == 0 then "" else s + Repeat(s, n - 1) }

  /** `materialize_input` */
  function Materialized(c: Case): string {
    if c.direction == "output" then c.output
    else match c.input
         case Literal(value) => value
         case Generated(prefix, value, repeats, suffix) => prefix + Repeat(value, repeats) + suffix
  }

  // ---------------------------------------------------------------- one event per case

  /** The recorded text is the case's own, or its hash where the case allows it. */
  predicate TextMatches(c: Case, r: Record) {
    if "original_text" in r.keys then r.original == Some(Materialized(c))
    else
      && c.direction == "input" && c.input.Generated?
      && r.digest == Some(Sha256(Materialized(c))) && r.bytes == Some(Utf8Length(Materialized(c)))
  }

  predicate EventMatches(c: Case, r: Record) {
    && c.required <= r.keys
    && r.direction == c.direction && r.scanner == c.policy && r.decision == c.decision
    && TextMatches(c, r)
    && (c.direction == "output" ==> r.prompt == Some(c.prompt))
  }

  /** Record `i` is an event of the named case. */
  predicate IsEvent(k: Contract, records: seq<Record>, i: int, id: string): (e: bool)
    ensures e ==> 0 <= i < |records|
  {
    0 <= i < |records| && records[i].event == k.eventName && records[i].caseId == id
  }

  /** Record `i` is the only event of the named case. */
  ghost predicate OnlyEvent(k: Contract, records: seq<Record>, i: int, id: string) {
    IsEvent(k, records, i, id) && forall j :: IsEvent(k, records, j, id) ==> j == i
  }

  predicate IsCase(k: Contract, id: string) {
    exists c :: 0 <= c < |k.cases| && k.cases[c].id == id
  }

  /** The case has exactly one event, and it matches. */
  ghost predicate Answered(k: Contract, records: seq<Record>, c: Case) {
    exists i :: OnlyEvent(k, records, i, c.id) && EventMatches(c, records[i])
  }

  /** Exactly one event per contract case, each matching its case, and no event of any other case. */
  ghost predicate Complete(k: Contract, records: seq<Record>) {
    && k.sound && UniqueIds(k.cases)
    && (forall c :: 0 <= c < |k.cases| ==> Answered(k, records, k.cases[c]))
    && (forall i, id :: IsEvent(k, records, i, id) ==> IsCase(k, id))
  }

  datatype Issue =
    | Structure | DuplicateCases | OtherCases
    | MissingField(id: string) | DirectionDiffers(id: string) | PolicyDiffers(id: string) | DecisionDiffers(id: string)
    | TextDiffers(id: string) | PromptDiffers(id: string)
    | PolicyCount | PolicyLab | PolicySource | SummaryCount | SummaryIdentity | SummaryCases | CommandHash | LogHash

  /** The issues of one case whose event was found. */
  function CaseIssues(c: Case, r: Record): (issues: seq<Issue>)
    ensures issues == [] <==> EventMatches(c, r)
  {
    (if c.required <= r.keys then [] else [MissingField(c.id)])
    + (if r.direction == c.direction then [] else [DirectionDiffers(c.id)])
    + (if r.scanner == c.policy then [] else [PolicyDiffers(c.id)])
    + (if r.decision == c.decision then [] else [DecisionDiffers(c.id)])
    + (if TextMatches(c, r) then [] else [TextDiffers(c.id)])
    + (if c.direction == "output" ==> r.prompt == Some(c.prompt) then [] else [PromptDiffers(c.id)])
  }

  /** No case name occurs twice among the first `n` records' events. */
  ghost predicate DistinctEvents(k: Contract, records: seq<Record>, n: nat) {
    forall i, j, id :: i < n && j < n && IsEvent(k, records, i, id) && IsEvent(k, records, j, id) ==> i == j
  }

  /** `byCase` names exactly the cases of the first `n` records' events, each with one of its events. */
  ghost predicate Indexes(k: Contract, records: seq<Record>, n: nat, byCase: map<string, Record>) {
    && (forall i, id :: i < n && IsEvent(k, records, i, id) ==> id in byCase)
    && (forall id :: id in byCase ==> exists i :: i < n && IsEvent(k, records, i, id) && byCase[id] == records[i])
  }

  lemma IndexesStep(k: Contract, records: seq<Record>, n: nat, byCase: map<string, Record>)
    requires n < |records| && Indexes(k, records, n, byCase)
    ensures records[n].event != k.eventName ==>
              Indexes(k, records, n + 1, byCase) && (DistinctEvents(k, records, n + 1) <==> DistinctEvents(k, records, n))
    ensures records[n].event == k.eventName ==>
              && Indexes(k, records, n + 1, byCase[records[n].caseId := records[n]])
              && (DistinctEvents(k, records, n + 1) <==> DistinctEvents(k, records, n) && records[n].caseId !in byCase)
  {
    if records[n].event == k.eventName {
      var id := records[n].caseId;
      assert IsEvent(k, records, n, id);
      if id in byCase {
        var i :| i < n && IsEvent(k, records, i, id) && byCase[id] == records[i];
        assert i != n;
      }
    }
  }

  /** The `by_case` dictionary: for every case name, the last event that bears it. */
  method Index(k: Contract, records: seq<Record>) returns (count: nat, byCase: map<string, Record>)
    ensures count == |byCase| <==> DistinctEvents(k, records, |records|)
    ensures Indexes(k, records, |records|, byCase)
  {
    count, byCase := 0, map[];
    var n := 0;
    while n < |records|
      invariant 0 <= n <= |records| && |byCase| <= count
      invariant count == |byCase| <==> DistinctEvents(k, records, n)
      invariant Indexes(k, records, n, byCase)
    {
      IndexesStep(k, records, n, byCase);
      if records[n].event == k.eventName {
        count := count + 1;
        byCase := byCase[records[n].caseId := records[n]];
      }
      n := n + 1;
    }
  }

  function Ids(cases: seq<Case>): set<string> {
    set c | 0 <= c < |cases| :: cases[c].id
  }

  /** The loop over the contract's cases. */
  method CheckEvents(k: Contract, byCase: map<string, Record>) returns (issues: seq<Issue>)
    ensures issues == [] <==> AllMatch(k, byCase, |k.cases|)
  {
    hide EventMatches, CaseIssues;
    issues := [];
    var c := 0;
    while c < |k.cases|
      invariant 0 <= c <= |k.cases|
      invariant issues == [] <==> AllMatch(k, byCase, c)
    {
      if k.cases[c].id in byCase {
        issues := issues + CaseIssues(k.cases[c], byCase[k.cases[c].id]);
      }
      c := c + 1;
    }
  }

  /** The events found for the first `n` cases match them. */
  ghost predicate AllMatch(k: Contract, byCase: map<string, Record>, n: nat)
    requires n <= |k.cases|
  {
    forall c :: 0 <= c < n && k.cases[c].id in byCase ==> EventMatches(k.cases[c], byCase[k.cases[c].id])
  }

  /** `validate_evidence`: finds no issue exactly when the evidence is complete. */
  method ValidateEvidence(k: Contract, records: seq<Record>) returns (issues: seq<Issue>)
    ensures issues == [] <==> Complete(k, records)
  {
    issues := if k.sound && UniqueIds(k.cases) then [] else [Structure];
    var count, byCase := Index(k, records);
    if count != |byCase| { issues := issues + [DuplicateCases]; }
    if byCase.Keys != Ids(k.cases) { issues := issues + [OtherCases]; }
    var more := CheckEvents(k, byCase);
    issues := issues + more;
    hide EventMatches, UniqueIds, DistinctEvents, Complete, Indexes, AllMatch;
    assert issues == [] <==> Checked(k, count, byCase);
    if Complete(k, records) { CompleteIsDistinct(k, records); }
    if Checked(k, count, byCase) { CheckedIsComplete(k, records, count, byCase); }
    if Complete(k, records) { CompleteIsChecked(k, records, count, byCase); }
  }

  /** What the loops of `validate_evidence` check. */
  ghost predicate Checked(k: Contract, count: nat, byCase: map<string, Record>) {
    && k.sound && UniqueIds(k.cases) && count == |byCase| && byCase.Keys == Ids(k.cases)
    && AllMatch(k, byCase, |k.cases|)
  }

  lemma CheckedIsComplete(k: Contract, records: seq<Record>, count: nat, byCase: map<string, Record>)
    requires Indexes(k, records, |records|, byCase) && DistinctEvents(k, records, |records|) && Checked(k, count, byCase)
    ensures Complete(k, records)
  {
    hide EventMatches, UniqueIds, IsEvent;
    forall c | 0 <= c < |k.cases|
      ensures Answered(k, records, k.cases[c])
    {
      var id := k.cases[c].id;
      assert id in Ids(k.cases);
      var i :| i < |records| && IsEvent(k, records, i, id) && byCase[id] == records[i];
      assert OnlyEvent(k, records, i, id);
    }
    forall i, id | IsEvent(k, records, i, id) ensures IsCase(k, id) {
      assert id in Ids(k.cases);
    }
  }

  lemma CompleteIsDistinct(k: Contract, records: seq<Record>)
    requires Complete(k, records)
    ensures DistinctEvents(k, records, |records|)
  {
    hide EventMatches, UniqueIds, IsEvent;
    forall i, j, id | IsEvent(k, records, i, id) && IsEvent(k, records, j, id) ensures i == j {
      var c :| 0 <= c < |k.cases| && k.cases[c].id == id;
      assert Answered(k, records, k.cases[c]);
      var only :| OnlyEvent(k, records, only, id) && EventMatches(k.cases[c], records[only]);
    }
  }

  lemma CompleteIsChecked(k: Contract, records: seq<Record>, count: nat, byCase: map<string, Record>)
    requires Indexes(k, records, |records|, byCase) && Complete(k, records) && count == |byCase|
    ensures Checked(k, count, byCase)
  {
    hide EventMatches, UniqueIds, IsEvent;
    forall c | 0 <= c < |k.cases|
      ensures k.cases[c].id in byCase && EventMatches(k.cases[c], byCase[k.cases[c].id])
    {
      var id := k.cases[c].id;
      assert Answered(k, records, k.cases[c]);
      var only :| OnlyEvent(k, records, only, id) && EventMatches(k.cases[c], records[only]);
      var i :| i < |records| && IsEvent(k, records, i, id) && byCase[id] == records[i];
      assert i == only;
    }
    assert byCase.Keys == Ids(k.cases) by {
      forall id | id in byCase ensures id in Ids(k.cases) {
        var i :| i < |records| && IsEvent(k, records, i, id) && byCase[id] == records[i];
        assert IsCase(k, id);
      }
    }
  }

  // ---------------------------------------------------------------- the envelope

  /** What `json.loads` makes of a line. */
  datatype Loaded = NotJson | NotObject | Object(record: Record)

  /** The JSON encoder in its compact and its default spacing, and the decoder. */
  datatype Codec = Codec(compact: Record -> string, wide: Record -> string, loads: string -> Loaded)

  predicate Empty(line: string) { Indent(line) == |line| }

  /** The lines that hold a JSON object, with the objects. */
  function Parsed(codec: Codec, lines: seq<string>): seq<(string, Record)> {
    if lines == [] then []
    else
      var line := lines[|lines| - 1];
      var rest := Parsed(codec, lines[..|lines| - 1]);
      if !Empty(line) && codec.loads(line).Object? then rest + [(line, codec.loads(line).record)] else rest
  }

  function OfEvent(parsed: seq<(string, Record)>, event: EventName): seq<Record> {
    if parsed == [] then []
    else
      var (_, record) := parsed[|parsed| - 1];
      OfEvent(parsed[..|parsed| - 1], event) + if record.event == event then [record] else []
  }

  function RuntimeLines(parsed: seq<(string, Record)>): seq<string> {
    if parsed == [] then []
    else
      var (line, record) := parsed[|parsed| - 1];
      RuntimeLines(parsed[..|parsed| - 1])
      + if record.event != PolicyCheck && record.event != ContractSummary then [line] else []
  }

  predicate CommandDigest(s: string) {
    |s| == 64 && forall i :: 0 <= i < |s| ==> LowerHex(s[i])
  }

  function PolicyIssues(k: Contract, policies: seq<Record>): seq<Issue> {
    if |policies| != 1 then [PolicyCount]
    else
      (if policies[0].lab == k.lab then [] else [PolicyLab])
      + (if policies[0].source == k.source then [] else [PolicySource])
  }

  function SummaryIssues(k: Contract, summary: Record, lines: seq<string>): seq<Issue> {
    (if summary.status == "PASS" && summary.lab == k.lab then [] else [SummaryIdentity])
    + (if summary.count == Some(|k.cases|) then [] else [SummaryCases])
    + (if CommandDigest(summary.command) then [] else [CommandHash])
    + (if summary.log == Some(Sha256(WithNewlines(lines))) then [] else [LogHash])
  }

  function EnvelopeIssues(k: Contract, parsed: seq<(string, Record)>): seq<Issue> {
    var summaries := OfEvent(parsed, ContractSummary);
    PolicyIssues(k, OfEvent(parsed, PolicyCheck))
    + if |summaries| != 1 then [SummaryCount] else SummaryIssues(k, summaries[0], RuntimeLines(parsed))
  }

  /** The parsing loop of `validate_evidence_envelope`. */
  method ParseLines(codec: Codec, text: string) returns (parsed: seq<(string, Record)>)
    ensures parsed == Parsed(codec, SplitLines(text))
  {
    var lines := SplitLines(text);
    parsed := [];
    var n := 0;
    while n < |lines|
      invariant 0 <= n <= |lines| && parsed == Parsed(codec, lines[..n])
    {
      assert lines[..n + 1][..n] == lines[..n];
      if !Empty(lines[n]) {
        var value := codec.loads(lines[n]);
        if value.Object? { parsed := parsed + [(lines[n], value.record)]; }
      }
      n := n + 1;
    }
    assert lines[..n] == lines;
  }

  method ValidateEnvelope(codec: Codec, k: Contract, text: string) returns (issues: seq<Issue>)
    ensures issues == EnvelopeIssues(k, Parsed(codec, SplitLines(text)))
  {
    var parsed := ParseLines(codec, text);
    var policies := OfEvent(parsed, PolicyCheck);
    var summaries := OfEvent(parsed, ContractSummary);
    issues := PolicyIssues(k, policies);
    if |summaries| != 1 { return issues + [SummaryCount]; }
    var lines := RuntimeLines(parsed);
    issues := issues + SummaryIssues(k, summaries[0], lines);
  }
}
