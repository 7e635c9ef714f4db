/**
 Quota admission in the Bedrock gateway: a request reserves output tokens in its principal's window, and afterwards
 the reservation is settled with the provider's usage or left as uncertain.
 */
module TokenQuota {
  import opened Results

  datatype Limits = Limits(models: set<string>, requests: nat, outputTokens: nat, maxOutput: nat, maxInput: nat)

  datatype Policy = Policy(clients: map<string, Limits>, period: nat)

  /** What `_validate` accepts of the limits. */
  ghost predicate ValidPolicy(p: Policy) {
    && p.period >= 1 && p.clients != map[]
    && forall principal :: principal in p.clients ==> 1 <= |principal| <= 64 && ValidLimits(p.clients[principal])
  }

  predicate ValidLimits(l: Limits) {
    l.models != {} && "" !in l.models && l.requests >= 1 && l.outputTokens >= 1 && l.maxOutput >= 1 && l.maxInput >= 1
  }

  datatype State = Pending | Complete | Uncertain

  /** A row of the admissions table. `second` is the whole second of admission, kept as history: the table stores only
      the window it falls in. */
  datatype Admission = Admission(id: string, principal: string, window: int, second: int, reserved: nat,
                                 input: Option<nat>, output: Option<nat>, state: State)

  datatype Step<T> = Step(next: seq<Admission>, answer: Outcome<T>)

  /** What an admission adds up to in each column of `_usage`. */
  datatype Column = Requests | Committed | Input | Output | Held

  function Amount(a: Admission, column: Column): nat {
    match column
    case Requests => 1
    case Committed => if a.output.Some? then a.output.value else a.reserved
    case Input => if a.input.Some? then a.input.value else 0
    case Output => if a.output.Some? then a.output.value else 0
    case Held => if a.output.Some? then 0 else a.reserved
  }

  /** The sum of a column over the first `n` rows of a principal's window. */
  function Sum(rows: seq<Admission>, column: Column, principal: string, window: int, n: nat): nat
    requires n <= |rows|
  {
    if n == 0 then 0
    else Sum(rows, column, principal, window, n - 1)
         + if rows[n - 1].principal == principal && rows[n - 1].window == window then Amount(rows[n - 1], column) else 0
  }

  function Total(rows: seq<Admission>, column: Column, principal: string, window: int): nat {
    Sum(rows, column, principal, window, |rows|)
  }

  // ---------------------------------------------------------------- one transaction each

  /** `int(clock) // period`; Dafny's division floors for a positive divisor. */
  function Window(p: Policy, second: int): int
    requires p.period >= 1
  {
    second / p.period
  }

  /** `model.partition("#")[0]` */
  function ModelName(model: string): string {
    if model == [] || model[0] == '#' then [] else [model[0]] + ModelName(model[1..])
  }

  datatype Request = Request(principal: string, model: string, bytes: nat, maxTokens: int)

  predicate Known(rows: seq<Admission>, id: string) {
    exists i :: 0 <= i < |rows| && rows[i].id == id
  }

  /** `admit` for an authenticated principal at second `second`; `id` is the new reservation's identifier. */
  function AdmitStep(p: Policy, rows: seq<Admission>, q: Request, second: int, id: string): Step<()>
    requires p.period >= 1 && q.principal in p.clients
  {
    var limits, window := p.clients[q.principal], Window(p, second);
    if ModelName(q.model) !in limits.models then Step(rows, Refused(403))
    else if q.bytes > limits.maxInput then Step(rows, Refused(413))
    else if !(1 <= q.maxTokens <= limits.maxOutput) then Step(rows, Refused(422))
    else if Total(rows, Requests, q.principal, window) >= limits.requests then Step(rows, Refused(429))
    else if Total(rows, Committed, q.principal, window) + q.maxTokens > limits.outputTokens then Step(rows, Refused(429))
    else if Known(rows, id) then Step(rows, Refused(500))
    else Step(rows + [Admission(id, q.principal, window, second, q.maxTokens, None, None, Pending)], Ok(()))
  }

  function Find(rows: seq<Admission>, id: string, n: nat): (i: nat)
    requires n <= |rows|
    ensures n <= i <= |rows| && (i < |rows| ==> rows[i].id == id)
    decreases |rows| - n
  {
    if n == |rows| || rows[n].id == id then n else Find(rows, id, n + 1)
  }

  /** `settle`; refusals are the `ValueError`s of the original. */
  function SettleStep(rows: seq<Admission>, id: string, input: int, output: int): Step<()> {
    if input < 0 || output < 0 then Step(rows, Refused(502))
    else
      var i := Find(rows, id, 0);
      if i == |rows| || rows[i].state != Pending then Step(rows, Refused(502))
      else if output > rows[i].reserved then Step(rows, Refused(502))
      else Step(rows[i := rows[i].(input := Some(input), output := Some(output), state := Complete)], Ok(()))
  }

  function UncertainStep(rows: seq<Admission>, id: string): seq<Admission> {
    var i := Find(rows, id, 0);
    if i == |rows| || rows[i].state != Pending then rows else rows[i := rows[i].(state := Uncertain)]
  }

  // ---------------------------------------------------------------- the gateway

  /** The provider's answer: an exception, or the usage it reports. */
  datatype Reply = Raised | Used(input: int, output: int)

  class GatewayOperations {
    const policy: Policy
    var admissions: seq<Admission>

    constructor (policy: Policy)
      ensures admissions == [] && this.policy == policy
    {
      this.policy := policy;
      admissions := [];
    }

    method Admit(q: Request, second: int, id: string) returns (r: Outcome<()>)
      requires policy.period >= 1 && q.principal in policy.clients
      modifies this
      ensures Step(admissions, r) == AdmitStep(policy, old(admissions), q, second, id)
    {
      var limits := policy.clients[q.principal];
      if ModelName(q.model) !in limits.models { return Refused(403); }
      if q.bytes > limits.maxInput { return Refused(413); }
      if !(1 <= q.maxTokens <= limits.maxOutput) { return Refused(422); }
      var window := Window(policy, second);
      if Total(admissions, Requests, q.principal, window) >= limits.requests { return Refused(429); }
      if Total(admissions, Committed, q.principal, window) + q.maxTokens > limits.outputTokens { return Refused(429); }
      if Known(admissions, id) { return Refused(500); }
      admissions := admissions + [Admission(id, q.principal, window, second, q.maxTokens, None, None, Pending)];
      r := Ok(());
    }

    method Settle(id: string, input: int, output: int) returns (r: Outcome<()>)
      modifies this
      ensures Step(admissions, r) == SettleStep(old(admissions), id, input, output)
    {
      if input < 0 || output < 0 { return Refused(502); }
      var i := Find(admissions, id, 0);
      if i == |admissions| || admissions[i].state != Pending { return Refused(502); }
      if output > admissions[i].reserved { return Refused(502); }
      admissions := admissions[i := admissions[i].(input := Some(input), output := Some(output), state := Complete)];
      r := Ok(());
    }

    method MarkUncertain(id: string)
      modifies this
      ensures admissions == UncertainStep(old(admissions), id)
    {
      var i := Find(admissions, id, 0);
      if i < |admissions| && admissions[i].state == Pending {
        admissions := admissions[i := admissions[i].(state := Uncertain)];
      }
    }

    /** `chat_completions` with quotas: whatever the provider does, the reservation it made is not left pending, it is
        completed with the provider's usage exactly when the route answers, and every other row is as before. */
    method Chat(q: Request, second: int, id: string, reply: Reply) returns (r: Outcome<()>)
      requires policy.period >= 1 && q.principal in policy.clients
      modifies this
      ensures |admissions| == |old(admissions)|
              + if AdmitStep(policy, old(admissions), q, second, id).answer.Ok? then 1 else 0
      ensures forall i :: 0 <= i < |old(admissions)| ==> admissions[i] == old(admissions)[i]
      ensures |admissions| > |old(admissions)| ==>
                var last := admissions[|old(admissions)|];
                && last.id == id && last.principal == q.principal && last.reserved == q.maxTokens
                && last.window == Window(policy, second) && last.second == second
                && (if r.Ok? then reply.Used? && last.state == Complete
                                  && last.input == Some(reply.input) && last.output == Some(reply.output)
                    else last.state == Uncertain && last.input == None && last.output == None)
      ensures r.Ok? <==> AdmitStep(policy, old(admissions), q, second, id).answer.Ok?
                         && reply.Used? && reply.input >= 0 && 0 <= reply.output <= q.maxTokens
    {
      r := Admit(q, second, id);
      if r.Refused? { return; }
      assert !Known(old(admissions), id);
      NewIsFound(old(admissions), admissions[|old(admissions)|]);
      if reply == Raised {
        MarkUncertain(id);
        return Refused(500);
      }
      r := Settle(id, reply.input, reply.output);
      if r.Refused? { MarkUncertain(id); }
    }
  }

  lemma {:induction false} FindSkips(rows: seq<Admission>, id: string, n: nat, m: nat)
    requires n <= m <= |rows| && forall i :: n <= i < m ==> rows[i].id != id
    ensures Find(rows, id, n) == Find(rows, id, m)
    decreases m - n
  {
    if n < m { FindSkips(rows, id, n + 1, m); }
  }

  lemma NewIsFound(rows: seq<Admission>, row: Admission)
    requires !Known(rows, row.id)
    ensures Find(rows + [row], row.id, 0) == |rows|
  {
    forall i | 0 <= i < |rows| ensures (rows + [row])[i].id != row.id { assert rows[i].id != row.id; }
    FindSkips(rows + [row], row.id, 0, |rows|);
  }

  // ---------------------------------------------------------------- sums

  lemma {:induction false} SumOfPrefix(rows: seq<Admission>, more: seq<Admission>, column: Column, principal: string,
                                       window: int, n: nat)
    requires n <= |rows| <= |more| && forall i :: 0 <= i < n ==> more[i] == rows[i]
    ensures Sum(more, column, principal, window, n) == Sum(rows, column, principal, window, n)
  {
    if n > 0 { SumOfPrefix(rows, more, column, principal, window, n - 1); }
  }

  /** Changing one row changes its own sum by the difference, and no other. */
  lemma {:induction false} SumOfUpdate(rows: seq<Admission>, i: nat, row: Admission, column: Column, principal: string,
                                       window: int, n: nat)
    requires i < |rows| && n <= |rows| && row.principal == rows[i].principal && row.window == rows[i].window
    ensures Sum(rows[i := row], column, principal, window, n)
         == Sum(rows, column, principal, window, n)
            + if i < n && row.principal == principal && row.window == window
              then Amount(row, column) - Amount(rows[i], column) else 0
  {
    if n > 0 { SumOfUpdate(rows, i, row, column, principal, window, n - 1); }
  }

  lemma {:induction false} SumSplits(rows: seq<Admission>, principal: string, window: int, n: nat)
    requires n <= |rows|
    ensures Sum(rows, Committed, principal, window, n)
         == Sum(rows, Output, principal, window, n) + Sum(rows, Held, principal, window, n)
  {
    if n > 0 { SumSplits(rows, principal, window, n - 1); }
  }

  // ---------------------------------------------------------------- runs

  datatype Event =
    | Admitting(request: Request, second: int, id: string)
    | Settling(id: string, input: int, output: int)
    | GivingUp(id: string)

  function Next(p: Policy, rows: seq<Admission>, e: Event): seq<Admission>
    requires p.period >= 1
  {
    match e
    case Admitting(q, second, id) =>
      if q.principal in p.clients then AdmitStep(p, rows, q, second, id).next else rows
    case Settling(id, input, output) => SettleStep(rows, id, input, output).next
    case GivingUp(id) => UncertainStep(rows, id)
  }

  function After(p: Policy, es: seq<Event>, n: nat): seq<Admission>
    requires p.period >= 1 && n <= |es|
  {
    if n == 0 then [] else Next(p, After(p, es, n - 1), es[n - 1])
  }

  /** Every row was admitted under the policy, into the window of its second, for at most its reservation. */
  ghost predicate Booked(p: Policy, rows: seq<Admission>)
    requires p.period >= 1
  {
    forall i :: 0 <= i < |rows| ==>
      && rows[i].principal in p.clients && rows[i].window == Window(p, rows[i].second)
      && (rows[i].state == Complete <==> rows[i].output.Some?)
      && (rows[i].output.Some? ==> rows[i].output.value <= rows[i].reserved)
      && rows[i].reserved <= p.clients[rows[i].principal].maxOutput
  }

  ghost predicate Within(p: Policy, rows: seq<Admission>) {
    forall principal, window :: principal in p.clients ==>
      && Total(rows, Requests, principal, window) <= p.clients[principal].requests
      && Total(rows, Committed, principal, window) <= p.clients[principal].outputTokens
  }

  /** Row `i` is rewritten for the same reservation, committing no more than before. */
  ghost predicate RewritesAt(rows: seq<Admission>, after: seq<Admission>, i: nat) {
    && i < |rows| == |after| && after == rows[i := after[i]]
    && after[i].principal == rows[i].principal && after[i].window == rows[i].window
    && Amount(after[i], Committed) <= Amount(rows[i], Committed)
  }

  ghost predicate Rewrites(rows: seq<Admission>, after: seq<Admission>) {
    after == rows || exists i: nat :: RewritesAt(rows, after, i)
  }

  /** Settling or giving up never raises what is committed, and never changes the number of requests. */
  lemma RewriteNeverRaises(rows: seq<Admission>, after: seq<Admission>, principal: string, window: int)
    requires Rewrites(rows, after)
    ensures Total(after, Committed, principal, window) <= Total(rows, Committed, principal, window)
    ensures Total(after, Requests, principal, window) == Total(rows, Requests, principal, window)
  {
    if after != rows {
      var i: nat :| RewritesAt(rows, after, i);
      SumOfUpdate(rows, i, after[i], Committed, principal, window, |rows|);
      SumOfUpdate(rows, i, after[i], Requests, principal, window, |rows|);
    }
  }

  lemma SettleRewrites(p: Policy, rows: seq<Admission>, id: string, input: int, output: int)
    requires p.period >= 1 && Booked(p, rows)
    ensures Rewrites(rows, SettleStep(rows, id, input, output).next) && Booked(p, SettleStep(rows, id, input, output).next)
  {
    var after := SettleStep(rows, id, input, output).next;
    if after != rows {
      var i := Find(rows, id, 0);
      assert RewritesAt(rows, after, i);
    }
  }

  lemma UncertainRewrites(p: Policy, rows: seq<Admission>, id: string)
    requires p.period >= 1 && Booked(p, rows)
    ensures Rewrites(rows, UncertainStep(rows, id)) && Booked(p, UncertainStep(rows, id))
  {
    var after := UncertainStep(rows, id);
    if after != rows {
      var i := Find(rows, id, 0);
      assert RewritesAt(rows, after, i);
    }
  }

  lemma AdmitKeepsWithin(p: Policy, rows: seq<Admission>, q: Request, second: int, id: string)
    requires p.period >= 1 && Within(p, rows) && q.principal in p.clients
    ensures Within(p, AdmitStep(p, rows, q, second, id).next)
  {
    hide Known, ModelName, Window;
    var after := AdmitStep(p, rows, q, second, id).next;
    if after != rows {
      forall principal, window, column | principal in p.clients
        ensures Total(after, column, principal, window) == Total(rows, column, principal, window)
                + if principal == q.principal && window == Window(p, second) then Amount(after[|rows|], column) else 0
      {
        SumOfPrefix(rows, after, column, principal, window, |rows|);
      }
    }
  }

  lemma {:induction false} RunKeepsQuota(p: Policy, es: seq<Event>, n: nat)
    requires p.period >= 1 && n <= |es|
    ensures Within(p, After(p, es, n)) && Booked(p, After(p, es, n))
  {
    hide Total, Window, Rewrites;
    if n == 0 {
      assert Within(p, []) by { NothingIsWithin(p); }
    } else {
      RunKeepsQuota(p, es, n - 1);
      NextKeepsQuota(p, After(p, es, n - 1), es[n - 1]);
    }
  }

  lemma NothingIsWithin(p: Policy)
    ensures Within(p, [])
  {
  }

  lemma NextKeepsQuota(p: Policy, rows: seq<Admission>, e: Event)
    requires p.period >= 1 && Within(p, rows) && Booked(p, rows)
    ensures Within(p, Next(p, rows, e)) && Booked(p, Next(p, rows, e))
  {
    hide Total, Rewrites, Find, Known, ModelName;
    var after := Next(p, rows, e);
    if e.Admitting? {
      if e.request.principal in p.clients { AdmitKeepsWithin(p, rows, e.request, e.second, e.id); }
    } else {
      if e.Settling? { SettleRewrites(p, rows, e.id, e.input, e.output); } else { UncertainRewrites(p, rows, e.id); }
      hide Next, Booked;
      forall principal, window | principal in p.clients
        ensures Total(after, Requests, principal, window) <= p.clients[principal].requests
                && Total(after, Committed, principal, window) <= p.clients[principal].outputTokens
      {
        RewriteNeverRaises(rows, after, principal, window);
      }
    }
  }

  // ---------------------------------------------------------------- main results

  /** Quota conservation: in every reachable state, for every principal and window, the admissions and the committed
      output are within the policy, and committed output is what was settled plus what is still reserved. */
  lemma QuotaHolds(p: Policy, es: seq<Event>, principal: string, window: int)
    requires p.period >= 1 && principal in p.clients
    ensures var rows := After(p, es, |es|);
            && Total(rows, Requests, principal, window) <= p.clients[principal].requests
            && Total(rows, Committed, principal, window) <= p.clients[principal].outputTokens
            && Total(rows, Committed, principal, window)
               == Total(rows, Output, principal, window) + Total(rows, Held, principal, window)
  {
    RunKeepsQuota(p, es, |es|);
    SumSplits(After(p, es, |es|), principal, window, |After(p, es, |es|)|);
    hide After, Sum;
  }

  /** No settlement or abandonment raises the committed total of any window. */
  lemma OnlyAdmissionRaises(p: Policy, es: seq<Event>, e: Event, principal: string, window: int)
    requires p.period >= 1 && !e.Admitting?
    ensures var rows := After(p, es, |es|);
            && Total(Next(p, rows, e), Committed, principal, window) <= Total(rows, Committed, principal, window)
            && Total(Next(p, rows, e), Requests, principal, window) == Total(rows, Requests, principal, window)
  {
    RunKeepsQuota(p, es, |es|);
    hide After, Rewrites, Total;
    var rows := After(p, es, |es|);
    match e
    case Settling(id, input, output) =>
      SettleRewrites(p, rows, id, input, output);
      RewriteNeverRaises(rows, SettleStep(rows, id, input, output).next, principal, window);
    case GivingUp(id) =>
      UncertainRewrites(p, rows, id);
      RewriteNeverRaises(rows, UncertainStep(rows, id), principal, window);
  }

  /** The sum of a column over the rows a principal was admitted with in the seconds [from, from + period). */
  function SpanSum(rows: seq<Admission>, column: Column, principal: string, from: int, period: nat, n: nat): nat
    requires n <= |rows|
  {
    if n == 0 then 0
    else SpanSum(rows, column, principal, from, period, n - 1)
         + if rows[n - 1].principal == principal && from <= rows[n - 1].second < from + period
           then Amount(rows[n - 1], column) else 0
  }

  lemma Scaled(a: int, b: int, d: nat)
    requires a <= b
    ensures a * d <= b * d
  {
    assert (b - a) * d >= 0;
  }

  lemma Bounds(n: int, d: nat)
    requires d >= 1
    ensures (n / d) * d <= n < (n / d) * d + d
  {
    assert n == d * (n / d) + n % d;
  }

  lemma QuotientIs(n: int, d: nat, q: int)
    requires d >= 1 && 0 <= n - q * d < d
    ensures n / d == q
  {
    var r := n / d;
    Bounds(n, d);
    if r > q { Scaled(q + 1, r, d); } else if r < q { Scaled(r + 1, q, d); }
  }

  lemma TwoWindows(period: nat, from: int, second: int)
    requires period >= 1 && from <= second < from + period
    ensures second / period == from / period || second / period == from / period + 1
  {
    var q := from / period;
    Bounds(from, period);
    assert (q + 1) * period == q * period + period;
    if second - q * period < period { QuotientIs(second, period, q); } else { QuotientIs(second, period, q + 1); }
  }

  lemma {:induction false} SpanIsCovered(p: Policy, rows: seq<Admission>, column: Column, principal: string, from: int,
                                         n: nat)
    requires p.period >= 1 && n <= |rows| && Booked(p, rows)
    ensures SpanSum(rows, column, principal, from, p.period, n)
         <= Sum(rows, column, principal, Window(p, from), n) + Sum(rows, column, principal, Window(p, from) + 1, n)
  {
    hide Amount;
    if n > 0 {
      SpanIsCovered(p, rows, column, principal, from, n - 1);
      var row := rows[n - 1];
      if row.principal == principal && from <= row.second < from + p.period { TwoWindows(p.period, from, row.second); }
      hide Booked;
    }
  }

  /** Any span as long as a window, aligned or not, holds at most twice the limits. */
  lemma AnySpanHoldsTwiceTheLimits(p: Policy, es: seq<Event>, principal: string, from: int)
    requires p.period >= 1 && principal in p.clients
    ensures var rows := After(p, es, |es|);
            && SpanSum(rows, Requests, principal, from, p.period, |rows|) <= 2 * p.clients[principal].requests
            && SpanSum(rows, Committed, principal, from, p.period, |rows|) <= 2 * p.clients[principal].outputTokens
  {
    RunKeepsQuota(p, es, |es|);
    hide After, Booked, SpanSum;
    var rows := After(p, es, |es|);
    SpanIsCovered(p, rows, Requests, principal, from, |rows|);
    SpanIsCovered(p, rows, Committed, principal, from, |rows|);
    hide Sum, Window;
    var window := Window(p, from);
    assert Total(rows, Requests, principal, window) <= p.clients[principal].requests
           && Total(rows, Requests, principal, window + 1) <= p.clients[principal].requests;
    assert Total(rows, Committed, principal, window) <= p.clients[principal].outputTokens
           && Total(rows, Committed, principal, window + 1) <= p.clients[principal].outputTokens;
  }

  // ---------------------------------------------------------------- when a span respects the limits

  /** A span that starts with a window is that window. */
  lemma {:induction false} AlignedSpanIsWindow(p: Policy, rows: seq<Admission>, column: Column, principal: string,
                                               from: int, n: nat)
    requires p.period >= 1 && n <= |rows| && Booked(p, rows) && from % p.period == 0
    ensures SpanSum(rows, column, principal, from, p.period, n) == Sum(rows, column, principal, Window(p, from), n)
  {
    if n > 0 {
      AlignedSpanIsWindow(p, rows, column, principal, from, n - 1);
      InAlignedWindow(p.period, from, rows[n - 1].second);
      hide Amount;
    }
  }

  lemma InAlignedWindow(period: nat, from: int, second: int)
    requires period >= 1 && from % period == 0
    ensures from <= second < from + period <==> second / period == from / period
  {
    var q := from / period;
    assert from == q * period by { assert from == period * q + from % period; }
    if from <= second < from + period { QuotientIs(second, period, q); }
    if second / period == q { Bounds(second, period); }
  }

  /** The principal may use some model: `_validate` also accepts lists in which every name holds a `#`, and then
      nothing is ever admitted. */
  ghost predicate Admissible(l: Limits) {
    exists m :: ModelName(m) in l.models
  }

  /** A window never commits more than its requests can reserve. */
  lemma {:induction false} CommittedByRequests(p: Policy, rows: seq<Admission>, principal: string, window: int, n: nat)
    requires p.period >= 1 && n <= |rows| && Booked(p, rows) && principal in p.clients
    ensures Sum(rows, Committed, principal, window, n)
         <= Sum(rows, Requests, principal, window, n) * p.clients[principal].maxOutput
  {
    if n > 0 {
      CommittedByRequests(p, rows, principal, window, n - 1);
      var before, more := Sum(rows, Requests, principal, window, n - 1), p.clients[principal].maxOutput;
      assert (before + 1) * more == before * more + more;
    }
  }

  lemma SpanRespectsLimits(p: Policy, es: seq<Event>, principal: string, from: int)
    requires p.period >= 1 && principal in p.clients
    ensures var rows, l := After(p, es, |es|), p.clients[principal];
            && (from % p.period == 0 || !Admissible(l) ==>
                  SpanSum(rows, Requests, principal, from, p.period, |rows|) <= l.requests)
            && (from % p.period == 0 || !Admissible(l) || 2 * (l.requests * l.maxOutput) <= l.outputTokens ==>
                  SpanSum(rows, Committed, principal, from, p.period, |rows|) <= l.outputTokens)
  {
    RunKeepsQuota(p, es, |es|);
    RunKeepsAdmissible(p, es, |es|);
    hide After;
    var rows, l := After(p, es, |es|), p.clients[principal];
    var window := Window(p, from);
    forall column | column == Requests || column == Committed
      ensures from % p.period == 0 ==>
                SpanSum(rows, column, principal, from, p.period, |rows|) == Total(rows, column, principal, window)
      ensures !Admissible(l) ==> SpanSum(rows, column, principal, from, p.period, |rows|) == 0
      ensures SpanSum(rows, column, principal, from, p.period, |rows|)
           <= Total(rows, column, principal, window) + Total(rows, column, principal, window + 1)
    {
      if from % p.period == 0 { AlignedSpanIsWindow(p, rows, column, principal, from, |rows|); }
      if !Admissible(l) { NoRowsNoSpan(rows, column, principal, from, p.period, |rows|); }
      SpanIsCovered(p, rows, column, principal, from, |rows|);
    }
    CommittedByRequests(p, rows, principal, window, |rows|);
    CommittedByRequests(p, rows, principal, window + 1, |rows|);
    hide Booked, SpanSum, Sum, Admissible, Window;
    assert Total(rows, Requests, principal, window) <= l.requests
           && Total(rows, Requests, principal, window + 1) <= l.requests;
    Scaled(Total(rows, Requests, principal, window), l.requests, l.maxOutput);
    Scaled(Total(rows, Requests, principal, window + 1), l.requests, l.maxOutput);
    assert Total(rows, Committed, principal, window) <= l.outputTokens;
  }

  lemma {:induction false} NoRowsNoSpan(rows: seq<Admission>, column: Column, principal: string, from: int, period: nat,
                                        n: nat)
    requires n <= |rows| && forall i :: 0 <= i < |rows| ==> rows[i].principal != principal
    ensures SpanSum(rows, column, principal, from, period, n) == 0
  {
    if n > 0 { NoRowsNoSpan(rows, column, principal, from, period, n - 1); }
  }

  /** Only principals with a usable model have rows. */
  lemma {:induction false} RunKeepsAdmissible(p: Policy, es: seq<Event>, n: nat)
    requires p.period >= 1 && n <= |es|
    ensures forall i :: 0 <= i < |After(p, es, n)| ==>
              After(p, es, n)[i].principal in p.clients && Admissible(p.clients[After(p, es, n)[i].principal])
  {
    if n > 0 {
      RunKeepsAdmissible(p, es, n - 1);
      hide Total, Known, Find, Window;
    }
  }

  // ---------------------------------------------------------------- the runs that exceed them

  ghost predicate Reachable(p: Policy, rows: seq<Admission>)
    requires p.period >= 1
  {
    exists es :: After(p, es, |es|) == rows
  }

  lemma {:induction false} AfterPrefix(p: Policy, es: seq<Event>, e: Event, n: nat)
    requires p.period >= 1 && n <= |es|
    ensures After(p, es + [e], n) == After(p, es, n)
  {
    if n > 0 { AfterPrefix(p, es, e, n - 1); }
  }

  lemma ReachableNext(p: Policy, rows: seq<Admission>, e: Event)
    requires p.period >= 1 && Reachable(p, rows)
    ensures Reachable(p, Next(p, rows, e))
  {
    var es :| After(p, es, |es|) == rows;
    AfterPrefix(p, es, e, |es|);
    var more := es + [e];
    assert After(p, more, |more|) == Next(p, rows, e);
  }

  /** An identifier of a given length. */
  function IdOf(n: nat): (id: string)
    ensures |id| == n
  {
    seq(n, i => 'x')
  }

  ghost predicate ShortIds(rows: seq<Admission>, n: nat) {
    forall i :: 0 <= i < |rows| ==> |rows[i].id| < n
  }

  lemma ShortIsFresh(rows: seq<Admission>, n: nat)
    requires ShortIds(rows, n)
    ensures !Known(rows, IdOf(n))
  {
    forall i | 0 <= i < |rows| ensures rows[i].id != IdOf(n) { assert |rows[i].id| < |IdOf(n)|; }
  }

  lemma AppendedTotals(rows: seq<Admission>, row: Admission, column: Column, principal: string, window: int)
    ensures Total(rows + [row], column, principal, window)
         == Total(rows, column, principal, window)
            + if row.principal == principal && row.window == window then Amount(row, column) else 0
  {
    SumOfPrefix(rows, rows + [row], column, principal, window, |rows|);
  }

  lemma {:induction false} SpanOfPrefix(rows: seq<Admission>, row: Admission, column: Column, principal: string, from: int,
                                        period: nat, n: nat)
    requires n <= |rows|
    ensures SpanSum(rows + [row], column, principal, from, period, n) == SpanSum(rows, column, principal, from, period, n)
  {
    if n > 0 { SpanOfPrefix(rows, row, column, principal, from, period, n - 1); }
  }

  lemma AppendedSpan(rows: seq<Admission>, row: Admission, column: Column, principal: string, from: int, period: nat)
    ensures SpanSum(rows + [row], column, principal, from, period, |rows| + 1)
         == SpanSum(rows, column, principal, from, period, |rows|)
            + if row.principal == principal && from <= row.second < from + period then Amount(row, column) else 0
  {
    SpanOfPrefix(rows, row, column, principal, from, period, |rows|);
  }

  /** An admission of `tokens` that fits is booked as a new row. */
  lemma Booking(p: Policy, rows: seq<Admission>, principal: string, model: string, second: int, tokens: nat, k: nat)
    returns (row: Admission)
    requires p.period >= 1 && principal in p.clients && Reachable(p, rows) && ShortIds(rows, k)
    requires var l := p.clients[principal];
             && ModelName(model) in l.models && 1 <= tokens <= l.maxOutput
             && Total(rows, Requests, principal, Window(p, second)) < l.requests
             && Total(rows, Committed, principal, Window(p, second)) + tokens <= l.outputTokens
    ensures row == Admission(IdOf(k), principal, Window(p, second), second, tokens, None, None, Pending)
    ensures Reachable(p, rows + [row]) && ShortIds(rows + [row], k + 1)
  {
    row := Admission(IdOf(k), principal, Window(p, second), second, tokens, None, None, Pending);
    ShortIsFresh(rows, k);
    ReachableNext(p, rows, Admitting(Request(principal, model, 0, tokens), second, IdOf(k)));
    hide Total, Known, ModelName, IdOf, Reachable;
  }

  /** The same, settled at once with no output. */
  lemma FreeBooking(p: Policy, rows: seq<Admission>, principal: string, model: string, second: int, k: nat)
    returns (row: Admission)
    requires p.period >= 1 && principal in p.clients && Reachable(p, rows) && ShortIds(rows, k)
    requires var l := p.clients[principal];
             && ModelName(model) in l.models && 1 <= l.maxOutput
             && Total(rows, Requests, principal, Window(p, second)) < l.requests
             && Total(rows, Committed, principal, Window(p, second)) + 1 <= l.outputTokens
    ensures row == Admission(IdOf(k), principal, Window(p, second), second, 1, Some(0), Some(0), Complete)
    ensures Reachable(p, rows + [row]) && ShortIds(rows + [row], k + 1)
  {
    ShortIsFresh(rows, k);
    var held := Booking(p, rows, principal, model, second, 1, k);
    NewIsFound(rows, held);
    ReachableNext(p, rows + [held], Settling(IdOf(k), 0, 0));
    row := held.(input := Some(0), output := Some(0), state := Complete);
    assert (rows + [held])[|rows| := row] == rows + [row];
    hide Total, Known, ModelName, IdOf, Reachable, Find;
  }

  /** `n` requests of one second in a window that was empty, all settled with no output. */
  lemma {:induction false} FillRequests(p: Policy, start: seq<Admission>, principal: string, model: string, second: int,
                                        from: int, k: nat, n: nat)
    returns (rows: seq<Admission>)
    requires ValidPolicy(p) && principal in p.clients && ModelName(model) in p.clients[principal].models
    requires n <= p.clients[principal].requests && from <= second < from + p.period
    requires Reachable(p, start) && ShortIds(start, k)
    requires forall column :: Total(start, column, principal, Window(p, second)) == 0
    ensures Reachable(p, rows) && ShortIds(rows, k + n)
    ensures Total(rows, Requests, principal, Window(p, second)) == n
    ensures Total(rows, Committed, principal, Window(p, second)) == 0
    ensures forall column, w :: w != Window(p, second) ==>
              Total(rows, column, principal, w) == Total(start, column, principal, w)
    ensures SpanSum(rows, Requests, principal, from, p.period, |rows|)
         == SpanSum(start, Requests, principal, from, p.period, |start|) + n
  {
    hide Total, SpanSum, Reachable, ShortIds, ModelName, Window, IdOf;
    if n == 0 {
      rows := start;
    } else {
      assert p.clients[principal].maxOutput >= 1 && p.clients[principal].outputTokens >= 1;
      var before := FillRequests(p, start, principal, model, second, from, k, n - 1);
      var row := FreeBooking(p, before, principal, model, second, k + n - 1);
      rows := before + [row];
      forall column, w ensures Total(rows, column, principal, w) == Total(before, column, principal, w)
                               + if row.window == w then Amount(row, column) else 0
      {
        AppendedTotals(before, row, column, principal, w);
      }
      AppendedSpan(before, row, Requests, principal, from, p.period);
    }
  }

  function SpanOf(p: Policy, es: seq<Event>, column: Column, principal: string, from: int): nat
    requires p.period >= 1
  {
    SpanSum(After(p, es, |es|), column, principal, from, p.period, |After(p, es, |es|)|)
  }

  /** The start of the next window lies inside an unaligned span. */
  lemma NextWindow(period: nat, from: int) returns (second: int)
    requires period >= 1 && from % period != 0
    ensures from <= second < from + period && second / period == from / period + 1
  {
    var q := from / period;
    second := (q + 1) * period;
    Bounds(from, period);
    assert second == q * period + period;
    assert from == period * q + from % period;
    QuotientIs(second, period, q + 1);
  }

  /** The factor two is attained: under every valid policy, a principal that can use some model fits twice the request
      limit into any span that does not start with a window. */
  lemma TwiceIsReached(p: Policy, principal: string, model: string, from: int) returns (es: seq<Event>)
    requires ValidPolicy(p) && principal in p.clients && ModelName(model) in p.clients[principal].models
    requires from % p.period != 0
    ensures SpanOf(p, es, Requests, principal, from) == 2 * p.clients[principal].requests
  {
    var l := p.clients[principal];
    var second := NextWindow(p.period, from);
    assert After(p, [], 0) == [];
    var first := FillRequests(p, [], principal, model, from, from, 0, l.requests);
    assert forall column :: Total(first, column, principal, Window(p, second)) == 0;
    var rows := FillRequests(p, first, principal, model, second, from, l.requests, l.requests);
    es :| After(p, es, |es|) == rows;
    hide After, Total;
  }

  /** The exact condition for requests, over every run: a span of one window's length stays within the limit if and
      only if it starts with a window, or the principal can use no model at all. */
  lemma RequestsRespectedIff(p: Policy, principal: string, from: int)
    requires ValidPolicy(p) && principal in p.clients
    ensures (forall es :: SpanOf(p, es, Requests, principal, from) <= p.clients[principal].requests)
       <==> from % p.period == 0 || !Admissible(p.clients[principal])
  {
    if from % p.period == 0 || !Admissible(p.clients[principal]) {
      forall es ensures SpanOf(p, es, Requests, principal, from) <= p.clients[principal].requests {
        SpanRespectsLimits(p, es, principal, from);
      }
    } else {
      var model :| ModelName(model) in p.clients[principal].models;
      var es := TwiceIsReached(p, principal, model, from);
    }
  }

  /** The most that `n` requests can reserve within the window's tokens. */
  function Target(l: Limits, n: nat): (t: nat)
    ensures t <= l.outputTokens
  {
    if n == 0 then 0
    else if Target(l, n - 1) + l.maxOutput <= l.outputTokens then Target(l, n - 1) + l.maxOutput
    else l.outputTokens
  }

  lemma {:induction false} TargetClimbs(l: Limits, n: nat)
    ensures n == 0 ==> Target(l, n) == 0
    ensures n > 0 ==> Target(l, n - 1) <= Target(l, n) <= Target(l, n - 1) + l.maxOutput
  {
    if n > 0 {
      TargetClimbs(l, n - 1);
    }
  }

  lemma {:induction false} TargetIsLeast(l: Limits, n: nat)
    ensures Target(l, n) == if n * l.maxOutput <= l.outputTokens then n * l.maxOutput else l.outputTokens
  {
    if n > 0 {
      TargetIsLeast(l, n - 1);
      assert n * l.maxOutput == (n - 1) * l.maxOutput + l.maxOutput;
    }
  }

  /** `n` requests of one second that reserve as much as they can in a window that was empty. */
  lemma {:induction false} FillTokens(p: Policy, start: seq<Admission>, principal: string, model: string, second: int,
                                      from: int, k: nat, n: nat)
    returns (rows: seq<Admission>)
    requires ValidPolicy(p) && principal in p.clients && ModelName(model) in p.clients[principal].models
    requires n <= p.clients[principal].requests && from <= second < from + p.period
    requires Reachable(p, start) && ShortIds(start, k)
    requires forall column :: Total(start, column, principal, Window(p, second)) == 0
    ensures Reachable(p, rows) && ShortIds(rows, k + n)
    ensures Total(rows, Requests, principal, Window(p, second)) <= n
    ensures Total(rows, Committed, principal, Window(p, second)) == Target(p.clients[principal], n)
    ensures forall column, w :: w != Window(p, second) ==>
              Total(rows, column, principal, w) == Total(start, column, principal, w)
    ensures SpanSum(rows, Committed, principal, from, p.period, |rows|)
         == SpanSum(start, Committed, principal, from, p.period, |start|) + Target(p.clients[principal], n)
  {
    hide Total, SpanSum, Reachable, ModelName, Window, IdOf, Target;
    TargetClimbs(p.clients[principal], n);
    if n == 0 {
      rows := start;
    } else {
      var l, window := p.clients[principal], Window(p, second);
      var before := FillTokens(p, start, principal, model, second, from, k, n - 1);
      var tokens := Target(l, n) - Target(l, n - 1);
      if tokens == 0 {
        rows := before;
      } else {
        var row := Booking(p, before, principal, model, second, tokens, k + n - 1);
        rows := before + [row];
        forall column, w ensures Total(rows, column, principal, w) == Total(before, column, principal, w)
                                 + if row.window == w then Amount(row, column) else 0
        {
          AppendedTotals(before, row, column, principal, w);
        }
        AppendedSpan(before, row, Committed, principal, from, p.period);
      }
    }
  }

  /** The same for output tokens: such a span can commit twice what the requests of a window can reserve within its
      tokens, which is twice the token limit itself when the requests can reserve that much. */
  lemma TwiceTheTokens(p: Policy, principal: string, model: string, from: int) returns (es: seq<Event>)
    requires ValidPolicy(p) && principal in p.clients && ModelName(model) in p.clients[principal].models
    requires from % p.period != 0
    ensures var l := p.clients[principal]; var most := l.requests * l.maxOutput;
            SpanOf(p, es, Committed, principal, from) == 2 * if most <= l.outputTokens then most else l.outputTokens
  {
    var l := p.clients[principal];
    var second := NextWindow(p.period, from);
    assert After(p, [], 0) == [];
    var first := FillTokens(p, [], principal, model, from, from, 0, l.requests);
    assert forall column :: Total(first, column, principal, Window(p, second)) == 0;
    var rows := FillTokens(p, first, principal, model, second, from, l.requests, l.requests);
    TargetIsLeast(l, l.requests);
    es :| After(p, es, |es|) == rows;
    hide After, Total, Target;
  }

  /** The exact condition for output tokens, over every run: a span of one window's length stays within the limit if
      and only if it starts with a window, or the principal can use no model, or twice what all requests of a window
      can reserve is within the limit anyway. */
  lemma CommittedRespectedIff(p: Policy, principal: string, from: int)
    requires ValidPolicy(p) && principal in p.clients
    ensures (forall es :: SpanOf(p, es, Committed, principal, from) <= p.clients[principal].outputTokens)
       <==> || from % p.period == 0
            || !Admissible(p.clients[principal])
            || 2 * (p.clients[principal].requests * p.clients[principal].maxOutput) <= p.clients[principal].outputTokens
  {
    var l := p.clients[principal];
    if from % p.period == 0 || !Admissible(l) || 2 * (l.requests * l.maxOutput) <= l.outputTokens {
      forall es ensures SpanOf(p, es, Committed, principal, from) <= l.outputTokens {
        SpanRespectsLimits(p, es, principal, from);
      }
    } else {
      var model :| ModelName(model) in l.models;
      var es := TwiceTheTokens(p, principal, model, from);
    }
  }
}
