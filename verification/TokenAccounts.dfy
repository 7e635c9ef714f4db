/**
 What the admissions table says of the run that filled it: every row was admitted by a request of its principal, every
 recorded usage is the one accepted settlement of its reservation, and the sums of a window move by exactly that.
 */
module TokenAccounts {
  import opened Results
  import opened TokenQuota

  // ---------------------------------------------------------------- every step rewrites pending rows only

  ghost predicate Keyed(rows: seq<Admission>) {
    forall i, k :: 0 <= i < k < |rows| ==> rows[i].id != rows[k].id
  }

  /** Usage is recorded for complete rows, and for them only. */
  ghost predicate Recorded(rows: seq<Admission>) {
    forall i :: 0 <= i < |rows| ==>
      (rows[i].state == Complete <==> rows[i].input.Some?) && (rows[i].state == Complete <==> rows[i].output.Some?)
  }

  /** Rows keep their place and what they were admitted with, and a row that is no longer pending never changes. */
  ghost predicate Persist(rows: seq<Admission>, after: seq<Admission>) {
    && |rows| <= |after|
    && forall i :: 0 <= i < |rows| ==>
         && after[i].(input := rows[i].input, output := rows[i].output, state := rows[i].state) == rows[i]
         && (rows[i].state != Pending ==> after[i] == rows[i])
  }

  lemma NextPersists(p: Policy, rows: seq<Admission>, e: Event)
    requires p.period >= 1
    ensures Persist(rows, Next(p, rows, e))
  {
    hide Total, ModelName, Known;
  }

  lemma NextKeepsKeys(p: Policy, rows: seq<Admission>, e: Event)
    requires p.period >= 1 && Keyed(rows) && Recorded(rows)
    ensures Keyed(Next(p, rows, e)) && Recorded(Next(p, rows, e))
  {
    hide Total, ModelName, Window;
  }

  lemma {:induction false} RunKeepsKeys(p: Policy, es: seq<Event>, n: nat)
    requires p.period >= 1 && n <= |es|
    ensures Keyed(After(p, es, n)) && Recorded(After(p, es, n))
  {
    hide Next;
    if n > 0 {
      RunKeepsKeys(p, es, n - 1);
      NextKeepsKeys(p, After(p, es, n - 1), es[n - 1]);
    }
  }

  lemma AfterStep(p: Policy, es: seq<Event>, k: nat)
    requires p.period >= 1 && k < |es|
    ensures After(p, es, k + 1) == Next(p, After(p, es, k), es[k])
  {
    hide Next;
  }

  lemma {:induction false} RunPersists(p: Policy, es: seq<Event>, m: nat, n: nat)
    requires p.period >= 1 && m <= n <= |es|
    ensures Persist(After(p, es, m), After(p, es, n))
    decreases n
  {
    hide Next;
    if m < n {
      RunPersists(p, es, m, n - 1);
      NextPersists(p, After(p, es, n - 1), es[n - 1]);
    }
  }

  /** The text in front of the first `#`. */
  lemma {:induction false} ModelNameIs(model: string, name: string)
    ensures ModelName(model) == name
       <==> && '#' !in name && name <= model && (name == model || model[|name|] == '#')
  {
    if model != [] && model[0] != '#' {
      if name == [] {
      } else {
        ModelNameIs(model[1..], name[1..]);
        assert name == [name[0]] + name[1..] && model == [model[0]] + model[1..];
        assert name <= model <==> name[0] == model[0] && name[1..] <= model[1..];
        assert ModelName(model) == name <==> name[0] == model[0] && ModelName(model[1..]) == name[1..];
      }
    }
  }

  // ---------------------------------------------------------------- when a request is accepted, and what it adds up to

  /** The one row of an identifier. */
  ghost predicate RowOf(rows: seq<Admission>, i: nat, id: string) {
    i < |rows| && rows[i].id == id
  }

  lemma FoundRow(rows: seq<Admission>, i: nat, id: string)
    requires Keyed(rows) && RowOf(rows, i, id)
    ensures Find(rows, id, 0) == i
  {
    FindSkips(rows, id, 0, i);
  }

  /** A request is admitted exactly when its model and sizes are allowed, its identifier is new, and its window still
      respects both quotas with the new reservation in it; then it is in it. */
  lemma AdmittedIff(p: Policy, rows: seq<Admission>, q: Request, second: int, id: string)
    requires p.period >= 1 && q.principal in p.clients
    ensures
      var l, window, step := p.clients[q.principal], Window(p, second), AdmitStep(p, rows, q, second, id);
      var held := if q.maxTokens >= 1 then q.maxTokens else 0;
      var row := Admission(id, q.principal, window, second, held, None, None, Pending);
      && (step.answer.Ok? <==>
            && ModelName(q.model) in l.models && q.bytes <= l.maxInput && 1 <= q.maxTokens <= l.maxOutput
            && (forall i :: 0 <= i < |rows| ==> rows[i].id != id)
            && Total(rows + [row], Requests, q.principal, window) <= l.requests
            && Total(rows + [row], Committed, q.principal, window) <= l.outputTokens)
      && step.next == (if step.answer.Ok? then rows + [row] else rows)
      && (ModelName(q.model) !in l.models <==> step.answer == Refused(403))
      && (ModelName(q.model) in l.models && q.bytes > l.maxInput <==> step.answer == Refused(413))
      && (ModelName(q.model) in l.models && q.bytes <= l.maxInput && !(1 <= q.maxTokens <= l.maxOutput)
          <==> step.answer == Refused(422))
      && (step.answer == Refused(429) ==>
            || Total(rows + [row], Requests, q.principal, window) > l.requests
            || Total(rows + [row], Committed, q.principal, window) > l.outputTokens)
      && (step.answer == Refused(500) ==> exists i :: 0 <= i < |rows| && rows[i].id == id)
      && (step.answer.Refused? ==> step.answer.status in {403, 413, 422, 429, 500})
  {
    var held := if q.maxTokens >= 1 then q.maxTokens else 0;
    var row := Admission(id, q.principal, Window(p, second), second, held, None, None, Pending);
    AppendedTotals(rows, row, Requests, q.principal, row.window);
    AppendedTotals(rows, row, Committed, q.principal, row.window);
    hide Total, ModelName, Window;
  }

  /** A settlement is accepted exactly for a pending reservation of at least its output. */
  lemma SettledIff(rows: seq<Admission>, id: string, input: int, output: int)
    requires Keyed(rows)
    ensures SettleStep(rows, id, input, output).answer.Ok?
       <==> 0 <= input && 0 <= output
            && exists i: nat :: RowOf(rows, i, id) && rows[i].state == Pending && output <= rows[i].reserved
    ensures var step := SettleStep(rows, id, input, output);
            !step.answer.Ok? ==> step == Step(rows, Refused(502))
  {
    if i: nat :| RowOf(rows, i, id) { FoundRow(rows, i, id); }
  }

  /** What a settlement moves: in the window of its reservation, output and input rise by exactly the reported usage
      and the reservation is released; every other window is as before, and no window's request count changes. */
  lemma SettlementAccounts(rows: seq<Admission>, id: string, input: int, output: int, i: nat, principal: string,
                           window: int)
    requires Keyed(rows) && Recorded(rows) && RowOf(rows, i, id)
    requires SettleStep(rows, id, input, output).answer.Ok?
    ensures
      var after := SettleStep(rows, id, input, output).next;
      var mine := rows[i].principal == principal && rows[i].window == window;
      && Total(after, Output, principal, window) == Total(rows, Output, principal, window) + (if mine then output else 0)
      && Total(after, Input, principal, window) == Total(rows, Input, principal, window) + (if mine then input else 0)
      && Total(after, Held, principal, window)
         == Total(rows, Held, principal, window) - (if mine then rows[i].reserved else 0)
      && Total(after, Committed, principal, window)
         == Total(rows, Committed, principal, window) - (if mine then rows[i].reserved - output else 0)
      && Total(after, Requests, principal, window) == Total(rows, Requests, principal, window)
  {
    FoundRow(rows, i, id);
    var row := rows[i].(input := Some(input), output := Some(output), state := Complete);
    forall column
      ensures Total(rows[i := row], column, principal, window)
           == Total(rows, column, principal, window)
              + if row.principal == principal && row.window == window
                then Amount(row, column) - Amount(rows[i], column) else 0
    {
      SumOfUpdate(rows, i, row, column, principal, window, |rows|);
    }
    hide Total, Keyed;
  }

  /** Giving up moves nothing: an uncertain reservation stays committed in full. */
  lemma GivingUpAccounts(rows: seq<Admission>, id: string, column: Column, principal: string, window: int)
    ensures Total(UncertainStep(rows, id), column, principal, window) == Total(rows, column, principal, window)
  {
    var i := Find(rows, id, 0);
    if i < |rows| && rows[i].state == Pending {
      SumOfUpdate(rows, i, rows[i].(state := Uncertain), column, principal, window, |rows|);
    }
  }

  // ---------------------------------------------------------------- what a row tells of the run

  /** Step `k` admitted the row, under the policy. */
  ghost predicate AdmittedAt(p: Policy, es: seq<Event>, k: nat, row: Admission)
    requires p.period >= 1
  {
    && k < |es| && es[k].Admitting? && es[k].id == row.id && es[k].second == row.second
    && es[k].request.principal == row.principal && es[k].request.maxTokens == row.reserved
    && row.principal in p.clients && row.window == row.second / p.period
    && ModelName(es[k].request.model) in p.clients[row.principal].models
    && es[k].request.bytes <= p.clients[row.principal].maxInput
    && 1 <= row.reserved <= p.clients[row.principal].maxOutput
  }

  /** Step `k` was an accepted settlement. */
  ghost predicate SettledAt(p: Policy, es: seq<Event>, k: nat)
    requires p.period >= 1
  {
    k < |es| && es[k].Settling? && SettleStep(After(p, es, k), es[k].id, es[k].input, es[k].output).answer.Ok?
  }

  ghost predicate Told(p: Policy, es: seq<Event>, n: nat, row: Admission)
    requires p.period >= 1 && n <= |es|
  {
    && (exists k: nat :: k < n && AdmittedAt(p, es, k, row))
    && (row.state == Complete ==> exists k: nat ::
          && k < n && SettledAt(p, es, k) && es[k].id == row.id
          && row.input == Some(es[k].input) && row.output == Some(es[k].output))
    && (row.state == Uncertain ==> exists k: nat :: k < n && es[k] == GivingUp(row.id))
  }

  ghost predicate AllTold(p: Policy, es: seq<Event>, n: nat)
    requires p.period >= 1 && n <= |es|
  {
    forall i :: 0 <= i < |After(p, es, n)| ==> Told(p, es, n, After(p, es, n)[i])
  }

  lemma RowIsTold(p: Policy, es: seq<Event>, n: nat, i: nat)
    requires p.period >= 1 && n < |es| && i < |After(p, es, n + 1)|
    requires i < |After(p, es, n)| ==> Told(p, es, n, After(p, es, n)[i])
    ensures Told(p, es, n + 1, After(p, es, n + 1)[i])
  {
    var rows, after := After(p, es, n), After(p, es, n + 1);
    hide Total, ModelName, Known, After;
    if i < |rows| {
      var k: nat :| k < n && AdmittedAt(p, es, k, rows[i]);
      assert AdmittedAt(p, es, k, after[i]);
      if after[i] != rows[i] && es[n].Settling? { assert SettledAt(p, es, n); }
    } else {
      assert AdmittedAt(p, es, n, after[i]);
    }
  }

  /** Over every run, each row was admitted by a request of its principal that the policy allows; a complete row holds
      the usage of an accepted settlement of its identifier; an uncertain one was given up. */
  lemma {:induction false} RowsTellTheRun(p: Policy, es: seq<Event>, n: nat)
    requires p.period >= 1 && n <= |es|
    ensures AllTold(p, es, n)
  {
    hide Next, Told;
    if n > 0 {
      RowsTellTheRun(p, es, n - 1);
      forall i | 0 <= i < |After(p, es, n)| ensures Told(p, es, n, After(p, es, n)[i]) { RowIsTold(p, es, n - 1, i); }
    }
  }

  lemma SettlementIsWritten(rows: seq<Admission>, id: string, input: int, output: int)
    requires SettleStep(rows, id, input, output).answer.Ok?
    ensures var after, i := SettleStep(rows, id, input, output).next, Find(rows, id, 0);
            && i < |after| && after[i].id == id && after[i].state == Complete
            && after[i].input == Some(input) && after[i].output == Some(output)
  {
  }

  /** An accepted settlement is final: its identifier has one row, complete with exactly that usage, in every later
      state, and no other settlement of that identifier is ever accepted. */
  lemma SettlementIsFinal(p: Policy, es: seq<Event>, k: nat, n: nat)
    requires p.period >= 1 && k < n <= |es| && SettledAt(p, es, k)
    ensures exists i: nat ::
              && RowOf(After(p, es, n), i, es[k].id)
              && After(p, es, n)[i].state == Complete
              && After(p, es, n)[i].input == Some(es[k].input) && After(p, es, n)[i].output == Some(es[k].output)
              && forall j: nat :: RowOf(After(p, es, n), j, es[k].id) ==> j == i
    ensures n < |es| && es[n].Settling? && es[n].id == es[k].id ==> !SettledAt(p, es, n)
  {
    hide After, SettleStep, AdmitStep, UncertainStep, Recorded;
    var before, id := After(p, es, k), es[k].id;
    AfterStep(p, es, k);
    SettlementIsWritten(before, id, es[k].input, es[k].output);
    RunPersists(p, es, k + 1, n);
    RunKeepsKeys(p, es, n);
    var i := Find(before, id, 0);
    assert RowOf(After(p, es, n), i, id);
    if n < |es| && es[n].Settling? && es[n].id == id {
      SettledIff(After(p, es, n), id, es[n].input, es[n].output);
    }
  }

  lemma GivingUpIsWritten(rows: seq<Admission>, id: string, i: nat)
    requires Keyed(rows) && RowOf(rows, i, id)
    ensures RowOf(UncertainStep(rows, id), i, id) && UncertainStep(rows, id)[i].state != Pending
  {
    FoundRow(rows, i, id);
  }

  /** Once given up, a reservation is never pending again. */
  lemma GivenUpIsNotPending(p: Policy, es: seq<Event>, k: nat, n: nat, i: nat)
    requires p.period >= 1 && k < n <= |es| && es[k].GivingUp?
    requires RowOf(After(p, es, k), i, es[k].id)
    ensures RowOf(After(p, es, n), i, es[k].id) && After(p, es, n)[i].state != Pending
  {
    hide After, UncertainStep, SettleStep, AdmitStep, Keyed, Recorded;
    AfterStep(p, es, k);
    RunKeepsKeys(p, es, k);
    GivingUpIsWritten(After(p, es, k), es[k].id, i);
    RunPersists(p, es, k + 1, n);
  }
}
