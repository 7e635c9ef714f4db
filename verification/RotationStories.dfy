/**
 What refresh-token rotation leaves behind: the staged requests against the undisturbed ones, what a new pair inherits,
 and what a row of the token table tells of the run.
 */
module RotationStories {
  import opened Results
  import opened RefreshTokens

  // ---------------------------------------------------------------- undisturbed requests

  /** An undisturbed rotation that succeeds spends exactly the presented token, links it to the new refresh token, and
      adds two unrevoked tokens of the same subject; nothing else changes. */
  lemma RotationIs(tokens: Table, claim: Option<Claim>, pair: Pair, now: int)
    ensures var (after, answer) := RefreshStep(tokens, claim, pair, now);
            && (answer.Done? <==>
                  && claim.Some? && claim.value.kind == Refresh && claim.value.jti in tokens
                  && tokens[claim.value.jti].kind == Refresh && tokens[claim.value.jti].revoked.None?
                  && pair.access !in tokens && pair.refresh !in tokens && pair.access != pair.refresh)
            && (answer.Done? ==>
                  && after.Keys == tokens.Keys + {pair.access, pair.refresh}
                  && after[pair.access] == Token(Access, claim.value.subject, pair.accessExpires, None, None)
                  && after[pair.refresh] == Token(Refresh, claim.value.subject, pair.refreshExpires, None, None)
                  && after[claim.value.jti]
                     == tokens[claim.value.jti].(revoked := Some(now), replacedBy := Some(pair.refresh))
                  && forall j :: j in tokens && j != claim.value.jti ==> after[j] == tokens[j])
  {
  }

  /** A rotation that is refused: a spent refresh token is a replay and anything else is invalid, and neither changes
      anything; a collision of the new identifiers comes too late for the presented token, which stays spent. */
  lemma RefusedRotationIs(tokens: Table, claim: Option<Claim>, pair: Pair, now: int)
    ensures var (after, answer) := RefreshStep(tokens, claim, pair, now);
            && (answer.Replay? <==>
                  && claim.Some? && claim.value.kind == Refresh && claim.value.jti in tokens
                  && tokens[claim.value.jti].kind == Refresh && tokens[claim.value.jti].revoked.Some?)
            && (answer.Replay? || answer.Invalid? ==> after == tokens)
            && (answer.Conflict? ==>
                  && claim.Some? && claim.value.jti in after && after[claim.value.jti].revoked == Some(now)
                  && (pair.access in tokens || pair.refresh in tokens || pair.access == pair.refresh))
  {
  }

  /** The staged requests refine the undisturbed ones: run one after the other with nothing in between, the stages of a
      rotation leave the table exactly as `refresh` does, and nothing in flight. */
  lemma StagesRefineRotate(s: System, t: nat, claim: Option<Claim>, pair: Pair, now: int)
    requires t !in s.threads
    ensures var s1 := Next(s, Decoding(t, claim));
            var s2 := Next(s1, Swapping(t, now));
            var s3 := Next(s2, InsertingAccess(t, pair.access, pair.accessExpires));
            var s4 := Next(s3, InsertingRefresh(t, pair.refresh, pair.refreshExpires));
            var s5 := Next(s4, Linking(t));
            && s5.tokens == RefreshStep(s.tokens, claim, pair, now).0 && t !in s5.threads
            && (t in s4.threads <==> RefreshStep(s.tokens, claim, pair, now).1.Done?)
  {
    var s1 := Next(s, Decoding(t, claim));
    var s2 := Next(s1, Swapping(t, now));
    if t in s2.threads { StagesRefineIssue(s2, t, pair); }
    hide Inserted;
  }

  /** From an exchange, or from a login, to the pair. */
  lemma StagesRefineIssue(s: System, t: nat, pair: Pair)
    requires t in s.threads && (s.threads[t].LoginStarted? || s.threads[t].Exchanging?)
    ensures var s3 := Next(s, InsertingAccess(t, pair.access, pair.accessExpires));
            var s4 := Next(s3, InsertingRefresh(t, pair.refresh, pair.refreshExpires));
            var (issued, answer) := IssueStep(s.tokens, s.threads[t].subject, pair);
            && s4.tokens == issued
            && (s.threads[t].LoginStarted? ==> t !in s4.threads)
            && (s.threads[t].Exchanging? ==>
                  (t in s4.threads <==> answer.Done?)
                  && (answer.Done? ==> s4.threads[t] == Issued(s.threads[t].jti, pair.refresh)))
  {
    hide Inserted;
    AccessStage(s, t, pair);
    var s3 := Next(s, InsertingAccess(t, pair.access, pair.accessExpires));
    if t in s3.threads { RefreshStage(s3, t, pair); }
    hide Next;
  }

  lemma AccessStage(s: System, t: nat, pair: Pair)
    requires t in s.threads && (s.threads[t].LoginStarted? || s.threads[t].Exchanging?)
    ensures var s3 := Next(s, InsertingAccess(t, pair.access, pair.accessExpires));
            if pair.access in s.tokens then t !in s3.threads && s3.tokens == s.tokens
            else
              && t in s3.threads
              && s3.threads[t] == (if s.threads[t].LoginStarted? then LoginHalf(s.threads[t].subject)
                                   else HalfIssued(s.threads[t].jti, s.threads[t].subject))
              && s3.tokens == Inserted(s.tokens, pair.access, Access, s.threads[t].subject, pair.accessExpires)
  {
    hide Inserted;
  }

  lemma RefreshStage(s: System, t: nat, pair: Pair)
    requires t in s.threads && (s.threads[t].LoginHalf? || s.threads[t].HalfIssued?)
    ensures var s4 := Next(s, InsertingRefresh(t, pair.refresh, pair.refreshExpires));
            if pair.refresh in s.tokens then t !in s4.threads && s4.tokens == s.tokens
            else
              && s4.tokens == Inserted(s.tokens, pair.refresh, Refresh, s.threads[t].subject, pair.refreshExpires)
              && (if s.threads[t].LoginHalf? then t !in s4.threads
                  else t in s4.threads && s4.threads[t] == Issued(s.threads[t].jti, pair.refresh))
  {
    hide Inserted;
  }

  /** A login and its undisturbed form. */
  lemma StagesRefineLogin(s: System, t: nat, subject: string, pair: Pair)
    requires t !in s.threads
    ensures var s1 := Next(s, BeginLogin(t, subject));
            var s2 := Next(s1, InsertingAccess(t, pair.access, pair.accessExpires));
            var s3 := Next(s2, InsertingRefresh(t, pair.refresh, pair.refreshExpires));
            s3.tokens == IssueStep(s.tokens, subject, pair).0 && t !in s3.threads
  {
    StagesRefineIssue(Next(s, BeginLogin(t, subject)), t, pair);
    hide AccessNext, RefreshNext;
  }

  // ---------------------------------------------------------------- what a row tells of the run

  predicate HasSubject(t: Thread) { !t.Issued? }

  /** Step `k` inserted the token, for the subject of the request that asked for it. */
  ghost predicate InsertedAt(es: seq<Event>, k: nat, j: Id, token: Token) {
    && k < |es| && (if token.kind == Access then es[k].InsertingAccess? else es[k].InsertingRefresh?)
    && es[k].jti == j && es[k].expires == token.expires
    && var s := After(es, k);
       && j !in s.tokens && es[k].t in s.threads && HasSubject(s.threads[es[k].t])
       && s.threads[es[k].t].subject == token.subject
  }

  /** Step `k` revoked the token: by a revocation, or by the exchange of a request that had decoded it. */
  ghost predicate RevokedAt(es: seq<Event>, k: nat, j: Id, token: Token) {
    && k < |es| && (es[k].Swapping? || es[k].Revoking?) && token.revoked == Some(es[k].now)
    && (es[k].Revoking? ==> es[k].jti == j)
    && (es[k].Swapping? ==>
          var s := After(es, k);
          es[k].t in s.threads && s.threads[es[k].t].Decoded? && s.threads[es[k].t].jti == j
          && j in s.tokens && s.tokens[j].revoked.None?)
  }

  /** Step `k` linked the token to the one issued for it. */
  ghost predicate LinkedAt(es: seq<Event>, k: nat, j: Id, token: Token) {
    && k < |es| && es[k].Linking?
    && var s := After(es, k);
       es[k].t in s.threads && s.threads[es[k].t].Issued? && s.threads[es[k].t].jti == j
       && token.replacedBy == Some(s.threads[es[k].t].successor)
  }

  ghost predicate Told(es: seq<Event>, n: nat, j: Id, token: Token) {
    && (exists k: nat :: k < n && InsertedAt(es, k, j, token))
    && (token.revoked.Some? ==> exists k: nat :: k < n && RevokedAt(es, k, j, token))
    && (token.replacedBy.Some? ==> exists k: nat :: k < n && LinkedAt(es, k, j, token))
  }

  ghost predicate AllTold(es: seq<Event>, n: nat)
    requires n <= |es|
  {
    forall j :: j in After(es, n).tokens ==> Told(es, n, j, After(es, n).tokens[j])
  }

  /** What a step may do to a row of the table. */
  lemma NextTokens(s: System, e: Event, j: Id)
    requires j in Next(s, e).tokens
    ensures var token := Next(s, e).tokens[j];
            if j !in s.tokens then
              && token.revoked.None? && token.replacedBy.None?
              && (if token.kind == Access then e.InsertingAccess? else e.InsertingRefresh?)
              && e.jti == j && e.expires == token.expires
              && e.t in s.threads && HasSubject(s.threads[e.t]) && s.threads[e.t].subject == token.subject
            else
              var before := s.tokens[j];
              || token == before
              || (e.Revoking? && e.jti == j && token == before.(revoked := Some(e.now)))
              || (e.Swapping? && e.t in s.threads && s.threads[e.t].Decoded? && s.threads[e.t].jti == j
                  && before.revoked.None? && token == before.(revoked := Some(e.now)))
              || (e.Linking? && e.t in s.threads && s.threads[e.t].Issued? && s.threads[e.t].jti == j
                  && token == before.(replacedBy := Some(s.threads[e.t].successor)))
  {
    match e
    case Swapping(_, _) => hide AccessNext, RefreshNext, LinkNext, Decode;
    case InsertingAccess(_, _, _) => hide SwapNext, RefreshNext, LinkNext, Decode;
    case InsertingRefresh(_, _, _) => hide SwapNext, AccessNext, LinkNext, Decode;
    case Linking(_) => hide SwapNext, AccessNext, RefreshNext, Decode;
    case _ => hide SwapNext, AccessNext, RefreshNext, LinkNext, Decode;
  }

  lemma StepIsTold(es: seq<Event>, n: nat, j: Id)
    requires n < |es| && j in After(es, n + 1).tokens
    requires j in After(es, n).tokens ==> Told(es, n, j, After(es, n).tokens[j])
    ensures Told(es, n + 1, j, After(es, n + 1).tokens[j])
  {
    var s, token := After(es, n), After(es, n + 1).tokens[j];
    assert After(es, n + 1) == Next(s, es[n]);
    NextTokens(s, es[n], j);
    hide After, Next;
    if j !in s.tokens {
      assert InsertedAt(es, n, j, token);
    } else {
      var before := s.tokens[j];
      var k: nat :| k < n && InsertedAt(es, k, j, before);
      assert InsertedAt(es, k, j, token);
      if token.revoked.Some? {
        if token.revoked == before.revoked {
          var r: nat :| r < n && RevokedAt(es, r, j, before);
          assert RevokedAt(es, r, j, token);
        } else {
          assert RevokedAt(es, n, j, token);
        }
      }
      if token.replacedBy.Some? {
        if token.replacedBy == before.replacedBy {
          var r: nat :| r < n && LinkedAt(es, r, j, before);
          assert LinkedAt(es, r, j, token);
        } else {
          assert LinkedAt(es, n, j, token);
        }
      }
    }
  }

  /** Over every interleaving, each row of the table tells who inserted it, with which expiry and for whom; who revoked
      it and when; and which request linked it. */
  lemma {:induction false} TokensTellTheRun(es: seq<Event>, n: nat)
    requires n <= |es|
    ensures AllTold(es, n)
  {
    hide Next, Told;
    if n > 0 {
      TokensTellTheRun(es, n - 1);
      forall j | j in After(es, n).tokens ensures Told(es, n, j, After(es, n).tokens[j]) { StepIsTold(es, n - 1, j); }
    }
  }

  // ---------------------------------------------------------------- the subject is inherited

  /** Claims are signed: they name the subject their token was issued for. */
  ghost predicate Authentic(es: seq<Event>) {
    forall k :: 0 <= k < |es| && es[k].Decoding? && es[k].claim.Some? ==>
      var claim := es[k].claim.value;
      claim.jti in After(es, k).tokens ==> After(es, k).tokens[claim.jti].subject == claim.subject
  }

  ghost predicate SameSubject(tokens: Table, a: Id, b: Id) {
    a in tokens && b in tokens && tokens[a].subject == tokens[b].subject
  }

  /** A request in flight works for the subject of the token it presented, and a token issued for another has its
      subject. */
  ghost predicate Inherits(s: System) {
    && (forall t :: t in s.threads && (s.threads[t].Decoded? || s.threads[t].Exchanging? || s.threads[t].HalfIssued?) ==>
          s.threads[t].jti in s.tokens && s.tokens[s.threads[t].jti].subject == s.threads[t].subject)
    && (forall j, p :: IssuedFor(s.origins, j, p) ==> SameSubject(s.tokens, j, p))
  }

  lemma AccessInherits(s: System, t: nat, jti: Id, expires: int)
    requires Inherits(s)
    ensures Inherits(AccessNext(s, t, jti, expires))
  {
    hide IssuedFor;
  }

  lemma RefreshInherits(s: System, t: nat, jti: Id, expires: int)
    requires Inherits(s)
    ensures Inherits(RefreshNext(s, t, jti, expires))
  {
    hide IssuedFor;
    forall j, p ensures IssuedFor(RefreshNext(s, t, jti, expires).origins, j, p) ==>
                          IssuedFor(s.origins, j, p) || (j == jti && jti !in s.tokens && t in s.threads
                                                         && s.threads[t].HalfIssued? && p == s.threads[t].jti)
    {
      OriginOf(s, t, jti, expires, j, p);
    }
  }

  lemma OriginOf(s: System, t: nat, jti: Id, expires: int, j: Id, p: Id)
    ensures IssuedFor(RefreshNext(s, t, jti, expires).origins, j, p) ==>
              IssuedFor(s.origins, j, p) || (j == jti && jti !in s.tokens && t in s.threads
                                             && s.threads[t].HalfIssued? && p == s.threads[t].jti)
  {
  }

  lemma NextInherits(s: System, e: Event)
    requires Inherits(s)
    requires e.Decoding? && e.claim.Some? && e.claim.value.jti in s.tokens ==>
               s.tokens[e.claim.value.jti].subject == e.claim.value.subject
    ensures Inherits(Next(s, e))
  {
    hide IssuedFor;
    match e
    case InsertingAccess(t, jti, expires) => AccessInherits(s, t, jti, expires); hide AccessNext;
    case InsertingRefresh(t, jti, expires) => RefreshInherits(s, t, jti, expires); hide RefreshNext;
    case _ =>
  }

  lemma {:induction false} RunInherits(es: seq<Event>, n: nat)
    requires Authentic(es) && n <= |es|
    ensures Inherits(After(es, n))
  {
    hide Next, Inherits;
    if n == 0 {
      assert Inherits(IDLE) by { IdleInherits(); }
    } else {
      RunInherits(es, n - 1);
      NextInherits(After(es, n - 1), es[n - 1]);
    }
  }

  lemma IdleInherits()
    ensures Inherits(IDLE)
  {
  }

  /** Rotation never changes the subject: in every interleaving of authentic requests, the token that replaced another
      was issued for it, to the same subject. */
  lemma SubjectIsInherited(es: seq<Event>, j: Id)
    requires Authentic(es) && j in After(es, |es|).tokens && After(es, |es|).tokens[j].replacedBy.Some?
    ensures var tokens := After(es, |es|).tokens;
            SameSubject(tokens, j, tokens[j].replacedBy.value) && tokens[tokens[j].replacedBy.value].kind == Refresh
  {
    RunInherits(es, |es|);
    RunKeepsInv(es, |es|);
    hide After;
    var s := After(es, |es|);
    assert IssuedFor(s.origins, s.tokens[j].replacedBy.value, j);
  }

  // ---------------------------------------------------------------- revocation

  /** A token is accepted exactly when its claims are of the expected kind and its row is of that kind and unrevoked; it
      is a replay exactly when it is a refresh token whose row is revoked. */
  lemma DecodedIff(tokens: Table, claim: Option<Claim>, kind: Kind)
    ensures Decode(tokens, claim, kind).Done?
       <==> && claim.Some? && claim.value.kind == kind && claim.value.jti in tokens
            && tokens[claim.value.jti].kind == kind && tokens[claim.value.jti].revoked.None?
    ensures Decode(tokens, claim, kind).Done? ==> Decode(tokens, claim, kind).value == claim.value
    ensures Decode(tokens, claim, kind).Replay?
       <==> && claim.Some? && claim.value.kind == kind == Refresh && claim.value.jti in tokens
            && tokens[claim.value.jti].kind == Refresh && tokens[claim.value.jti].revoked.Some?
  {
  }

  /** Revocation is for ever: once a row is revoked, no later step makes its token acceptable again. */
  lemma {:induction false} RevokedForEver(es: seq<Event>, k: nat, n: nat, claim: Claim, kind: Kind)
    requires k <= n <= |es| && claim.jti in After(es, k).tokens && After(es, k).tokens[claim.jti].revoked.Some?
    ensures claim.jti in After(es, n).tokens && After(es, n).tokens[claim.jti].revoked.Some?
    ensures !Decode(After(es, n).tokens, Some(claim), kind).Done?
    decreases n
  {
    if k < n {
      RevokedForEver(es, k, n - 1, claim, kind);
      NextKeepsRevoked(After(es, n - 1), es[n - 1], claim.jti);
      hide Next;
    }
  }

  lemma NextKeepsRevoked(s: System, e: Event, j: Id)
    requires j in s.tokens && s.tokens[j].revoked.Some?
    ensures j in Next(s, e).tokens && Next(s, e).tokens[j].revoked.Some?
  {
    NextKeepsRows(s, e, j);
    NextTokens(s, e, j);
    hide Next;
  }

  lemma RequestsKeepRows(s: System, t: nat, jti: Id, when: int, j: Id)
    requires j in s.tokens
    ensures j in SwapNext(s, t, when).tokens && j in AccessNext(s, t, jti, when).tokens
    ensures j in RefreshNext(s, t, jti, when).tokens && j in LinkNext(s, t).tokens
  {
  }

  lemma NextKeepsRows(s: System, e: Event, j: Id)
    requires j in s.tokens
    ensures j in Next(s, e).tokens
  {
    hide SwapNext, AccessNext, RefreshNext, LinkNext, Decode;
    match e
    case Swapping(t, now) => RequestsKeepRows(s, t, j, now, j);
    case InsertingAccess(t, jti, expires) => RequestsKeepRows(s, t, jti, expires, j);
    case InsertingRefresh(t, jti, expires) => RequestsKeepRows(s, t, jti, expires, j);
    case Linking(t) => RequestsKeepRows(s, t, j, 0, j);
    case _ =>
  }

  // ---------------------------------------------------------------- logins

  /** The refresh tokens that no other token was exchanged for. */
  ghost function FromLogins(s: System): set<Id> {
    set j | j in s.origins && s.origins[j].parent.None?
  }

  lemma OthersKeepOrigins(s: System, e: Event)
    requires !e.InsertingRefresh?
    ensures Next(s, e).origins == s.origins && Next(s, e).logins == s.logins
  {
    hide Revoked, Inserted, Linked, Decode;
  }

  lemma NextLogins(s: System, e: Event)
    requires Issuances(s)
    ensures |FromLogins(Next(s, e))| - |FromLogins(s)| == Next(s, e).logins - s.logins
  {
    var after := Next(s, e);
    if !e.InsertingRefresh? {
      hide Issuances, Next;
      OthersKeepOrigins(s, e);
      assert FromLogins(after) == FromLogins(s);
    } else if after.origins == s.origins {
      hide Inserted;
      assert FromLogins(after) == FromLogins(s);
    } else {
      hide Inserted, FromLogins;
      RefreshAddsOrigin(s, e.jti, after.origins[e.jti], after);
    }
  }

  lemma RefreshAddsOrigin(s: System, jti: Id, origin: Origin, after: System)
    requires jti !in s.origins && after.origins == s.origins[jti := origin]
    ensures |FromLogins(after)| == |FromLogins(s)| + if origin.parent.None? then 1 else 0
  {
    if origin.parent.None? {
      assert FromLogins(after) == FromLogins(s) + {jti};
    } else {
      assert FromLogins(after) == FromLogins(s);
    }
  }

  /** Over every run, the count of logins is the number of refresh tokens issued for no other token. */
  lemma {:induction false} LoginsAreCounted(es: seq<Event>, n: nat)
    requires n <= |es|
    ensures |FromLogins(After(es, n))| == After(es, n).logins
  {
    hide Next, Ranked, LinksBack, Spent, OneSuccessor, Grounded, Covered, Issuances;
    if n == 0 {
      assert FromLogins(IDLE) == {};
    } else {
      LoginsAreCounted(es, n - 1);
      RunKeepsInv(es, n - 1);
      NextLogins(After(es, n - 1), es[n - 1]);
    }
  }

  // ---------------------------------------------------------------- what a step does to its own and to other requests

  /** The request a step belongs to; a revocation is a request of its own. */
  function RequestOf(e: Event): Option<nat> {
    match e
    case BeginLogin(t, _) => Some(t)
    case Decoding(t, _) => Some(t)
    case Swapping(t, _) => Some(t)
    case InsertingAccess(t, _, _) => Some(t)
    case InsertingRefresh(t, _, _) => Some(t)
    case Linking(t) => Some(t)
    case Revoking(_, _) => None
    case Stopping(t) => Some(t)
  }

  /** A step touches its own request only; one under way is not begun again, and one that stops is gone. */
  lemma OthersAreKept(s: System, e: Event)
    ensures forall u :: u in s.threads && RequestOf(e) != Some(u) ==>
              u in Next(s, e).threads && Next(s, e).threads[u] == s.threads[u]
    ensures (e.BeginLogin? || e.Decoding?) && e.t in s.threads ==> Next(s, e) == s
    ensures e.Stopping? ==> e.t !in Next(s, e).threads && Next(s, e).tokens == s.tokens
  {
    hide Decode, Inserted, Revoked, Linked;
  }

  /** A revocation takes effect: its token is accepted no more, and every other token is as before. */
  lemma RevocationTakesEffect(s: System, jti: Id, now: int, claim: Claim, kind: Kind)
    ensures var after := Next(s, Revoking(jti, now)).tokens;
            && after.Keys == s.tokens.Keys
            && (claim.jti == jti ==> !Decode(after, Some(claim), kind).Done?)
            && (claim.jti != jti ==> Decode(after, Some(claim), kind) == Decode(s.tokens, Some(claim), kind))
  {
  }
}
