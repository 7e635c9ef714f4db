/**
 Refresh-token rotation: decoding, the compare-and-set that spends a token, the insertion of the new pair, and the link
 from the old token to the new one are separate transactions that any number of requests may interleave.
 */
module RefreshTokens {
  import opened Results

  datatype Id = Id(text: string)

  datatype Kind = Access | Refresh

  datatype Token = Token(kind: Kind, subject: string, expires: int, revoked: Option<int>, replacedBy: Option<Id>)

  type Table = map<Id, Token>

  /** The claims of a token whose signature, times and principal are good. */
  datatype Claim = Claim(jti: Id, kind: Kind, subject: string)

  /** `InvalidToken`, `TokenReplay`, and the database's refusal of a repeated identifier. */
  datatype Answer<+T> = Done(value: T) | Invalid | Replay | Conflict

  // ---------------------------------------------------------------- one transaction each

  /** `_decode`: the state part, after the JWT checks; `None` stands for a token they refuse. */
  function Decode(tokens: Table, claim: Option<Claim>, kind: Kind): Answer<Claim> {
    if claim.None? || claim.value.kind != kind then Invalid
    else if claim.value.jti !in tokens || tokens[claim.value.jti].kind != kind then Invalid
    else if tokens[claim.value.jti].revoked.Some? then if kind == Refresh then Replay else Invalid
    else Done(claim.value)
  }

  function Inserted(tokens: Table, jti: Id, kind: Kind, subject: string, expires: int): Table {
    tokens[jti := Token(kind, subject, expires, None, None)]
  }

  /** `UPDATE tokens SET revoked_at=? WHERE jti=? AND revoked_at IS NULL`; whether a row changed. */
  predicate Swaps(tokens: Table, jti: Id) {
    jti in tokens && tokens[jti].revoked.None?
  }

  /** `UPDATE tokens SET revoked_at=? WHERE jti=?` */
  function Revoked(tokens: Table, jti: Id, now: int): Table {
    if jti in tokens then tokens[jti := tokens[jti].(revoked := Some(now))] else tokens
  }

  /** `UPDATE tokens SET replaced_by=? WHERE jti=?` */
  function Linked(tokens: Table, jti: Id, successor: Id): Table {
    if jti in tokens then tokens[jti := tokens[jti].(replacedBy := Some(successor))] else tokens
  }

  /** The identifiers and expiry times of a new pair. */
  datatype Pair = Pair(access: Id, refresh: Id, accessExpires: int, refreshExpires: int)

  /** `issue_pair`, undisturbed; an insertion that succeeded stays when the next one is refused. */
  function IssueStep(tokens: Table, subject: string, pair: Pair): (Table, Answer<()>) {
    if pair.access in tokens then (tokens, Conflict)
    else
      var half := Inserted(tokens, pair.access, Access, subject, pair.accessExpires);
      if pair.refresh in half then (half, Conflict)
      else (Inserted(half, pair.refresh, Refresh, subject, pair.refreshExpires), Done(()))
  }

  /** `refresh`, undisturbed. */
  function RefreshStep(tokens: Table, claim: Option<Claim>, pair: Pair, now: int): (Table, Answer<()>) {
    var decoded := Decode(tokens, claim, Refresh);
    if !decoded.Done? then (tokens, if decoded.Replay? then Replay else Invalid)
    else
      var jti := decoded.value.jti;
      if !Swaps(tokens, jti) then (tokens, Replay)
      else
        var (issued, answer) := IssueStep(Revoked(tokens, jti, now), decoded.value.subject, pair);
        if answer.Done? then (Linked(issued, jti, pair.refresh), Done(())) else (issued, answer)
  }

  class AuthService {
    var tokens: Table

    constructor ()
      ensures tokens == map[]
    {
      tokens := map[];
    }

    method Record(jti: Id, kind: Kind, subject: string, expires: int) returns (ok: bool)
      modifies this
      ensures ok <==> jti !in old(tokens)
      ensures tokens == if ok then Inserted(old(tokens), jti, kind, subject, expires) else old(tokens)
    {
      if jti in tokens { return false; }
      tokens := tokens[jti := Token(kind, subject, expires, None, None)];
      ok := true;
    }

    method IssuePair(subject: string, pair: Pair) returns (r: Answer<()>)
      modifies this
      ensures (tokens, r) == IssueStep(old(tokens), subject, pair)
    {
      var first := Record(pair.access, Access, subject, pair.accessExpires);
      if !first { return Conflict; }
      var second := Record(pair.refresh, Refresh, subject, pair.refreshExpires);
      if !second { return Conflict; }
      r := Done(());
    }

    method Rotate(claim: Option<Claim>, pair: Pair, now: int) returns (r: Answer<()>)
      modifies this
      ensures (tokens, r) == RefreshStep(old(tokens), claim, pair, now)
    {
      var decoded := Decode(tokens, claim, Refresh);
      if decoded.Invalid? { return Invalid; }
      if decoded.Replay? { return Replay; }
      var jti := decoded.value.jti;
      if !(jti in tokens && tokens[jti].revoked.None?) { return Replay; }
      tokens := tokens[jti := tokens[jti].(revoked := Some(now))];
      r := IssuePair(decoded.value.subject, pair);
      if !r.Done? { return; }
      if jti in tokens { tokens := tokens[jti := tokens[jti].(replacedBy := Some(pair.refresh))]; }
    }

    method Revoke(claim: Option<Claim>, kind: Kind, now: int) returns (r: Answer<()>)
      modifies this
      ensures tokens == if Decode(old(tokens), claim, kind).Done?
                        then Revoked(old(tokens), claim.value.jti, now) else old(tokens)
      ensures r.Done? <==> Decode(old(tokens), claim, kind).Done?
    {
      var decoded := Decode(tokens, claim, kind);
      if !decoded.Done? { return Invalid; }
      var jti := decoded.value.jti;
      tokens := tokens[jti := tokens[jti].(revoked := Some(now))];
      r := Done(());
    }
  }

  // ---------------------------------------------------------------- concurrent requests

  /** How far a request has come between its transactions. */
  datatype Thread =
    | LoginStarted(subject: string) | LoginHalf(subject: string)
    | Decoded(jti: Id, subject: string) | Exchanging(jti: Id, subject: string) | HalfIssued(jti: Id, subject: string)
    | Issued(jti: Id, successor: Id)

  /** Which token a refresh token was issued for (`None` for a login), and its place in the order of issue. */
  datatype Origin = Origin(parent: Option<Id>, rank: nat)

  /** The table, the requests in flight, and history: the exchanges in order, the origin of every refresh token, and
      the number of logins that got their pair. */
  datatype System = System(tokens: Table, threads: map<nat, Thread>, exchanged: seq<Id>, origins: map<Id, Origin>,
                           logins: nat)

  const IDLE := System(map[], map[], [], map[], 0)

  datatype Event =
    | BeginLogin(t: nat, subject: string)
    | Decoding(t: nat, claim: Option<Claim>)
    | Swapping(t: nat, now: int)
    | InsertingAccess(t: nat, jti: Id, expires: int)
    | InsertingRefresh(t: nat, jti: Id, expires: int)
    | Linking(t: nat)
    | Revoking(jti: Id, now: int)
    | Stopping(t: nat)

  function Dropped(s: System, t: nat): System { s.(threads := s.threads - {t}) }

  function SwapNext(s: System, t: nat, now: int): System {
    if t !in s.threads || !s.threads[t].Decoded? then s
    else
      var jti := s.threads[t].jti;
      if !Swaps(s.tokens, jti) then Dropped(s, t)
      else s.(tokens := Revoked(s.tokens, jti, now), exchanged := s.exchanged + [jti],
              threads := s.threads[t := Exchanging(jti, s.threads[t].subject)])
  }

  function AccessNext(s: System, t: nat, jti: Id, expires: int): System {
    if t !in s.threads || !(s.threads[t].LoginStarted? || s.threads[t].Exchanging?) then s
    else if jti in s.tokens then Dropped(s, t)
    else
      var subject := s.threads[t].subject;
      s.(tokens := Inserted(s.tokens, jti, Access, subject, expires),
         threads := s.threads[t := if s.threads[t].LoginStarted? then LoginHalf(subject)
                                   else HalfIssued(s.threads[t].jti, subject)])
  }

  function RefreshNext(s: System, t: nat, jti: Id, expires: int): System {
    if t !in s.threads || !(s.threads[t].LoginHalf? || s.threads[t].HalfIssued?) then s
    else if jti in s.tokens then Dropped(s, t)
    else
      var login := s.threads[t].LoginHalf?;
      s.(tokens := Inserted(s.tokens, jti, Refresh, s.threads[t].subject, expires),
         origins := s.origins[jti := Origin(if login then None else Some(s.threads[t].jti), |s.origins|)],
         logins := if login then s.logins + 1 else s.logins,
         threads := if login then s.threads - {t} else s.threads[t := Issued(s.threads[t].jti, jti)])
  }

  function LinkNext(s: System, t: nat): System {
    if t !in s.threads || !s.threads[t].Issued? then s
    else s.(tokens := Linked(s.tokens, s.threads[t].jti, s.threads[t].successor), threads := s.threads - {t})
  }

  function Next(s: System, e: Event): System {
    match e
    case BeginLogin(t, subject) => if t in s.threads then s else s.(threads := s.threads[t := LoginStarted(subject)])
    case Decoding(t, claim) =>
      var decoded := Decode(s.tokens, claim, Refresh);
      if t in s.threads || !decoded.Done? then s
      else s.(threads := s.threads[t := Decoded(decoded.value.jti, decoded.value.subject)])
    case Swapping(t, now) => SwapNext(s, t, now)
    case InsertingAccess(t, jti, expires) => AccessNext(s, t, jti, expires)
    case InsertingRefresh(t, jti, expires) => RefreshNext(s, t, jti, expires)
    case Linking(t) => LinkNext(s, t)
    case Revoking(jti, now) => s.(tokens := Revoked(s.tokens, jti, now))
    case Stopping(t) => Dropped(s, t)
  }

  function After(es: seq<Event>, n: nat): System
    requires n <= |es|
  {
    if n == 0 then IDLE else Next(After(es, n - 1), es[n - 1])
  }

  // ---------------------------------------------------------------- what every step keeps

  /** The refresh tokens of the table are the issued ones. */
  ghost predicate Issuances(s: System) {
    && (forall j :: j in s.origins ==> j in s.tokens && s.tokens[j].kind == Refresh)
    && (forall j :: j in s.tokens && s.tokens[j].kind == Refresh ==> j in s.origins)
  }

  ghost predicate AfterParent(origins: map<Id, Origin>, j: Id)
    requires j in origins
  {
    && origins[j].rank < |origins|
    && (origins[j].parent.Some? ==>
          origins[j].parent.value in origins && origins[origins[j].parent.value].rank < origins[j].rank)
  }

  /** Each refresh token was issued after the token it was issued for. */
  ghost predicate Ranked(s: System) {
    forall j {:trigger AfterParent(s.origins, j)} :: j in s.origins ==> AfterParent(s.origins, j)
  }

  /** The link of a token leads to a token issued for it. */
  ghost predicate LinksBack(s: System) {
    && (forall j :: j in s.tokens && s.tokens[j].replacedBy.Some? ==> IssuedFor(s.origins, s.tokens[j].replacedBy.value, j))
    && (forall t :: t in s.threads && s.threads[t].Issued? ==>
          IssuedFor(s.origins, s.threads[t].successor, s.threads[t].jti))
  }

  ghost predicate IssuedFor(origins: map<Id, Origin>, j: Id, parent: Id) {
    j in origins && origins[j].parent == Some(parent)
  }

  predicate Spending(t: Thread) { t.Exchanging? || t.HalfIssued? || t.Issued? }

  /** An exchange is recorded once, spends its token, and belongs to one request. */
  ghost predicate Spent(s: System) {
    && Distinct(s.exchanged)
    && (forall j :: j in s.exchanged ==> j in s.tokens && s.tokens[j].revoked.Some?)
    && (forall t :: t in s.threads && Spending(s.threads[t]) ==> s.threads[t].jti in s.exchanged)
    && (forall t, u :: t in s.threads && u in s.threads && t != u && Spending(s.threads[t]) && Spending(s.threads[u]) ==>
          s.threads[t].jti != s.threads[u].jti)
  }

  /** A request still about to issue has issued nothing yet, and no token has two successors. */
  ghost predicate OneSuccessor(s: System) {
    && (forall j, p :: IssuedFor(s.origins, j, p) ==> p in s.exchanged)
    && (forall t, j :: t in s.threads && (s.threads[t].Exchanging? || s.threads[t].HalfIssued?) ==>
          !IssuedFor(s.origins, j, s.threads[t].jti))
    && (forall j, k, p :: IssuedFor(s.origins, j, p) && IssuedFor(s.origins, k, p) ==> j == k)
  }

  /** A decoded token is a refresh token of the table. */
  ghost predicate Grounded(s: System) {
    forall t :: t in s.threads && (s.threads[t].Decoded? || s.threads[t].Exchanging? || s.threads[t].HalfIssued?) ==>
      s.threads[t].jti in s.origins
  }

  function Live(tokens: Table): set<Id> {
    set j | j in tokens && tokens[j].kind == Refresh && tokens[j].revoked.None?
  }

  function Owed(threads: map<nat, Thread>): set<nat> {
    set t | t in threads && (threads[t].Exchanging? || threads[t].HalfIssued?)
  }

  /** Live tokens and tokens about to be issued are covered by logins. */
  ghost predicate Covered(s: System) {
    |Live(s.tokens)| + |Owed(s.threads)| <= s.logins
  }

  ghost predicate Inv(s: System) {
    Lineage(s) && Grounded(s) && Covered(s)
  }

  /** `Ranked` reads only the origins, and a new token is issued last. */
  lemma RefreshKeepsRanked(s: System, t: nat, jti: Id, expires: int)
    requires Issuances(s) && Ranked(s) && Grounded(s)
    ensures Ranked(RefreshNext(s, t, jti, expires))
  {
    var after := RefreshNext(s, t, jti, expires);
    if after.origins != s.origins {
      assert jti !in s.origins && |after.origins| == |s.origins| + 1;
      forall j | j in after.origins ensures AfterParent(after.origins, j) {
        if j != jti { assert AfterParent(s.origins, j); }
        else if after.origins[j].parent.Some? { assert AfterParent(s.origins, after.origins[j].parent.value); }
      }
    }
  }

  lemma SwapKeepsIssuances(s: System, t: nat, now: int)
    requires Issuances(s)
    ensures Issuances(SwapNext(s, t, now))
  {
  }

  lemma SwapKeepsLinks(s: System, t: nat, now: int)
    requires Issuances(s) && LinksBack(s)
    ensures LinksBack(SwapNext(s, t, now))
  {
  }

  lemma SwapKeepsSpent(s: System, t: nat, now: int)
    requires Spent(s)
    ensures Spent(SwapNext(s, t, now))
  {
  }

  lemma SwapKeepsSuccessor(s: System, t: nat, now: int)
    requires Issuances(s) && Spent(s) && OneSuccessor(s)
    ensures OneSuccessor(SwapNext(s, t, now))
  {
  }

  lemma AccessKeepsIssuances(s: System, t: nat, jti: Id, expires: int)
    requires Issuances(s)
    ensures Issuances(AccessNext(s, t, jti, expires))
  {
  }

  lemma AccessKeepsLinks(s: System, t: nat, jti: Id, expires: int)
    requires Issuances(s) && LinksBack(s)
    ensures LinksBack(AccessNext(s, t, jti, expires))
  {
  }

  lemma AccessKeepsSpent(s: System, t: nat, jti: Id, expires: int)
    requires Spent(s)
    ensures Spent(AccessNext(s, t, jti, expires))
  {
  }

  lemma AccessKeepsSuccessor(s: System, t: nat, jti: Id, expires: int)
    requires Issuances(s) && Spent(s) && OneSuccessor(s)
    ensures OneSuccessor(AccessNext(s, t, jti, expires))
  {
  }

  lemma RefreshKeepsIssuances(s: System, t: nat, jti: Id, expires: int)
    requires Issuances(s)
    ensures Issuances(RefreshNext(s, t, jti, expires))
  {
  }

  lemma RefreshKeepsLinks(s: System, t: nat, jti: Id, expires: int)
    requires Issuances(s) && LinksBack(s)
    ensures LinksBack(RefreshNext(s, t, jti, expires))
  {
  }

  lemma RefreshKeepsSpent(s: System, t: nat, jti: Id, expires: int)
    requires Spent(s)
    ensures Spent(RefreshNext(s, t, jti, expires))
  {
  }

  /** The only token issued for another by this step is the new one, for the token its request exchanged. */
  lemma RefreshIssues(s: System, t: nat, jti: Id, expires: int, j: Id, p: Id)
    requires Issuances(s)
    ensures var after := RefreshNext(s, t, jti, expires);
            IssuedFor(after.origins, j, p)
            <==> IssuedFor(s.origins, j, p)
                 || (after != s && j == jti && jti !in s.tokens && t in s.threads
                     && s.threads[t].HalfIssued? && p == s.threads[t].jti)
  {
  }

  lemma RefreshKeepsSuccessor(s: System, t: nat, jti: Id, expires: int)
    requires Issuances(s) && Spent(s) && OneSuccessor(s)
    ensures OneSuccessor(RefreshNext(s, t, jti, expires))
  {
    var after := RefreshNext(s, t, jti, expires);
    forall j, p
      ensures IssuedFor(after.origins, j, p)
              <==> IssuedFor(s.origins, j, p)
                   || (after != s && j == jti && jti !in s.tokens && t in s.threads
                       && s.threads[t].HalfIssued? && p == s.threads[t].jti)
    {
      RefreshIssues(s, t, jti, expires, j, p);
    }
    hide IssuedFor, Issuances, Inserted;
  }

  lemma LinkKeepsIssuances(s: System, t: nat)
    requires Issuances(s)
    ensures Issuances(LinkNext(s, t))
  {
  }

  lemma LinkKeepsLinks(s: System, t: nat)
    requires Issuances(s) && LinksBack(s)
    ensures LinksBack(LinkNext(s, t))
  {
  }

  lemma LinkKeepsSpent(s: System, t: nat)
    requires Spent(s)
    ensures Spent(LinkNext(s, t))
  {
  }

  lemma LinkKeepsSuccessor(s: System, t: nat)
    requires Issuances(s) && Spent(s) && OneSuccessor(s)
    ensures OneSuccessor(LinkNext(s, t))
  {
  }

  lemma RevokeKeepsIssuances(s: System, jti: Id, now: int)
    requires Issuances(s)
    ensures Issuances(s.(tokens := Revoked(s.tokens, jti, now)))
  {
  }

  lemma RevokeKeepsLinks(s: System, jti: Id, now: int)
    requires Issuances(s) && LinksBack(s)
    ensures LinksBack(s.(tokens := Revoked(s.tokens, jti, now)))
  {
  }

  lemma RevokeKeepsSpent(s: System, jti: Id, now: int)
    requires Spent(s)
    ensures Spent(s.(tokens := Revoked(s.tokens, jti, now)))
  {
  }

  lemma RevokeKeepsSuccessor(s: System, jti: Id, now: int)
    requires Issuances(s) && Spent(s) && OneSuccessor(s)
    ensures OneSuccessor(s.(tokens := Revoked(s.tokens, jti, now)))
  {
  }

  /** Requests may come and go, as long as the new ones hold no spent token. */
  ghost predicate OnlyThreads(s: System, after: System) {
    && after == s.(threads := after.threads)
    && forall t :: t in after.threads && Spending(after.threads[t]) ==> t in s.threads && after.threads[t] == s.threads[t]
  }

  lemma ThreadsKeepLineage(s: System, after: System)
    requires LinksBack(s) && Spent(s) && OneSuccessor(s) && OnlyThreads(s, after)
    ensures LinksBack(after) && Spent(after) && OneSuccessor(after)
  {
  }

  ghost predicate Lineage(s: System) {
    Issuances(s) && Ranked(s) && LinksBack(s) && Spent(s) && OneSuccessor(s)
  }

  lemma NextKeepsLineage(s: System, e: Event)
    requires Lineage(s) && Grounded(s)
    ensures Lineage(Next(s, e))
  {
    if e.InsertingRefresh? { RefreshKeepsRanked(s, e.t, e.jti, e.expires); }
    hide AfterParent, LinksBack, Spent, OneSuccessor, Grounded, Decode, Revoked;
    assert Ranked(Next(s, e));
    assert !e.Swapping? && !e.InsertingAccess? && !e.InsertingRefresh? && !e.Linking? && !e.Revoking? ==>
      Issuances(Next(s, e));
    hide Issuances, Ranked, SwapNext, AccessNext, RefreshNext, LinkNext;
    match e
    case Swapping(t, now) =>
      SwapKeepsIssuances(s, t, now); SwapKeepsLinks(s, t, now); SwapKeepsSpent(s, t, now); SwapKeepsSuccessor(s, t, now);
    case InsertingAccess(t, jti, expires) =>
      AccessKeepsIssuances(s, t, jti, expires); AccessKeepsLinks(s, t, jti, expires);
      AccessKeepsSpent(s, t, jti, expires); AccessKeepsSuccessor(s, t, jti, expires);
    case InsertingRefresh(t, jti, expires) =>
      RefreshKeepsIssuances(s, t, jti, expires); RefreshKeepsLinks(s, t, jti, expires);
      RefreshKeepsSpent(s, t, jti, expires); RefreshKeepsSuccessor(s, t, jti, expires);
    case Linking(t) =>
      LinkKeepsIssuances(s, t); LinkKeepsLinks(s, t); LinkKeepsSpent(s, t); LinkKeepsSuccessor(s, t);
    case Revoking(jti, now) =>
      RevokeKeepsIssuances(s, jti, now); RevokeKeepsLinks(s, jti, now);
      RevokeKeepsSpent(s, jti, now); RevokeKeepsSuccessor(s, jti, now);
    case _ => ThreadsKeepLineage(s, Next(s, e));
  }

  lemma NextKeepsGrounded(s: System, e: Event)
    requires Issuances(s) && Grounded(s)
    ensures Grounded(Next(s, e))
  {
  }

  lemma Subset<T>(a: set<T>, b: set<T>)
    requires a <= b
    ensures |a| <= |b|
  {
    assert b == a + (b - a);
  }

  lemma FewerIsCovered(s: System, after: System)
    requires Covered(s) && after.logins == s.logins
    requires Live(after.tokens) <= Live(s.tokens) && Owed(after.threads) <= Owed(s.threads)
    ensures Covered(after)
  {
    Subset(Live(after.tokens), Live(s.tokens));
    Subset(Owed(after.threads), Owed(s.threads));
  }

  /** Spending a live token pays for the request that spent it. */
  lemma SwapIsCovered(s: System, t: nat, now: int)
    requires Issuances(s) && Grounded(s) && Covered(s)
    ensures Covered(SwapNext(s, t, now))
  {
    var after := SwapNext(s, t, now);
    if t in s.threads && s.threads[t].Decoded? && Swaps(s.tokens, s.threads[t].jti) {
      var jti := s.threads[t].jti;
      assert jti in Live(s.tokens);
      assert Live(after.tokens) == Live(s.tokens) - {jti};
      assert Owed(after.threads) == Owed(s.threads) + {t};
    } else {
      FewerIsCovered(s, after);
    }
  }

  lemma AccessIsCovered(s: System, t: nat, jti: Id, expires: int)
    requires Covered(s)
    ensures Covered(AccessNext(s, t, jti, expires))
  {
    FewerIsCovered(s, AccessNext(s, t, jti, expires));
  }

  lemma LiveAfterInsert(tokens: Table, jti: Id, subject: string, expires: int)
    requires jti !in tokens
    ensures |Live(Inserted(tokens, jti, Refresh, subject, expires))| == |Live(tokens)| + 1
  {
    assert Live(Inserted(tokens, jti, Refresh, subject, expires)) == Live(tokens) + {jti};
  }

  lemma OwedWithout(threads: map<nat, Thread>, t: nat)
    requires t in threads && threads[t].LoginHalf?
    ensures |Owed(threads - {t})| == |Owed(threads)|
  {
    assert Owed(threads - {t}) == Owed(threads);
  }

  lemma OwedReplaced(threads: map<nat, Thread>, t: nat, thread: Thread)
    requires t in threads && threads[t].HalfIssued? && thread.Issued?
    ensures |Owed(threads[t := thread])| == |Owed(threads)| - 1
  {
    assert Owed(threads[t := thread]) == Owed(threads) - {t};
  }

  /** Issuing is paid for by the request that owes it, or by the login. */
  lemma RefreshIsCovered(s: System, t: nat, jti: Id, expires: int)
    requires Covered(s)
    ensures Covered(RefreshNext(s, t, jti, expires))
  {
    var after := RefreshNext(s, t, jti, expires);
    if t in s.threads && (s.threads[t].LoginHalf? || s.threads[t].HalfIssued?) && jti !in s.tokens {
      LiveAfterInsert(s.tokens, jti, s.threads[t].subject, expires);
      if s.threads[t].LoginHalf? { OwedWithout(s.threads, t); } else { OwedReplaced(s.threads, t, after.threads[t]); }
    } else {
      FewerIsCovered(s, after);
    }
  }

  lemma LinkIsCovered(s: System, t: nat)
    requires Covered(s)
    ensures Covered(LinkNext(s, t))
  {
    FewerIsCovered(s, LinkNext(s, t));
  }

  lemma NextKeepsCovered(s: System, e: Event)
    requires Issuances(s) && Grounded(s) && Covered(s)
    ensures Covered(Next(s, e))
  {
    hide Issuances, Grounded, Decode, SwapNext, AccessNext, RefreshNext, LinkNext;
    match e
    case Swapping(t, now) => SwapIsCovered(s, t, now);
    case InsertingAccess(t, jti, expires) => AccessIsCovered(s, t, jti, expires);
    case InsertingRefresh(t, jti, expires) => RefreshIsCovered(s, t, jti, expires);
    case Linking(t) => LinkIsCovered(s, t);
    case _ => FewerIsCovered(s, Next(s, e));
  }

  lemma {:induction false} RunKeepsInv(es: seq<Event>, n: nat)
    requires n <= |es|
    ensures Inv(After(es, n))
  {
    if n > 0 {
      RunKeepsInv(es, n - 1);
      var s := After(es, n - 1);
      hide Next, Issuances, Ranked, LinksBack, Spent, OneSuccessor, Grounded, Covered;
      NextKeepsLineage(s, es[n - 1]);
      NextKeepsGrounded(s, es[n - 1]);
      NextKeepsCovered(s, es[n - 1]);
    }
  }

  // ---------------------------------------------------------------- main results

  /** Linear use: in every interleaving each refresh token is exchanged at most once, and at most one refresh token is
      ever issued for it. */
  lemma ExchangedOnce(es: seq<Event>, i: nat, j: nat)
    requires i < j < |After(es, |es|).exchanged|
    ensures After(es, |es|).exchanged[i] != After(es, |es|).exchanged[j]
  {
    RunKeepsInv(es, |es|);
    hide After;
  }

  lemma OneSuccessorEach(es: seq<Event>, a: Id, b: Id)
    requires a in After(es, |es|).origins && b in After(es, |es|).origins
    requires After(es, |es|).origins[a].parent.Some?
    requires After(es, |es|).origins[a].parent == After(es, |es|).origins[b].parent
    ensures a == b
  {
    RunKeepsInv(es, |es|);
    hide After;
    var s := After(es, |es|);
    assert IssuedFor(s.origins, a, s.origins[a].parent.value) && IssuedFor(s.origins, b, s.origins[a].parent.value);
  }

  /** `replaced_by` is injective. */
  lemma ReplacedByIsInjective(es: seq<Event>, a: Id, b: Id)
    requires a in After(es, |es|).tokens && b in After(es, |es|).tokens
    requires After(es, |es|).tokens[a].replacedBy.Some?
    requires After(es, |es|).tokens[a].replacedBy == After(es, |es|).tokens[b].replacedBy
    ensures a == b
  {
    RunKeepsInv(es, |es|);
    hide After;
  }

  /** A chain of links, from each token to the one that replaced it. */
  predicate Chain(tokens: Table, path: seq<Id>) {
    forall i :: 0 <= i < |path| - 1 ==> path[i] in tokens && tokens[path[i]].replacedBy == Some(path[i + 1])
  }

  lemma {:induction false} ChainClimbs(s: System, path: seq<Id>, i: nat, j: nat)
    requires Ranked(s) && LinksBack(s) && Chain(s.tokens, path) && i < j < |path|
    ensures path[i] in s.origins && path[j] in s.origins && s.origins[path[i]].rank < s.origins[path[j]].rank
  {
    assert IssuedFor(s.origins, path[j], path[j - 1]);
    assert AfterParent(s.origins, path[j]);
    if i < j - 1 { ChainClimbs(s, path, i, j - 1); }
  }

  /** `replaced_by` is acyclic: no chain of links comes back to a token it has passed. */
  lemma ReplacedByIsAcyclic(es: seq<Event>, path: seq<Id>, i: nat, j: nat)
    requires Chain(After(es, |es|).tokens, path) && i < j < |path|
    ensures path[i] != path[j]
  {
    RunKeepsInv(es, |es|);
    hide After;
    ChainClimbs(After(es, |es|), path, i, j);
  }

  /** Unrevoked refresh tokens never outnumber successful logins. */
  lemma LiveTokensAreCoveredByLogins(es: seq<Event>)
    ensures |Live(After(es, |es|).tokens)| <= After(es, |es|).logins
  {
    RunKeepsInv(es, |es|);
    hide After;
  }

  /** Undisturbed, a rotation spends its token: the same claim is refused as a replay ever after the first use. */
  lemma SecondUseIsReplay(tokens: Table, claim: Option<Claim>, pair: Pair, now: int, again: Pair, later: int)
    requires Decode(tokens, claim, Refresh).Done?
    ensures var (after, _) := RefreshStep(tokens, claim, pair, now);
            RefreshStep(after, claim, again, later) == (after, Replay)
  {
  }
}
