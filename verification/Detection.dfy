/** Reuse of a refresh token is caught whenever the token comes back, and the session it kills stays
    dead. */
module Detection {
  import opened Base
  import opened Tables
  import opened Refresh
  import opened TokenForest
  import TokenRuns
  import Login
  import opened System

  /** Superseded by a retry of its parent, or used again long after a successor was used. */
  predicate Tainted(tokens: map<Id, Token>, t: Id, now: Time) {
    t in tokens &&
    (tokens[t].supersededAt.Some? ||
     (tokens[t].rotatedAt.Some? && REFRESH_REUSE_GRACE < now - tokens[t].rotatedAt.value &&
      HasUsedSuccessor(tokens, t)))
  }

  /** Presenting a tainted token in a live session ends the session, and only such a token does. */
  lemma TaintedIsCaught(w: World, client: ClientId, t: Id, canSign: bool)
    requires t in w.db.tokens && Live(w.db.sessions, w.db.tokens[t].session, w.now)
    requires w.db.sessions[w.db.tokens[t].session].client == client
    ensures var out := Grant(w, true, client, t, canSign);
      && (out.reply.Reused? <==> Tainted(w.db.tokens, t, w.now))
      && (out.reply.Reused? ==> out.world.db.sessions[w.db.tokens[t].session].revokedAt == Some(w.now))
  {
  }

  /** A row never changes session or parent, and its marks are never taken back. */
  predicate RowKept(x: Token, y: Token) {
    y.session == x.session && y.parent == x.parent && y.createdAt == x.createdAt &&
    (x.rotatedAt.Some? ==> y.rotatedAt == x.rotatedAt) && (x.supersededAt.Some? ==> y.supersededAt == x.supersededAt)
  }

  ghost predicate RowsKept(before: map<Id, Token>, after: map<Id, Token>) {
    forall t :: t in before && t in after ==> RowKept(before[t], after[t])
  }

  /** Tokens leave only with their whole session. */
  ghost predicate LeaveTogether(before: map<Id, Token>, after: map<Id, Token>) {
    forall t, u :: t in before && u in before && before[t].session == before[u].session && t in after ==> u in after
  }

  lemma TaintKept(before: map<Id, Token>, after: map<Id, Token>, t: Id, now: Time, later: Time)
    requires Parented(before) && RowsKept(before, after) && LeaveTogether(before, after) && now <= later
    requires Tainted(before, t, now)
    ensures t in after ==> Tainted(after, t, later)
  {
    if t in after && before[t].supersededAt.None? {
      assert RowKept(before[t], after[t]);
      var c :| c in before && ChildOf(before, c, t) && before[c].rotatedAt.Some?;
      assert GoodChild(before, c, t);
      assert c in after && RowKept(before[c], after[c]);
      assert ChildOf(after, c, t);
    }
  }

  lemma PresentKeepsMarks(tokens: map<Id, Token>, t: Id, now: Time, next: Id, added: Token)
    requires t in tokens && !Classify(tokens, t, now).Stolen? && next !in tokens
    ensures var after := Present(tokens, t, now)[next := added];
      RowsKept(tokens, Present(tokens, t, now)) && LeaveTogether(tokens, Present(tokens, t, now)) &&
      RowsKept(tokens, after) && LeaveTogether(tokens, after)
  {
    hide Present; hide Classify; hide Presented; hide RowPresented;
    PresentRows(tokens, t, now);
    var presented := Present(tokens, t, now);
    MarksKept(tokens, presented, t, now);
  }

  lemma MarksKept(tokens: map<Id, Token>, after: map<Id, Token>, t: Id, now: Time)
    requires Presented(tokens, after, t, now)
    ensures after.Keys == tokens.Keys && RowsKept(tokens, after)
  {
    forall x | x in tokens && x in after
      ensures RowKept(tokens[x], after[x])
    {
      assert RowPresented(tokens, after, t, x, now);
    }
  }

  lemma FollowKeepsMarks(before: map<Id, Token>, after: map<Id, Token>, sessions: map<Id, Session>)
    requires TokensFollow(before, after, sessions)
    ensures RowsKept(before, after) && LeaveTogether(before, after)
  {
  }

  lemma StepKeepsMarks(w: World, a: Action)
    requires TokenInv(w)
    ensures RowsKept(w.db.tokens, Apply(w, a).db.tokens) && LeaveTogether(w.db.tokens, Apply(w, a).db.tokens)
  {
    hide Conserved; hide Succeeded; hide ForksInGrace; hide Ordered; hide Parented; hide Dated;
    if a.RefreshGrant? {
      GrantKeepsMarks(w, a.knownClient, a.tokenClient, a.token, a.signs);
    } else if a.Exchange? {
      ExchangeKeepsMarks(w, a.known, a.client, a.code, a.redirectUri, a.verifier, a.canSign);
    } else {
      hide Apply;
      TokenRuns.OtherStepsShrink(w, a);
      FollowKeepsMarks(w.db.tokens, Apply(w, a).db.tokens, Apply(w, a).db.sessions);
    }
  }

  lemma GrantKeepsMarks(w: World, known: bool, client: ClientId, t: Id, canSign: bool)
    requires Allocated(w.db.tokens, w.db.sessions, w.db.next)
    ensures var after := Grant(w, known, client, t, canSign).world.db.tokens;
      RowsKept(w.db.tokens, after) && LeaveTogether(w.db.tokens, after)
  {
    hide Grant; hide Present; hide Classify;
    GrantCases(w, known, client, t, canSign);
    if t in w.db.tokens && !Classify(w.db.tokens, t, w.now).Stolen? {
      PresentKeepsMarks(w.db.tokens, t, w.now, w.db.next, Successor(w.db.tokens, t, w.now));
    }
  }

  lemma ExchangeKeepsMarks(w: World, known: bool, client: ClientId, code: Id, uri: string, verifier: string,
                           canSign: bool)
    requires Allocated(w.db.tokens, w.db.sessions, w.db.next)
    ensures var after := Login.Exchange(w, known, client, code, uri, verifier, canSign).world.db.tokens;
      RowsKept(w.db.tokens, after) && LeaveTogether(w.db.tokens, after)
  {
    hide Login.RejectCode; hide Login.PkceMatches; hide Login.CodeUsable;
  }

  /** Tainted tokens stay tainted for as long as they exist. */
  lemma {:induction false} TaintIsPermanent(w: World, actions: seq<Action>, t: Id)
    requires TokenInv(w) && Tainted(w.db.tokens, t, w.now)
    ensures var v := Run(w, actions); t in v.db.tokens ==> Tainted(v.db.tokens, t, v.now)
    decreases |actions|
  {
    hide TokenInv; hide Apply; hide Tainted;
    if actions != [] {
      var v := Apply(w, actions[0]);
      StepKeepsMarks(w, actions[0]);
      Frame(w, actions[0]);
      assert Parented(w.db.tokens) by { ForestParented(w); }
      TaintKept(w.db.tokens, v.db.tokens, t, w.now, v.now);
      TokenRuns.StepKeeps(w, actions[0]);
      if t in v.db.tokens {
        TaintIsPermanent(v, actions[1..], t);
      } else {
        assert t < v.db.next by { TaintedAllocated(w, t); }
        GoneForGood(v, actions[1..], t);
      }
    }
  }

  lemma ForestParented(w: World)
    requires TokenInv(w)
    ensures Parented(w.db.tokens)
  {
  }

  lemma TaintedAllocated(w: World, t: Id)
    requires TokenInv(w) && Tainted(w.db.tokens, t, w.now)
    ensures t < w.db.next
  {
  }

  lemma GrantAddsOne(w: World, known: bool, client: ClientId, token: Id, canSign: bool)
    ensures forall t :: t in Grant(w, known, client, token, canSign).world.db.tokens ==>
              t in w.db.tokens || t == w.db.next
  {
    hide Grant; hide Classify; hide Present; hide Presented;
    GrantCases(w, known, client, token, canSign);
    if token in w.db.tokens && !Classify(w.db.tokens, token, w.now).Stolen? {
      PresentRows(w.db.tokens, token, w.now);
      SameKeys(w.db.tokens, Present(w.db.tokens, token, w.now), token, w.now);
    }
  }

  lemma SameKeys(tokens: map<Id, Token>, after: map<Id, Token>, t: Id, now: Time)
    requires Presented(tokens, after, t, now)
    ensures after.Keys == tokens.Keys
  {
  }

  lemma ExchangeAddsOne(w: World, known: bool, client: ClientId, code: Id, uri: string, verifier: string, canSign: bool)
    ensures forall t :: t in Login.Exchange(w, known, client, code, uri, verifier, canSign).world.db.tokens ==>
              t in w.db.tokens || t == w.db.next + 1
  {
    hide Login.RejectCode; hide Login.PkceMatches; hide Login.CodeUsable;
  }

  /** Identifiers are not reused: a row that is gone does not come back. */
  lemma StepStaysGone(w: World, a: Action, t: Id)
    requires TokenInv(w) && t < w.db.next && t !in w.db.tokens
    ensures t !in Apply(w, a).db.tokens
  {
    hide TokenInv;
    if a.RefreshGrant? {
      hide Grant;
      GrantAddsOne(w, a.knownClient, a.tokenClient, a.token, a.signs);
    } else if a.Exchange? {
      hide Login.Exchange;
      ExchangeAddsOne(w, a.known, a.client, a.code, a.redirectUri, a.verifier, a.canSign);
    } else {
      hide Apply;
      TokenRuns.ForestRooted(w);
      TokenRuns.OtherStepsShrink(w, a);
    }
  }

  lemma {:induction false} GoneForGood(w: World, actions: seq<Action>, t: Id)
    requires TokenInv(w) && t < w.db.next && t !in w.db.tokens
    ensures t !in Run(w, actions).db.tokens
    decreases |actions|
  {
    hide TokenInv; hide Apply;
    if actions != [] {
      StepStaysGone(w, actions[0], t);
      Frame(w, actions[0]);
      TokenRuns.StepKeeps(w, actions[0]);
      GoneForGood(Apply(w, actions[0]), actions[1..], t);
    }
  }

  // ---- A session that is over ----

  /** Revoked, or deleted: no session will ever have this identifier again. */
  predicate Over(db: Db, s: Id) {
    s < db.next && (s in db.sessions ==> db.sessions[s].revokedAt.Some?)
  }

  /** Nothing was issued for session `s` on the way from `w` to `v`. */
  ghost predicate NothingIssued(w: World, v: World, s: Id) {
    && (forall t :: t in v.ledger.issues && v.ledger.issues[t].session == s ==>
          t in w.ledger.issues && w.ledger.issues[t] == v.ledger.issues[t])
    && (forall x :: x in v.ledger.access && x.session == s ==> x in w.ledger.access)
  }

  lemma GrantRefusesOver(w: World, known: bool, client: ClientId, t: Id, canSign: bool, s: Id)
    requires Over(w.db, s)
    ensures var out := Grant(w, known, client, t, canSign);
      Over(out.world.db, s) && NothingIssued(w, out.world, s) &&
      (t in w.db.tokens && w.db.tokens[t].session == s ==> out.world == w && !out.reply.Issued?)
  {
    hide Grant; hide Classify; hide Present;
    GrantCases(w, known, client, t, canSign);
  }

  lemma ExchangeAvoidsOver(w: World, known: bool, client: ClientId, code: Id, uri: string, verifier: string,
                           canSign: bool, s: Id)
    requires Over(w.db, s)
    ensures var v := Login.Exchange(w, known, client, code, uri, verifier, canSign).world;
      Over(v.db, s) && NothingIssued(w, v, s)
  {
    hide Login.PkceMatches;
  }

  lemma StepStaysOver(w: World, a: Action, s: Id)
    requires TokenInv(w) && Over(w.db, s)
    ensures Over(Apply(w, a).db, s) && NothingIssued(w, Apply(w, a), s)
  {
    hide TokenInv;
    if a.RefreshGrant? {
      hide Grant;
      GrantRefusesOver(w, a.knownClient, a.tokenClient, a.token, a.signs, s);
    } else if a.Exchange? {
      hide Login.Exchange;
      ExchangeAvoidsOver(w, a.known, a.client, a.code, a.redirectUri, a.verifier, a.canSign, s);
    } else {
      hide Apply;
      Frame(w, a);
      TokenRuns.ForestRooted(w);
      TokenRuns.OtherStepsShrink(w, a);
    }
  }

  lemma {:induction false} OverForGood(w: World, actions: seq<Action>, s: Id)
    requires TokenInv(w) && Over(w.db, s)
    ensures var v := Run(w, actions);
      Over(v.db, s) && NothingIssued(w, v, s) && FindAuthenticated(v.db, s, v.now).None?
    decreases |actions|
  {
    hide TokenInv; hide Apply;
    if actions != [] {
      StepStaysOver(w, actions[0], s);
      TokenRuns.StepKeeps(w, actions[0]);
      OverForGood(Apply(w, actions[0]), actions[1..], s);
    }
  }

  /** Detection is permanent and total. Take a tainted token in any reachable state. After any further
      run, if the token is presented by its client while its session lives, the session is revoked;
      from then on, after any run at all, nothing is issued for that session, its tokens are refused and
      no access token of it finds an account. */
  lemma DetectionIsPermanent(start: Time, history: seq<Action>, meanwhile: seq<Action>, t: Id, client: ClientId,
                             canSign: bool, afterwards: seq<Action>)
    requires var w := Run(Init(start), history); Tainted(w.db.tokens, t, w.now)
    requires var v := Run(Run(Init(start), history), meanwhile);
      t in v.db.tokens && Live(v.db.sessions, v.db.tokens[t].session, v.now) &&
      v.db.sessions[v.db.tokens[t].session].client == client
    ensures var v := Run(Run(Init(start), history), meanwhile);
      var s := v.db.tokens[t].session;
      var caught := Grant(v, true, client, t, canSign);
      var end := Run(caught.world, afterwards);
      && caught.reply.Reused?
      && NothingIssued(caught.world, end, s)
      && FindAuthenticated(end.db, s, end.now).None?
      && forall u, anyone :: u in end.db.tokens && end.db.tokens[u].session == s ==>
           !Grant(end, true, anyone, u, true).reply.Issued?
  {
    hide TokenInv; hide Run; hide Grant; hide Tainted;
    TokenRuns.Always(start, history);
    var w := Run(Init(start), history);
    TokenRuns.RunKeeps(w, meanwhile);
    TaintIsPermanent(w, meanwhile, t);
    var v := Run(w, meanwhile);
    var s := v.db.tokens[t].session;
    TaintedIsCaught(v, client, t, canSign);
    var caught := Grant(v, true, client, t, canSign);
    TokenRuns.RefreshKeeps(v, true, client, t, canSign);
    assert s < v.db.next by { SessionAllocated(v, s); }
    OverForGood(caught.world, afterwards, s);
    var end := Run(caught.world, afterwards);
    forall u, anyone | u in end.db.tokens && end.db.tokens[u].session == s
      ensures !Grant(end, true, anyone, u, true).reply.Issued?
    {
      GrantRefusesOver(end, true, anyone, u, true, s);
    }
  }

  lemma SessionAllocated(w: World, s: Id)
    requires TokenInv(w) && s in w.db.sessions
    ensures s < w.db.next
  {
  }

  // ---- Access tokens cannot outlive their session for long ----

  ghost predicate SessionTerms(sessions: map<Id, Session>, openings: map<Id, Opening>, next: Id) {
    forall s :: s in sessions ==>
      s < next && s in openings && sessions[s].expiresAt == openings[s].at + SESSION_TTL
  }

  ghost predicate AccessTerms(access: set<AccessToken>, openings: map<Id, Opening>, next: Id) {
    forall x :: x in access ==>
      x.session < next && x.session in openings &&
      x.expiresAt <= openings[x.session].at + SESSION_TTL + ACCESS_TOKEN_TTL
  }

  ghost predicate AccessInv(w: World) {
    SessionTerms(w.db.sessions, w.ledger.openings, w.db.next) &&
    AccessTerms(w.ledger.access, w.ledger.openings, w.db.next)
  }

  lemma ShrinkKeepsAccess(w: World, v: World)
    requires AccessInv(w) && SessionsShrink(w.db.sessions, v.db.sessions) && w.db.next <= v.db.next
    requires v.ledger.openings == w.ledger.openings && v.ledger.access == w.ledger.access
    ensures AccessInv(v)
  {
  }

  lemma GrantKeepsAccess(w: World, known: bool, client: ClientId, t: Id, canSign: bool)
    requires AccessInv(w)
    ensures AccessInv(Grant(w, known, client, t, canSign).world)
  {
    hide Grant; hide Classify; hide Present; hide RevokeSession;
    GrantCases(w, known, client, t, canSign);
    var out := Grant(w, known, client, t, canSign);
    if out.reply.Reused? || out.reply.AccountDisabled? {
      TokenRuns.RevokeShrinks(w.db.sessions, w.db.tokens[t].session, w.now);
      ShrinkKeepsAccess(w, out.world);
    }
  }

  lemma ExchangeKeepsAccess(w: World, known: bool, client: ClientId, code: Id, uri: string, verifier: string,
                            canSign: bool)
    requires AccessInv(w)
    ensures AccessInv(Login.Exchange(w, known, client, code, uri, verifier, canSign).world)
  {
    hide Login.PkceMatches; hide Login.CodeUsable;
  }

  lemma StepKeepsAccess(w: World, a: Action)
    requires TokenInv(w) && AccessInv(w)
    ensures AccessInv(Apply(w, a))
  {
    hide TokenInv;
    if a.RefreshGrant? {
      hide AccessInv; hide Grant;
      GrantKeepsAccess(w, a.knownClient, a.tokenClient, a.token, a.signs);
    } else if a.Exchange? {
      hide AccessInv; hide Login.Exchange;
      ExchangeKeepsAccess(w, a.known, a.client, a.code, a.redirectUri, a.verifier, a.canSign);
    } else {
      hide Apply; hide AccessInv; hide Rooted;
      Frame(w, a);
      TokenRuns.ForestRooted(w);
      TokenRuns.OtherStepsShrink(w, a);
      ShrinkKeepsAccess(w, Apply(w, a));
    }
  }

  lemma {:induction false} RunKeepsAccess(w: World, actions: seq<Action>)
    requires TokenInv(w) && AccessInv(w)
    ensures AccessInv(Run(w, actions))
    decreases |actions|
  {
    hide TokenInv; hide AccessInv; hide Apply;
    if actions != [] {
      StepKeepsAccess(w, actions[0]);
      TokenRuns.StepKeeps(w, actions[0]);
      RunKeepsAccess(Apply(w, actions[0]), actions[1..]);
    }
  }

  /** Every access token ever issued expires at most 15 minutes after the 30-day limit fixed when its
      session opened, however often the session was refreshed. */
  lemma AccessIsBounded(start: Time, actions: seq<Action>, x: AccessToken)
    requires x in Run(Init(start), actions).ledger.access
    ensures var openings := Run(Init(start), actions).ledger.openings;
      x.session in openings && x.expiresAt <= openings[x.session].at + SESSION_TTL + ACCESS_TOKEN_TTL
  {
    hide Run;
    TokenRuns.RunKeeps(Init(start), []);
    RunKeepsAccess(Init(start), actions);
  }
}
