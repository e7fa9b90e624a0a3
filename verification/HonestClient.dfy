/** An app that keeps its tokens to itself and presents the last one it received, again if no answer
    came, is never taken for a thief. */
module HonestClient {
  import opened Base
  import opened Tables
  import opened Refresh
  import opened TokenForest
  import TokenRuns
  import Detection
  import Login
  import opened System

  /** The app's own refreshes, each answered or lost on the way back, and anything else happening to the
      server in between. */
  datatype Move = Send(canSign: bool, delivered: bool) | Elsewhere(action: Action)

  datatype Talk = Talk(world: World, held: Id)

  function Step(k: Talk, client: ClientId, m: Move): Talk {
    match m
    case Send(canSign, delivered) =>
      var out := Grant(k.world, true, client, k.held, canSign);
      Talk(out.world, if delivered && out.reply.Issued? then out.reply.token else k.held)
    case Elsewhere(a) => Talk(Apply(k.world, a), k.held)
  }

  /** Nobody else presents a token of session `s`. */
  predicate Private(k: Talk, s: Id, m: Move) {
    m.Elsewhere? && m.action.RefreshGrant? && m.action.token in k.world.db.tokens ==>
      k.world.db.tokens[m.action.token].session != s
  }

  function Converse(k: Talk, client: ClientId, moves: seq<Move>): Talk
    decreases |moves|
  {
    if moves == [] then k else Converse(Step(k, client, moves[0]), client, moves[1..])
  }

  predicate AllPrivate(k: Talk, s: Id, client: ClientId, moves: seq<Move>)
    decreases |moves|
  {
    moves == [] || (Private(k, s, moves[0]) && AllPrivate(Step(k, client, moves[0]), s, client, moves[1..]))
  }

  /** The held token is neither superseded nor the parent of a token somebody used. */
  ghost predicate Clean(tokens: map<Id, Token>, s: Id, held: Id) {
    held in tokens ==>
      tokens[held].session == s && tokens[held].supersededAt.None? && !HasUsedSuccessor(tokens, held)
  }

  ghost predicate Holds(k: Talk, s: Id, client: ClientId) {
    && s < k.world.db.next && k.held < k.world.db.next
    && (s in k.world.db.sessions ==> k.world.db.sessions[s].client == client && k.held in k.world.db.tokens)
    && Clean(k.world.db.tokens, s, k.held)
  }

  // ---- Somebody else's step ----

  lemma ShrinkKeepsHold(k: Talk, v: World, s: Id, client: ClientId)
    requires Holds(k, s, client) && SessionsShrink(k.world.db.sessions, v.db.sessions)
    requires Rooted(k.world.db.tokens, k.world.db.sessions)
    requires TokensFollow(k.world.db.tokens, v.db.tokens, v.db.sessions) && k.world.db.next <= v.db.next
    ensures Holds(Talk(v, k.held), s, client)
  {
    var (before, after) := (k.world.db.tokens, v.db.tokens);
    forall c | c in after && ChildOf(after, c, k.held)
      ensures k.held in after ==> after[c].rotatedAt.None?
    {
      assert ChildOf(before, c, k.held);
    }
  }

  /** Presenting a token of another session leaves the held token clean. */
  lemma OtherPresented(before: map<Id, Token>, after: map<Id, Token>, s: Id, held: Id, t: Id, now: Time)
    requires Presented(before, after, t, now) && Parented(before) && before[t].session != s && Clean(before, s, held)
    ensures Clean(after, s, held)
  {
    if held in after {
      assert RowPresented(before, after, t, held, now);
      forall c | c in after && ChildOf(after, c, held)
        ensures after[c].rotatedAt.None?
      {
        assert RowPresented(before, after, t, c, now);
        assert ChildOf(before, c, held);
      }
    }
  }

  /** A new row that is nobody's used successor changes nothing for the held token. */
  lemma AddKeepsClean(tokens: map<Id, Token>, s: Id, held: Id, n: Id, added: Token)
    requires Clean(tokens, s, held) && n !in tokens && added.rotatedAt.None? && held != n
    ensures Clean(tokens[n := added], s, held)
  {
    var after := tokens[n := added];
    if held in after && HasUsedSuccessor(after, held) {
      var c :| c in after && ChildOf(after, c, held) && after[c].rotatedAt.Some?;
      assert ChildOf(tokens, c, held);
    }
  }

  lemma OtherGrantKeepsHold(k: Talk, s: Id, client: ClientId, known: bool, other: ClientId, t: Id, canSign: bool)
    requires TokenInv(k.world) && Holds(k, s, client)
    requires t in k.world.db.tokens ==> k.world.db.tokens[t].session != s
    ensures Holds(Talk(Grant(k.world, known, other, t, canSign).world, k.held), s, client)
  {
    hide Grant; hide Classify; hide Present; hide Clean; hide Conserved; hide Presented; hide Ordered;
    hide ForksInGrace; hide Succeeded; hide Parented; hide Rooted; hide Dated;
    var w := k.world;
    GrantCases(w, known, other, t, canSign);
    if t in w.db.tokens && !Classify(w.db.tokens, t, w.now).Stolen? {
      var presented := Present(w.db.tokens, t, w.now);
      PresentRows(w.db.tokens, t, w.now);
      Detection.SameKeys(w.db.tokens, presented, t, w.now);
      OtherPresented(w.db.tokens, presented, s, k.held, t, w.now);
      AddKeepsClean(presented, s, k.held, w.db.next, Successor(w.db.tokens, t, w.now));
    }
  }

  lemma ExchangeKeepsHold(k: Talk, s: Id, holder: ClientId, known: bool, client: ClientId, code: Id, uri: string,
                          verifier: string, canSign: bool)
    requires TokenInv(k.world) && Holds(k, s, holder)
    ensures Holds(Talk(Login.Exchange(k.world, known, client, code, uri, verifier, canSign).world, k.held), s, holder)
  {
    hide Login.PkceMatches; hide Login.CodeUsable; hide Login.RejectCode; hide Clean; hide Conserved; hide Ordered;
    hide ForksInGrace; hide Succeeded; hide Parented; hide Rooted; hide Dated;
    var w := k.world;
    var out := Login.Exchange(w, known, client, code, uri, verifier, canSign);
    if out.reply.Opened? {
      AddKeepsClean(w.db.tokens, s, k.held, w.db.next + 1, Token(w.db.next, None, None, None, w.now));
    } else if out.reply.UnusableCode? {
      TokenRuns.RejectShrinks(w, code);
    }
  }

  lemma ElsewhereKeepsHold(k: Talk, s: Id, client: ClientId, a: Action)
    requires TokenInv(k.world) && Holds(k, s, client) && Private(k, s, Elsewhere(a))
    ensures Holds(Talk(Apply(k.world, a), k.held), s, client)
  {
    hide TokenInv; hide Holds;
    if a.RefreshGrant? {
      hide Grant;
      OtherGrantKeepsHold(k, s, client, a.knownClient, a.tokenClient, a.token, a.signs);
    } else if a.Exchange? {
      hide Login.Exchange;
      ExchangeKeepsHold(k, s, client, a.known, a.client, a.code, a.redirectUri, a.verifier, a.canSign);
    } else {
      hide Apply;
      TokenRuns.ForestRooted(k.world);
      TokenRuns.OtherStepsShrink(k.world, a);
      ShrinkKeepsHold(k, Apply(k.world, a), s, client);
    }
  }

  // ---- The app's own step ----

  lemma OwnPresented(before: map<Id, Token>, after: map<Id, Token>, s: Id, held: Id, now: Time)
    requires Presented(before, after, held, now) && Parented(before) && Clean(before, s, held)
    ensures Clean(after, s, held)
  {
    assert RowPresented(before, after, held, held, now);
    forall c | c in after && ChildOf(after, c, held)
      ensures after[c].rotatedAt.None?
    {
      assert RowPresented(before, after, held, c, now);
      assert ChildOf(before, c, held);
    }
  }

  lemma NewIsClean(tokens: map<Id, Token>, sessions: map<Id, Session>, s: Id, n: Id, added: Token)
    requires Allocated(tokens, sessions, n) && Parented(tokens) && added.session == s
    requires added.supersededAt.None? && added.rotatedAt.None? && added.parent != Some(n)
    ensures Clean(tokens[n := added], s, n)
  {
    var after := tokens[n := added];
    assert forall c :: c in tokens ==> !ChildOf(tokens, c, n);
    assert forall c :: ChildOf(after, c, n) && c != n ==> ChildOf(tokens, c, n);
  }

  lemma SendKeepsHold(k: Talk, s: Id, client: ClientId, canSign: bool, delivered: bool)
    requires TokenInv(k.world) && Holds(k, s, client)
    ensures Holds(Step(k, client, Send(canSign, delivered)), s, client)
  {
    hide Grant; hide Classify; hide Present; hide Clean; hide Conserved; hide Presented; hide Ordered;
    hide ForksInGrace; hide Succeeded; hide Parented; hide Rooted; hide Dated;
    var w := k.world;
    GrantCases(w, true, client, k.held, canSign);
    if k.held in w.db.tokens && !Classify(w.db.tokens, k.held, w.now).Stolen? {
      HeldSession(w.db.tokens, s, k.held);
      var presented := Present(w.db.tokens, k.held, w.now);
      PresentRows(w.db.tokens, k.held, w.now);
      Detection.SameKeys(w.db.tokens, presented, k.held, w.now);
      OwnPresented(w.db.tokens, presented, s, k.held, w.now);
      AddKeepsClean(presented, s, k.held, w.db.next, Successor(w.db.tokens, k.held, w.now));
      PresentKeepsParents(w.db.tokens, presented, w.now, k.held);
      NewIsClean(presented, w.db.sessions, s, w.db.next, Successor(w.db.tokens, k.held, w.now));
    }
  }

  lemma HeldSession(tokens: map<Id, Token>, s: Id, held: Id)
    requires Clean(tokens, s, held) && held in tokens
    ensures tokens[held].session == s
  {
  }

  lemma StepKeepsHold(k: Talk, s: Id, client: ClientId, m: Move)
    requires TokenInv(k.world) && Holds(k, s, client) && Private(k, s, m)
    ensures TokenInv(Step(k, client, m).world) && Holds(Step(k, client, m), s, client)
  {
    hide TokenInv; hide Holds; hide Private; hide Grant; hide Apply;
    match m
    case Send(canSign, delivered) =>
      SendKeepsHold(k, s, client, canSign, delivered);
      TokenRuns.RefreshKeeps(k.world, true, client, k.held, canSign);
    case Elsewhere(a) =>
      ElsewhereKeepsHold(k, s, client, a);
      TokenRuns.StepKeeps(k.world, a);
  }

  lemma {:induction false} ConverseKeepsHold(k: Talk, s: Id, client: ClientId, moves: seq<Move>)
    requires TokenInv(k.world) && Holds(k, s, client) && AllPrivate(k, s, client, moves)
    ensures var end := Converse(k, client, moves); TokenInv(end.world) && Holds(end, s, client)
    decreases |moves|
  {
    hide TokenInv; hide Holds; hide Private; hide Step;
    if moves != [] {
      StepKeepsHold(k, s, client, moves[0]);
      ConverseKeepsHold(Step(k, client, moves[0]), s, client, moves[1..]);
    }
  }

  lemma SendIsSafe(k: Talk, s: Id, client: ClientId, canSign: bool)
    requires TokenInv(k.world) && Holds(k, s, client)
    ensures var w := k.world;
      var reply := Grant(w, true, client, k.held, canSign).reply;
      !reply.Reused? &&
      (Live(w.db.sessions, s, w.now) && Enabled(w.db.users, w.db.sessions[s].user) && canSign ==> reply.Issued?)
  {
    hide Conserved; hide Ordered; hide ForksInGrace; hide Succeeded; hide Parented; hide Dated; hide HasUsedSuccessor;
    hide Present;
  }

  /** The login that opens session `s` hands the app a clean token. */
  lemma LoginHands(w: World, client: ClientId, code: Id, uri: string, verifier: string)
    requires TokenInv(w)
    ensures var out := Login.Exchange(w, true, client, code, uri, verifier, true);
      out.reply.Opened? ==> TokenInv(out.world) && Holds(Talk(out.world, out.reply.token), out.reply.session, client)
  {
    hide TokenInv; hide Clean; hide Login.PkceMatches; hide Login.CodeUsable;
    TokenRuns.ExchangeKeeps(w, true, client, code, uri, verifier, true);
    assert Allocated(w.db.tokens, w.db.sessions, w.db.next + 1) && Parented(w.db.tokens) by { ShapeOf(w); }
    NewIsClean(w.db.tokens, w.db.sessions, w.db.next, w.db.next + 1, Token(w.db.next, None, None, None, w.now));
  }

  lemma ShapeOf(w: World)
    requires TokenInv(w)
    ensures Allocated(w.db.tokens, w.db.sessions, w.db.next + 1) && Parented(w.db.tokens)
  {
  }

  /** From any reachable login on: whatever number of answers was lost, whenever the retries came and
      whatever else the server did, the next refresh is never refused as reuse, and it succeeds for as
      long as the session lives, its account is enabled and the server can sign. */
  lemma NeverThrownOut(start: Time, history: seq<Action>, client: ClientId, code: Id, uri: string, verifier: string,
                       moves: seq<Move>, canSign: bool)
    requires Login.Exchange(Run(Init(start), history), true, client, code, uri, verifier, true).reply.Opened?
    requires var out := Login.Exchange(Run(Init(start), history), true, client, code, uri, verifier, true);
      AllPrivate(Talk(out.world, out.reply.token), out.reply.session, client, moves)
    ensures var out := Login.Exchange(Run(Init(start), history), true, client, code, uri, verifier, true);
      var s := out.reply.session;
      var end := Converse(Talk(out.world, out.reply.token), client, moves);
      var db := end.world.db;
      var reply := Grant(end.world, true, client, end.held, canSign).reply;
      !reply.Reused? &&
      (Live(db.sessions, s, end.world.now) && Enabled(db.users, db.sessions[s].user) && canSign ==> reply.Issued?)
  {
    hide TokenInv; hide Run; hide Login.Exchange; hide Holds; hide AllPrivate; hide Converse; hide Grant;
    TokenRuns.Always(start, history);
    var w := Run(Init(start), history);
    var out := Login.Exchange(w, true, client, code, uri, verifier, true);
    LoginHands(w, client, code, uri, verifier);
    var k := Talk(out.world, out.reply.token);
    ConverseKeepsHold(k, out.reply.session, client, moves);
    SendIsSafe(Converse(k, client, moves), out.reply.session, client, canSign);
  }
}
