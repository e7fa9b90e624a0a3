/** An honest app whose requests may be delayed: a copy of a token it presented before, or of the one it holds,
    can reach the server at any later time. Within the grace period of its token that is harmless; after it, it
    costs the app its session. */
module LateCopies {
  import opened Base
  import opened Tables
  import opened Refresh
  import opened TokenForest
  import TokenRuns
  import Detection
  import Login
  import opened System
  import H = HonestClient

  /** `earlier`: the tokens the app held before and presented. */
  datatype Call = Call(talk: H.Talk, earlier: set<Id>)

  /** Nobody waits for the answer to a delayed copy any more. */
  datatype Move = Own(move: H.Move) | Late(token: Id, canSign: bool)

  function Copied(k: H.Talk, client: ClientId, t: Id, canSign: bool): H.Talk {
    H.Talk(Grant(k.world, true, client, t, canSign).world, k.held)
  }

  function Step(c: Call, client: ClientId, m: Move): Call {
    match m
    case Own(move) =>
      var k := H.Step(c.talk, client, move);
      Call(k, if k.held == c.talk.held then c.earlier else c.earlier + {c.talk.held})
    case Late(t, canSign) =>
      if t in c.earlier || t == c.talk.held then c.(talk := Copied(c.talk, client, t, canSign)) else c
  }

  /** The copy is of the held token, or is handled within the grace period of its own. */
  predicate InTime(k: H.Talk, t: Id) {
    t == k.held ||
    (t in k.world.db.tokens && k.world.db.tokens[t].rotatedAt.Some? ==>
       k.world.now - k.world.db.tokens[t].rotatedAt.value <= REFRESH_REUSE_GRACE)
  }

  /** Nobody else presents a token of session `s`, and no copy comes too late. */
  predicate Fair(c: Call, s: Id, m: Move) {
    match m
    case Own(move) => H.Private(c.talk, s, move)
    case Late(t, _) => InTime(c.talk, t)
  }

  function Talks(c: Call, client: ClientId, moves: seq<Move>): Call
    decreases |moves|
  {
    if moves == [] then c else Talks(Step(c, client, moves[0]), client, moves[1..])
  }

  predicate AllFair(c: Call, s: Id, client: ClientId, moves: seq<Move>)
    decreases |moves|
  {
    moves == [] || (Fair(c, s, moves[0]) && AllFair(Step(c, client, moves[0]), s, client, moves[1..]))
  }

  // ---- The tokens the app held before ----

  /** A token the app has moved on from: rotated, and the held one is its child, or some child of it was used. */
  ghost predicate Behind(tokens: map<Id, Token>, s: Id, held: Id, p: Id) {
    p in tokens ==>
      tokens[p].session == s && tokens[p].rotatedAt.Some? &&
      ((held in tokens && ChildOf(tokens, held, p)) || HasUsedSuccessor(tokens, p))
  }

  ghost predicate AllBehind(c: Call, s: Id) {
    forall p :: p in c.earlier ==> p < c.talk.world.db.next && Behind(c.talk.world.db.tokens, s, c.talk.held, p)
  }

  ghost predicate Settled(c: Call, s: Id, client: ClientId) {
    TokenInv(c.talk.world) && H.Holds(c.talk, s, client) && AllBehind(c, s)
  }

  /** Rows that keep their marks and leave together keep a token behind. */
  lemma StaysBehind(before: map<Id, Token>, after: map<Id, Token>, s: Id, held: Id, p: Id)
    requires Detection.RowsKept(before, after) && Detection.LeaveTogether(before, after) && Parented(before)
    requires Behind(before, s, held, p) && p in before
    ensures Behind(after, s, held, p)
  {
    if p in after {
      assert Detection.RowKept(before[p], after[p]);
      if ChildOf(before, held, p) {
        assert GoodChild(before, held, p);
        assert held in after && Detection.RowKept(before[held], after[held]);
      } else {
        var c :| c in before && ChildOf(before, c, p) && before[c].rotatedAt.Some?;
        assert GoodChild(before, c, p);
        assert c in after && Detection.RowKept(before[c], after[c]);
        assert ChildOf(after, c, p);
      }
    }
  }

  lemma AllStayBehind(c: Call, v: World, s: Id)
    requires TokenInv(c.talk.world) && AllBehind(c, s) && c.talk.world.db.next <= v.db.next
    requires Detection.RowsKept(c.talk.world.db.tokens, v.db.tokens)
    requires Detection.LeaveTogether(c.talk.world.db.tokens, v.db.tokens)
    requires forall p :: p in c.earlier && p !in c.talk.world.db.tokens ==> p !in v.db.tokens
    ensures AllBehind(Call(H.Talk(v, c.talk.held), c.earlier), s)
  {
    hide TokenInv; hide Behind; hide Detection.RowsKept; hide Detection.LeaveTogether;
    Detection.ForestParented(c.talk.world);
    forall p | p in c.earlier
      ensures Behind(v.db.tokens, s, c.talk.held, p)
    {
      if p in c.talk.world.db.tokens {
        StaysBehind(c.talk.world.db.tokens, v.db.tokens, s, c.talk.held, p);
      } else {
        GoneIsBehind(v.db.tokens, s, c.talk.held, p);
      }
    }
  }

  lemma GoneIsBehind(tokens: map<Id, Token>, s: Id, held: Id, p: Id)
    requires p !in tokens
    ensures Behind(tokens, s, held, p)
  {
  }

  // ---- A copy that is handled in time ----

  lemma AllocatedTokens(w: World)
    requires TokenInv(w)
    ensures Allocated(w.db.tokens, w.db.sessions, w.db.next) && Parented(w.db.tokens) && Dated(w.db.tokens, w.now)
  {
  }

  /** Within the grace period a copy adds a sibling and nothing else. */
  lemma CopyInTime(c: Call, s: Id, client: ClientId, t: Id, canSign: bool)
    requires Settled(c, s, client) && t in c.earlier && t != c.talk.held && InTime(c.talk, t)
    ensures H.Holds(Copied(c.talk, client, t, canSign), s, client)
  {
    hide Grant; hide Classify; hide Present; hide TokenInv; hide H.Clean; hide Behind;
    var w := c.talk.world;
    GrantCases(w, true, client, t, canSign);
    AllocatedTokens(w);
    if t in w.db.tokens {
      assert Behind(w.db.tokens, s, c.talk.held, t);
      CopyIsGrace(w, s, c.talk.held, t);
      H.AddKeepsClean(w.db.tokens, s, c.talk.held, w.db.next,
                      Token(w.db.tokens[t].session, Some(t), None, None, w.now));
    }
  }

  lemma CopyIsGrace(w: World, s: Id, held: Id, t: Id)
    requires Dated(w.db.tokens, w.now) && t in w.db.tokens && Behind(w.db.tokens, s, held, t)
    requires w.db.tokens[t].rotatedAt.Some? ==> w.now - w.db.tokens[t].rotatedAt.value <= REFRESH_REUSE_GRACE
    ensures Classify(w.db.tokens, t, w.now).WithinGrace? && Present(w.db.tokens, t, w.now) == w.db.tokens
  {
  }

  lemma LateKeeps(c: Call, s: Id, client: ClientId, t: Id, canSign: bool)
    requires Settled(c, s, client) && Fair(c, s, Late(t, canSign))
    ensures Settled(Step(c, client, Late(t, canSign)), s, client)
  {
    hide Grant; hide TokenInv; hide H.Holds; hide AllBehind; hide InTime; hide Allocated; hide Parented; hide Dated;
    var w := c.talk.world;
    if t in c.earlier || t == c.talk.held {
      TokenRuns.RefreshKeeps(w, true, client, t, canSign);
      AllocatedTokens(w);
      Detection.GrantKeepsMarks(w, true, client, t, canSign);
      EarlierStayGone(c, s, client, t, canSign);
      AllStayBehind(c, Grant(w, true, client, t, canSign).world, s);
      if t == c.talk.held {
        H.SendKeepsHold(c.talk, s, client, canSign, false);
      } else {
        CopyInTime(c, s, client, t, canSign);
      }
    }
  }

  lemma EarlierStayGone(c: Call, s: Id, client: ClientId, t: Id, canSign: bool)
    requires AllBehind(c, s)
    ensures var v := Grant(c.talk.world, true, client, t, canSign).world;
      c.talk.world.db.next <= v.db.next &&
      forall p :: p in c.earlier && p !in c.talk.world.db.tokens ==> p !in v.db.tokens
  {
    hide Grant; hide Behind;
    Detection.GrantAddsOne(c.talk.world, true, client, t, canSign);
  }

  // ---- The app's own refresh, and other steps ----

  /** The app moves on: what it held is behind it, and so is what was before. */
  lemma MovesOn(tokens: map<Id, Token>, s: Id, held: Id, next: Id, p: Id)
    requires held in tokens && tokens[held].session == s && tokens[held].rotatedAt.Some? && ChildOf(tokens, next, held)
    requires p == held || Behind(tokens, s, held, p)
    ensures Behind(tokens, s, next, p)
  {
    if p != held && p in tokens && ChildOf(tokens, held, p) { assert HasUsedSuccessor(tokens, p); }
  }

  lemma SendKeeps(c: Call, s: Id, client: ClientId, canSign: bool, delivered: bool)
    requires Settled(c, s, client)
    ensures Settled(Step(c, client, Own(H.Send(canSign, delivered))), s, client)
  {
    hide Grant; hide TokenInv; hide H.Holds; hide AllBehind; hide Allocated; hide Parented; hide Dated;
    var w := c.talk.world;
    var out := Grant(w, true, client, c.talk.held, canSign);
    TokenRuns.RefreshKeeps(w, true, client, c.talk.held, canSign);
    AllocatedTokens(w);
    Detection.GrantKeepsMarks(w, true, client, c.talk.held, canSign);
    EarlierStayGone(c, s, client, c.talk.held, canSign);
    AllStayBehind(c, out.world, s);
    H.SendKeepsHold(c.talk, s, client, canSign, delivered);
    if delivered && out.reply.Issued? { AllMoveOn(c, s, client, canSign); }
  }

  lemma AllMoveOn(c: Call, s: Id, client: ClientId, canSign: bool)
    requires Settled(c, s, client)
    requires var out := Grant(c.talk.world, true, client, c.talk.held, canSign);
      out.reply.Issued? && AllBehind(Call(H.Talk(out.world, c.talk.held), c.earlier), s)
    ensures var out := Grant(c.talk.world, true, client, c.talk.held, canSign);
      AllBehind(Call(H.Talk(out.world, out.reply.token), c.earlier + {c.talk.held}), s)
  {
    hide Grant; hide TokenInv; hide Behind; hide Present; hide Classify; hide Presented; hide HasUsedSuccessor;
    var (w, held) := (c.talk.world, c.talk.held);
    var out := Grant(w, true, client, held, canSign);
    GrantCases(w, true, client, held, canSign);
    AllocatedTokens(w);
    PresentRows(w.db.tokens, held, w.now);
    HeldIsRotated(w, s, held);
    forall p | p in c.earlier + {held}
      ensures Behind(out.world.db.tokens, s, out.reply.token, p)
    {
      MovesOn(out.world.db.tokens, s, held, out.reply.token, p);
    }
  }

  lemma HeldIsRotated(w: World, s: Id, held: Id)
    requires held in w.db.tokens && H.Clean(w.db.tokens, s, held) && Dated(w.db.tokens, w.now)
    requires !Classify(w.db.tokens, held, w.now).Stolen?
    requires Presented(w.db.tokens, Present(w.db.tokens, held, w.now), held, w.now)
    ensures var after := Present(w.db.tokens, held, w.now);
      held in after && after[held].session == s && after[held].rotatedAt.Some?
  {
    hide Present; hide Classify; hide HasUsedSuccessor;
    assert RowPresented(w.db.tokens, Present(w.db.tokens, held, w.now), held, held, w.now);
  }

  lemma ElsewhereKeeps(c: Call, s: Id, client: ClientId, a: Action)
    requires Settled(c, s, client) && H.Private(c.talk, s, H.Elsewhere(a))
    ensures Settled(Step(c, client, Own(H.Elsewhere(a))), s, client)
  {
    hide Apply; hide TokenInv; hide H.Holds; hide H.Private; hide Behind;
    var w := c.talk.world;
    H.ElsewhereKeepsHold(c.talk, s, client, a);
    TokenRuns.StepKeeps(w, a);
    Detection.StepKeepsMarks(w, a);
    Frame(w, a);
    forall p | p in c.earlier && p !in w.db.tokens
      ensures p !in Apply(w, a).db.tokens
    {
      Detection.StepStaysGone(w, a, p);
    }
    AllStayBehind(c, Apply(w, a), s);
  }

  lemma {:induction false} TalksKeep(c: Call, s: Id, client: ClientId, moves: seq<Move>)
    requires Settled(c, s, client) && AllFair(c, s, client, moves)
    ensures Settled(Talks(c, client, moves), s, client)
    decreases |moves|
  {
    hide Settled; hide Step; hide Fair;
    if moves != [] {
      MoveKeeps(c, s, client, moves[0]);
      TalksKeep(Step(c, client, moves[0]), s, client, moves[1..]);
    }
  }

  lemma MoveKeeps(c: Call, s: Id, client: ClientId, m: Move)
    requires Settled(c, s, client) && Fair(c, s, m)
    ensures Settled(Step(c, client, m), s, client)
  {
    hide Settled; hide Step;
    match m
    case Own(Send(canSign, delivered)) => SendKeeps(c, s, client, canSign, delivered);
    case Own(Elsewhere(a)) => ElsewhereKeeps(c, s, client, a);
    case Late(t, canSign) => LateKeeps(c, s, client, t, canSign);
  }

  function AtLogin(w: World, token: Id): Call {
    Call(H.Talk(w, token), {})
  }

  /** From any reachable login on, however many requests come late, if each copy is of the held token or comes
      within the grace period of its own: the next refresh is not refused as reuse, and succeeds for as long as
      the session lives, its account is enabled and the server can sign. */
  lemma CopiesInTimeAreHarmless(start: Time, history: seq<Action>, client: ClientId, code: Id, uri: string,
                                verifier: string, moves: seq<Move>, canSign: bool)
    requires Login.Exchange(Run(Init(start), history), true, client, code, uri, verifier, true).reply.Opened?
    requires var out := Login.Exchange(Run(Init(start), history), true, client, code, uri, verifier, true);
      AllFair(AtLogin(out.world, out.reply.token), out.reply.session, client, moves)
    ensures var out := Login.Exchange(Run(Init(start), history), true, client, code, uri, verifier, true);
      var s := out.reply.session;
      var end := Talks(AtLogin(out.world, out.reply.token), client, moves).talk;
      var db := end.world.db;
      var reply := Grant(end.world, true, client, end.held, canSign).reply;
      !reply.Reused? &&
      (Live(db.sessions, s, end.world.now) && Enabled(db.users, db.sessions[s].user) && canSign ==> reply.Issued?)
  {
    hide TokenInv; hide Run; hide Login.Exchange; hide H.Holds; hide AllFair; hide Talks; hide Grant;
    TokenRuns.Always(start, history);
    var w := Run(Init(start), history);
    var out := Login.Exchange(w, true, client, code, uri, verifier, true);
    H.LoginHands(w, client, code, uri, verifier);
    var c := AtLogin(out.world, out.reply.token);
    TalksKeep(c, out.reply.session, client, moves);
    H.SendIsSafe(Talks(c, client, moves).talk, out.reply.session, client, canSign);
  }

  // ---- A copy that comes too late ----

  predicate Usable(w: World, s: Id) {
    Live(w.db.sessions, s, w.now) && Enabled(w.db.users, w.db.sessions[s].user)
  }

  /** Within the grace period a copy leaves the session alone. */
  lemma InTimeGoesOn(c: Call, s: Id, client: ClientId, t: Id)
    requires Settled(c, s, client) && Usable(c.talk.world, s) && (t in c.earlier || t == c.talk.held)
    requires InTime(c.talk, t)
    ensures Usable(Copied(c.talk, client, t, true).world, s)
  {
    hide TokenInv; hide Classify; hide Present; hide Behind; hide H.Clean;
    var w := c.talk.world;
    H.SendIsSafe(c.talk, s, client, true);
    AllocatedTokens(w);
    if t in w.db.tokens && t != c.talk.held {
      assert Behind(w.db.tokens, s, c.talk.held, t);
      CopyIsGrace(w, s, c.talk.held, t);
    }
  }

  /** After the grace period the copy is stolen if a child of its token was used; otherwise the held token is
      its unused child, and is superseded. */
  lemma TooLate(c: Call, s: Id, client: ClientId, t: Id)
    requires Settled(c, s, client) && Usable(c.talk.world, s) && t in c.earlier && !InTime(c.talk, t)
    ensures var tokens := c.talk.world.db.tokens;
      var copy := Grant(c.talk.world, true, client, t, true);
      var next := Grant(copy.world, true, client, c.talk.held, true).reply;
      if HasUsedSuccessor(tokens, t) then copy.reply.Reused? && next.SessionOver?
      else ChildOf(tokens, c.talk.held, t) && copy.reply.Issued? && next.Reused?
  {
    hide TokenInv;
    var w := c.talk.world;
    AllocatedTokens(w);
    assert Behind(w.db.tokens, s, c.talk.held, t);
    TooLateIs(w, s, c.talk.held, t);
    hide HasUsedSuccessor; hide Classify; hide Present; hide Behind; hide Dated; hide Parented; hide ChildOf;
    if Classify(w.db.tokens, t, w.now).Retry? {
      var copy := Grant(w, true, client, t, true);
      assert copy.world.db.tokens ==
             Present(w.db.tokens, t, w.now)[w.db.next := Token(w.db.tokens[t].session, Some(t), None, None, w.now)];
      SupersededIsStolen(copy.world.db.tokens, c.talk.held, copy.world.now);
    }
  }

  lemma SupersededIsStolen(tokens: map<Id, Token>, t: Id, now: Time)
    requires t in tokens && tokens[t].supersededAt.Some?
    ensures Classify(tokens, t, now).Stolen?
  {
  }

  lemma TooLateIs(w: World, s: Id, held: Id, t: Id)
    requires Dated(w.db.tokens, w.now) && t in w.db.tokens && Behind(w.db.tokens, s, held, t)
    requires H.Clean(w.db.tokens, s, held) && held in w.db.tokens
    requires REFRESH_REUSE_GRACE < w.now - w.db.tokens[t].rotatedAt.value
    ensures var after := Present(w.db.tokens, t, w.now);
      if HasUsedSuccessor(w.db.tokens, t) then Classify(w.db.tokens, t, w.now).Stolen?
      else
        && Classify(w.db.tokens, t, w.now).Retry? && ChildOf(w.db.tokens, held, t)
        && held in after && after[held].session == s && after[held].supersededAt.Some?
  {
  }

  /** From any reachable login on, with every copy in time so far, take one more copy of a token the app holds or
      held before. The app's next refresh goes through exactly if this copy is in time too. If not, either a
      child of its token was used and the copy ends the session, or the copy supersedes the held token and the
      app is taken for the thief. */
  lemma LateCopyCostsTheSessionIff(start: Time, history: seq<Action>, client: ClientId, code: Id, uri: string,
                                   verifier: string, moves: seq<Move>, t: Id)
    requires Login.Exchange(Run(Init(start), history), true, client, code, uri, verifier, true).reply.Opened?
    requires var out := Login.Exchange(Run(Init(start), history), true, client, code, uri, verifier, true);
      AllFair(AtLogin(out.world, out.reply.token), out.reply.session, client, moves)
    requires var out := Login.Exchange(Run(Init(start), history), true, client, code, uri, verifier, true);
      var end := Talks(AtLogin(out.world, out.reply.token), client, moves);
      Usable(end.talk.world, out.reply.session) && (t in end.earlier || t == end.talk.held)
    ensures var out := Login.Exchange(Run(Init(start), history), true, client, code, uri, verifier, true);
      var end := Talks(AtLogin(out.world, out.reply.token), client, moves);
      var tokens := end.talk.world.db.tokens;
      var copy := Grant(end.talk.world, true, client, t, true);
      var next := Grant(copy.world, true, client, end.talk.held, true).reply;
      && (next.Issued? <==> InTime(end.talk, t))
      && (!InTime(end.talk, t) ==>
            if HasUsedSuccessor(tokens, t) then copy.reply.Reused? && next.SessionOver?
            else ChildOf(tokens, end.talk.held, t) && copy.reply.Issued? && next.Reused?)
  {
    hide TokenInv; hide Run; hide Login.Exchange; hide H.Holds; hide AllFair; hide Talks; hide Grant; hide InTime;
    hide AllBehind; hide HasUsedSuccessor;
    TokenRuns.Always(start, history);
    var w := Run(Init(start), history);
    var out := Login.Exchange(w, true, client, code, uri, verifier, true);
    H.LoginHands(w, client, code, uri, verifier);
    var c := AtLogin(out.world, out.reply.token);
    assert AllBehind(c, out.reply.session) by { NothingBehind(c, out.reply.session); }
    TalksKeep(c, out.reply.session, client, moves);
    var end := Talks(c, client, moves);
    if InTime(end.talk, t) {
      LateKeeps(end, out.reply.session, client, t, true);
      InTimeGoesOn(end, out.reply.session, client, t);
      H.SendIsSafe(Copied(end.talk, client, t, true), out.reply.session, client, true);
    } else {
      assert t in end.earlier by { HeldIsInTime(end.talk, t); }
      TooLate(end, out.reply.session, client, t);
    }
  }

  lemma HeldIsInTime(k: H.Talk, t: Id)
    requires !InTime(k, t)
    ensures t != k.held
  {
  }

  lemma NothingBehind(c: Call, s: Id)
    requires c.earlier == {}
    ensures AllBehind(c, s)
  {
  }

  /** The shortest such run: after any login the app refreshes once, and 31 seconds later a delayed copy of that
      request arrives. The app, which did nothing else, is taken for the thief. */
  lemma ADelayedCopyThrowsOut(start: Time, history: seq<Action>, client: ClientId, code: Id, uri: string,
                              verifier: string)
    requires Login.Exchange(Run(Init(start), history), true, client, code, uri, verifier, true).reply.Opened?
    ensures var out := Login.Exchange(Run(Init(start), history), true, client, code, uri, verifier, true);
      var root := out.reply.token;
      var refreshed := Grant(out.world, true, client, root, true);
      var later := Apply(refreshed.world, Tick(31 * SECOND));
      var copy := Grant(later, true, client, root, true);
      && refreshed.reply.Issued? && copy.reply.Issued?
      && Grant(copy.world, true, client, refreshed.reply.token, true).reply.Reused?
  {
    hide TokenInv; hide Run; hide H.Clean;
    TokenRuns.Always(start, history);
    var w := Run(Init(start), history);
    var out := Login.Exchange(w, true, client, code, uri, verifier, true);
    H.LoginHands(w, client, code, uri, verifier);
    var (v, s, root) := (out.world, out.reply.session, out.reply.token);
    RootIsUsable(w, client, code, uri, verifier);
    hide Login.Exchange; hide Usable; hide H.Holds; hide Grant;
    CopyOfTheFirst(out.world, out.reply.session, client, out.reply.token);
  }

  lemma CopyOfTheFirst(v: World, s: Id, client: ClientId, root: Id)
    requires TokenInv(v) && H.Holds(H.Talk(v, root), s, client) && Usable(v, s) && v.db.sessions[s].client == client
    requires v.now + 31 * SECOND < v.db.sessions[s].expiresAt && v.db.next == root + 1
    requires root in v.db.tokens && v.db.tokens[root] == Token(s, None, None, None, v.now)
    ensures var refreshed := Grant(v, true, client, root, true);
      var later := Apply(refreshed.world, Tick(31 * SECOND));
      var copy := Grant(later, true, client, root, true);
      && refreshed.reply.Issued? && copy.reply.Issued?
      && Grant(copy.world, true, client, refreshed.reply.token, true).reply.Reused?
  {
    hide TokenInv; hide Grant; hide HasUsedSuccessor;
    H.SendIsSafe(H.Talk(v, root), s, client, true);
    hide H.Holds;
    var refreshed := Grant(v, true, client, root, true);
    RootRefreshes(v, s, client, root);
    var later := Apply(refreshed.world, Tick(31 * SECOND));
    NoChildYet(v, root, refreshed.reply.token, v.now, s);
    StillUsable(v, later, s);
    LateRetry(later, s, client, root, refreshed.reply.token);
  }

  lemma RootIsUsable(w: World, client: ClientId, code: Id, uri: string, verifier: string)
    requires Login.Exchange(w, true, client, code, uri, verifier, true).reply.Opened?
    ensures var out := Login.Exchange(w, true, client, code, uri, verifier, true);
      var (v, s, root) := (out.world, out.reply.session, out.reply.token);
      && Usable(v, s) && v.db.sessions[s].client == client && v.now + 31 * SECOND < v.db.sessions[s].expiresAt
      && root in v.db.tokens && v.db.tokens[root] == Token(s, None, None, None, v.now) && v.db.next == root + 1
  {
    hide Login.PkceMatches; hide Login.CodeUsable;
  }

  lemma RootRefreshes(w: World, s: Id, client: ClientId, root: Id)
    requires root in w.db.tokens && w.db.tokens[root] == Token(s, None, None, None, w.now)
    requires Grant(w, true, client, root, true).reply.Issued?
    ensures var refreshed := Grant(w, true, client, root, true);
      && refreshed.reply.token == w.db.next && refreshed.world.db.next == w.db.next + 1
      && refreshed.world.db.sessions == w.db.sessions
      && refreshed.world.db.tokens == w.db.tokens[root := Token(s, None, Some(w.now), None, w.now)][
                                        w.db.next := Token(s, Some(root), None, None, w.now)]
  {
    hide Grant;
    GrantCases(w, true, client, root, true);
  }

  lemma StillUsable(w: World, v: World, s: Id)
    requires Usable(w, s) && v.db.sessions == w.db.sessions && v.db.users == w.db.users
    requires s in w.db.sessions ==> v.now < w.db.sessions[s].expiresAt
    ensures Usable(v, s)
  {
  }

  lemma LateRetry(w: World, s: Id, client: ClientId, t: Id, next: Id)
    requires Usable(w, s) && w.db.sessions[s].client == client && t in w.db.tokens && next in w.db.tokens
    requires w.db.tokens[t].session == s
    requires w.db.tokens[next] == Token(s, Some(t), None, None, w.db.tokens[next].createdAt)
    requires w.db.tokens[t].supersededAt.None? && w.db.tokens[t].rotatedAt.Some?
    requires REFRESH_REUSE_GRACE < w.now - w.db.tokens[t].rotatedAt.value && !HasUsedSuccessor(w.db.tokens, t)
    requires next < w.db.next
    ensures var copy := Grant(w, true, client, t, true);
      copy.reply.Issued? && Grant(copy.world, true, client, next, true).reply.Reused?
  {
    hide HasUsedSuccessor;
    var copy := Grant(w, true, client, t, true);
    assert UnusedSuccessor(w.db.tokens, next, t);
    SupersededIsStolen(copy.world.db.tokens, next, copy.world.now);
  }

  lemma NoChildYet(w: World, root: Id, next: Id, now: Time, s: Id)
    requires TokenInv(w) && root + 1 == w.db.next && next == w.db.next && root in w.db.tokens
    ensures !HasUsedSuccessor(w.db.tokens[root := Token(s, None, Some(now), None, now)][
                                next := Token(s, Some(root), None, None, now)], root)
  {
    var after := w.db.tokens[root := Token(s, None, Some(now), None, now)][
                   next := Token(s, Some(root), None, None, now)];
    NewestIsChildless(w, root);
    assert forall c :: c in after && ChildOf(after, c, root) ==> c == next || ChildOf(w.db.tokens, c, root);
  }

  lemma NewestIsChildless(w: World, t: Id)
    requires TokenInv(w) && t + 1 == w.db.next
    ensures forall c :: !ChildOf(w.db.tokens, c, t)
  {
    hide TokenInv;
    AllocatedTokens(w);
  }
}
