/** How long a session serves its client: thirty days from the login, unless it is ended, and then not at all. */
module SessionLife {
  import opened Base
  import opened Tables
  import opened Refresh
  import opened TokenForest
  import TokenRuns
  import Detection
  import Login
  import opened System
  import H = HonestClient
  import D = DisabledAccounts

  /** A conversation is a run of the server. */
  lemma {:induction false} ConverseIsRun(k: H.Talk, client: ClientId, moves: seq<H.Move>) returns (actions: seq<Action>)
    ensures H.Converse(k, client, moves).world == Run(k.world, actions)
    decreases |moves|
  {
    hide Grant; hide Apply;
    if moves == [] {
      actions := [];
    } else {
      var first := match moves[0]
        case Send(canSign, _) => RefreshGrant(true, client, k.held, canSign)
        case Elsewhere(a) => a;
      assert H.Step(k, client, moves[0]).world == Apply(k.world, first) by { StepIsAction(k, client, moves[0], first); }
      var rest := ConverseIsRun(H.Step(k, client, moves[0]), client, moves[1..]);
      actions := [first] + rest;
      assert actions[1..] == rest;
    }
  }

  lemma StepIsAction(k: H.Talk, client: ClientId, m: H.Move, a: Action)
    requires match m
             case Send(canSign, _) => a == RefreshGrant(true, client, k.held, canSign)
             case Elsewhere(b) => a == b
    ensures H.Step(k, client, m).world == Apply(k.world, a)
  {
    hide Grant;
  }

  // ---- The limit is fixed when the session opens ----

  ghost predicate OpenedAt(w: World, s: Id, at: Time) {
    s < w.db.next && s in w.ledger.openings && w.ledger.openings[s].at == at
  }

  lemma StepKeepsOpening(w: World, a: Action, s: Id, at: Time)
    requires OpenedAt(w, s, at)
    ensures OpenedAt(Apply(w, a), s, at)
  {
    hide Apply;
    Frame(w, a);
    if a.RefreshGrant? || a.Exchange? { TokensKeepOpening(w, a, s, at); }
  }

  lemma TokensKeepOpening(w: World, a: Action, s: Id, at: Time)
    requires OpenedAt(w, s, at) && (a.RefreshGrant? || a.Exchange?)
    ensures OpenedAt(Apply(w, a), s, at)
  {
    hide Classify; hide Present; hide Login.PkceMatches; hide Login.RejectCode; hide Login.CodeUsable;
  }

  lemma {:induction false} RunKeepsOpening(w: World, actions: seq<Action>, s: Id, at: Time)
    requires OpenedAt(w, s, at)
    ensures OpenedAt(Run(w, actions), s, at)
    decreases |actions|
  {
    hide OpenedAt; hide Apply;
    if actions != [] {
      StepKeepsOpening(w, actions[0], s, at);
      RunKeepsOpening(Apply(w, actions[0]), actions[1..], s, at);
    }
  }

  lemma OpensNow(w: World, client: ClientId, code: Id, uri: string, verifier: string)
    requires Login.Exchange(w, true, client, code, uri, verifier, true).reply.Opened?
    ensures var out := Login.Exchange(w, true, client, code, uri, verifier, true);
      OpenedAt(out.world, out.reply.session, out.world.now)
  {
    hide Login.PkceMatches; hide Login.CodeUsable;
  }

  /** From any reachable login on, after any mix of lost answers, retries and foreign steps, the client's next
      refresh succeeds exactly if its session is there and not revoked, less than thirty days have passed since
      the login, its account is there and not disabled, and a key can sign. */
  lemma ServedExactly(start: Time, history: seq<Action>, client: ClientId, code: Id, uri: string, verifier: string,
                      moves: seq<H.Move>, canSign: bool)
    requires Login.Exchange(Run(Init(start), history), true, client, code, uri, verifier, true).reply.Opened?
    requires var out := Login.Exchange(Run(Init(start), history), true, client, code, uri, verifier, true);
      H.AllPrivate(H.Talk(out.world, out.reply.token), out.reply.session, client, moves)
    ensures var out := Login.Exchange(Run(Init(start), history), true, client, code, uri, verifier, true);
      var s := out.reply.session;
      var end := H.Converse(H.Talk(out.world, out.reply.token), client, moves);
      var db := end.world.db;
      Grant(end.world, true, client, end.held, canSign).reply.Issued? <==>
        s in db.sessions && db.sessions[s].revokedAt.None? && end.world.now < out.world.now + 30 * DAY &&
        db.sessions[s].user in db.users && db.users[db.sessions[s].user].disabledAt.None? && canSign
  {
    hide TokenInv; hide Run; hide Login.Exchange; hide H.Holds; hide H.AllPrivate; hide H.Converse; hide Grant;
    hide Detection.AccessInv; hide OpenedAt;
    TokenRuns.Always(start, history);
    var w := Run(Init(start), history);
    var out := Login.Exchange(w, true, client, code, uri, verifier, true);
    var s := out.reply.session;
    H.LoginHands(w, client, code, uri, verifier);
    var k := H.Talk(out.world, out.reply.token);
    H.ConverseKeepsHold(k, s, client, moves);
    var end := H.Converse(k, client, moves);
    H.SendIsSafe(end, s, client, canSign);
    var actions := ConverseIsRun(k, client, moves);
    OpensNow(w, client, code, uri, verifier);
    RunKeepsOpening(out.world, actions, s, out.world.now);
    Empty(start);
    Detection.RunKeepsAccess(Init(start), history);
    Detection.ExchangeKeepsAccess(w, true, client, code, uri, verifier, true);
    Detection.RunKeepsAccess(out.world, actions);
    EndsAt(end, s, client, out.world.now, canSign);
  }

  lemma Empty(start: Time)
    ensures Detection.AccessInv(Init(start)) && TokenInv(Init(start))
  {
    TokenRuns.Always(start, []);
  }

  lemma EndsAt(k: H.Talk, s: Id, client: ClientId, at: Time, canSign: bool)
    requires TokenInv(k.world) && H.Holds(k, s, client) && Detection.AccessInv(k.world) && OpenedAt(k.world, s, at)
    requires !Grant(k.world, true, client, k.held, canSign).reply.Reused?
    ensures var db := k.world.db;
      Grant(k.world, true, client, k.held, canSign).reply.Issued? <==>
        s in db.sessions && db.sessions[s].revokedAt.None? && k.world.now < at + 30 * DAY &&
        db.sessions[s].user in db.users && db.users[db.sessions[s].user].disabledAt.None? && canSign
  {
    hide Grant; hide D.IsReuse; hide Conserved; hide Ordered; hide ForksInGrace; hide Succeeded; hide Parented;
    hide Dated; hide HasUsedSuccessor;
    D.RefreshStrangers(k.world, true, client, k.held, canSign);
    GrantCases(k.world, true, client, k.held, canSign);
    if s in k.world.db.sessions { D.RefreshAnswers(k.world, client, k.held, canSign); }
  }
}
