/** What logging in guarantees, over every run of the server from an empty database. */
module Guarantees {
  import opened Base
  import opened Tables
  import opened EmailedCodes
  import opened Budget
  import Refresh
  import opened Login
  import Account
  import opened References
  import opened FlowBounds
  import opened CodeBudgets
  import opened Accounts
  import opened Chain
  import TokenRuns
  import Detection
  import opened Soundness
  import opened System

  // ---- Flow bounds ----

  /** Wrong codes over all links of flow `f`. */
  function FlowFailures(links: map<Id, Link>, f: Id, n: Id): nat {
    if n == 0 then 0
    else FlowFailures(links, f, n - 1) + if LinkOf(links, f, n - 1) then links[n - 1].failures else 0
  }

  lemma {:induction false} FailuresPerLink(links: map<Id, Link>, f: Id, n: Id)
    requires forall l :: l in links ==> links[l].failures <= MAX_FAILURES_PER_CODE
    ensures FlowFailures(links, f, n) <= MAX_FAILURES_PER_CODE * LinkCount(links, f, n)
  {
    if n > 0 { FailuresPerLink(links, f, n - 1); }
  }

  /** Links are at most the counted requests, which are at most three; wrong codes at most fifteen; a
      link dies before its flow, and a flow within an hour. */
  lemma FlowIsBounded(start: Time, actions: seq<Action>, f: Id)
    requires f in Run(Init(start), actions).db.flows
    ensures var db := Run(Init(start), actions).db;
      var flow := db.flows[f];
      && LinkCount(db.links, f, db.next) <= flow.requests <= 3
      && FlowFailures(db.links, f, db.next) <= 15
      && (forall l :: l in db.links && db.links[l].scope == f ==> db.links[l].expiresAt <= flow.expiresAt)
      && flow.expiresAt <= flow.createdAt + 15 * MINUTE * (1 + flow.requests)
      && flow.expiresAt <= flow.createdAt + HOUR
  {
    hide Run; hide AccountInv; hide ChainInv; hide TokenForest.TokenInv; hide Intact; hide LinkCount; hide FlowFailures;
    hide WithinDay;
    Always(start, actions);
    var db := Run(Init(start), actions).db;
    FailuresPerLink(db.links, f, db.next);
  }

  // ---- Daily budget ----

  /** Each mailed code takes at most five wrong attempts and five use it up; the codes an address got in
      the last day take at most ten together, and so do the codes of one account's confirmations. */
  lemma DailyCodeBudget(start: Time, actions: seq<Action>)
    ensures var w := Run(Init(start), actions);
      && (forall l :: l in w.db.links ==>
            w.db.links[l].failures <= 5 && (w.db.links[l].failures == 5 ==> w.db.links[l].consumedAt.Some?))
      && (forall c :: c in w.db.confirmations ==>
            w.db.confirmations[c].failures <= 5 &&
            (w.db.confirmations[c].failures == 5 ==> w.db.confirmations[c].consumedAt.Some?))
      && (forall email :: DayTotal(w.db.links, email, w.db.next, w.now) <= 10)
      && (forall user :: DayTotal(w.db.confirmations, user, w.db.next, w.now) <= 10)
  {
    hide Run; hide AccountInv; hide ChainInv; hide TokenForest.TokenInv; hide Intact; hide FlowInv; hide DayTotal;
    hide AskedInSession;
    Always(start, actions);
  }

  /** The record of attempts is complete: one entry for each well-formed code that was compared with a
      mailed one and differed, and none for anything else. */
  lemma EveryWrongCodeIsRecorded(w: World, flow: Id, sid: Id, action: ConfirmationAction, typed: string)
    ensures var out := Login.ConfirmCode(w, flow, typed);
      var link := LinkCandidate(w.db.links, flow, w.now, w.db.next);
      out.world.ledger.guesses == w.ledger.guesses +
        if IsWellFormed(typed) && link.Some? && w.db.links[link.value].hash != Hmac(flow, typed)
        then [Guess(w.db.links[link.value].key, w.db.links[link.value].createdAt, w.now)] else []
    ensures var out := Account.CheckCode(w, sid, action, typed);
      var user := Refresh.FindAuthenticated(w.db, sid, w.now);
      out.world.ledger.confirmationGuesses == w.ledger.confirmationGuesses +
        if user.None? || !IsWellFormed(typed) then []
        else
          var id := Candidate(w.db.confirmations, ConfirmationScope(sid, action), user.value, w.now, w.db.next);
          if id.Some? && w.db.confirmations[id.value].email == w.db.users[user.value].email &&
             w.db.confirmations[id.value].hash != Hmac(sid, typed)
          then [Guess(w.db.confirmations[id.value].key, w.db.confirmations[id.value].createdAt, w.now)] else []
  {
    hide LogIn; hide LinkCandidate; hide IsWellFormed; hide Candidate;
  }

  /** No step of the run deletes an account row. */
  ghost predicate AccountsAlwaysStay(w: World, actions: seq<Action>)
    decreases |actions|
  {
    actions == [] || (AccountsStay(w, actions[0]) && AccountsAlwaysStay(Apply(w, actions[0]), actions[1..]))
  }

  lemma {:induction false} AttemptRun(w: World, actions: seq<Action>)
    requires Sound(w) && AttemptInv(w) && AccountsAlwaysStay(w, actions)
    ensures AttemptInv(Run(w, actions))
    decreases |actions|
  {
    hide Intact; hide FlowInv; hide CodeInv; hide AccountInv; hide ChainInv; hide TokenForest.TokenInv; hide Apply;
    hide AttemptInv; hide AccountsStay;
    if actions != [] {
      AttemptStep(w, actions[0]);
      Soundness.StepKeeps(w, actions[0]);
      AttemptRun(Apply(w, actions[0]), actions[1..]);
    }
  }

  /** While no account row is deleted, no address and no account sees more than ten wrong codes in any
      23 hours and 45 minutes, counted when they were typed. */
  lemma AttemptsArePaced(start: Time, actions: seq<Action>, email: Email, user: Id, begin: Time)
    requires AccountsAlwaysStay(Init(start), actions)
    ensures var ledger := Run(Init(start), actions).ledger;
      && AttemptsIn(ledger.guesses, email, begin) <= 10
      && AttemptsIn(ledger.confirmationGuesses, user, begin) <= 10
  {
    hide Run; hide Sound; hide AccountsAlwaysStay; hide Tallied; hide Timed;
    TokenRuns.RunKeeps(Init(start), []);
    assert Sound(Init(start)) by { SoundAtFirst(start); }
    assert AttemptInv(Init(start)) by { AccountedAtFirst(start); }
    AttemptRun(Init(start), actions);
  }

  lemma AccountedAtFirst(start: Time)
    ensures AttemptInv(Init(start))
  {
  }

  // ---- Address ownership ----

  /** Addresses are unique. The current address of every verified account was proved by a mail that went
      to exactly that address and was used up doing it; no mail proved two things. */
  lemma AddressOwnership(start: Time, actions: seq<Action>)
    ensures var w := Run(Init(start), actions);
      && (forall u, v :: u in w.db.users && v in w.db.users && w.db.users[u].email == w.db.users[v].email ==> u == v)
      && (forall u :: u in w.db.users && w.db.users[u].verifiedAt.Some? ==>
            exists mail :: Shown(w.ledger.proofs, u, w.db.users[u].email, mail) && mail in w.ledger.sent &&
                           w.ledger.sent[mail] == w.db.users[u].email)
      && (forall p :: p in w.ledger.proofs && p.mail in w.db.links ==> w.db.links[p.mail].consumedAt.Some?)
      && (forall p :: p in w.ledger.proofs && p.mail in w.db.changes ==> w.db.changes[p.mail].consumedAt.Some?)
      && (forall p, q :: p in w.ledger.proofs && q in w.ledger.proofs && p.mail == q.mail ==> p == q)
  {
    hide Run; hide CodeInv; hide ChainInv; hide TokenForest.TokenInv; hide Intact; hide FlowInv; hide RowsMailed;
    hide HoldersVerified;
    Always(start, actions);
    var w := Run(Init(start), actions);
    forall u | u in w.db.users && w.db.users[u].verifiedAt.Some?
      ensures exists mail :: Shown(w.ledger.proofs, u, w.db.users[u].email, mail) && mail in w.ledger.sent &&
                             w.ledger.sent[mail] == w.db.users[u].email
    {
      var mail :| Shown(w.ledger.proofs, u, w.db.users[u].email, mail);
      assert mail in w.ledger.sent;
    }
  }

  /** The login `code` stands for: its account uses the address `mail` went to, and did so before if it
      was there before. */
  ghost predicate AtSentAddress(w: World, v: World, mail: Id, code: Id) {
    && code in v.db.codes && mail in v.ledger.sent
    && var user := v.db.codes[code].user;
    && user in v.db.users && v.db.users[user].email == v.ledger.sent[mail] && v.db.users[user].verifiedAt.Some?
    && (user in w.db.users ==> w.db.users[user].email == v.ledger.sent[mail] && w.db.users[user].disabledAt.None?)
  }

  lemma UsedAtSentAddress(w: World, v: World, link: Id, id: Id, code: Id)
    requires Intact(w.db) && AccountInv(w) && LinkUsed(w, v, link, id, code) && LoginFrame(w, v)
    ensures AtSentAddress(w, v, link, code)
  {
    hide Intact; hide UniqueEmails; hide Proven; hide UsedUp; hide HoldersVerified;
  }

  /** Neither a link nor a code logs in an account whose address differs from the one the mail went to. */
  lemma LoginsAreAtTheSentAddress(start: Time, actions: seq<Action>, link: Id, flow: Id, typed: string)
    ensures var w := Run(Init(start), actions);
      var byLink := Login.ConfirmLink(w, link);
      byLink.reply.Completed? ==> AtSentAddress(w, byLink.world, link, byLink.reply.code)
    ensures var w := Run(Init(start), actions);
      var byCode := Login.ConfirmCode(w, flow, typed);
      byCode.reply.Completed? ==>
        exists mail :: LinkCandidate(w.db.links, flow, w.now, w.db.next) == Some(mail) &&
                       w.db.links[mail].hash == Hmac(flow, typed) &&
                       AtSentAddress(w, byCode.world, mail, byCode.reply.code)
  {
    hide Run; hide CodeInv; hide ChainInv; hide TokenForest.TokenInv; hide Intact; hide FlowInv; hide AccountInv;
    hide Login.ConfirmLink; hide Login.ConfirmCode; hide LinkCandidate; hide LinkUsed; hide LoginFrame;
    hide AtSentAddress;
    Always(start, actions);
    var w := Run(Init(start), actions);
    IntactUsers(w.db);
    var id := ConfirmLinkCases(w, link);
    var byLink := Login.ConfirmLink(w, link);
    if byLink.reply.Completed? { UsedAtSentAddress(w, byLink.world, link, id, byLink.reply.code); }
    var mail, id2 := ConfirmCodeCases(w, flow, typed);
    var byCode := Login.ConfirmCode(w, flow, typed);
    if byCode.reply.Completed? { UsedAtSentAddress(w, byCode.world, mail, id2, byCode.reply.code); }
  }

  // ---- One flow, one session ----

  /** A flow is completed at most once and so gives at most one code; a code opens at most one session,
      for the client of the flow and with the verifier its challenge was made from; every session there is
      was opened this way for the account that confirmed the mail. */
  lemma OneFlowOneSession(start: Time, actions: seq<Action>)
    ensures var ledger := Run(Init(start), actions).ledger;
      && (forall c, d | c in ledger.completions && d in ledger.completions ::
            ledger.completions[c].flow == ledger.completions[d].flow ==> c == d)
      && (forall s, t | s in ledger.openings && t in ledger.openings ::
            ledger.openings[s].code == ledger.openings[t].code ==> s == t)
      && (forall s :: s in ledger.openings ==> Matches(ledger.openings[s], ledger.completions, ledger.flows))
    ensures var w := Run(Init(start), actions);
      forall s :: s in w.db.sessions ==>
        s in w.ledger.openings && w.ledger.openings[s].code in w.ledger.completions &&
        w.db.sessions[s].user == w.ledger.completions[w.ledger.openings[s].code].user &&
        w.db.sessions[s].client == w.ledger.openings[s].client
  {
    hide Run; hide CodeInv; hide AccountInv; hide TokenForest.TokenInv; hide Intact; hide FlowInv; hide Matches;
    Always(start, actions);
  }

  /** An exchange opens a session exactly if everything matches. */
  lemma ExchangeOpensIff(w: World, known: bool, client: ClientId, code: Id, uri: string, verifier: string,
                         canSign: bool)
    ensures var out := Login.Exchange(w, known, client, code, uri, verifier, canSign);
      out.reply.Opened? <==>
        known && canSign && CodeUsable(w.db, code, w.now) && Refresh.Enabled(w.db.users, w.db.codes[code].user) &&
        var flow := w.db.flows[w.db.codes[code].flow];
        flow.client == client && flow.redirectUri == uri && PkceMatches(verifier, flow.challenge)
    ensures var out := Login.Exchange(w, known, client, code, uri, verifier, canSign);
      !out.reply.Opened? && (code in w.db.codes ==> w.db.codes[code].consumedAt.None?) ==> out.world == w
  {
    hide PkceMatches;
  }

  /** While the code row exists, presenting it again ends the session it opened, whoever presents it:
      the session is over, and stays so after any further run. Every other session is untouched. */
  lemma ReplayEndsTheSession(start: Time, history: seq<Action>, s: Id, client: ClientId, uri: string, verifier: string,
                             canSign: bool, afterwards: seq<Action>)
    requires var w := Run(Init(start), history); s in w.ledger.openings && w.ledger.openings[s].code in w.db.codes
    ensures var w := Run(Init(start), history);
      var code := w.ledger.openings[s].code;
      var replay := Login.Exchange(w, true, client, code, uri, verifier, canSign);
      var end := Run(replay.world, afterwards);
      && replay.reply.UnusableCode?
      && Detection.Over(replay.world.db, s) && Detection.NothingIssued(replay.world, end, s)
      && Refresh.FindAuthenticated(end.db, s, end.now).None?
      && (forall t :: t in w.db.sessions && t != s ==> replay.world.db.sessions[t] == w.db.sessions[t])
  {
    hide Run; hide CodeInv; hide AccountInv; hide TokenForest.TokenInv; hide Intact; hide FlowInv; hide Detection.Over;
    hide Detection.NothingIssued; hide ChainInv; hide Login.Exchange; hide Refresh.FindAuthenticated; hide RejectCode;
    Always(start, history);
    var w := Run(Init(start), history);
    var code := w.ledger.openings[s].code;
    ExchangeCases(w, true, client, code, uri, verifier, canSign);
    var replay := Login.Exchange(w, true, client, code, uri, verifier, canSign);
    SpentCode(w, s);
    RefusesSpent(w, client, code, uri, verifier, canSign);
    RejectsOpened(w, s);
    TokenRuns.ExchangeKeeps(w, true, client, code, uri, verifier, canSign);
    Detection.OverForGood(replay.world, afterwards, s);
  }

  lemma SpentCode(w: World, s: Id)
    requires ChainInv(w) && s in w.ledger.openings && w.ledger.openings[s].code in w.db.codes
    ensures w.db.codes[w.ledger.openings[s].code].consumedAt.Some?
  {
    assert OpenedBy(w.ledger.openings, s, w.ledger.openings[s].code);
  }

  lemma RefusesSpent(w: World, client: ClientId, code: Id, uri: string, verifier: string, canSign: bool)
    requires code in w.db.codes && w.db.codes[code].consumedAt.Some?
    ensures Login.Exchange(w, true, client, code, uri, verifier, canSign) == Outcome(RejectCode(w, code), UnusableCode)
  {
    hide RejectCode; hide PkceMatches;
  }

  lemma RejectsOpened(w: World, s: Id)
    requires ChainInv(w) && s in w.ledger.openings && w.ledger.openings[s].code in w.db.codes
    requires w.db.codes[w.ledger.openings[s].code].consumedAt.Some?
    ensures var v := RejectCode(w, w.ledger.openings[s].code);
      Detection.Over(v.db, s) && forall t :: t in w.db.sessions && t != s ==> v.db.sessions[t] == w.db.sessions[t]
  {
    hide SpentCodes; hide CompletedOnce; hide FlowsRecorded; hide CodesRecorded; hide Matches;
  }

  // ---- Access tokens ----

  ghost predicate Names(x: AccessToken, openings: map<Id, Opening>, completions: map<Id, Completion>) {
    x.session in openings && openings[x.session].code in completions &&
    x.user == completions[openings[x.session].code].user && x.client == openings[x.session].client
  }

  ghost predicate AllNamed(access: set<AccessToken>, openings: map<Id, Opening>, completions: map<Id, Completion>) {
    forall x :: x in access ==> Names(x, openings, completions)
  }

  /** Nothing recorded is ever rewritten. */
  ghost predicate Grows<V(!new)>(before: map<Id, V>, after: map<Id, V>) {
    forall k :: k in before ==> k in after && after[k] == before[k]
  }

  lemma NamedStays(access: set<AccessToken>, openings: map<Id, Opening>, completions: map<Id, Completion>,
                   openings': map<Id, Opening>, completions': map<Id, Completion>)
    requires AllNamed(access, openings, completions) && Grows(openings, openings') && Grows(completions, completions')
    ensures AllNamed(access, openings', completions')
  {
  }

  lemma GrantNames(w: World, a: Action)
    requires ChainInv(w) && a.RefreshGrant? && AllNamed(w.ledger.access, w.ledger.openings, w.ledger.completions)
    ensures var v := Apply(w, a); AllNamed(v.ledger.access, v.ledger.openings, v.ledger.completions)
  {
    hide Refresh.Grant; hide Refresh.Classify; hide Refresh.Present; hide SpentCodes; hide CompletedOnce;
    hide OpenedOnce;
    hide CodesRecorded; hide FlowsRecorded;
    Refresh.GrantCases(w, a.knownClient, a.tokenClient, a.token, a.signs);
  }

  lemma ExchangeNames(w: World, a: Action)
    requires ChainInv(w) && a.Exchange? && AllNamed(w.ledger.access, w.ledger.openings, w.ledger.completions)
    ensures var v := Apply(w, a); AllNamed(v.ledger.access, v.ledger.openings, v.ledger.completions)
  {
    hide Login.Exchange; hide RejectCode; hide PkceMatches; hide SpentCodes; hide CompletedOnce; hide SessionsRecorded;
    hide FlowsRecorded; hide Matches; hide AllNamed;
    ExchangeCases(w, a.known, a.client, a.code, a.redirectUri, a.verifier, a.canSign);
    var out := Login.Exchange(w, a.known, a.client, a.code, a.redirectUri, a.verifier, a.canSign);
    if out.reply.Opened? {
      NamedStays(w.ledger.access, w.ledger.openings, w.ledger.completions, out.world.ledger.openings,
                 w.ledger.completions);
      OneMoreNamed(w.ledger.access, out.reply.access, out.world.ledger.openings, w.ledger.completions);
    }
  }

  lemma OneMoreNamed(access: set<AccessToken>, x: AccessToken, openings: map<Id, Opening>,
                     completions: map<Id, Completion>)
    requires AllNamed(access, openings, completions) && Names(x, openings, completions)
    ensures AllNamed(access + {x}, openings, completions)
  {
  }

  lemma ConfirmNames(w: World, a: Action)
    requires Intact(w.db) && ChainInv(w) && (a.ConfirmLink? || a.ConfirmCode?)
    ensures Grows(w.ledger.completions, Apply(w, a).ledger.completions)
  {
    hide Intact; hide Login.ConfirmLink; hide Login.ConfirmCode; hide Pending; hide LinkCandidate; hide UserReady;
    hide SpentCodes;
    hide SessionsRecorded; hide OpenedOnce; hide FlowsRecorded; hide CodesRecorded;
    IntactUsers(w.db);
    match a
    case ConfirmLink(link) => var id := ConfirmLinkCases(w, link);
    case ConfirmCode(flow, typed) => var link, id := ConfirmCodeCases(w, flow, typed);
  }

  lemma StepNames(w: World, a: Action)
    requires Sound(w) && AllNamed(w.ledger.access, w.ledger.openings, w.ledger.completions)
    ensures var v := Apply(w, a); AllNamed(v.ledger.access, v.ledger.openings, v.ledger.completions)
  {
    hide Intact; hide FlowInv; hide CodeInv; hide AccountInv; hide TokenForest.TokenInv; hide Apply; hide AllNamed;
    hide ChainInv;
    var v := Apply(w, a);
    if a.RefreshGrant? { GrantNames(w, a); }
    else if a.Exchange? { ExchangeNames(w, a); }
    else {
      Frame(w, a);
      if a.ConfirmLink? || a.ConfirmCode? { ConfirmNames(w, a); }
      NamedStays(w.ledger.access, w.ledger.openings, w.ledger.completions, v.ledger.openings, v.ledger.completions);
    }
  }

  lemma {:induction false} RunNames(w: World, actions: seq<Action>)
    requires Sound(w) && AllNamed(w.ledger.access, w.ledger.openings, w.ledger.completions)
    ensures var v := Run(w, actions); AllNamed(v.ledger.access, v.ledger.openings, v.ledger.completions)
    decreases |actions|
  {
    hide Sound; hide Apply; hide AllNamed;
    if actions != [] {
      StepNames(w, actions[0]);
      Soundness.StepKeeps(w, actions[0]);
      RunNames(Apply(w, actions[0]), actions[1..]);
    }
  }

  /** Every access token ever issued, by a login or by any number of refreshes after it, names the account
      whose mail completed the flow and the client that started it. */
  lemma AccessTokensNameTheirLogin(start: Time, actions: seq<Action>, x: AccessToken)
    requires x in Run(Init(start), actions).ledger.access
    ensures var ledger := Run(Init(start), actions).ledger;
      && x.session in ledger.openings && ledger.openings[x.session].code in ledger.completions
      && var done := ledger.completions[ledger.openings[x.session].code];
      && x.user == done.user && done.flow in ledger.flows && x.client == ledger.flows[done.flow].client
  {
    hide Run; hide CodeInv; hide AccountInv; hide TokenForest.TokenInv; hide Intact; hide FlowInv;
    hide SpentCodes; hide SessionsRecorded; hide CompletedOnce; hide CodesRecorded; hide FlowsRecorded;
    Always(start, actions);
    SoundAtFirst(start);
    RunNames(Init(start), actions);
    var ledger := Run(Init(start), actions).ledger;
    assert Names(x, ledger.openings, ledger.completions);
    assert Matches(ledger.openings[x.session], ledger.completions, ledger.flows);
  }

  // ---- References ----

  /** Every foreign key of the schema holds after every run: of links, codes, sessions, changes and
      confirmations, and of refresh tokens to their session and to their parent. */
  lemma EveryReferenceHolds(start: Time, actions: seq<Action>)
    ensures var db := Run(Init(start), actions).db;
      && (forall l :: l in db.links ==>
            db.links[l].scope in db.flows && (db.links[l].user.Some? ==> db.links[l].user.value in db.users))
      && (forall c :: c in db.codes ==> db.codes[c].flow in db.flows && db.codes[c].user in db.users)
      && (forall s :: s in db.sessions ==>
            db.sessions[s].user in db.users && (db.sessions[s].code.Some? ==> db.sessions[s].code.value in db.codes))
      && (forall c :: c in db.changes ==> db.changes[c].user in db.users)
      && (forall c :: c in db.confirmations ==>
            db.confirmations[c].key in db.users && db.confirmations[c].scope.session in db.sessions)
      && (forall t :: t in db.tokens ==>
            db.tokens[t].session in db.sessions &&
            (db.tokens[t].parent.Some? ==> db.tokens[t].parent.value in db.tokens))
  {
    hide Run; hide FlowInv; hide CodeInv; hide AccountInv; hide ChainInv; hide TokenForest.Conserved;
    hide TokenForest.Succeeded; hide TokenForest.ForksInGrace; hide TokenForest.Ordered;
    Always(start, actions);
    var db := Run(Init(start), actions).db;
    forall t | t in db.tokens && db.tokens[t].parent.Some?
      ensures db.tokens[t].parent.value in db.tokens
    {
      assert Refresh.ChildOf(db.tokens, t, db.tokens[t].parent.value);
    }
  }
}
