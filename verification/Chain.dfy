/** One flow, one code, one session: the chain of section 4.1.2 of RFC 6749 and section 4.6 of RFC 7636,
    read off the record of everything that happened. */
module Chain {
  import opened Base
  import opened Tables
  import opened EmailedCodes
  import Refresh
  import opened Login
  import Account
  import Purge
  import opened References
  import opened FlowBounds
  import opened System

  ghost predicate FlowsRecorded(flows: map<Id, Flow>, terms: map<Id, FlowTerms>, next: Id) {
    && (forall f :: f in flows ==> f in terms && terms[f] == FlowTerms(flows[f].client, flows[f].challenge))
    && (forall f :: f in terms ==> f < next)
  }

  /** A flow was completed at most once, and then shows it. */
  ghost predicate CompletedOnce(completions: map<Id, Completion>, flows: map<Id, Flow>, terms: map<Id, FlowTerms>,
                                next: Id) {
    && (forall c, d :: c in completions && d in completions && completions[c].flow == completions[d].flow ==> c == d)
    && (forall c :: c in completions ==> c < next && completions[c].flow in terms)
    && (forall c :: c in completions && completions[c].flow in flows ==> flows[completions[c].flow].completedAt.Some?)
  }

  ghost predicate CodesRecorded(codes: map<Id, AuthCode>, completions: map<Id, Completion>) {
    forall c :: c in codes ==>
      c in completions && codes[c].flow == completions[c].flow && codes[c].user == completions[c].user
  }

  ghost predicate Matches(o: Opening, completions: map<Id, Completion>, terms: map<Id, FlowTerms>) {
    o.code in completions && completions[o.code].flow in terms &&
    terms[completions[o.code].flow] == FlowTerms(o.client, S256(o.verifier))
  }

  /** A code opened at most one session, for its flow's client and with the matching verifier. */
  ghost predicate OpenedOnce(openings: map<Id, Opening>, completions: map<Id, Completion>, terms: map<Id, FlowTerms>,
                             next: Id) {
    && (forall s, t :: s in openings && t in openings && openings[s].code == openings[t].code ==> s == t)
    && (forall s :: s in openings ==> s < next && Matches(openings[s], completions, terms))
  }

  ghost predicate OpenedBy(openings: map<Id, Opening>, s: Id, c: Id) {
    s in openings && openings[s].code == c
  }

  /** A code row is consumed exactly if it opened a session. */
  ghost predicate SpentCodes(codes: map<Id, AuthCode>, openings: map<Id, Opening>) {
    forall c :: c in codes ==> (codes[c].consumedAt.Some? <==> exists s :: OpenedBy(openings, s, c))
  }

  ghost predicate SessionRecorded(x: Session, s: Id, openings: map<Id, Opening>, completions: map<Id, Completion>,
                                  codes: map<Id, AuthCode>) {
    && s in openings && x.client == openings[s].client
    && openings[s].code in completions && x.user == completions[openings[s].code].user
    && (x.code == Some(openings[s].code) || (x.code.None? && openings[s].code !in codes))
  }

  ghost predicate SessionsRecorded(sessions: map<Id, Session>, openings: map<Id, Opening>,
                                   completions: map<Id, Completion>, codes: map<Id, AuthCode>) {
    forall s :: s in sessions ==> SessionRecorded(sessions[s], s, openings, completions, codes)
  }

  ghost predicate ChainInv(w: World) {
    && FlowsRecorded(w.db.flows, w.ledger.flows, w.db.next)
    && CompletedOnce(w.ledger.completions, w.db.flows, w.ledger.flows, w.db.next)
    && CodesRecorded(w.db.codes, w.ledger.completions)
    && OpenedOnce(w.ledger.openings, w.ledger.completions, w.ledger.flows, w.db.next)
    && SpentCodes(w.db.codes, w.ledger.openings)
    && SessionsRecorded(w.db.sessions, w.ledger.openings, w.ledger.completions, w.db.codes)
  }

  // ---- Steps after which nothing is new in the chain ----

  ghost predicate SessionsFollow(before: map<Id, Session>, after: map<Id, Session>, codes: map<Id, AuthCode>) {
    forall s :: s in after ==>
      s in before && after[s].user == before[s].user && after[s].client == before[s].client &&
      (after[s].code == before[s].code ||
       (after[s].code.None? && before[s].code.Some? && before[s].code.value !in codes))
  }

  ghost predicate SameRecord(w: World, v: World) {
    v.ledger.flows == w.ledger.flows && v.ledger.completions == w.ledger.completions &&
    v.ledger.openings == w.ledger.openings && w.db.next <= v.db.next
  }

  lemma QuietKeeps(w: World, v: World)
    requires ChainInv(w) && SameRecord(w, v) && v.db.flows.Keys <= w.db.flows.Keys && FlowsMove(w.db.flows, v.db.flows)
    requires Within(v.db.codes, w.db.codes) && SessionsFollow(w.db.sessions, v.db.sessions, v.db.codes)
    ensures ChainInv(v)
  {
    hide SessionsRecorded; hide SpentCodes; hide OpenedOnce;
    FollowKeepsSessions(w.db.sessions, v.db.sessions, w.ledger.openings, w.ledger.completions, w.db.codes, v.db.codes);
    FewerSpent(w.db.codes, v.db.codes, w.ledger.openings);
    LaterOpened(w.ledger.openings, w.ledger.completions, w.ledger.flows, w.db.next, v.db.next);
  }

  lemma FollowKeepsSessions(sessions: map<Id, Session>, sessions': map<Id, Session>, openings: map<Id, Opening>,
                            completions: map<Id, Completion>, codes: map<Id, AuthCode>, codes': map<Id, AuthCode>)
    requires SessionsRecorded(sessions, openings, completions, codes) && Within(codes', codes)
    requires SessionsFollow(sessions, sessions', codes')
    ensures SessionsRecorded(sessions', openings, completions, codes')
  {
    forall s | s in sessions'
      ensures SessionRecorded(sessions'[s], s, openings, completions, codes')
    {
      assert SessionRecorded(sessions[s], s, openings, completions, codes);
    }
  }

  lemma FewerSpent(codes: map<Id, AuthCode>, codes': map<Id, AuthCode>, openings: map<Id, Opening>)
    requires SpentCodes(codes, openings) && Within(codes', codes)
    ensures SpentCodes(codes', openings)
  {
  }

  lemma LaterOpened(openings: map<Id, Opening>, completions: map<Id, Completion>, terms: map<Id, FlowTerms>, next: Id,
                    next': Id)
    requires OpenedOnce(openings, completions, terms, next) && next <= next'
    ensures OpenedOnce(openings, completions, terms, next')
  {
  }

  lemma CreateKeeps(w: World, client: ClientId, uri: string, challenge: Challenge)
    requires ChainInv(w) && Intact(w.db)
    ensures ChainInv(Login.CreateFlow(w, client, uri, challenge))
  {
    hide CodesRecorded; hide SessionsRecorded; hide SpentCodes; hide Intact; hide OpenedOnce;
    IntactFlowIds(w.db);
    CreateKeepsOpenings(w.ledger.openings, w.ledger.completions, w.ledger.flows, w.db.next,
                        FlowTerms(client, challenge));
  }

  lemma CreateKeepsOpenings(openings: map<Id, Opening>, completions: map<Id, Completion>, terms: map<Id, FlowTerms>,
                            next: Id, added: FlowTerms)
    requires OpenedOnce(openings, completions, terms, next) && forall f :: f in terms ==> f < next
    ensures OpenedOnce(openings, completions, terms[next := added], next + 1)
  {
  }

  lemma IntactFlowIds(db: Db)
    requires Intact(db)
    ensures forall f :: f in db.flows ==> f < db.next
  {
  }

  // ---- A flow is completed ----

  lemma UsedKeeps(w: World, v: World, link: Id, id: Id, code: Id)
    requires ChainInv(w) && Intact(w.db) && LinkUsed(w, v, link, id, code) && LoginFrame(w, v)
    ensures ChainInv(v)
  {
    hide UserReady; hide Intact; hide ChainInv;
    CompletionKeeps(w, v, w.db.links[link].scope, code);
  }

  lemma CompletionKeeps(w: World, v: World, flow: Id, code: Id)
    requires ChainInv(w) && FlowPending(w.db.flows, flow, w.now) && w.db.next <= code < v.db.next
    requires v.db.flows == w.db.flows[flow := w.db.flows[flow].(completedAt := Some(w.now))]
    requires code in v.db.codes && v.db.codes == w.db.codes[code := v.db.codes[code]]
    requires code in v.ledger.completions
    requires v.ledger.completions == w.ledger.completions[code := v.ledger.completions[code]]
    requires v.db.codes[code].flow == flow && v.ledger.completions[code].flow == flow
    requires v.db.codes[code].user == v.ledger.completions[code].user && v.db.codes[code].consumedAt.None?
    requires v.db.sessions == w.db.sessions && v.ledger.flows == w.ledger.flows
    requires v.ledger.openings == w.ledger.openings
    ensures ChainInv(v)
  {
    hide SessionsRecorded; hide OpenedOnce; hide SpentCodes; hide CompletedOnce;
    assert forall c :: c in w.ledger.completions ==> c < w.db.next by { CompletionIds(w); }
    CompletionKeepsOnce(w, v, flow, code);
    CompletionKeepsSpent(w.db.codes, v.db.codes, code, w.ledger.openings, w.ledger.completions, w.ledger.flows,
                         w.db.next);
    CompletionKeepsOpenings(w.ledger.openings, w.ledger.completions, v.ledger.completions, w.ledger.flows, code,
                            w.db.next, v.db.next);
    CompletionKeepsSessions(w, v, code);
  }

  lemma CompletionIds(w: World)
    requires ChainInv(w)
    ensures forall c :: c in w.ledger.completions ==> c < w.db.next
  {
  }

  lemma CompletionKeepsOnce(w: World, v: World, flow: Id, code: Id)
    requires CompletedOnce(w.ledger.completions, w.db.flows, w.ledger.flows, w.db.next)
    requires FlowsRecorded(w.db.flows, w.ledger.flows, w.db.next)
    requires FlowPending(w.db.flows, flow, w.now) && w.db.next <= code < v.db.next
    requires v.db.flows == w.db.flows[flow := w.db.flows[flow].(completedAt := Some(w.now))]
    requires code in v.ledger.completions && v.ledger.completions[code].flow == flow
    requires v.ledger.completions == w.ledger.completions[code := v.ledger.completions[code]]
    ensures CompletedOnce(v.ledger.completions, v.db.flows, w.ledger.flows, v.db.next)
  {
  }

  lemma CompletionKeepsSpent(codes: map<Id, AuthCode>, codes': map<Id, AuthCode>, code: Id, openings: map<Id, Opening>,
                             completions: map<Id, Completion>, terms: map<Id, FlowTerms>, next: Id)
    requires SpentCodes(codes, openings) && OpenedOnce(openings, completions, terms, next)
    requires (forall c :: c in completions ==> c < next) && next <= code
    requires code in codes' && codes' == codes[code := codes'[code]] && codes'[code].consumedAt.None?
    ensures SpentCodes(codes', openings)
  {
    forall s | OpenedBy(openings, s, code)
      ensures false
    {
      assert Matches(openings[s], completions, terms);
    }
  }

  lemma CompletionKeepsOpenings(openings: map<Id, Opening>, completions: map<Id, Completion>,
                                completions': map<Id, Completion>, terms: map<Id, FlowTerms>, code: Id, next: Id,
                                next': Id)
    requires OpenedOnce(openings, completions, terms, next) && (forall c :: c in completions ==> c < next)
    requires next <= code && next <= next'
    requires code in completions' && completions' == completions[code := completions'[code]]
    ensures OpenedOnce(openings, completions', terms, next')
  {
  }

  lemma CompletionKeepsSessions(w: World, v: World, code: Id)
    requires SessionsRecorded(w.db.sessions, w.ledger.openings, w.ledger.completions, w.db.codes)
    requires (forall c :: c in w.ledger.completions ==> c < w.db.next) && w.db.next <= code
    requires code in v.db.codes && v.db.codes == w.db.codes[code := v.db.codes[code]]
    requires code in v.ledger.completions
    requires v.ledger.completions == w.ledger.completions[code := v.ledger.completions[code]]
    requires v.db.sessions == w.db.sessions && v.ledger.openings == w.ledger.openings
    ensures SessionsRecorded(v.db.sessions, v.ledger.openings, v.ledger.completions, v.db.codes)
  {
  }

  lemma ConfirmKeeps(w: World, a: Action)
    requires Intact(w.db) && ChainInv(w) && (a.ConfirmLink? || a.ConfirmCode?)
    ensures ChainInv(Apply(w, a))
  {
    hide ChainInv; hide LinkUsed; hide Login.ConfirmLink; hide Login.ConfirmCode; hide Intact;
    hide LoginFrame; hide LinkCandidate;
    IntactUsers(w.db);
    match a
    case ConfirmLink(link) =>
      var id := ConfirmLinkCases(w, link);
      var out := Login.ConfirmLink(w, link);
      if out.reply.Completed? { UsedKeeps(w, out.world, link, id, out.reply.code); }
    case ConfirmCode(flow, typed) =>
      var link, id := ConfirmCodeCases(w, flow, typed);
      var out := Login.ConfirmCode(w, flow, typed);
      if out.reply.Completed? { UsedKeeps(w, out.world, link, id, out.reply.code); }
      else if out.world != w { QuietKeeps(w, out.world); }
  }

  // ---- A session is opened ----

  lemma OpenKeeps(w: World, v: World, client: ClientId, code: Id, uri: string, verifier: string, reply: ExchangeReply)
    requires ChainInv(w) && Intact(w.db) && SessionOpened(w, v, client, code, uri, verifier, reply)
    requires v.ledger.flows == w.ledger.flows && v.ledger.completions == w.ledger.completions
    ensures ChainInv(v)
  {
    hide SpentCodes; hide SessionsRecorded; hide OpenedOnce; hide Intact;
    OpenKeepsOnce(w, v, client, code, uri, verifier, reply);
    OpenKeepsSpent(w, v, client, code, uri, verifier, reply);
    OpenKeepsSessions(w, v, client, code, uri, verifier, reply);
  }

  lemma OpenKeepsOnce(w: World, v: World, client: ClientId, code: Id, uri: string, verifier: string,
                      reply: ExchangeReply)
    requires ChainInv(w) && SessionOpened(w, v, client, code, uri, verifier, reply)
    ensures OpenedOnce(v.ledger.openings, w.ledger.completions, w.ledger.flows, v.db.next)
  {
    hide SessionsRecorded; hide CompletedOnce; hide Refresh.Enabled;
    forall s | s in w.ledger.openings
      ensures w.ledger.openings[s].code != code
    {
      assert w.ledger.openings[s].code == code ==> OpenedBy(w.ledger.openings, s, code);
    }
    assert Matches(v.ledger.openings[w.db.next], w.ledger.completions, w.ledger.flows);
  }

  lemma OpenKeepsSpent(w: World, v: World, client: ClientId, code: Id, uri: string, verifier: string,
                       reply: ExchangeReply)
    requires ChainInv(w) && SessionOpened(w, v, client, code, uri, verifier, reply)
    ensures SpentCodes(v.db.codes, v.ledger.openings)
  {
    hide SessionsRecorded; hide CompletedOnce; hide Refresh.Enabled; hide FlowsRecorded; hide PkceMatches;
    var openings := v.ledger.openings;
    assert OpenedBy(openings, w.db.next, code);
    forall c | c in v.db.codes
      ensures v.db.codes[c].consumedAt.Some? <==> exists s :: OpenedBy(openings, s, c)
    {
      if c != code {
        if s :| OpenedBy(w.ledger.openings, s, c) {
          assert OpenedBy(openings, s, c);
        }
        if s :| OpenedBy(openings, s, c) {
          assert OpenedBy(w.ledger.openings, s, c);
        }
      }
    }
  }

  lemma OpenKeepsSessions(w: World, v: World, client: ClientId, code: Id, uri: string, verifier: string,
                          reply: ExchangeReply)
    requires ChainInv(w) && Intact(w.db) && SessionOpened(w, v, client, code, uri, verifier, reply)
    ensures SessionsRecorded(v.db.sessions, v.ledger.openings, w.ledger.completions, v.db.codes)
  {
    hide SpentCodes; hide CompletedOnce; hide Refresh.Enabled; hide FlowsRecorded; hide PkceMatches; hide Intact;
    assert v.db.codes.Keys == w.db.codes.Keys;
    forall s | s in v.db.sessions
      ensures SessionRecorded(v.db.sessions[s], s, v.ledger.openings, w.ledger.completions, v.db.codes)
    {
      if s != w.db.next {
        assert SessionRecorded(w.db.sessions[s], s, w.ledger.openings, w.ledger.completions, w.db.codes);
      }
    }
  }

  lemma ExchangeKeeps(w: World, a: Action)
    requires ChainInv(w) && Intact(w.db) && a.Exchange?
    ensures ChainInv(Apply(w, a))
  {
    hide Login.Exchange; hide RejectCode; hide ChainInv; hide SessionOpened; hide Intact;
    ExchangeCases(w, a.known, a.client, a.code, a.redirectUri, a.verifier, a.canSign);
    var out := Login.Exchange(w, a.known, a.client, a.code, a.redirectUri, a.verifier, a.canSign);
    if out.reply.Opened? { OpenKeeps(w, out.world, a.client, a.code, a.redirectUri, a.verifier, out.reply); }
    else if out.reply.UnusableCode? {
      RejectEnds(w, a.code);
      QuietKeeps(w, out.world);
    }
  }

  // ---- Every step ----

  lemma OthersFollow(w: World, a: Action)
    requires Intact(w.db) && !a.CreateFlow? && !a.ConfirmLink? && !a.ConfirmCode? && !a.Exchange?
    ensures var v := Apply(w, a);
      && v.db.flows.Keys <= w.db.flows.Keys && FlowsMove(w.db.flows, v.db.flows)
      && Within(v.db.codes, w.db.codes) && SessionsFollow(w.db.sessions, v.db.sessions, v.db.codes)
      && SameRecord(w, v)
  {
    hide Apply; hide Intact;
    Frame(w, a);
    if a.RefreshGrant? || a.Logout? || a.RevokeOwnSession? { RevokeEnds(w, a); GrantOpensNone(w, a); }
    else if a.DeleteAccount? || a.RunPurge? { DeletionsFollow(w, a); }
    else if a.RequestLink? { RequestMoves(w, a); }
  }

  lemma GrantOpensNone(w: World, a: Action)
    requires a.RefreshGrant? || a.Logout? || a.RevokeOwnSession?
    ensures Apply(w, a).ledger.openings == w.ledger.openings
  {
    hide Refresh.Grant; hide Refresh.RevokeByToken; hide Refresh.RevokeOwn;
  }

  lemma RequestMoves(w: World, a: Action)
    requires a.RequestLink?
    ensures var v := Apply(w, a); v.db.flows.Keys <= w.db.flows.Keys && FlowsMove(w.db.flows, v.db.flows)
  {
    hide Login.RequestLink; hide NewLink;
    var user := RequestCases(w, a.flow, a.email, a.signup, a.plain);
  }

  lemma DeletionsFollow(w: World, a: Action)
    requires Intact(w.db) && (a.DeleteAccount? || a.RunPurge?)
    ensures var v := Apply(w, a);
      && v.db.flows.Keys <= w.db.flows.Keys && FlowsMove(w.db.flows, v.db.flows)
      && Within(v.db.codes, w.db.codes) && SessionsFollow(w.db.sessions, v.db.sessions, v.db.codes)
  {
    hide Purge.PurgeDb; hide Intact; hide Account.CheckCode;
    match a
    case RunPurge => PurgeKeeps(w.db, w.now);
    case DeleteAccount(_, _) =>
  }

  lemma StepKeeps(w: World, a: Action)
    requires Intact(w.db) && ChainInv(w)
    ensures ChainInv(Apply(w, a))
  {
    hide Intact; hide ChainInv;
    if a.CreateFlow? { hide Login.CreateFlow; CreateKeeps(w, a.flowClient, a.flowRedirect, a.challenge); }
    else if a.ConfirmLink? || a.ConfirmCode? { ConfirmKeeps(w, a); }
    else if a.Exchange? { ExchangeKeeps(w, a); }
    else {
      OthersFollow(w, a);
      QuietKeeps(w, Apply(w, a));
    }
  }
}
