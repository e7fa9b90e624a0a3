/** A login that goes through: which requests mail a link, which links and codes log in, and which exchanges open a
    session, from a flow's first step to its last. */
module Logins {
  import opened Base
  import opened Tables
  import opened EmailedCodes
  import Login
  import opened References
  import opened FlowBounds
  import opened Accounts
  import Chain
  import opened Soundness
  import opened System
  import P = PurgeExactly

  // ---- Links ----

  predicate PendingFlow(flows: map<Id, Flow>, f: Id, now: Time) {
    f in flows && flows[f].completedAt.None? && now < flows[f].expiresAt
  }

  /** A link logs in exactly if it is unused and unexpired, its flow too, and its account is there, enabled and
      still at the address, or for a sign-up no disabled account has the address. Wrong codes typed for the same
      mail do not matter. */
  lemma LinkCompletesIff(w: World, link: Id)
    requires UniqueEmails(w.db.users) && forall u :: u in w.db.users ==> u < w.db.next
    ensures Login.ConfirmLink(w, link).reply.Completed? <==>
      && link in w.db.links && w.db.links[link].consumedAt.None? && w.now < w.db.links[link].expiresAt
      && PendingFlow(w.db.flows, w.db.links[link].scope, w.now) && P.AccountReady(w.db.users, w.db.links[link])
  {
    hide Login.LogIn; hide P.AccountReady;
    if link in w.db.links {
      var row := w.db.links[link];
      P.LogInCompletesIff(Login.WithLinks(w, Consume(w.db.links, link, w.now)), link, row.scope, row,
                          Login.InvalidToken);
    }
  }

  /** The account a mail was for, or the one that has the address of a sign-up. */
  predicate For(users: map<Id, User>, row: Link, u: Id) {
    u in users && (row.user == Some(u) || (row.user.None? && users[u].email == row.email))
  }

  /** Why a link is refused: its account is disabled; or all is well but its flow is over; or it is used up,
      expired, unknown, or its account is gone or has moved. */
  lemma LinkRefusals(w: World, link: Id)
    requires UniqueEmails(w.db.users) && forall u :: u in w.db.users ==> u < w.db.next
    ensures var reply := Login.ConfirmLink(w, link).reply;
      if link !in w.db.links || w.db.links[link].consumedAt.Some? || w.db.links[link].expiresAt <= w.now
      then reply.InvalidToken?
      else
        var row := w.db.links[link];
        && (reply.AccountDisabled? <==> exists u :: For(w.db.users, row, u) && w.db.users[u].disabledAt.Some?)
        && (reply.FlowOver? <==> P.AccountReady(w.db.users, row) && !PendingFlow(w.db.flows, row.scope, w.now))
        && (reply.InvalidToken? <==>
              row.user.Some? && (row.user.value in w.db.users ==>
                                   w.db.users[row.user.value].disabledAt.None? &&
                                   w.db.users[row.user.value].email != row.email))
  {
    hide Login.LogIn; hide For; hide P.AccountReady;
    if link in w.db.links {
      WhyRefused(Login.WithLinks(w, Consume(w.db.links, link, w.now)), link, w.db.links[link]);
    }
  }

  lemma WhyRefused(w: World, mail: Id, row: Link)
    requires UniqueEmails(w.db.users) && forall u :: u in w.db.users ==> u < w.db.next
    ensures var reply := Login.LogIn(w, mail, row.scope, row.user, row.email, Login.InvalidToken).1;
      && (reply.AccountDisabled? <==> exists u :: For(w.db.users, row, u) && w.db.users[u].disabledAt.Some?)
      && (reply.FlowOver? <==> P.AccountReady(w.db.users, row) && !PendingFlow(w.db.flows, row.scope, w.now))
      && (reply.InvalidToken? <==>
            row.user.Some? && (row.user.value in w.db.users ==>
                                 w.db.users[row.user.value].disabledAt.None? &&
                                 w.db.users[row.user.value].email != row.email))
  {
    hide Login.FindByEmail; hide Login.MarkVerified;
    if row.user.Some? {
      assert forall u :: For(w.db.users, row, u) ==> u == row.user.value;
      if row.user.value in w.db.users { assert For(w.db.users, row, row.user.value); }
    } else {
      var found := Login.FindByEmail(w.db.users, row.email, w.db.next);
      if found.Some? { assert For(w.db.users, row, found.value); }
      assert forall u: Id :: For(w.db.users, row, u) ==> found.Some? && found.value == u;
    }
  }

  /** What a login leaves: the account at the mailed address, verified and otherwise as it was or new; the mail and
      the flow used up; and one code, for a minute. */
  lemma LinkLogsIn(w: World, link: Id)
    requires UniqueEmails(w.db.users) && forall u :: u in w.db.users ==> u < w.db.next
    requires (forall c :: c in w.db.codes ==> c < w.db.next) && Login.ConfirmLink(w, link).reply.Completed?
    ensures var out := Login.ConfirmLink(w, link); var v := out.world; var code := out.reply.code;
      && link in w.db.links && w.db.links[link].scope in w.db.flows && code !in w.db.codes && code in v.db.codes
      && var row := w.db.links[link]; var u := v.db.codes[code].user;
      && v.db.links == w.db.links[link := row.(consumedAt := Some(w.now))]
      && v.db.flows == w.db.flows[row.scope := w.db.flows[row.scope].(completedAt := Some(w.now))]
      && v.db.codes == w.db.codes[code := AuthCode(row.scope, u, w.now + 60 * SECOND, None, w.now)]
      && (row.user.Some? ==> u == row.user.value)
      && u in v.db.users && v.db.users == w.db.users[u := v.db.users[u]]
      && v.db.users[u].email == row.email && v.db.users[u].disabledAt.None?
      && v.db.users[u].verifiedAt ==
           (if u in w.db.users && w.db.users[u].verifiedAt.Some? then w.db.users[u].verifiedAt else Some(w.now))
  {
    hide Login.ConfirmLink; hide Login.LogIn; hide Login.FindByEmail;
    var id := Login.ConfirmLinkCases(w, link);
    KeptMailsAccount(w, link);
  }

  lemma KeptMailsAccount(w: World, link: Id)
    ensures var out := Login.ConfirmLink(w, link);
      out.reply.Completed? && link in w.db.links && w.db.links[link].user.Some? &&
      out.reply.code in out.world.db.codes ==>
        out.world.db.codes[out.reply.code].user == w.db.links[link].user.value
  {
    hide Login.FindByEmail; hide Login.MarkVerified;
  }

  // ---- Requests ----

  /** Which requests are accepted, and which of them mail a link: to an account that has the address, unless it is
      disabled, or to anybody else if the client allows sign-ups. */
  lemma RequestMailsIff(w: World, flow: Id, email: Email, signup: Option<bool>, plain: string)
    requires UniqueEmails(w.db.users) && forall u :: u in w.db.users ==> u < w.db.next
    requires forall l :: l in w.db.links ==> l < w.db.next
    ensures var out := Login.RequestLink(w, flow, email, signup, plain);
      && (out.reply.FlowExpired? <==> !PendingFlow(w.db.flows, flow, w.now))
      && (out.reply.Exhausted? <==> PendingFlow(w.db.flows, flow, w.now) && 3 <= w.db.flows[flow].requests)
      && (out.reply.Accepted? <==>
            PendingFlow(w.db.flows, flow, w.now) && w.db.flows[flow].requests < 3 && signup.Some?)
      && (w.db.next in out.world.db.links <==> out.reply.Accepted? && Reaches(w.db.users, email, signup.value))
      && (out.reply.Accepted? ==>
            && flow in out.world.db.flows
            && var row := out.world.db.flows[flow];
            && row.requests == w.db.flows[flow].requests + 1 && row.completedAt.None?
            && w.now + 15 * MINUTE <= row.expiresAt && w.db.flows[flow].expiresAt <= row.expiresAt
            && (row.expiresAt == w.now + 15 * MINUTE || row.expiresAt == w.db.flows[flow].expiresAt)
            && out.reply.expiresAt == row.expiresAt)
      && (w.db.next in out.world.db.links ==>
            var row := out.world.db.links[w.db.next];
            && row.email == email && row.key == email && row.scope == flow && row.hash == Hmac(flow, plain)
            && row.failures == 0 && row.consumedAt.None? && row.createdAt == w.now
            && row.expiresAt == w.now + 15 * MINUTE
            && (row.user.Some? ==> row.user.value in w.db.users && w.db.users[row.user.value].email == email)
            && (row.user.None? ==> forall u :: u in w.db.users ==> w.db.users[u].email != email))
  {
  }

  /** A mail to the address is sent: an enabled account has it, or nobody has and sign-ups are allowed. */
  ghost predicate Reaches(users: map<Id, User>, email: Email, signup: bool) {
    (forall u :: u in users && users[u].email == email ==> users[u].disabledAt.None?) &&
    (signup || exists u :: u in users && users[u].email == email)
  }

  // ---- Flows keep their terms ----

  ghost predicate SameTerms(before: map<Id, Flow>, after: map<Id, Flow>, next: Id) {
    forall f :: f in after && f < next ==>
      f in before && after[f].client == before[f].client && after[f].redirectUri == before[f].redirectUri &&
      after[f].challenge == before[f].challenge
  }

  lemma StepKeepsTerms(w: World, a: Action)
    requires Intact(w.db)
    ensures SameTerms(w.db.flows, Apply(w, a).db.flows, w.db.next)
  {
    hide Intact; hide Apply;
    if a.ConfirmLink? || a.ConfirmCode? { ConfirmKeepsTerms(w, a); }
    else if a.CreateFlow? || a.RequestLink? { StartsKeepTerms(w, a); }
    else if a.RunPurge? { PurgeKeepsTerms(w); }
    else { Frame(w, a); }
  }

  lemma StartsKeepTerms(w: World, a: Action)
    requires a.CreateFlow? || a.RequestLink?
    ensures SameTerms(w.db.flows, Apply(w, a).db.flows, w.db.next)
  {
    hide Login.RequestLink;
    if a.RequestLink? { var user := Login.RequestCases(w, a.flow, a.email, a.signup, a.plain); }
  }

  lemma PurgeKeepsTerms(w: World)
    ensures SameTerms(w.db.flows, Apply(w, RunPurge).db.flows, w.db.next)
  {
  }

  lemma ConfirmKeepsTerms(w: World, a: Action)
    requires Intact(w.db) && (a.ConfirmLink? || a.ConfirmCode?)
    ensures SameTerms(w.db.flows, Apply(w, a).db.flows, w.db.next)
  {
    hide Intact; hide Login.ConfirmLink; hide Login.ConfirmCode; hide Login.LinkCandidate; hide Login.UserReady;
    IntactUsers(w.db);
    match a
    case ConfirmLink(link) => var id := Login.ConfirmLinkCases(w, link);
    case ConfirmCode(flow, typed) => var link, id := Login.ConfirmCodeCases(w, flow, typed);
  }

  lemma {:induction false} RunKeepsTerms(w: World, actions: seq<Action>)
    requires Sound(w)
    ensures SameTerms(w.db.flows, Run(w, actions).db.flows, w.db.next) && w.db.next <= Run(w, actions).db.next
    decreases |actions|
  {
    hide Sound; hide Apply;
    if actions != [] {
      SoundIntact(w);
      StepKeepsTerms(w, actions[0]);
      Frame(w, actions[0]);
      Soundness.StepKeeps(w, actions[0]);
      RunKeepsTerms(Apply(w, actions[0]), actions[1..]);
    }
  }

  // ---- Exchanges ----

  function LoginAnswer(w: World, a: Action): Login.LoginReply
    requires a.ConfirmLink? || a.ConfirmCode?
  {
    if a.ConfirmLink? then Login.ConfirmLink(w, a.link).reply else Login.ConfirmCode(w, a.codeFlow, a.typedCode).reply
  }

  predicate OnFlow(w: World, a: Action, f: Id) {
    (a.ConfirmLink? && a.link in w.db.links && w.db.links[a.link].scope == f) || (a.ConfirmCode? && a.codeFlow == f)
  }

  lemma LoginMakesCode(w: World, a: Action, f: Id)
    requires Intact(w.db) && OnFlow(w, a, f) && LoginAnswer(w, a).Completed?
    ensures var v := Apply(w, a); var code := LoginAnswer(w, a).code;
      code in v.db.codes && v.db.codes[code].flow == f && v.db.codes[code].consumedAt.None? &&
      v.db.codes[code].expiresAt == w.now + 60 * SECOND
  {
    hide Intact; hide Login.ConfirmLink; hide Login.ConfirmCode; hide Login.LinkCandidate; hide Login.UserReady;
    IntactUsers(w.db);
    match a
    case ConfirmLink(link) => var id := Login.ConfirmLinkCases(w, link);
    case ConfirmCode(flow, typed) => var link, id := Login.ConfirmCodeCases(w, flow, typed);
  }

  /** 43 to 128 of the characters a verifier may have. */
  predicate GoodVerifier(verifier: string) {
    43 <= |verifier| <= 128 &&
    forall i :: 0 <= i < |verifier| ==>
      'A' <= verifier[i] <= 'Z' || 'a' <= verifier[i] <= 'z' || '0' <= verifier[i] <= '9' ||
      verifier[i] == '-' || verifier[i] == '.' || verifier[i] == '_' || verifier[i] == '~'
  }

  /** A login that goes through. Start a flow in any reachable state, for a client with its redirect and the digest
      of a verifier of its own; after anything, log in on it, by link or by code; after anything that leaves the
      flow, the code and the enabled account there, present the code. Whoever presents it, with whatever redirect
      and verifier: a session opens exactly if these are the ones the flow was started with, less than sixty
      seconds have passed since the login, and a key can sign. */
  lemma LoginGoesThrough(start: Time, history: seq<Action>, client: ClientId, uri: string, verifier: string,
                         between: seq<Action>, login: Action, later: seq<Action>, known: bool, client': ClientId,
                         uri': string, verifier': string, canSign: bool)
    requires GoodVerifier(verifier)
    requires var w := Run(Init(start), history);
      var x := Run(Apply(w, CreateFlow(client, uri, S256(verifier))), between);
      OnFlow(x, login, w.db.next) && LoginAnswer(x, login).Completed?
    requires var w := Run(Init(start), history);
      var x := Run(Apply(w, CreateFlow(client, uri, S256(verifier))), between);
      var y := Apply(x, login); var code := LoginAnswer(x, login).code;
      var z := Run(y, later);
      && w.db.next in z.db.flows && code in y.db.codes && code in z.db.codes && z.db.codes[code] == y.db.codes[code]
      && z.db.codes[code].user in z.db.users && z.db.users[z.db.codes[code].user].disabledAt.None?
    ensures var w := Run(Init(start), history);
      var x := Run(Apply(w, CreateFlow(client, uri, S256(verifier))), between);
      var code := LoginAnswer(x, login).code;
      var z := Run(Apply(x, login), later);
      Login.Exchange(z, known, client', code, uri', verifier', canSign).reply.Opened? <==>
        known && client' == client && uri' == uri && verifier' == verifier &&
        z.now < x.now + 60 * SECOND && canSign
  {
    hide Run; hide Sound; hide Login.Exchange; hide LoginAnswer;
    Always(start, history);
    var w := Run(Init(start), history);
    var f := w.db.next;
    var w1 := Apply(w, CreateFlow(client, uri, S256(verifier)));
    Soundness.StepKeeps(w, CreateFlow(client, uri, S256(verifier)));
    RunKeepsTerms(w1, between);
    Soundness.RunKeeps(w1, between);
    var x := Run(w1, between);
    SoundIntact(x);
    LoginMakesCode(x, login, f);
    var y := Apply(x, login);
    hide Apply;
    Frame(x, login);
    StepKeepsTerms(x, login);
    Soundness.StepKeeps(x, login);
    RunKeepsTerms(y, later);
    var z := Run(y, later);
    assert z.db.flows[f].challenge == S256(verifier);
    OpensIff(z, known, client', LoginAnswer(x, login).code, uri', verifier', canSign, verifier);
  }

  lemma OpensIff(w: World, known: bool, client: ClientId, code: Id, uri: string, verifier: string, canSign: bool,
                 secret: string)
    requires code in w.db.codes && w.db.codes[code].consumedAt.None? && w.db.codes[code].flow in w.db.flows
    requires w.db.codes[code].user in w.db.users && w.db.users[w.db.codes[code].user].disabledAt.None?
    requires w.db.flows[w.db.codes[code].flow].challenge == S256(secret) && GoodVerifier(secret)
    ensures Login.Exchange(w, known, client, code, uri, verifier, canSign).reply.Opened? <==>
      var flow := w.db.flows[w.db.codes[code].flow];
      known && flow.client == client && flow.redirectUri == uri && verifier == secret &&
      w.now < w.db.codes[code].expiresAt && canSign
  {
    hide Login.RejectCode;
  }

  // ---- From the first step to a login ----

  /** The flow as it is when the mail is asked for. */
  function Asked(w: World, client: ClientId, uri: string, challenge: Challenge, wait: nat): World {
    Apply(Apply(w, CreateFlow(client, uri, challenge)), Tick(wait))
  }

  /** What the request leaves. */
  lemma AskedInTime(w: World, client: ClientId, uri: string, challenge: Challenge, email: Email, signup: bool,
                    plain: string, wait: nat)
    requires UniqueEmails(w.db.users) && (forall u :: u in w.db.users ==> u < w.db.next)
    requires forall l :: l in w.db.links ==> l < w.db.next
    ensures var f, l := w.db.next, w.db.next + 1;
      var request := Login.RequestLink(Asked(w, client, uri, challenge, wait), f, email, Some(signup), plain);
      var v := request.world;
      && (request.reply.Accepted? <==> wait < 15 * MINUTE)
      && v.db.users == w.db.users && v.now == w.now + wait && l <= v.db.next
      && (l in v.db.links <==> wait < 15 * MINUTE && Reaches(w.db.users, email, signup))
      && (l in v.db.links ==>
            && l < v.db.next && v.db.links == w.db.links[l := v.db.links[l]]
            && MailedTo(w.db.users, v.db.links[l], f, email, plain, v.now)
            && f in v.db.flows && v.db.flows[f].completedAt.None? && v.db.flows[f].expiresAt == v.now + 15 * MINUTE)
      && (l !in v.db.links ==> v.db.links == w.db.links)
  {
    hide Login.RequestLink; hide Login.FindByEmail;
    var x := Asked(w, client, uri, challenge, wait);
    assert x.db.flows[w.db.next] == Flow(client, uri, challenge, 0, w.now + 15 * MINUTE, None, w.now);
    RequestMailsIff(x, w.db.next, email, Some(signup), plain);
    RequestLeaves(x, w.db.next, email, Some(signup), plain);
  }

  ghost predicate MailedTo(users: map<Id, User>, row: Link, f: Id, email: Email, plain: string, now: Time) {
    && row.email == email && row.key == email && row.scope == f && row.hash == Hmac(f, plain) && row.failures == 0
    && row.consumedAt.None? && row.createdAt == now && row.expiresAt == now + 15 * MINUTE
    && (row.user.Some? ==> row.user.value in users && users[row.user.value].email == email)
    && (row.user.None? ==> forall u :: u in users ==> users[u].email != email)
  }

  /** A flow is started in any reachable state, a mail asked for after a while, and its link clicked or its code
      typed after another. The request is accepted in the first fifteen minutes. The link logs in if it was, within
      fifteen minutes of the request, if the mail reached anybody; the code likewise, if it has six digits and
      fewer than ten wrong ones were typed for the address that day. */
  lemma LoginInTime(start: Time, history: seq<Action>, client: ClientId, uri: string, challenge: Challenge,
                    email: Email, signup: bool, plain: string, wait: nat, delay: nat)
    ensures var w := Run(Init(start), history);
      var f, l := w.db.next, w.db.next + 1;
      var request := Login.RequestLink(Asked(w, client, uri, challenge, wait), f, email, Some(signup), plain);
      var y := Apply(request.world, Tick(delay));
      var works := wait < 15 * MINUTE && delay < 15 * MINUTE && Reaches(w.db.users, email, signup);
      && (request.reply.Accepted? <==> wait < 15 * MINUTE)
      && (Login.ConfirmLink(y, l).reply.Completed? <==> works)
      && (Login.ConfirmCode(y, f, plain).reply.Completed? <==>
            works && IsWellFormed(plain) && FailuresSince(w.db.links, email, y.now - DAY, w.db.next) < 10)
  {
    hide Run; hide Sound; hide Login.RequestLink; hide Login.ConfirmLink; hide Login.ConfirmCode; hide Intact;
    hide Asked; hide Newest; hide FailuresSince; hide IsWellFormed; hide Reaches; hide P.AccountReady;
    Always(start, history);
    var w := Run(Init(start), history);
    SoundUsers(w);
    SoundMails(w);
    SoundIntact(w);
    var f := w.db.next;
    AskedInTime(w, client, uri, challenge, email, signup, plain, wait);
    var v := Login.RequestLink(Asked(w, client, uri, challenge, wait), f, email, Some(signup), plain).world;
    var y := Apply(v, Tick(delay));
    LinkCompletesIff(y, f + 1);
    P.CompletesIff(y, f, plain);
    NoFlowYet(w);
    if f + 1 in y.db.links {
      MailedIsReady(w.db.users, y.db.links[f + 1], f, email, signup, plain, v.now);
      NewestAlone(y.db.links, f, y.db.next, f + 1);
      SameSum(w.db.links, y.db.links, email, y.now - DAY, f, y.db.next);
    } else {
      NewestOfNone(y.db.links, f, y.db.next);
    }
  }

  lemma MailedIsReady(users: map<Id, User>, row: Link, f: Id, email: Email, signup: bool, plain: string, now: Time)
    requires MailedTo(users, row, f, email, plain, now) && Reaches(users, email, signup)
    ensures P.AccountReady(users, row)
  {
  }

  lemma {:induction false} NewestAlone(links: map<Id, Link>, f: Id, n: Id, l: Id)
    requires l in links && l < n && links[l].scope == f && forall m :: m in links && links[m].scope == f ==> m == l
    ensures Newest(links, f, n) == Some(l)
  {
    if l < n - 1 { NewestAlone(links, f, n - 1, l); }
  }

  lemma NewestOfNone(links: map<Id, Link>, f: Id, n: Id)
    requires forall m :: m in links ==> links[m].scope != f
    ensures Newest(links, f, n).None?
  {
  }

  /** Rows without failures add nothing. */
  lemma {:induction false} SameSum(a: map<Id, Link>, b: map<Id, Link>, email: Email, since: Time, n: Id, m: Id)
    requires n <= m && (forall l :: l in a ==> l < n && l in b && b[l] == a[l])
    requires forall l :: l in b && l !in a ==> n <= l && b[l].failures == 0
    ensures FailuresSince(b, email, since, m) == FailuresSince(a, email, since, n)
  {
    if n < m { SameSum(a, b, email, since, n, m - 1); }
    else if n > 0 { SamePart(a, b, email, since, n, n); }
  }

  lemma {:induction false} SamePart(a: map<Id, Link>, b: map<Id, Link>, email: Email, since: Time, n: Id, m: Id)
    requires m <= n && forall l: Id :: l < n ==> (l in b <==> l in a) && (l in a ==> b[l] == a[l])
    ensures FailuresSince(b, email, since, m) == FailuresSince(a, email, since, m)
  {
    if m > 0 { SamePart(a, b, email, since, n, m - 1); }
  }

  lemma NoFlowYet(w: World)
    requires Intact(w.db)
    ensures forall l :: l in w.db.links ==> w.db.links[l].scope != w.db.next
  {
    Chain.IntactFlowIds(w.db);
  }

  lemma RequestLeaves(w: World, flow: Id, email: Email, signup: Option<bool>, plain: string)
    ensures var v := Login.RequestLink(w, flow, email, signup, plain).world;
      && v.db.users == w.db.users && v.now == w.now
      && (v.db.links == w.db.links || (w.db.next in v.db.links && v.db.next == w.db.next + 1 &&
                                       v.db.links == w.db.links[w.db.next := v.db.links[w.db.next]]))
      && w.db.next <= v.db.next <= w.db.next + 1
  {
    hide Login.FindByEmail;
  }
}
