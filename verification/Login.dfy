/** Login flows, magic links, sign-up and the authorization code grant (routes/login.rs,
    routes/magic_link.rs, login_flow.rs, routes/oauth.rs). */
module Login {
  import opened Base
  import opened Tables
  import opened EmailedCodes
  import Refresh

  /** The account using an address; at most one does. */
  function FindByEmail(users: map<Id, User>, email: Email, n: Id): (r: Option<Id>)
    ensures r.Some? ==> r.value in users && users[r.value].email == email
    ensures r.None? ==> forall u :: u in users && u < n ==> users[u].email != email
  {
    if n == 0 then None
    else if n - 1 in users && users[n - 1].email == email then Some(n - 1)
    else FindByEmail(users, email, n - 1)
  }

  function CreateFlow(w: World, client: ClientId, redirectUri: string, challenge: Challenge): (r: World)
    ensures r == w.(db := w.db.(flows := r.db.flows, next := r.db.next), ledger := w.ledger.(flows := r.ledger.flows))
    ensures w.db.next <= r.db.next
  {
    var flow := Flow(client, redirectUri, challenge, 0, w.now + FLOW_TTL, None, w.now);
    w.(db := w.db.(flows := w.db.flows[w.db.next := flow], next := w.db.next + 1),
       ledger := w.ledger.(flows := w.ledger.flows[w.db.next := FlowTerms(client, challenge)]))
  }

  predicate FlowPending(flows: map<Id, Flow>, id: Id, now: Time) {
    id in flows && flows[id].completedAt.None? && now < flows[id].expiresAt
  }

  datatype RequestReply = FlowExpired | Exhausted | UnknownClient | Accepted(expiresAt: Time)

  /** `signup`: whether the flow's client lets new addresses sign up, None if it is not declared.
      `plain` is the random code. */
  function RequestLink(w: World, flow: Id, email: Email, signup: Option<bool>,
                       plain: string): (r: Outcome<RequestReply>)
    ensures r.world == w.(db := w.db.(flows := r.world.db.flows, links := r.world.db.links, next := r.world.db.next),
                          ledger := w.ledger.(sent := r.world.ledger.sent))
    ensures w.db.next <= r.world.db.next
  {
    var db := w.db;
    if !FlowPending(db.flows, flow, w.now) then Outcome(w, FlowExpired)
    else if db.flows[flow].requests >= MAX_EMAILS_PER_FLOW then Outcome(w, Exhausted)
    else if signup.None? then Outcome(w, UnknownClient)
    else
      var expiresAt := w.now + CODE_TTL;
      var counted := db.flows[flow].(requests := db.flows[flow].requests + 1,
                                     expiresAt := Max(db.flows[flow].expiresAt, expiresAt));
      var db1 := db.(flows := db.flows[flow := counted]);
      var user := FindByEmail(db.users, email, db.next);
      var sends := if user.Some? then db.users[user.value].disabledAt.None? else signup.value;
      if !sends then Outcome(w.(db := db1), Accepted(counted.expiresAt))
      else
        var link := CodeRow(email, flow, user, email, Hmac(flow, plain), 0, expiresAt, None, w.now);
        Outcome(w.(db := db1.(links := db.links[db.next := link], next := db.next + 1),
                   ledger := w.ledger.(sent := w.ledger.sent[db.next := email])),
                Accepted(counted.expiresAt))
  }

  datatype LoginReply = InvalidToken | InvalidCode | InvalidRequest | AccountDisabled | FlowOver | Completed(code: Id)

  /** The account a checked email logs in, created on the way for a sign-up. */
  function Recipient(db: Db, user: Option<Id>, email: Email, now: Time): (Db, Option<Id>) {
    match user
    case Some(id) => (db, if id in db.users then Some(id) else None)
    case None =>
      var found := FindByEmail(db.users, email, db.next);
      if found.Some? then (db, found)
      else (db.(users := db.users[db.next := User(email, None, None, now)], next := db.next + 1), Some(db.next))
  }

  function MarkVerified(users: map<Id, User>, id: Id, email: Email, now: Time): map<Id, User> {
    if id in users && users[id].email == email
    then users[id := users[id].(verifiedAt := if users[id].verifiedAt.Some? then users[id].verifiedAt else Some(now))]
    else users
  }

  /** What a checked link or code does, on the world in which it is already consumed. `stale` answers
      when the email went to an address the account no longer uses. None means roll back. */
  function LogIn(w: World, mail: Id, flow: Id, user: Option<Id>, email: Email, stale: LoginReply)
    : (r: (Option<World>, LoginReply))
    ensures r.0.Some? ==>
      var v := r.0.value;
      v == w.(db := w.db.(users := v.db.users, flows := v.db.flows, codes := v.db.codes, next := v.db.next),
              ledger := w.ledger.(proofs := v.ledger.proofs, completions := v.ledger.completions)) &&
      w.db.next <= v.db.next
  {
    var (db, recipient) := Recipient(w.db, user, email, w.now);
    if recipient.None? || recipient.value !in db.users then (None, stale)
    else
      var id := recipient.value;
      if db.users[id].disabledAt.Some? then (None, AccountDisabled)
      else if db.users[id].email != email then (None, stale)
      else if !FlowPending(db.flows, flow, w.now) then (None, FlowOver)
      else
        var code := AuthCode(flow, id, w.now + AUTHORIZATION_CODE_TTL, None, w.now);
        (Some(w.(db := db.(users := MarkVerified(db.users, id, email, w.now),
                           flows := db.flows[flow := db.flows[flow].(completedAt := Some(w.now))],
                           codes := db.codes[db.next := code],
                           next := db.next + 1),
                 ledger := w.ledger.(
                   proofs := w.ledger.proofs + {Proof(id, email, mail)},
                   completions := w.ledger.completions[db.next := Completion(flow, id, mail, email)]))),
         Completed(db.next))
  }

  function WithLinks(w: World, links: map<Id, Link>): World {
    w.(db := w.db.(links := links))
  }

  predicate LoginFrame(w: World, v: World) {
    v == w.(db := w.db.(users := v.db.users, flows := v.db.flows, codes := v.db.codes, links := v.db.links,
                        next := v.db.next),
            ledger := w.ledger.(proofs := v.ledger.proofs, completions := v.ledger.completions,
                                guesses := v.ledger.guesses)) &&
    w.db.next <= v.db.next
  }

  function ConfirmLink(w: World, link: Id): (r: Outcome<LoginReply>)
    ensures LoginFrame(w, r.world)
  {
    if link !in w.db.links || !Pending(w.db.links[link], w.now) then Outcome(w, InvalidToken)
    else
      var row := w.db.links[link];
      var (done, reply) := LogIn(WithLinks(w, Consume(w.db.links, link, w.now)),
                                 link, row.scope, row.user, row.email, InvalidToken);
      Outcome(if done.Some? then done.value else w, reply)
  }

  function LinkCandidate(links: map<Id, Link>, flow: Id, now: Time, n: Id): (r: Option<Id>)
    ensures r.Some? ==> r.value in links && links[r.value].scope == flow
  {
    var newest := Newest(links, flow, n);
    if newest.None? then None else Candidate(links, flow, links[newest.value].email, now, n)
  }

  function ConfirmCode(w: World, flow: Id, typed: string): (r: Outcome<LoginReply>)
    ensures LoginFrame(w, r.world)
  {
    if !IsWellFormed(typed) then Outcome(w, InvalidRequest)
    else
      var link := LinkCandidate(w.db.links, flow, w.now, w.db.next);
      if link.None? then Outcome(w, InvalidCode)
      else
        var row := w.db.links[link.value];
        if row.hash != Hmac(flow, typed) then
          Outcome(WithLinks(w, RecordFailure(w.db.links, link.value, w.now))
                  .(ledger := w.ledger.(guesses := w.ledger.guesses + [Guess(row.key, row.createdAt, w.now)])),
                  InvalidCode)
        else
          var (done, reply) := LogIn(WithLinks(w, Consume(w.db.links, link.value, w.now)),
                                     link.value, flow, row.user, row.email, InvalidCode);
          Outcome(if done.Some? then done.value else w, reply)
  }

  /** 43 to 128 unreserved characters whose S256 digest is the challenge. */
  predicate PkceMatches(verifier: string, challenge: Challenge) {
    43 <= |verifier| <= 128 &&
    (forall i :: 0 <= i < |verifier| ==> Unreserved(verifier[i])) &&
    challenge == S256(verifier)
  }

  predicate Unreserved(c: char) {
    '0' <= c <= '9' || 'a' <= c <= 'z' || 'A' <= c <= 'Z' || c == '-' || c == '.' || c == '_' || c == '~'
  }

  datatype ExchangeReply =
    | NoSuchClient | UnusableCode | ForeignCode | WrongRedirect | WrongVerifier | Disabled | CannotSign
    | Opened(session: Id, token: Id, access: AccessToken)

  predicate CodeUsable(db: Db, code: Id, now: Time) {
    code in db.codes && db.codes[code].flow in db.flows &&
    db.codes[code].consumedAt.None? && now < db.codes[code].expiresAt
  }

  /** A replayed code ends the session it opened. */
  function RejectCode(w: World, code: Id): (r: World)
    ensures r == w.(db := w.db.(sessions := r.db.sessions))
  {
    if code in w.db.codes && w.db.codes[code].consumedAt.Some?
    then w.(db := w.db.(sessions :=
            map s | s in w.db.sessions ::
              if w.db.sessions[s].code == Some(code) && w.db.sessions[s].revokedAt.None?
              then w.db.sessions[s].(revokedAt := Some(w.now)) else w.db.sessions[s]))
    else w
  }

  function Exchange(w: World, known: bool, client: ClientId, code: Id, redirectUri: string, verifier: string,
                    canSign: bool): (r: Outcome<ExchangeReply>)
    ensures r.world == w.(db := w.db.(codes := r.world.db.codes, sessions := r.world.db.sessions,
                                      tokens := r.world.db.tokens, next := r.world.db.next),
                          ledger := w.ledger.(openings := r.world.ledger.openings, issues := r.world.ledger.issues,
                                              access := r.world.ledger.access))
    ensures w.db.next <= r.world.db.next
  {
    var db := w.db;
    if !known then Outcome(w, NoSuchClient)
    else if !CodeUsable(db, code, w.now) then Outcome(RejectCode(w, code), UnusableCode)
    else
      var flow := db.flows[db.codes[code].flow];
      var user := db.codes[code].user;
      if flow.client != client then Outcome(w, ForeignCode)
      else if flow.redirectUri != redirectUri then Outcome(w, WrongRedirect)
      else if !PkceMatches(verifier, flow.challenge) then Outcome(w, WrongVerifier)
      else if !Refresh.Enabled(db.users, user) then Outcome(w, Disabled)
      else if !canSign then Outcome(w, CannotSign)
      else
        var sid := db.next;
        var session := Session(user, client, Some(code), w.now + SESSION_TTL, None, w.now);
        var access := IssueAccess(user, sid, client, w.now);
        Outcome(
          World(db.(codes := db.codes[code := db.codes[code].(consumedAt := Some(w.now))],
                    sessions := db.sessions[sid := session],
                    tokens := db.tokens[sid + 1 := Token(sid, None, None, None, w.now)],
                    next := sid + 2),
                w.ledger.(openings := w.ledger.openings[sid := Opening(code, client, verifier, w.now)],
                          issues := w.ledger.issues[sid + 1 := Issue(sid, Root, w.now)],
                          access := w.ledger.access + {access}),
                w.now),
          Opened(sid, sid + 1, access))
  }

  // ---- What each answer did ----

  lemma RequestCases(w: World, flow: Id, email: Email, signup: Option<bool>, plain: string) returns (user: Option<Id>)
    ensures var out := RequestLink(w, flow, email, signup, plain);
      var v := out.world;
      if out.reply.Accepted? then
        var f := w.db.flows[flow];
        && FlowPending(w.db.flows, flow, w.now) && f.requests < MAX_EMAILS_PER_FLOW
        && user == FindByEmail(w.db.users, email, w.db.next)
        && v.db.flows == w.db.flows[flow := f.(requests := f.requests + 1,
                                               expiresAt := Max(f.expiresAt, w.now + CODE_TTL))]
        && ((v.db.links == w.db.links && v.db.next == w.db.next && v.ledger == w.ledger) ||
            NewLink(w, v, flow, email, user, plain))
      else v == w
  {
    hide FindByEmail;
    user := FindByEmail(w.db.users, email, w.db.next);
  }

  predicate NewLink(w: World, v: World, flow: Id, email: Email, user: Option<Id>, plain: string) {
    && (user.Some? ==> user.value in w.db.users && w.db.users[user.value].email == email)
    && v.db.links == w.db.links[w.db.next :=
         CodeRow(email, flow, user, email, Hmac(flow, plain), 0, w.now + CODE_TTL, None, w.now)]
    && v.db.next == w.db.next + 1 && v.ledger.sent == w.ledger.sent[w.db.next := email]
  }

  /** The account that logged in: an enabled one already using the address, or a new one. */
  ghost predicate UserReady(before: map<Id, User>, after: map<Id, User>, id: Id, email: Email, now: Time, next: Id) {
    if id in before then
      before[id].email == email && before[id].disabledAt.None? && after == MarkVerified(before, id, email, now)
    else
      id == next && (forall u :: u in before && u < next ==> before[u].email != email) &&
      after == before[id := User(email, Some(now), None, now)]
  }

  /** `v` is `w` after a login of `id` on `flow` with `mail`, giving `code`. */
  ghost predicate LoginDone(w: World, v: World, mail: Id, flow: Id, email: Email, id: Id, code: Id) {
    && FlowPending(w.db.flows, flow, w.now)
    && w.db.next <= code && id < code && v.db.next == code + 1
    && UserReady(w.db.users, v.db.users, id, email, w.now, w.db.next)
    && v.db.flows == w.db.flows[flow := w.db.flows[flow].(completedAt := Some(w.now))]
    && v.db.codes == w.db.codes[code := AuthCode(flow, id, w.now + AUTHORIZATION_CODE_TTL, None, w.now)]
    && v.ledger.proofs == w.ledger.proofs + {Proof(id, email, mail)}
    && v.ledger.completions == w.ledger.completions[code := Completion(flow, id, mail, email)]
  }

  lemma LogInCases(w: World, mail: Id, flow: Id, user: Option<Id>, email: Email, stale: LoginReply) returns (id: Id)
    requires (forall u :: u in w.db.users ==> u < w.db.next) && !stale.Completed?
    ensures var r := LogIn(w, mail, flow, user, email, stale);
      (r.0.Some? <==> r.1.Completed?) &&
      (r.0.Some? ==> LoginDone(w, r.0.value, mail, flow, email, id, r.1.code))
  {
    hide FindByEmail; hide MarkVerified; hide UserReady;
    id := 0;
    var r := LogIn(w, mail, flow, user, email, stale);
    if r.0.Some? {
      id := Recipient(w.db, user, email, w.now).1.value;
      RecipientReady(w, user, email);
    }
  }

  lemma RecipientReady(w: World, user: Option<Id>, email: Email)
    requires forall u :: u in w.db.users ==> u < w.db.next
    ensures var (db, recipient) := Recipient(w.db, user, email, w.now);
      recipient.Some? && recipient.value in db.users && db.users[recipient.value].disabledAt.None? &&
      db.users[recipient.value].email == email ==>
        UserReady(w.db.users, MarkVerified(db.users, recipient.value, email, w.now), recipient.value, email, w.now,
                  w.db.next)
  {
  }

  /** A login used up `link`. */
  ghost predicate LinkUsed(w: World, v: World, link: Id, id: Id, code: Id) {
    && link in w.db.links && Pending(w.db.links[link], w.now)
    && v.db.links == Consume(w.db.links, link, w.now) && v.ledger.guesses == w.ledger.guesses
    && LoginDone(w, v, link, w.db.links[link].scope, w.db.links[link].email, id, code)
  }

  /** A wrong code was counted against `link`. */
  ghost predicate LinkGuessed(w: World, v: World, flow: Id, link: Id) {
    && LinkCandidate(w.db.links, flow, w.now, w.db.next) == Some(link)
    && v == WithLinks(w, RecordFailure(w.db.links, link, w.now))
            .(ledger := w.ledger.(guesses := w.ledger.guesses +
                [Guess(w.db.links[link].key, w.db.links[link].createdAt, w.now)]))
  }

  lemma ConfirmLinkCases(w: World, link: Id) returns (id: Id)
    requires forall u :: u in w.db.users ==> u < w.db.next
    ensures var out := ConfirmLink(w, link);
      if out.reply.Completed? then LinkUsed(w, out.world, link, id, out.reply.code) else out.world == w
  {
    hide LogIn; hide UserReady;
    id := 0;
    if link in w.db.links {
      var row := w.db.links[link];
      id := LogInCases(WithLinks(w, Consume(w.db.links, link, w.now)), link, row.scope, row.user, row.email,
                       InvalidToken);
    }
  }

  lemma ConfirmCodeCases(w: World, flow: Id, typed: string) returns (link: Id, id: Id)
    requires forall u :: u in w.db.users ==> u < w.db.next
    ensures var out := ConfirmCode(w, flow, typed);
      && (out.reply.Completed? ==>
            LinkCandidate(w.db.links, flow, w.now, w.db.next) == Some(link) &&
            w.db.links[link].hash == Hmac(flow, typed) &&
            LinkUsed(w, out.world, link, id, out.reply.code))
      && (!out.reply.Completed? && out.world != w ==> out.reply.InvalidCode? && LinkGuessed(w, out.world, flow, link))
  {
    hide LogIn; hide UserReady; hide LinkCandidate; hide IsWellFormed;
    link, id := 0, 0;
    var candidate := LinkCandidate(w.db.links, flow, w.now, w.db.next);
    if candidate.Some? {
      link := candidate.value;
      CandidateIsPending(w.db.links, flow, w.now, w.db.next);
      var row := w.db.links[link];
      id := LogInCases(WithLinks(w, Consume(w.db.links, link, w.now)), link, flow, row.user, row.email, InvalidCode);
    }
  }

  lemma CandidateIsPending(links: map<Id, Link>, flow: Id, now: Time, n: Id)
    ensures var c := LinkCandidate(links, flow, now, n);
      c.Some? ==> Pending(links[c.value], now) && links[c.value].failures < MAX_FAILURES_PER_CODE &&
                  FailuresSince(links, links[c.value].email, now - DAY, n) < MAX_FAILURES_PER_DAY
  {
  }

  /** The code was good, and `v` is `w` with the session it opened. */
  ghost predicate SessionOpened(w: World, v: World, client: ClientId, code: Id, uri: string, verifier: string,
                                reply: ExchangeReply) {
    && CodeUsable(w.db, code, w.now)
    && var flow := w.db.flows[w.db.codes[code].flow];
       var user := w.db.codes[code].user;
       var sid := w.db.next;
    && flow.client == client && flow.redirectUri == uri && PkceMatches(verifier, flow.challenge)
    && Refresh.Enabled(w.db.users, user)
    && reply == Opened(sid, sid + 1, IssueAccess(user, sid, client, w.now))
    && v.db == w.db.(codes := w.db.codes[code := w.db.codes[code].(consumedAt := Some(w.now))],
                     sessions := w.db.sessions[sid :=
                       Session(user, client, Some(code), w.now + SESSION_TTL, None, w.now)],
                     tokens := w.db.tokens[sid + 1 := Token(sid, None, None, None, w.now)],
                     next := sid + 2)
    && v.ledger.openings == w.ledger.openings[sid := Opening(code, client, verifier, w.now)]
    && v.ledger.access == w.ledger.access + {reply.access}
  }

  /** An exchange opens a session, or ends the one a used code opened, or changes nothing at all. */
  lemma ExchangeCases(w: World, known: bool, client: ClientId, code: Id, uri: string, verifier: string, canSign: bool)
    ensures var out := Exchange(w, known, client, code, uri, verifier, canSign);
      if out.reply.Opened? then SessionOpened(w, out.world, client, code, uri, verifier, out.reply)
      else if out.reply.UnusableCode? then known && !CodeUsable(w.db, code, w.now) && out.world == RejectCode(w, code)
      else out.world == w
  {
    hide PkceMatches; hide RejectCode;
  }
}
