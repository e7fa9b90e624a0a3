/** The refresh grant and every way a session ends (routes/oauth.rs, queries/refresh_tokens.rs,
    queries/sessions.rs). */
module Refresh {
  import opened Base
  import opened Tables

  datatype RefreshReply =
    | InvalidClient
    | UnknownToken
    | OtherClient
    | SessionOver
    | Reused
    | AccountDisabled
    | NoSigningKey
    | Issued(token: Id, access: AccessToken)

  /** What a presented token is, seen from its own row and its successors. */
  datatype Presentation = FirstUse | WithinGrace | Retry | Stolen

  predicate ChildOf(tokens: map<Id, Token>, child: Id, parent: Id) {
    child in tokens && tokens[child].parent == Some(parent)
  }

  predicate HasUsedSuccessor(tokens: map<Id, Token>, id: Id) {
    exists c :: c in tokens && ChildOf(tokens, c, id) && tokens[c].rotatedAt.Some?
  }

  function Classify(tokens: map<Id, Token>, id: Id, now: Time): Presentation
    requires id in tokens
  {
    var t := tokens[id];
    if t.supersededAt.Some? then Stolen
    else if t.rotatedAt.None? then FirstUse
    else if now - t.rotatedAt.value <= REFRESH_REUSE_GRACE then WithinGrace
    else if HasUsedSuccessor(tokens, id) then Stolen
    else Retry
  }

  function MarkRotated(tokens: map<Id, Token>, id: Id, now: Time): map<Id, Token> {
    if id in tokens && tokens[id].rotatedAt.None?
    then tokens[id := tokens[id].(rotatedAt := Some(now))]
    else tokens
  }

  predicate UnusedSuccessor(tokens: map<Id, Token>, c: Id, id: Id) {
    ChildOf(tokens, c, id) && tokens[c].rotatedAt.None? && tokens[c].supersededAt.None?
  }

  function SupersedeUnused(tokens: map<Id, Token>, id: Id, now: Time): map<Id, Token> {
    map c | c in tokens ::
      if UnusedSuccessor(tokens, c, id) then tokens[c].(supersededAt := Some(now)) else tokens[c]
  }

  /** The token table once the presented token has been dealt with, before the new one is added. */
  function Present(tokens: map<Id, Token>, id: Id, now: Time): map<Id, Token>
    requires id in tokens
  {
    match Classify(tokens, id, now)
    case FirstUse => MarkRotated(tokens, id, now)
    case Retry => SupersedeUnused(tokens, id, now)
    case WithinGrace => tokens
    case Stolen => tokens
  }

  function RevokeSession(sessions: map<Id, Session>, id: Id, now: Time): map<Id, Session> {
    if id in sessions && sessions[id].revokedAt.None?
    then sessions[id := sessions[id].(revokedAt := Some(now))]
    else sessions
  }

  predicate Enabled(users: map<Id, User>, id: Id) {
    id in users && users[id].disabledAt.None?
  }

  /** Neither revoked nor expired. */
  predicate Live(sessions: map<Id, Session>, id: Id, now: Time) {
    id in sessions && sessions[id].revokedAt.None? && now < sessions[id].expiresAt
  }

  function KindOf(p: Presentation): IssueKind
    requires !p.Stolen?
  {
    match p
    case FirstUse => Rotation
    case WithinGrace => GraceReuse
    case Retry => LateRetry
  }

  /** `known`: the client is declared; `canSign`: some signing key is active. */
  function Grant(w: World, known: bool, client: ClientId, token: Id, canSign: bool): (r: Outcome<RefreshReply>)
    ensures r.world == w.(db := w.db.(tokens := r.world.db.tokens, sessions := r.world.db.sessions,
                                      next := r.world.db.next),
                          ledger := w.ledger.(issues := r.world.ledger.issues, access := r.world.ledger.access))
    ensures w.db.next <= r.world.db.next
  {
    var db := w.db;
    if !known then Outcome(w, InvalidClient)
    else if token !in db.tokens || db.tokens[token].session !in db.sessions then Outcome(w, UnknownToken)
    else
      var sid := db.tokens[token].session;
      var session := db.sessions[sid];
      if session.client != client then Outcome(w, OtherClient)
      else if session.revokedAt.Some? || session.expiresAt <= w.now then Outcome(w, SessionOver)
      else
        var how := Classify(db.tokens, token, w.now);
        var presented := Present(db.tokens, token, w.now);
        var ended := RevokeSession(db.sessions, sid, w.now);
        if how.Stolen? then
          Outcome(w.(db := db.(sessions := ended)), Reused)
        else if !Enabled(db.users, session.user) then
          Outcome(w.(db := db.(tokens := presented, sessions := ended)), AccountDisabled)
        else if !canSign then Outcome(w, NoSigningKey)
        else
          var successor := Token(sid, Some(token), None, None, w.now);
          var access := IssueAccess(session.user, sid, client, w.now);
          Outcome(
            World(db.(tokens := presented[db.next := successor], next := db.next + 1),
                  w.ledger.(issues := w.ledger.issues[db.next := Issue(sid, KindOf(how), w.now)],
                            access := w.ledger.access + {access}),
                  w.now),
            Issued(db.next, access))
  }

  /** What each answer did: an accepted refresh adds one token and one access token, a theft signal or a
      disabled account ends the session, and every other answer changes nothing. */
  lemma GrantCases(w: World, known: bool, client: ClientId, token: Id, canSign: bool)
    ensures var out := Grant(w, known, client, token, canSign);
      match out.reply
      case Issued(added, access) =>
        && token in w.db.tokens && Live(w.db.sessions, w.db.tokens[token].session, w.now)
        && w.db.sessions[w.db.tokens[token].session].client == client
        && !Classify(w.db.tokens, token, w.now).Stolen?
        && added == w.db.next && out.world.db.next == w.db.next + 1
        && out.world.db.tokens ==
             Present(w.db.tokens, token, w.now)[
               added := Token(w.db.tokens[token].session, Some(token), None, None, w.now)]
        && out.world.db.sessions == w.db.sessions
        && out.world.ledger.issues == w.ledger.issues[added :=
             Issue(w.db.tokens[token].session, KindOf(Classify(w.db.tokens, token, w.now)), w.now)]
        && access == IssueAccess(w.db.sessions[w.db.tokens[token].session].user, w.db.tokens[token].session, client,
                                 w.now)
        && out.world.ledger.access == w.ledger.access + {access}
      case Reused =>
        && token in w.db.tokens && Live(w.db.sessions, w.db.tokens[token].session, w.now)
        && Classify(w.db.tokens, token, w.now).Stolen?
        && out.world == w.(db := w.db.(sessions := RevokeSession(w.db.sessions, w.db.tokens[token].session, w.now)))
      case AccountDisabled =>
        && token in w.db.tokens && Live(w.db.sessions, w.db.tokens[token].session, w.now)
        && !Classify(w.db.tokens, token, w.now).Stolen?
        && out.world == w.(db := w.db.(tokens := Present(w.db.tokens, token, w.now),
                                       sessions := RevokeSession(w.db.sessions, w.db.tokens[token].session, w.now)))
      case _ => out.world == w
  {
    hide Classify; hide Present; hide KindOf;
  }

  /** Why a token was refused without being looked at closely. */
  lemma GrantRefusals(w: World, known: bool, client: ClientId, token: Id, canSign: bool)
    ensures var reply := Grant(w, known, client, token, canSign).reply;
      var found := token in w.db.tokens && w.db.tokens[token].session in w.db.sessions;
      && (reply.UnknownToken? ==> !found)
      && (reply.OtherClient? ==> found && w.db.sessions[w.db.tokens[token].session].client != client)
      && (reply.SessionOver? ==> found && !Live(w.db.sessions, w.db.tokens[token].session, w.now))
  {
    hide Classify; hide Present; hide KindOf; hide RevokeSession;
  }

  /** Logout by refresh token. */
  function RevokeByToken(w: World, known: bool, client: ClientId, token: Id): (r: World)
    ensures r == w.(db := w.db.(sessions := r.db.sessions))
  {
    if known && token in w.db.tokens && w.db.tokens[token].session in w.db.sessions &&
       w.db.sessions[w.db.tokens[token].session].client == client
    then w.(db := w.db.(sessions := RevokeSession(w.db.sessions, w.db.tokens[token].session, w.now)))
    else w
  }

  /** The user behind an access token of session `sid`, if the session is still usable. */
  function FindAuthenticated(db: Db, sid: Id, now: Time): Option<Id> {
    if Live(db.sessions, sid, now) && Enabled(db.users, db.sessions[sid].user)
    then Some(db.sessions[sid].user)
    else None
  }

  /** The caller, authenticated in `caller`, logs one of their own devices out. */
  function RevokeOwn(w: World, caller: Id, target: Id): (r: World)
    ensures r == w.(db := w.db.(sessions := r.db.sessions))
  {
    var user := FindAuthenticated(w.db, caller, w.now);
    if user.Some? && target in w.db.sessions && w.db.sessions[target].user == user.value
    then w.(db := w.db.(sessions := RevokeSession(w.db.sessions, target, w.now)))
    else w
  }
}
