/** The handlers as the server runs them: queries that change rows in place, one after another, and a
    rollback on each refusal that must leave no trace. Every handler is proved equal to the function the
    theorems are about. */
module Server {
  import opened Base
  import opened Tables
  import opened EmailedCodes
  import Refresh
  import Login
  import Account
  import opened CandidateQuery
  import Accounts
  import opened Soundness
  import System

  class Server {
    var db: Db
    var now: Time
    /** Written along the way, never read. */
    ghost var ledger: Ledger

    ghost function State(): World
      reads this
    {
      World(db, ledger, now)
    }

    /** Everything that holds of every reachable state. */
    ghost predicate Valid()
      reads this
    {
      Sound(State())
    }

    constructor (start: Time)
      ensures Valid() && State() == Init(start)
    {
      SoundAtFirst(start);
      db := Db(map[], map[], map[], map[], map[], map[], map[], map[], 0);
      now := start;
      ledger := Ledger(map[], map[], map[], map[], map[], {}, {}, [], []);
    }

    // ---- queries/refresh_tokens.rs ----

    method MarkRotated(id: Id)
      modifies this`db
      ensures db == old(db).(tokens := Refresh.MarkRotated(old(db).tokens, id, now))
    {
      if id in db.tokens && db.tokens[id].rotatedAt.None? {
        db := db.(tokens := db.tokens[id := db.tokens[id].(rotatedAt := Some(now))]);
      }
    }

    method HasUsedSuccessor(id: Id) returns (used: bool)
      ensures used == Refresh.HasUsedSuccessor(db.tokens, id)
    {
      used := exists c | c in db.tokens :: db.tokens[c].parent == Some(id) && db.tokens[c].rotatedAt.Some?;
      assert used <==> exists c :: c in db.tokens && Refresh.ChildOf(db.tokens, c, id) && db.tokens[c].rotatedAt.Some?;
    }

    method SupersedeUnusedSuccessors(id: Id)
      modifies this`db
      ensures db == old(db).(tokens := Refresh.SupersedeUnused(old(db).tokens, id, now))
    {
      var tokens := db.tokens;
      db := db.(tokens := map c | c in tokens ::
        if tokens[c].parent == Some(id) && tokens[c].rotatedAt.None? && tokens[c].supersededAt.None?
        then tokens[c].(supersededAt := Some(now)) else tokens[c]);
    }

    method CreateToken(session: Id, parent: Option<Id>) returns (id: Id)
      modifies this`db
      ensures id == old(db).next
      ensures db == old(db).(tokens := old(db).tokens[id := Token(session, parent, None, None, now)], next := id + 1)
    {
      id := db.next;
      db := db.(tokens := db.tokens[id := Token(session, parent, None, None, now)], next := id + 1);
    }

    // ---- queries/sessions.rs ----

    method RevokeSession(id: Id)
      modifies this`db
      ensures db == old(db).(sessions := Refresh.RevokeSession(old(db).sessions, id, now))
    {
      if id in db.sessions && db.sessions[id].revokedAt.None? {
        db := db.(sessions := db.sessions[id := db.sessions[id].(revokedAt := Some(now))]);
      }
    }

    // ---- routes/oauth.rs ----

    method RefreshToken(known: bool, client: ClientId, token: Id, canSign: bool) returns (reply: Refresh.RefreshReply)
      requires Valid()
      modifies this
      ensures Valid() && Outcome(State(), reply) == Refresh.Grant(old(State()), known, client, token, canSign)
    {
      hide Sound;
      KeepsRefresh(State(), known, client, token, canSign);
      if !known { return Refresh.InvalidClient; }
      var saved := db;
      if token !in db.tokens || db.tokens[token].session !in db.sessions { return Refresh.UnknownToken; }
      var current, sid := db.tokens[token], db.tokens[token].session;
      var session := db.sessions[sid];
      if session.client != client { return Refresh.OtherClient; }
      if session.revokedAt.Some? || session.expiresAt <= now { return Refresh.SessionOver; }

      var stolen := false;
      if current.supersededAt.Some? {
        stolen := true;
      } else if current.rotatedAt.None? {
        MarkRotated(token);
      } else if now - current.rotatedAt.value <= REFRESH_REUSE_GRACE {
      } else {
        stolen := HasUsedSuccessor(token);
        if !stolen { SupersedeUnusedSuccessors(token); }
      }
      ghost var how := Refresh.Classify(saved.tokens, token, now);
      assert stolen == how.Stolen? && db == saved.(tokens := Refresh.Present(saved.tokens, token, now));
      if stolen {
        RevokeSession(sid);
        return Refresh.Reused;
      }
      if session.user !in db.users || db.users[session.user].disabledAt.Some? {
        RevokeSession(sid);
        return Refresh.AccountDisabled;
      }
      var added := CreateToken(sid, Some(token));
      if !canSign {
        db := saved;
        return Refresh.NoSigningKey;
      }
      var access := IssueAccess(session.user, sid, client, now);
      ledger := ledger.(issues := ledger.issues[added := Issue(sid, Refresh.KindOf(how), now)],
                        access := ledger.access + {access});
      return Refresh.Issued(added, access);
    }

    /** `consume`: the guarded update of the authorization code. */
    method ConsumeCode(code: Id) returns (ok: bool)
      modifies this`db
      ensures ok == Login.CodeUsable(old(db), code, now)
      ensures db == if ok then old(db).(codes := old(db).codes[code := old(db).codes[code].(consumedAt := Some(now))])
                    else old(db)
    {
      ok := code in db.codes && db.codes[code].flow in db.flows && db.codes[code].consumedAt.None? &&
            now < db.codes[code].expiresAt;
      if ok { db := db.(codes := db.codes[code := db.codes[code].(consumedAt := Some(now))]); }
    }

    /** `find_consumed`, then `revoke_by_authorization_code`. */
    method RejectUnusableCode(code: Id)
      modifies this`db
      ensures State() == Login.RejectCode(old(State()), code)
    {
      if code in db.codes && db.codes[code].consumedAt.Some? {
        var sessions := db.sessions;
        db := db.(sessions := map s | s in sessions ::
          if sessions[s].code == Some(code) && sessions[s].revokedAt.None?
          then sessions[s].(revokedAt := Some(now)) else sessions[s]);
      }
    }

    /** `sessions::open`: the session row, then its first refresh token. */
    method OpenSession(user: Id, client: ClientId, code: Id) returns (sid: Id, token: Id)
      modifies this`db
      ensures sid == old(db).next && token == sid + 1
      ensures db == old(db).(
        sessions := old(db).sessions[sid := Session(user, client, Some(code), now + SESSION_TTL, None, now)],
        tokens := old(db).tokens[token := Token(sid, None, None, None, now)],
        next := sid + 2)
    {
      sid := db.next;
      db := db.(sessions := db.sessions[sid := Session(user, client, Some(code), now + SESSION_TTL, None, now)],
                next := sid + 1);
      token := CreateToken(sid, None);
    }

    method AuthorizationCode(known: bool, client: ClientId, code: Id, redirectUri: string, verifier: string,
                             canSign: bool)
      returns (reply: Login.ExchangeReply)
      requires Valid()
      modifies this
      ensures Valid()
      ensures Outcome(State(), reply) ==
              Login.Exchange(old(State()), known, client, code, redirectUri, verifier, canSign)
    {
      hide Sound;
      KeepsExchange(State(), known, client, code, redirectUri, verifier, canSign);
      hide Login.PkceMatches; hide Login.RejectCode;
      if !known { return Login.NoSuchClient; }
      var saved := db;
      var ok := ConsumeCode(code);
      if !ok {
        RejectUnusableCode(code);
        return Login.UnusableCode;
      }
      var flow, user := db.flows[db.codes[code].flow], db.codes[code].user;
      reply := if flow.client != client then Login.ForeignCode
               else if flow.redirectUri != redirectUri then Login.WrongRedirect
               else if !Login.PkceMatches(verifier, flow.challenge) then Login.WrongVerifier
               else if user !in db.users || db.users[user].disabledAt.Some? then Login.Disabled
               else Login.CannotSign;
      if !reply.CannotSign? {
        db := saved;
        return;
      }
      var sid, token := OpenSession(user, client, code);
      if !canSign {
        db := saved;
        return;
      }
      var access := IssueAccess(user, sid, client, now);
      ledger := ledger.(openings := ledger.openings[sid := Opening(code, client, verifier, now)],
                        issues := ledger.issues[token := Issue(sid, Root, now)],
                        access := ledger.access + {access});
      reply := Login.Opened(sid, token, access);
    }

    // ---- queries/users.rs ----

    /** The one account at this address, whichever row the database comes to. */
    method FindByEmail(email: Email) returns (found: Option<Id>)
      requires Accounts.UniqueEmails(db.users) && forall u :: u in db.users ==> u < db.next
      ensures found == Login.FindByEmail(db.users, email, db.next)
      ensures found.Some? ==> found.value in db.users && db.users[found.value].email == email
      ensures found.None? ==> forall u :: u in db.users ==> db.users[u].email != email
    {
      found := None;
      var rest := db.users.Keys;
      while rest != {} && found.None?
        invariant rest <= db.users.Keys
        invariant found.None? ==> forall u :: u in db.users && u !in rest ==> db.users[u].email != email
        invariant found.Some? ==> found.value in db.users && db.users[found.value].email == email
        decreases |rest|
      {
        var u :| u in rest;
        if db.users[u].email == email { found := Some(u); }
        rest := rest - {u};
      }
      TheOneAccount(db.users, email, db.next, found);
    }

    /** `mark_email_verified`: only at the address it still uses, and only once. */
    method MarkVerified(id: Id, email: Email)
      modifies this`db
      ensures db == old(db).(users := Login.MarkVerified(old(db).users, id, email, now))
    {
      if id in db.users && db.users[id].email == email && db.users[id].verifiedAt.None? {
        db := db.(users := db.users[id := db.users[id].(verifiedAt := Some(now))]);
      } else if id in db.users && db.users[id].email == email {
        assert db.users[id := db.users[id]] == db.users;
      }
    }

    // ---- routes/magic_link.rs ----

    /** `count_magic_link_request`: the limit is checked again in the update. */
    method CountRequest(flow: Id, linkExpiresAt: Time) returns (expiresAt: Option<Time>)
      modifies this`db
      ensures expiresAt.Some? <==>
              Login.FlowPending(old(db).flows, flow, now) && old(db).flows[flow].requests < MAX_EMAILS_PER_FLOW
      ensures expiresAt.None? ==> db == old(db)
      ensures expiresAt.Some? ==>
        expiresAt.value == Max(old(db).flows[flow].expiresAt, linkExpiresAt) &&
        db == old(db).(flows := old(db).flows[flow :=
          old(db).flows[flow].(requests := old(db).flows[flow].requests + 1, expiresAt := expiresAt.value)])
    {
      if Login.FlowPending(db.flows, flow, now) && db.flows[flow].requests < MAX_EMAILS_PER_FLOW {
        var later := Max(db.flows[flow].expiresAt, linkExpiresAt);
        db := db.(flows := db.flows[flow := db.flows[flow].(requests := db.flows[flow].requests + 1,
                                                            expiresAt := later)]);
        return Some(later);
      }
      return None;
    }

    method RequestLink(flow: Id, email: Email, signup: Option<bool>, plain: string) returns (reply: Login.RequestReply)
      requires Valid()
      modifies this
      ensures Valid() && Outcome(State(), reply) == Login.RequestLink(old(State()), flow, email, signup, plain)
    {
      hide Sound;
      KeepsRequest(State(), flow, email, signup, plain);
      hide Login.FindByEmail;
      SoundUsers(State());
      if !Login.FlowPending(db.flows, flow, now) { return Login.FlowExpired; }
      if db.flows[flow].requests >= MAX_EMAILS_PER_FLOW { return Login.Exhausted; }
      if signup.None? { return Login.UnknownClient; }
      var expiresAt := now + CODE_TTL;
      var counted := CountRequest(flow, expiresAt);
      var user := FindByEmail(email);
      if (user.Some? && db.users[user.value].disabledAt.None?) || (user.None? && signup.value) {
        var link := CodeRow(email, flow, user, email, Hmac(flow, plain), 0, expiresAt, None, now);
        ledger := ledger.(sent := ledger.sent[db.next := email]);
        db := db.(links := db.links[db.next := link], next := db.next + 1);
      }
      return Login.Accepted(counted.value);
    }

    /** `login_flow::complete`: the guarded update of the flow, then its authorization code. */
    method CompleteFlow(flow: Id, user: Id) returns (code: Option<Id>)
      modifies this`db
      ensures code == if Login.FlowPending(old(db).flows, flow, now) then Some(old(db).next) else None
      ensures code.None? ==> db == old(db)
      ensures code.Some? ==> db == old(db).(
        flows := old(db).flows[flow := old(db).flows[flow].(completedAt := Some(now))],
        codes := old(db).codes[old(db).next := AuthCode(flow, user, now + AUTHORIZATION_CODE_TTL, None, now)],
        next := old(db).next + 1)
    {
      if !Login.FlowPending(db.flows, flow, now) { return None; }
      db := db.(flows := db.flows[flow := db.flows[flow].(completedAt := Some(now))]);
      code := Some(db.next);
      db := db.(codes := db.codes[db.next := AuthCode(flow, user, now + AUTHORIZATION_CODE_TTL, None, now)],
                next := db.next + 1);
    }

    /** The account the email was for, or the one using its address, or a new one (`users::create`). */
    method FindRecipient(user: Option<Id>, email: Email) returns (found: Option<Id>)
      requires Accounts.UniqueEmails(db.users) && forall u :: u in db.users ==> u < db.next
      modifies this`db
      ensures (db, found) == Login.Recipient(old(db), user, email, now)
      ensures found.Some? ==> found.value in db.users
    {
      hide Login.FindByEmail;
      match user
      case Some(id) => found := if id in db.users then Some(id) else None;
      case None =>
        found := FindByEmail(email);
        if found.None? {
          found := Some(db.next);
          db := db.(users := db.users[db.next := User(email, None, None, now)], next := db.next + 1);
        }
    }

    /** Whoever calls it rolls back unless it answers `Completed`. */
    method LogIn(mail: Id, flow: Id, user: Option<Id>, email: Email,
                 stale: Login.LoginReply) returns (reply: Login.LoginReply)
      requires !stale.Completed? && Accounts.UniqueEmails(db.users) && forall u :: u in db.users ==> u < db.next
      modifies this
      ensures now == old(now)
      ensures reply == Login.LogIn(old(State()), mail, flow, user, email, stale).1
      ensures if reply.Completed? then Login.LogIn(old(State()), mail, flow, user, email, stale).0 == Some(State())
              else ledger == old(ledger)
    {
      hide Login.FlowPending; hide Login.Recipient; hide Login.MarkVerified;
      var found := FindRecipient(user, email);
      if found.None? { return stale; }
      var id := found.value;
      if db.users[id].disabledAt.Some? { return Login.AccountDisabled; }
      if db.users[id].email != email { return stale; }
      MarkVerified(id, email);
      var code := CompleteFlow(flow, id);
      if code.None? { return Login.FlowOver; }
      ledger := ledger.(proofs := ledger.proofs + {Proof(id, email, mail)},
                        completions := ledger.completions[code.value := Completion(flow, id, mail, email)]);
      return Login.Completed(code.value);
    }

    method ConfirmLink(link: Id) returns (reply: Login.LoginReply)
      requires Valid()
      modifies this
      ensures Valid() && Outcome(State(), reply) == Login.ConfirmLink(old(State()), link)
    {
      hide Sound;
      KeepsLink(State(), link);
      hide Login.LogIn;
      SoundUsers(State());
      var saved := db;
      if link !in db.links || db.links[link].consumedAt.Some? || db.links[link].expiresAt <= now {
        return Login.InvalidToken;
      }
      var row := db.links[link];
      db := db.(links := db.links[link := row.(consumedAt := Some(now))]);
      LogInAnswers(State(), link, row.scope, row.user, row.email, Login.InvalidToken);
      reply := LogIn(link, row.scope, row.user, row.email, Login.InvalidToken);
      if !reply.Completed? { db := saved; }
    }

    method ConfirmCode(flow: Id, typed: string) returns (reply: Login.LoginReply)
      requires Valid()
      modifies this
      ensures Valid() && Outcome(State(), reply) == Login.ConfirmCode(old(State()), flow, typed)
    {
      hide Sound;
      KeepsCode(State(), flow, typed);
      hide Login.LogIn; hide Login.LinkCandidate; hide IsWellFormed;
      SoundUsers(State());
      SoundMails(State());
      if !IsWellFormed(typed) { return Login.InvalidRequest; }
      var saved := db;
      var candidate := FindLinkCandidate(db.links, flow, now, db.next);
      if candidate.None? { return Login.InvalidCode; }
      var link := candidate.value;
      var row := db.links[link];
      if row.hash != Hmac(flow, typed) {
        var failures := row.failures + 1;
        db := db.(links := db.links[link :=
          row.(failures := failures, consumedAt := if failures >= MAX_FAILURES_PER_CODE then Some(now) else None)]);
        ledger := ledger.(guesses := ledger.guesses + [Guess(row.key, row.createdAt, now)]);
        return Login.InvalidCode;
      }
      db := db.(links := db.links[link := row.(consumedAt := Some(now))]);
      LogInAnswers(State(), link, flow, row.user, row.email, Login.InvalidCode);
      reply := LogIn(link, flow, row.user, row.email, Login.InvalidCode);
      if !reply.Completed? { db := saved; }
    }

    // ---- routes/me.rs, routes/email_change.rs ----

    method CheckCode(sid: Id, action: ConfirmationAction, typed: string) returns (reply: Account.CodeCheck)
      requires Valid()
      modifies this
      ensures Outcome(State(), reply) == Account.CheckCode(old(State()), sid, action, typed)
    {
      hide Candidate; hide IsWellFormed; hide Refresh.FindAuthenticated; hide Sound;
      SoundMails(State());
      var user := Refresh.FindAuthenticated(db, sid, now);
      if user.None? { return Account.Unauthorized; }
      if !IsWellFormed(typed) { return Account.BadRequest; }
      var id := FindCandidate(db.confirmations, ConfirmationScope(sid, action), user.value, now, db.next);
      if id.None? { return Account.WrongCode; }
      var row := db.confirmations[id.value];
      UserIsThere(db, sid, now);
      if row.email != db.users[user.value].email { return Account.WrongCode; }
      if row.hash != Hmac(sid, typed) {
        var failures := row.failures + 1;
        db := db.(confirmations := db.confirmations[id.value :=
          row.(failures := failures, consumedAt := if failures >= MAX_FAILURES_PER_CODE then Some(now) else None)]);
        ledger := ledger.(confirmationGuesses := ledger.confirmationGuesses + [Guess(row.key, row.createdAt, now)]);
        return Account.WrongCode;
      }
      db := db.(confirmations := db.confirmations[id.value := row.(consumedAt := Some(now))]);
      return Account.Right(user.value);
    }

    /** The code is spent whether or not the new address is free. */
    method ChangeEmail(sid: Id, typed: string, newEmail: Email) returns (reply: Account.CodeCheck)
      requires Valid()
      modifies this
      ensures Valid() && Outcome(State(), reply) == Account.ChangeEmail(old(State()), sid, typed, newEmail)
    {
      hide Sound;
      KeepsChange(State(), sid, typed, newEmail);
      hide Account.CheckCode; hide Login.FindByEmail; hide Refresh.FindAuthenticated;
      var user := Refresh.FindAuthenticated(db, sid, now);
      UserIsThere(db, sid, now);
      if user.Some? && db.users[user.value].email == newEmail { return Account.BadRequest; }
      SoundUsers(State());
      reply := CheckCode(sid, ChangeEmailAction, typed);
      if !reply.Right? { return; }
      var holder := FindByEmail(newEmail);
      if holder.Some? { return; }
      var change := EmailChange(reply.user, db.users[reply.user].email, newEmail, now + EMAIL_CHANGE_TTL, None, now);
      ledger := ledger.(sent := ledger.sent[db.next := newEmail]);
      db := db.(changes := db.changes[db.next := change], next := db.next + 1);
    }

    method DeleteAccount(sid: Id, typed: string) returns (reply: Account.CodeCheck)
      requires Valid()
      modifies this
      ensures Valid() && Outcome(State(), reply) == Account.DeleteAccount(old(State()), sid, typed)
    {
      hide Sound;
      KeepsDelete(State(), sid, typed);
      hide Account.CheckCode; hide Account.DropUsers;
      reply := CheckCode(sid, DeleteAccountAction, typed);
      if reply.Right? { db := Account.DropUsers(db, {reply.user}); }
    }

    method ConfirmChange(change: Id) returns (reply: Account.ChangeReply)
      requires Valid()
      modifies this
      ensures Valid() && Outcome(State(), reply) == Account.ConfirmChange(old(State()), change)
    {
      hide Sound;
      KeepsMove(State(), change);
      var saved := db;
      if change !in db.changes || db.changes[change].consumedAt.Some? || db.changes[change].expiresAt <= now {
        return Account.StaleToken;
      }
      var row := db.changes[change];
      db := db.(changes := db.changes[change := row.(consumedAt := Some(now))]);
      if row.user !in db.users { db := saved; return Account.StaleToken; }
      if db.users[row.user].disabledAt.Some? { db := saved; return Account.DisabledAccount; }
      if db.users[row.user].email != row.fromEmail { db := saved; return Account.StaleToken; }
      if exists u | u in db.users :: u != row.user && db.users[u].email == row.toEmail {
        db := saved;
        return Account.EmailTaken;
      }
      var moved := db.users[row.user].(email := row.toEmail, verifiedAt := Some(now));
      db := db.(users := db.users[row.user := moved]);
      ledger := ledger.(proofs := ledger.proofs + {Proof(row.user, row.toEmail, change)});
      return Account.Changed(row.user);
    }
  }

  // ---- Each handler is a step, and every step keeps what holds ----

  lemma KeepsRefresh(w: World, known: bool, client: ClientId, token: Id, canSign: bool)
    requires Sound(w)
    ensures Sound(Refresh.Grant(w, known, client, token, canSign).world)
  {
    hide Sound; hide Refresh.Grant;
    StepKeeps(w, System.RefreshGrant(known, client, token, canSign));
  }

  lemma KeepsExchange(w: World, known: bool, client: ClientId, code: Id, uri: string, verifier: string, canSign: bool)
    requires Sound(w)
    ensures Sound(Login.Exchange(w, known, client, code, uri, verifier, canSign).world)
  {
    hide Sound; hide Login.Exchange;
    StepKeeps(w, System.Exchange(known, client, code, uri, verifier, canSign));
  }

  lemma KeepsRequest(w: World, flow: Id, email: Email, signup: Option<bool>, plain: string)
    requires Sound(w)
    ensures Sound(Login.RequestLink(w, flow, email, signup, plain).world)
  {
    hide Sound; hide Login.RequestLink;
    StepKeeps(w, System.RequestLink(flow, email, signup, plain));
  }

  lemma KeepsLink(w: World, link: Id)
    requires Sound(w)
    ensures Sound(Login.ConfirmLink(w, link).world)
  {
    hide Sound; hide Login.ConfirmLink;
    StepKeeps(w, System.ConfirmLink(link));
  }

  lemma KeepsCode(w: World, flow: Id, typed: string)
    requires Sound(w)
    ensures Sound(Login.ConfirmCode(w, flow, typed).world)
  {
    hide Sound; hide Login.ConfirmCode;
    StepKeeps(w, System.ConfirmCode(flow, typed));
  }

  lemma KeepsChange(w: World, sid: Id, typed: string, email: Email)
    requires Sound(w)
    ensures Sound(Account.ChangeEmail(w, sid, typed, email).world)
  {
    hide Sound; hide Account.ChangeEmail;
    StepKeeps(w, System.ChangeEmail(sid, typed, email));
  }

  lemma KeepsDelete(w: World, sid: Id, typed: string)
    requires Sound(w)
    ensures Sound(Account.DeleteAccount(w, sid, typed).world)
  {
    hide Sound; hide Account.DeleteAccount;
    StepKeeps(w, System.DeleteAccount(sid, typed));
  }

  lemma KeepsMove(w: World, change: Id)
    requires Sound(w)
    ensures Sound(Account.ConfirmChange(w, change).world)
  {
    hide Sound; hide Account.ConfirmChange;
    StepKeeps(w, System.ConfirmChange(change));
  }

  lemma TheOneAccount(users: map<Id, User>, email: Email, n: Id, found: Option<Id>)
    requires Accounts.UniqueEmails(users) && forall u :: u in users ==> u < n
    requires found.Some? ==> found.value in users && users[found.value].email == email
    requires found.None? ==> forall u :: u in users ==> users[u].email != email
    ensures found == Login.FindByEmail(users, email, n)
  {
    hide Login.FindByEmail;
  }

  lemma LogInAnswers(w: World, mail: Id, flow: Id, user: Option<Id>, email: Email, stale: Login.LoginReply)
    requires !stale.Completed?
    ensures var r := Login.LogIn(w, mail, flow, user, email, stale); r.0.Some? <==> r.1.Completed?
  {
    hide Login.Recipient; hide Login.MarkVerified; hide Login.FlowPending;
  }

  lemma UserIsThere(db: Db, sid: Id, now: Time)
    ensures var user := Refresh.FindAuthenticated(db, sid, now); user.Some? ==> user.value in db.users
  {
  }
}
