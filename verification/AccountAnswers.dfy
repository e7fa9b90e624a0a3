/** What the signed-in user's requests answer and change: confirming by code, moving to another address, deleting
    the account, and ending sessions. */
module AccountAnswers {
  import opened Base
  import opened Tables
  import opened EmailedCodes
  import Refresh
  import Login
  import Account
  import opened References
  import FlowBounds
  import opened CodeBudgets
  import opened Accounts
  import Chain
  import opened TokenForest
  import TokenRuns
  import Detection
  import opened Soundness
  import opened System

  /** The account behind a session that is neither revoked nor over, if it is not disabled. */
  predicate SignedIn(db: Db, sid: Id, now: Time, u: Id) {
    && sid in db.sessions && db.sessions[sid].revokedAt.None? && now < db.sessions[sid].expiresAt
    && db.sessions[sid].user == u && u in db.users && db.users[u].disabledAt.None?
  }

  lemma SignedInIff(db: Db, sid: Id, now: Time, u: Id)
    ensures Refresh.FindAuthenticated(db, sid, now) == Some(u) <==> SignedIn(db, sid, now, u)
  {
  }

  // ---- Ending sessions ----

  /** Presented by its own client, a refresh token ends its session; presented by another, or unknown, it changes
      nothing. */
  lemma LogoutEnds(w: World, known: bool, client: ClientId, t: Id)
    ensures var v := Refresh.RevokeByToken(w, known, client, t);
      if known && t in w.db.tokens && w.db.tokens[t].session in w.db.sessions &&
         w.db.sessions[w.db.tokens[t].session].client == client
      then
        var s := w.db.tokens[t].session; var row := w.db.sessions[s];
        v == w.(db := w.db.(sessions := w.db.sessions[s :=
               row.(revokedAt := if row.revokedAt.Some? then row.revokedAt else Some(w.now))]))
      else v == w
  {
  }

  /** A signed-in user ends any session of their own, and no other. */
  lemma RevokeOwnIff(w: World, caller: Id, target: Id)
    requires target in w.db.sessions && w.db.sessions[target].revokedAt.None?
    ensures var v := Refresh.RevokeOwn(w, caller, target);
      && target in v.db.sessions
      && (v.db.sessions[target].revokedAt.Some? <==> SignedIn(w.db, caller, w.now, w.db.sessions[target].user))
      && v == w.(db := w.db.(sessions := w.db.sessions[target := v.db.sessions[target]]))
  {
  }

  /** Either way for good: after any further run nothing is issued for the session, none of its tokens is served and
      it finds no account. */
  lemma EndedIsForGood(start: Time, history: seq<Action>, ending: Action, s: Id, afterwards: seq<Action>)
    requires var w := Run(Init(start), history);
      || (ending.Logout? && ending.logoutKnown && ending.logoutToken in w.db.tokens &&
          w.db.tokens[ending.logoutToken].session == s && s in w.db.sessions &&
          w.db.sessions[s].client == ending.logoutClient)
      || (ending.RevokeOwnSession? && ending.target == s && s in w.db.sessions &&
          SignedIn(w.db, ending.caller, w.now, w.db.sessions[s].user))
    ensures var v := Apply(Run(Init(start), history), ending); var end := Run(v, afterwards);
      && Detection.NothingIssued(v, end, s) && Refresh.FindAuthenticated(end.db, s, end.now).None?
      && forall t, client :: t in end.db.tokens && end.db.tokens[t].session == s ==>
           !Refresh.Grant(end, true, client, t, true).reply.Issued?
  {
    hide Run; hide TokenInv; hide Refresh.Grant;
    TokenRuns.Always(start, history);
    var w := Run(Init(start), history);
    TokenRuns.StepKeeps(w, ending);
    var v := Apply(w, ending);
    assert Detection.Over(v.db, s) by { EndedNow(w, ending, s); }
    hide Apply;
    Detection.OverForGood(v, afterwards, s);
    var end := Run(v, afterwards);
    forall t, client | t in end.db.tokens && end.db.tokens[t].session == s
      ensures !Refresh.Grant(end, true, client, t, true).reply.Issued?
    {
      Detection.GrantRefusesOver(end, true, client, t, true, s);
    }
  }

  lemma EndedNow(w: World, ending: Action, s: Id)
    requires TokenInv(w) && s in w.db.sessions
    requires (ending.Logout? && ending.logoutKnown && ending.logoutToken in w.db.tokens &&
              w.db.tokens[ending.logoutToken].session == s && w.db.sessions[s].client == ending.logoutClient) ||
             (ending.RevokeOwnSession? && ending.target == s &&
              SignedIn(w.db, ending.caller, w.now, w.db.sessions[s].user))
    ensures Detection.Over(Apply(w, ending).db, s)
  {
    Detection.SessionAllocated(w, s);
    hide TokenInv;
  }

  // ---- Codes ----

  /** A code confirms exactly if its session is signed in, it has six digits and is the newest one mailed for this
      session and action, unused and unexpired, to the address the account still uses, with fewer than five wrong
      attempts on it and fewer than ten on the account's codes of the last day. */
  lemma CodeConfirmsIff(w: World, sid: Id, action: ConfirmationAction, typed: string, u: Id)
    ensures Account.CheckCode(w, sid, action, typed).reply == Account.Right(u) <==>
      && SignedIn(w.db, sid, w.now, u) && IsWellFormed(typed)
      && var newest := Newest(w.db.confirmations, ConfirmationScope(sid, action), w.db.next);
      && newest.Some?
      && var row := w.db.confirmations[newest.value];
      && row.consumedAt.None? && w.now < row.expiresAt && row.failures < 5 && row.hash == Hmac(sid, typed)
      && row.email == w.db.users[u].email && FailuresSince(w.db.confirmations, u, w.now - DAY, w.db.next) < 10
  {
    hide IsWellFormed; hide Newest; hide FailuresSince;
    SignedInIff(w.db, sid, w.now, u);
  }

  /** Asked for in any reachable state and typed after a while, a code confirms exactly within fifteen minutes, if
      the session is signed in all that while, the code has six digits and fewer than ten wrong ones were typed for
      the account that day. */
  lemma ConfirmInTime(start: Time, history: seq<Action>, sid: Id, action: ConfirmationAction, plain: string, u: Id,
                      delay: nat)
    ensures var w := Run(Init(start), history);
      var y := Apply(Account.RequestConfirmation(w, sid, action, plain), Tick(delay));
      SignedIn(w.db, sid, w.now, u) ==>
        (Account.CheckCode(y, sid, action, plain).reply == Account.Right(u) <==>
           delay < 15 * MINUTE && y.now < w.db.sessions[sid].expiresAt && IsWellFormed(plain) &&
           FailuresSince(w.db.confirmations, u, y.now - DAY, w.db.next) < 10)
  {
    hide Run; hide Sound; hide Account.CheckCode; hide IsWellFormed; hide Newest; hide FailuresSince;
    Always(start, history);
    var w := Run(Init(start), history);
    SoundMails(w);
    MailedByNow(w);
    if SignedIn(w.db, sid, w.now, u) {
      SignedInIff(w.db, sid, w.now, u);
      var y := Apply(Account.RequestConfirmation(w, sid, action, plain), Tick(delay));
      CodeConfirmsIff(y, sid, action, plain, u);
      NewestIsTheLast(w.db.confirmations, y.db.confirmations, w.db.next, ConfirmationScope(sid, action), u, y.now - DAY,
                      w.now);
    }
  }

  lemma MailedByNow(w: World)
    requires Sound(w)
    ensures forall c :: c in w.db.confirmations ==> w.db.confirmations[c].createdAt <= w.now
  {
    hide Intact; hide FlowBounds.FlowInv; hide AccountInv; hide Chain.ChainInv; hide TokenInv;
  }

  lemma NewestIsTheLast(a: map<Id, Confirmation>, b: map<Id, Confirmation>, n: Id, scope: ConfirmationScope, u: Id,
                        since: Time, now: Time)
    requires (forall c :: c in a ==> c < n && a[c].createdAt <= now) && n in b && b == a[n := b[n]]
    requires b[n].scope == scope && b[n].failures == 0 && b[n].createdAt == now
    ensures Newest(b, scope, n + 1) == Some(n)
    ensures FailuresSince(b, u, since, n + 1) == FailuresSince(a, u, since, n)
  {
    SamePart(a, b, u, since, n, n);
  }

  lemma {:induction false} SamePart(a: map<Id, Confirmation>, b: map<Id, Confirmation>, u: Id, since: Time, n: Id,
                                    m: Id)
    requires m <= n && b.Keys == a.Keys + {n} && forall c :: c in a && c < n ==> b[c] == a[c]
    ensures FailuresSince(b, u, since, m) == FailuresSince(a, u, since, m)
  {
    if m > 0 { SamePart(a, b, u, since, n, m - 1); }
  }

  // ---- Moving to another address ----

  /** A link to the new address is mailed exactly if the code confirms, the address is not the account's own and
      nobody uses it; it works for an hour. Asking for the own address costs no attempt, and anything else one. */
  lemma ChangeMailsIff(w: World, sid: Id, typed: string, newEmail: Email)
    requires (forall u :: u in w.db.users ==> u < w.db.next) && forall c :: c in w.db.changes ==> c < w.db.next
    ensures var out := Account.ChangeEmail(w, sid, typed, newEmail);
      var checked := Account.CheckCode(w, sid, ChangeEmailAction, typed);
      && (w.db.next in out.world.db.changes <==>
            checked.reply.Right? && forall u :: u in w.db.users ==> w.db.users[u].email != newEmail)
      && (w.db.next in out.world.db.changes ==>
            var u := checked.reply.user;
            && SignedIn(w.db, sid, w.now, u) && out.world.ledger.sent == w.ledger.sent[w.db.next := newEmail]
            && out.world.db.changes == w.db.changes[w.db.next :=
                 EmailChange(u, w.db.users[u].email, newEmail, w.now + HOUR, None, w.now)])
      && (w.db.next !in out.world.db.changes ==> out.world.db.changes == w.db.changes)
      && (if exists u :: SignedIn(w.db, sid, w.now, u) && w.db.users[u].email == newEmail
          then out == Outcome(w, Account.BadRequest)
          else out.reply == checked.reply && out.world.db.confirmations == checked.world.db.confirmations)
  {
    hide Account.CheckCode; hide Login.FindByEmail;
    var checked := Account.CheckCode(w, sid, ChangeEmailAction, typed);
    if checked.reply.Right? { SignedInIff(w.db, sid, w.now, checked.reply.user); }
    forall u: Id
      ensures SignedIn(w.db, sid, w.now, u) <==> Refresh.FindAuthenticated(w.db, sid, w.now) == Some(u)
    {
      SignedInIff(w.db, sid, w.now, u);
    }
  }

  /** The account moves exactly if the link is unused and unexpired, the account is there, enabled and still at the
      address it was asked from, and nobody else uses the new one. */
  lemma ChangeMovesIff(w: World, change: Id)
    ensures Account.ConfirmChange(w, change).reply.Changed? <==>
      && change in w.db.changes && w.db.changes[change].consumedAt.None? && w.now < w.db.changes[change].expiresAt
      && var row := w.db.changes[change];
      && row.user in w.db.users && w.db.users[row.user].disabledAt.None?
      && w.db.users[row.user].email == row.fromEmail
      && forall u :: u in w.db.users && w.db.users[u].email == row.toEmail ==> u == row.user
  {
  }

  /** Asked for in any reachable state, and after any run that leaves the mailed link unused: the account moves by
      it exactly within the hour, if it is there, enabled and still where it was, and nobody else uses the new
      address; and then it has that address, verified, and nothing else of any account changes. */
  lemma MovesInTime(start: Time, history: seq<Action>, sid: Id, typed: string, newEmail: Email, later: seq<Action>)
    requires var w := Run(Init(start), history);
      var asked := Account.ChangeEmail(w, sid, typed, newEmail).world;
      var z := Run(asked, later);
      w.db.next in asked.db.changes && w.db.next in z.db.changes &&
      z.db.changes[w.db.next] == asked.db.changes[w.db.next]
    ensures var w := Run(Init(start), history);
      var asked := Account.ChangeEmail(w, sid, typed, newEmail);
      var z := Run(asked.world, later); var change := w.db.next;
      var out := Account.ConfirmChange(z, change);
      && asked.reply.Right? && SignedIn(w.db, sid, w.now, asked.reply.user)
      && var u := asked.reply.user;
      && (out.reply.Changed? <==>
            && z.now < w.now + HOUR && u in z.db.users && z.db.users[u].disabledAt.None?
            && z.db.users[u].email == w.db.users[u].email
            && forall v :: v in z.db.users && z.db.users[v].email == newEmail ==> v == u)
      && (out.reply.Changed? ==>
            out.world.db == z.db.(
              users := z.db.users[u := z.db.users[u].(email := newEmail, verifiedAt := Some(z.now))],
              changes := z.db.changes[change := z.db.changes[change].(consumedAt := Some(z.now))]))
  {
    hide Run; hide Sound; hide Account.CheckCode; hide Account.ChangeEmail; hide Account.ConfirmChange;
    Always(start, history);
    var w := Run(Init(start), history);
    SoundUsers(w);
    ChangeIds(w);
    ChangeMailsIff(w, sid, typed, newEmail);
    ChangeReply(w, sid, typed, newEmail);
    var z := Run(Account.ChangeEmail(w, sid, typed, newEmail).world, later);
    ChangeMovesIff(z, w.db.next);
    ChangeMoves(z, w.db.next);
  }

  lemma ChangeReply(w: World, sid: Id, typed: string, newEmail: Email)
    ensures w.db.next in Account.ChangeEmail(w, sid, typed, newEmail).world.db.changes && w.db.next !in w.db.changes ==>
              Account.ChangeEmail(w, sid, typed, newEmail).reply ==
              Account.CheckCode(w, sid, ChangeEmailAction, typed).reply
  {
    hide Account.CheckCode; hide Login.FindByEmail;
  }

  lemma ChangeMoves(w: World, change: Id)
    ensures var out := Account.ConfirmChange(w, change);
      if out.reply.Changed? then
        && change in w.db.changes && w.db.changes[change].user in w.db.users
        && var u := w.db.changes[change].user; var to := w.db.changes[change].toEmail;
        out.world.db == w.db.(users := w.db.users[u := w.db.users[u].(email := to, verifiedAt := Some(w.now))],
                              changes := w.db.changes[change := w.db.changes[change].(consumedAt := Some(w.now))])
      else out.world == w
  {
  }

  lemma ChangeIds(w: World)
    requires Sound(w)
    ensures forall c :: c in w.db.changes ==> c < w.db.next
  {
    hide FlowBounds.FlowInv; hide CodeInv; hide AccountInv; hide Chain.ChainInv; hide TokenInv;
  }

  // ---- Deletion ----

  /** A right code deletes the account with all that is its own and leaves everybody else's rows, down to the last
      field but the link from a session to its code; anything else leaves all but the counted attempt. */
  lemma DeletionIsTotal(w: World, sid: Id, typed: string)
    requires Intact(w.db)
    ensures var out := Account.DeleteAccount(w, sid, typed); var v := out.world.db;
      var checked := Account.CheckCode(w, sid, DeleteAccountAction, typed);
      && out.reply == checked.reply && (!checked.reply.Right? ==> out.world == checked.world)
      && (checked.reply.Right? ==>
            var u := checked.reply.user;
            && u in w.db.users && v.users == w.db.users - {u} && v.flows == w.db.flows
            && (forall s :: s in v.sessions <==> s in w.db.sessions && w.db.sessions[s].user != u)
            && (forall s :: s in v.sessions ==> v.sessions[s] == w.db.sessions[s].(code := v.sessions[s].code))
            && (forall t :: t in v.tokens <==> t in w.db.tokens && w.db.tokens[t].session in v.sessions)
            && (forall l :: l in v.links <==> l in w.db.links && w.db.links[l].user != Some(u))
            && (forall c :: c in v.codes <==> c in w.db.codes && w.db.codes[c].user != u)
            && (forall c :: c in v.changes <==> c in w.db.changes && w.db.changes[c].user != u)
            && (forall c :: c in v.confirmations <==>
                  c in w.db.confirmations && w.db.confirmations[c].key != u &&
                  w.db.confirmations[c].scope.session in v.sessions)
            && Within(v.tokens, w.db.tokens) && Within(v.links, w.db.links) && Within(v.codes, w.db.codes)
            && Within(v.changes, w.db.changes))
  {
    hide Account.CheckCode;
    var checked := Account.CheckCode(w, sid, DeleteAccountAction, typed);
    if checked.reply.Right? {
      SignedInIff(w.db, sid, w.now, checked.reply.user);
      CheckKeepsRows(w, sid, typed);
      hide Account.DropUsers; hide Intact; hide SignedIn;
      DroppedLogins(checked.world.db, checked.reply.user);
      DroppedSessions(checked.world.db, checked.reply.user);
    }
  }

  lemma DroppedLogins(db: Db, u: Id)
    ensures var d := Account.DropUsers(db, {u});
      && d.users == db.users - {u} && d.flows == db.flows
      && (forall l :: l in d.links <==> l in db.links && db.links[l].user != Some(u))
      && (forall c :: c in d.codes <==> c in db.codes && db.codes[c].user != u)
      && (forall c :: c in d.changes <==> c in db.changes && db.changes[c].user != u)
      && Within(d.links, db.links) && Within(d.codes, db.codes) && Within(d.changes, db.changes)
  {
    hide Account.Detach;
  }

  lemma DroppedSessions(db: Db, u: Id)
    ensures var d := Account.DropUsers(db, {u});
      && (forall s :: s in d.sessions <==> s in db.sessions && db.sessions[s].user != u)
      && (forall s :: s in d.sessions ==> d.sessions[s] == db.sessions[s].(code := d.sessions[s].code))
      && (forall t :: t in d.tokens <==> t in db.tokens && db.tokens[t].session in d.sessions)
      && (forall c :: c in d.confirmations <==>
            c in db.confirmations && db.confirmations[c].key != u && db.confirmations[c].scope.session in d.sessions)
      && Within(d.tokens, db.tokens)
  {
  }

  lemma CheckKeepsRows(w: World, sid: Id, typed: string)
    ensures var v := Account.CheckCode(w, sid, DeleteAccountAction, typed).world.db.confirmations;
      v.Keys == w.db.confirmations.Keys &&
      forall c :: c in v ==>
        v[c].key == w.db.confirmations[c].key && v[c].scope == w.db.confirmations[c].scope
  {
    hide Account.CheckCode; hide Candidate; hide Refresh.FindAuthenticated;
    var user, id := Account.CheckCases(w, sid, DeleteAccountAction, typed);
  }
}
