/** The signed-in user's account: confirmations, email change, deletion (routes/me.rs,
    routes/email_change.rs, queries/users.rs), and what an operator does to accounts. */
module Account {
  import opened Base
  import opened Tables
  import opened EmailedCodes
  import Refresh
  import Login

  /** `ON DELETE CASCADE` from users, `ON DELETE SET NULL` from codes to sessions. */
  function DropUsers(db: Db, gone: set<Id>): (r: Db)
    ensures r.flows == db.flows && r.next == db.next
  {
    var codes := map c | c in db.codes && db.codes[c].user !in gone :: db.codes[c];
    var sessions := map s | s in db.sessions && db.sessions[s].user !in gone :: Detach(db.sessions[s], codes);
    db.(users := map u | u in db.users && u !in gone :: db.users[u],
        links := map l | l in db.links && !(db.links[l].user.Some? && db.links[l].user.value in gone) :: db.links[l],
        codes := codes,
        sessions := sessions,
        tokens := map t | t in db.tokens && db.tokens[t].session in sessions :: db.tokens[t],
        changes := map c | c in db.changes && db.changes[c].user !in gone :: db.changes[c],
        confirmations := map c | c in db.confirmations && db.confirmations[c].key !in gone &&
                                 db.confirmations[c].scope.session in sessions :: db.confirmations[c])
  }

  function Detach(session: Session, codes: map<Id, AuthCode>): Session {
    if session.code.Some? && session.code.value !in codes then session.(code := None) else session
  }

  /** Emails a code confirming `action` from session `sid`. */
  function RequestConfirmation(w: World, sid: Id, action: ConfirmationAction, plain: string): (r: World)
    ensures r == w.(db := w.db.(confirmations := r.db.confirmations, next := r.db.next),
                    ledger := w.ledger.(sent := r.ledger.sent))
    ensures w.db.next <= r.db.next
  {
    var user := Refresh.FindAuthenticated(w.db, sid, w.now);
    if user.None? then w
    else
      var email := w.db.users[user.value].email;
      var row := CodeRow(user.value, ConfirmationScope(sid, action), user, email, Hmac(sid, plain), 0,
                         w.now + CODE_TTL, None, w.now);
      w.(db := w.db.(confirmations := w.db.confirmations[w.db.next := row], next := w.db.next + 1),
         ledger := w.ledger.(sent := w.ledger.sent[w.db.next := email]))
  }

  datatype CodeCheck = Unauthorized | BadRequest | WrongCode | Right(user: Id)

  /** Spends one attempt on the newest code of this session for `action`; commits either way. */
  function CheckCode(w: World, sid: Id, action: ConfirmationAction, typed: string): (r: Outcome<CodeCheck>)
    ensures r.world == w.(db := w.db.(confirmations := r.world.db.confirmations),
                          ledger := w.ledger.(confirmationGuesses := r.world.ledger.confirmationGuesses))
    ensures r.reply.Right? ==> Refresh.FindAuthenticated(w.db, sid, w.now) == Some(r.reply.user)
  {
    var user := Refresh.FindAuthenticated(w.db, sid, w.now);
    if user.None? then Outcome(w, Unauthorized)
    else if !IsWellFormed(typed) then Outcome(w, BadRequest)
    else
      var id := Candidate(w.db.confirmations, ConfirmationScope(sid, action), user.value, w.now, w.db.next);
      if id.None? then Outcome(w, WrongCode)
      else
        var row := w.db.confirmations[id.value];
        if row.email != w.db.users[user.value].email then Outcome(w, WrongCode)
        else if row.hash != Hmac(sid, typed) then
          Outcome(w.(db := w.db.(confirmations := RecordFailure(w.db.confirmations, id.value, w.now)),
                     ledger := w.ledger.(confirmationGuesses :=
                       w.ledger.confirmationGuesses + [Guess(row.key, row.createdAt, w.now)])),
                  WrongCode)
        else
          Outcome(w.(db := w.db.(confirmations := Consume(w.db.confirmations, id.value, w.now))), Right(user.value))
  }

  /** Mails a link to the new address, unless some account uses it. */
  function ChangeEmail(w: World, sid: Id, typed: string, newEmail: Email): (r: Outcome<CodeCheck>)
    ensures r.world == w.(db := w.db.(confirmations := r.world.db.confirmations, changes := r.world.db.changes,
                                      next := r.world.db.next),
                          ledger := w.ledger.(confirmationGuesses := r.world.ledger.confirmationGuesses,
                                              sent := r.world.ledger.sent))
    ensures w.db.next <= r.world.db.next
  {
    var user := Refresh.FindAuthenticated(w.db, sid, w.now);
    if user.Some? && w.db.users[user.value].email == newEmail then Outcome(w, BadRequest)
    else
      var checked := CheckCode(w, sid, ChangeEmailAction, typed);
      var v := checked.world;
      if !checked.reply.Right? || Login.FindByEmail(v.db.users, newEmail, v.db.next).Some?
      then checked
      else
        var change := EmailChange(checked.reply.user, v.db.users[checked.reply.user].email, newEmail,
                                  v.now + EMAIL_CHANGE_TTL, None, v.now);
        Outcome(v.(db := v.db.(changes := v.db.changes[v.db.next := change], next := v.db.next + 1),
                   ledger := v.ledger.(sent := v.ledger.sent[v.db.next := newEmail])),
                checked.reply)
  }

  datatype ChangeReply = StaleToken | DisabledAccount | EmailTaken | Changed(user: Id)

  /** Moves the account to the address the link was mailed to. */
  function ConfirmChange(w: World, change: Id): (r: Outcome<ChangeReply>)
    ensures r.world == w.(db := w.db.(users := r.world.db.users, changes := r.world.db.changes),
                          ledger := w.ledger.(proofs := r.world.ledger.proofs))
  {
    var db := w.db;
    if change !in db.changes || db.changes[change].consumedAt.Some? || db.changes[change].expiresAt <= w.now
    then Outcome(w, StaleToken)
    else
      var row := db.changes[change];
      if row.user !in db.users then Outcome(w, StaleToken)
      else if db.users[row.user].disabledAt.Some? then Outcome(w, DisabledAccount)
      else if db.users[row.user].email != row.fromEmail then Outcome(w, StaleToken)
      else if exists u :: u in db.users && u != row.user && db.users[u].email == row.toEmail
      then Outcome(w, EmailTaken)
      else
        var moved := db.users[row.user].(email := row.toEmail, verifiedAt := Some(w.now));
        Outcome(w.(db := db.(users := db.users[row.user := moved],
                             changes := db.changes[change := row.(consumedAt := Some(w.now))]),
                   ledger := w.ledger.(proofs := w.ledger.proofs + {Proof(row.user, row.toEmail, change)})),
                Changed(row.user))
  }

  function DeleteAccount(w: World, sid: Id, typed: string): (r: Outcome<CodeCheck>)
    ensures r.world.ledger == w.ledger.(confirmationGuesses := r.world.ledger.confirmationGuesses)
    ensures r.world.now == w.now && r.world.db.next == w.db.next && r.world.db.flows == w.db.flows
  {
    var checked := CheckCode(w, sid, DeleteAccountAction, typed);
    if checked.reply.Right?
    then Outcome(checked.world.(db := DropUsers(checked.world.db, {checked.reply.user})), checked.reply)
    else checked
  }

  /** An operator imports an account, unverified. */
  function Import(w: World, email: Email): (r: World)
    ensures r == w.(db := w.db.(users := r.db.users, next := r.db.next)) && w.db.next <= r.db.next
  {
    if Login.FindByEmail(w.db.users, email, w.db.next).Some? then w
    else w.(db := w.db.(users := w.db.users[w.db.next := User(email, None, None, w.now)], next := w.db.next + 1))
  }

  /** An operator disables or enables an account. */
  function SetDisabled(w: World, user: Id, disabled: bool): (r: World)
    ensures r == w.(db := w.db.(users := r.db.users))
  {
    if user !in w.db.users then w
    else w.(db := w.db.(users := w.db.users[user :=
              w.db.users[user].(disabledAt := if disabled then Some(w.now) else None)]))
  }

  /** A wrong code was counted against confirmation `id`, or the right one used it up. */
  ghost predicate Spent(w: World, v: World, sid: Id, action: ConfirmationAction, typed: string, user: Id, id: Id,
                        right: bool) {
    && Refresh.FindAuthenticated(w.db, sid, w.now) == Some(user)
    && Candidate(w.db.confirmations, ConfirmationScope(sid, action), user, w.now, w.db.next) == Some(id)
    && right == (w.db.confirmations[id].hash == Hmac(sid, typed))
    && (right ==> w.db.confirmations[id].email == w.db.users[user].email)
    && v.db.confirmations == (if right then Consume(w.db.confirmations, id, w.now)
                              else RecordFailure(w.db.confirmations, id, w.now))
    && v.ledger.confirmationGuesses == w.ledger.confirmationGuesses +
         (if right then [] else [Guess(w.db.confirmations[id].key, w.db.confirmations[id].createdAt, w.now)])
  }

  lemma CheckCases(w: World, sid: Id, action: ConfirmationAction, typed: string) returns (user: Id, id: Id)
    ensures var out := CheckCode(w, sid, action, typed);
      if out.reply.Right? then user == out.reply.user && Spent(w, out.world, sid, action, typed, user, id, true)
      else out.world == w || (out.reply.WrongCode? && Spent(w, out.world, sid, action, typed, user, id, false))
  {
    hide Candidate; hide IsWellFormed; hide Refresh.FindAuthenticated;
    user, id := 0, 0;
    var found := Refresh.FindAuthenticated(w.db, sid, w.now);
    if found.Some? {
      user := found.value;
      var candidate := Candidate(w.db.confirmations, ConfirmationScope(sid, action), user, w.now, w.db.next);
      if candidate.Some? { id := candidate.value; }
    }
  }

  /** The account moved to the mailed address and the change was used up, or nothing changed. */
  lemma ConfirmChangeCases(w: World, change: Id)
    ensures var out := ConfirmChange(w, change);
      if out.reply.Changed? then
        && change in w.db.changes && w.db.changes[change].user in w.db.users
        && var row := w.db.changes[change];
        && out.world.db.users == w.db.users[row.user :=
             w.db.users[row.user].(email := row.toEmail, verifiedAt := Some(w.now))]
        && out.world.db.changes == w.db.changes[change := row.(consumedAt := Some(w.now))]
      else out.world == w
  {
  }

  /** A new change is for the caller, to an address nobody uses. */
  lemma ChangeEmailCases(w: World, sid: Id, typed: string, newEmail: Email)
    ensures var out := ChangeEmail(w, sid, typed, newEmail);
      || out.world.db.changes == w.db.changes
      || (&& out.reply.Right? && Refresh.FindAuthenticated(w.db, sid, w.now) == Some(out.reply.user)
          && Login.FindByEmail(w.db.users, newEmail, w.db.next).None?
          && out.world.db.changes == w.db.changes[w.db.next :=
               EmailChange(out.reply.user, w.db.users[out.reply.user].email, newEmail, w.now + EMAIL_CHANGE_TTL, None,
                           w.now)])
  {
    hide CheckCode; hide Login.FindByEmail; hide Refresh.FindAuthenticated;
  }
}
