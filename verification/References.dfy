/** Every row's references hold after every step: what the foreign keys of the schema promise, with
    their `ON DELETE` actions, plus the agreement between a confirmation and its session's account. */
module References {
  import opened Base
  import opened Tables
  import opened EmailedCodes
  import Refresh
  import opened Login
  import Account
  import Purge
  import opened System

  ghost predicate Numbered(db: Db) {
    && (forall x :: x in db.users ==> x < db.next)
    && (forall x :: x in db.flows ==> x < db.next)
    && (forall x :: x in db.links ==> x < db.next)
    && (forall x :: x in db.codes ==> x < db.next)
    && (forall x :: x in db.sessions ==> x < db.next)
    && (forall x :: x in db.changes ==> x < db.next)
    && (forall x :: x in db.confirmations ==> x < db.next)
  }

  ghost predicate LinkRefs(links: map<Id, Link>, flows: set<Id>, users: set<Id>) {
    forall l :: l in links ==>
      links[l].scope in flows && (links[l].user.Some? ==> links[l].user.value in users)
  }

  ghost predicate CodeRefs(codes: map<Id, AuthCode>, flows: set<Id>, users: set<Id>) {
    forall c :: c in codes ==> codes[c].flow in flows && codes[c].user in users
  }

  ghost predicate SessionRefs(sessions: map<Id, Session>, users: set<Id>, codes: set<Id>) {
    forall s :: s in sessions ==>
      sessions[s].user in users && (sessions[s].code.Some? ==> sessions[s].code.value in codes)
  }

  ghost predicate ChangeRefs(changes: map<Id, EmailChange>, users: set<Id>) {
    forall c :: c in changes ==> changes[c].user in users
  }

  ghost predicate ConfirmationRefs(confirmations: map<Id, Confirmation>, sessions: map<Id, Session>) {
    forall c :: c in confirmations ==>
      confirmations[c].scope.session in sessions &&
      confirmations[c].key == sessions[confirmations[c].scope.session].user
  }

  ghost predicate Intact(db: Db) {
    && Numbered(db)
    && LinkRefs(db.links, db.flows.Keys, db.users.Keys)
    && CodeRefs(db.codes, db.flows.Keys, db.users.Keys)
    && SessionRefs(db.sessions, db.users.Keys, db.codes.Keys)
    && ChangeRefs(db.changes, db.users.Keys)
    && ConfirmationRefs(db.confirmations, db.sessions)
  }

  // ---- Deletions ----

  ghost predicate Within<V(!new)>(after: map<Id, V>, before: map<Id, V>) {
    forall k :: k in after ==> k in before && after[k] == before[k]
  }

  /** A session that stays is the same, except that it forgets a deleted code. */
  ghost predicate SessionsStay(after: map<Id, Session>, before: map<Id, Session>, codes: map<Id, AuthCode>) {
    forall s :: s in after ==>
      s in before &&
      (after[s] == before[s] ||
       (before[s].code.Some? && before[s].code.value !in codes && after[s] == before[s].(code := None)))
  }

  /** `y` is `x` with rows deleted and nothing else. */
  ghost predicate Smaller(x: Db, y: Db) {
    && y.next == x.next
    && Within(y.users, x.users) && Within(y.flows, x.flows) && Within(y.links, x.links) && Within(y.codes, x.codes)
    && Within(y.changes, x.changes) && Within(y.confirmations, x.confirmations) && Within(y.tokens, x.tokens)
    && SessionsStay(y.sessions, x.sessions, y.codes)
  }

  lemma SmallerTransitive(x: Db, y: Db, z: Db)
    requires Smaller(x, y) && Smaller(y, z)
    ensures Smaller(x, z)
  {
  }

  lemma DropUsersKeeps(db: Db, gone: set<Id>)
    requires Intact(db)
    ensures var y := Account.DropUsers(db, gone); Intact(y) && Smaller(db, y)
  {
    hide Smaller; hide LinkRefs; hide CodeRefs; hide ChangeRefs; hide SessionRefs; hide ConfirmationRefs;
    DropUsersSmaller(db, gone);
    DropUsersKeepsRows(db, gone);
    DropUsersKeepsSessions(db, gone);
  }

  lemma DropUsersSmaller(db: Db, gone: set<Id>)
    ensures Smaller(db, Account.DropUsers(db, gone))
  {
  }

  lemma DropUsersKeepsRows(db: Db, gone: set<Id>)
    requires LinkRefs(db.links, db.flows.Keys, db.users.Keys) && CodeRefs(db.codes, db.flows.Keys, db.users.Keys)
    requires ChangeRefs(db.changes, db.users.Keys)
    ensures var y := Account.DropUsers(db, gone);
      && LinkRefs(y.links, y.flows.Keys, y.users.Keys) && CodeRefs(y.codes, y.flows.Keys, y.users.Keys)
      && ChangeRefs(y.changes, y.users.Keys)
  {
  }

  lemma DropUsersKeepsSessions(db: Db, gone: set<Id>)
    requires SessionRefs(db.sessions, db.users.Keys, db.codes.Keys) && ConfirmationRefs(db.confirmations, db.sessions)
    ensures var y := Account.DropUsers(db, gone);
      SessionRefs(y.sessions, y.users.Keys, y.codes.Keys) && ConfirmationRefs(y.confirmations, y.sessions)
  {
  }

  lemma DropFlowsKeeps(db: Db, gone: set<Id>)
    requires Intact(db)
    ensures var y := Purge.DropFlows(db, gone); Intact(y) && Smaller(db, y)
  {
  }

  lemma DropSessionsKeeps(db: Db, gone: set<Id>)
    requires Intact(db)
    ensures var y := Purge.DropSessions(db, gone); Intact(y) && Smaller(db, y)
  {
  }

  lemma DropMailsKeeps(db: Db, now: Time)
    requires Intact(db)
    ensures var y := Purge.PurgeConfirmations(Purge.PurgeChanges(db, now), now); Intact(y) && Smaller(db, y)
  {
  }

  /** The purge deletes rows in five goes; each intermediate table set is intact. */
  lemma PurgeKeeps(db: Db, now: Time)
    requires Intact(db)
    ensures var y := Purge.PurgeDb(db, now); Intact(y) && Smaller(db, y)
  {
    hide Intact; hide Smaller; hide Purge.PurgeFlows; hide Purge.PurgeSessions; hide Purge.PurgeUsers;
    hide Purge.PurgeConfirmations; hide Purge.PurgeChanges;
    var d1 := Purge.PurgeFlows(db, now);
    PurgePartsKeep(db, now);
    DropMailsKeeps(d1, now);
    var d2 := Purge.PurgeConfirmations(Purge.PurgeChanges(d1, now), now);
    SmallerTransitive(db, d1, d2);
    PurgePartsKeep(d2, now);
    var d3 := Purge.PurgeSessions(d2, now);
    SmallerTransitive(db, d2, d3);
    PurgePartsKeep(d3, now);
    SmallerTransitive(db, d3, Purge.PurgeUsers(d3, now));
  }

  lemma PurgePartsKeep(db: Db, now: Time)
    requires Intact(db)
    ensures var y := Purge.PurgeFlows(db, now); Intact(y) && Smaller(db, y)
    ensures var y := Purge.PurgeSessions(db, now); Intact(y) && Smaller(db, y)
    ensures var y := Purge.PurgeUsers(db, now); Intact(y) && Smaller(db, y)
  {
    hide Intact; hide Smaller; hide Account.DropUsers; hide Purge.DropFlows; hide Purge.DropSessions;
    DropFlowsKeeps(db, set f | f in db.flows && Purge.DueFlow(db.flows[f], now));
    DropSessionsKeeps(db, set s | s in db.sessions && Purge.DueSession(db.sessions[s], now));
    DropUsersKeeps(db, set u | u in db.users && Purge.DueUser(db.users[u], now));
  }

  // ---- Steps that add or mark rows ----

  /** Only `revoked_at` changed, once and to the present. */
  ghost predicate OnlyEnded(before: map<Id, Session>, after: map<Id, Session>, now: Time) {
    after.Keys == before.Keys &&
    forall s :: s in before ==>
      after[s] == before[s] || (before[s].revokedAt.None? && after[s] == before[s].(revokedAt := Some(now)))
  }

  lemma RevokeEnds(w: World, a: Action)
    requires a.RefreshGrant? || a.Logout? || a.RevokeOwnSession?
    ensures OnlyEnded(w.db.sessions, Apply(w, a).db.sessions, w.now)
    ensures var v := Apply(w, a);
      v.db == w.db.(sessions := v.db.sessions, tokens := v.db.tokens, next := v.db.next) && w.db.next <= v.db.next
  {
    hide Refresh.Grant; hide Refresh.Classify; hide Refresh.Present;
    match a
    case RefreshGrant(known, client, t, canSign) =>
      Refresh.GrantCases(w, known, client, t, canSign);
    case _ =>
  }

  lemma EndKeeps(db: Db, v: Db, now: Time)
    requires Intact(db) && OnlyEnded(db.sessions, v.sessions, now) && db.next <= v.next
    requires v == db.(sessions := v.sessions, tokens := v.tokens, next := v.next)
    ensures Intact(v)
  {
  }

  lemma LoginKeeps(w: World, v: World, link: Id, id: Id, code: Id)
    requires Intact(w.db) && LinkUsed(w, v, link, id, code) && LoginFrame(w, v)
    ensures Intact(v.db)
  {
    hide Pending; hide UserReady; hide Intact;
    ReadyKeys(w, v, w.db.links[link].email, id);
    LoggedInKeeps(w.db, v.db, id, code);
  }

  lemma LoggedInKeeps(db: Db, v: Db, id: Id, code: Id)
    requires Intact(db) && id < code < v.next && db.next <= v.next
    requires v == db.(users := v.users, flows := v.flows, codes := v.codes, links := v.links, next := v.next)
    requires v.users.Keys == db.users.Keys + {id} && v.flows.Keys == db.flows.Keys && OnlyMarked(db.links, v.links)
    requires code in v.codes && v.codes == db.codes[code := v.codes[code]]
    requires v.codes[code].user == id && v.codes[code].flow in db.flows
    ensures Intact(v)
  {
  }

  lemma ReadyKeys(w: World, v: World, email: Email, id: Id)
    requires UserReady(w.db.users, v.db.users, id, email, w.now, w.db.next)
    ensures v.db.users.Keys == w.db.users.Keys + {id}
  {
  }

  lemma ConfirmKeeps(w: World, a: Action)
    requires Intact(w.db) && (a.ConfirmLink? || a.ConfirmCode?)
    ensures Intact(Apply(w, a).db)
  {
    hide LinkUsed; hide LinkCandidate; hide Login.ConfirmLink; hide Login.ConfirmCode; hide Intact;
    IntactUsers(w.db);
    match a
    case ConfirmLink(link) =>
      var id := ConfirmLinkCases(w, link);
      var out := Login.ConfirmLink(w, link);
      if out.reply.Completed? { LoginKeeps(w, out.world, link, id, out.reply.code); }
    case ConfirmCode(flow, typed) =>
      var link, id := ConfirmCodeCases(w, flow, typed);
      var out := Login.ConfirmCode(w, flow, typed);
      if out.reply.Completed? { LoginKeeps(w, out.world, link, id, out.reply.code); }
      else if out.world != w { GuessKeeps(w, out.world, flow, link); }
  }

  lemma IntactUsers(db: Db)
    requires Intact(db)
    ensures forall u :: u in db.users ==> u < db.next
  {
  }

  lemma GuessKeeps(w: World, v: World, flow: Id, link: Id)
    requires Intact(w.db) && LinkGuessed(w, v, flow, link)
    ensures Intact(v.db)
  {
    hide LinkCandidate;
  }

  lemma RequestKeeps(w: World, flow: Id, email: Email, signup: Option<bool>, plain: string)
    requires Intact(w.db)
    ensures Intact(Login.RequestLink(w, flow, email, signup, plain).world.db)
  {
    hide Login.RequestLink;
    var user := RequestCases(w, flow, email, signup, plain);
  }

  lemma ExchangeKeeps(w: World, known: bool, client: ClientId, code: Id, uri: string, verifier: string, canSign: bool)
    requires Intact(w.db)
    ensures Intact(Login.Exchange(w, known, client, code, uri, verifier, canSign).world.db)
  {
    hide PkceMatches; hide RejectCode; hide OnlyEnded; hide Login.Exchange;
    ExchangeCases(w, known, client, code, uri, verifier, canSign);
    var out := Login.Exchange(w, known, client, code, uri, verifier, canSign);
    if out.reply.UnusableCode? {
      hide Intact;
      RejectEnds(w, code);
      EndKeeps(w.db, out.world.db, w.now);
    }
  }

  lemma RejectEnds(w: World, code: Id)
    ensures OnlyEnded(w.db.sessions, RejectCode(w, code).db.sessions, w.now)
  {
  }

  /** A checked code marks one confirmation row; nothing moves. */
  ghost predicate OnlyMarked<K(!new), S(!new)>(before: map<Id, CodeRow<K, S>>, after: map<Id, CodeRow<K, S>>) {
    after.Keys == before.Keys &&
    forall c :: c in before ==>
      after[c] == before[c].(failures := after[c].failures, consumedAt := after[c].consumedAt)
  }

  lemma CheckMarks(w: World, sid: Id, action: ConfirmationAction, typed: string)
    ensures OnlyMarked(w.db.confirmations, Account.CheckCode(w, sid, action, typed).world.db.confirmations)
  {
    hide Account.CheckCode; hide Account.Spent;
    var user, id := Account.CheckCases(w, sid, action, typed);
    var out := Account.CheckCode(w, sid, action, typed);
    if out.reply.Right? { SpentMarks(w, out.world, sid, action, typed, user, id, true); }
    else if out.world != w { SpentMarks(w, out.world, sid, action, typed, user, id, false); }
  }

  lemma SpentMarks(w: World, v: World, sid: Id, action: ConfirmationAction, typed: string, user: Id, id: Id,
                   right: bool)
    requires Account.Spent(w, v, sid, action, typed, user, id, right)
    ensures OnlyMarked(w.db.confirmations, v.db.confirmations)
  {
    hide Candidate; hide Refresh.FindAuthenticated;
  }

  lemma MarkKeeps(db: Db, confirmations: map<Id, Confirmation>)
    requires Intact(db) && OnlyMarked(db.confirmations, confirmations)
    ensures Intact(db.(confirmations := confirmations))
  {
  }

  lemma ChangeEmailKeeps(w: World, sid: Id, typed: string, email: Email)
    requires Intact(w.db)
    ensures Intact(Account.ChangeEmail(w, sid, typed, email).world.db)
  {
    hide Account.CheckCode; hide FindByEmail; hide OnlyMarked;
    CheckMarks(w, sid, ChangeEmailAction, typed);
    MarkKeeps(w.db, Account.CheckCode(w, sid, ChangeEmailAction, typed).world.db.confirmations);
  }

  lemma DeleteKeeps(w: World, sid: Id, typed: string)
    requires Intact(w.db)
    ensures Intact(Account.DeleteAccount(w, sid, typed).world.db)
  {
    hide Account.CheckCode; hide Account.DropUsers; hide OnlyMarked; hide Intact;
    CheckMarks(w, sid, DeleteAccountAction, typed);
    var checked := Account.CheckCode(w, sid, DeleteAccountAction, typed);
    MarkKeeps(w.db, checked.world.db.confirmations);
    if checked.reply.Right? { DropUsersKeeps(checked.world.db, {checked.reply.user}); }
  }

  lemma CreateKeeps(w: World, client: ClientId, uri: string, challenge: Challenge)
    requires Intact(w.db)
    ensures Intact(Login.CreateFlow(w, client, uri, challenge).db)
  {
  }

  lemma ConfirmationKeeps(w: World, sid: Id, action: ConfirmationAction, plain: string)
    requires Intact(w.db)
    ensures Intact(Account.RequestConfirmation(w, sid, action, plain).db)
  {
  }

  lemma ImportKeeps(w: World, email: Email)
    requires Intact(w.db)
    ensures Intact(Account.Import(w, email).db)
  {
    hide FindByEmail;
  }

  lemma ConfirmChangeKeeps(w: World, change: Id)
    requires Intact(w.db)
    ensures Intact(Account.ConfirmChange(w, change).world.db)
  {
    var v := Account.ConfirmChange(w, change).world.db;
    assert v.users.Keys == w.db.users.Keys;
  }

  lemma DisableKeeps(w: World, user: Id, disabled: bool)
    requires Intact(w.db)
    ensures Intact(Account.SetDisabled(w, user, disabled).db)
  {
    assert Account.SetDisabled(w, user, disabled).db.users.Keys == w.db.users.Keys;
  }

  lemma StepKeeps(w: World, a: Action)
    requires Intact(w.db)
    ensures Intact(Apply(w, a).db)
  {
    hide Intact; hide Apply;
    if a.RefreshGrant? || a.Logout? || a.RevokeOwnSession? {
      RevokeEnds(w, a);
      EndKeeps(w.db, Apply(w, a).db, w.now);
    } else if a.ConfirmLink? || a.ConfirmCode? {
      ConfirmKeeps(w, a);
    } else {
      OtherStepKeeps(w, a);
    }
  }

  lemma OtherStepKeeps(w: World, a: Action)
    requires Intact(w.db)
    requires !a.RefreshGrant? && !a.Logout? && !a.RevokeOwnSession? && !a.ConfirmLink? && !a.ConfirmCode?
    ensures Intact(Apply(w, a).db)
  {
    hide Intact; hide Login.RequestLink; hide Account.ChangeEmail; hide Account.DeleteAccount; hide Purge.PurgeDb;
    hide Login.Exchange; hide Account.ConfirmChange; hide Account.Import; hide Account.SetDisabled;
    hide Login.CreateFlow; hide Account.RequestConfirmation;
    match a
    case RequestLink(flow, email, signup, plain) => RequestKeeps(w, flow, email, signup, plain);
    case Exchange(known, client, code, uri, verifier, canSign) =>
      ExchangeKeeps(w, known, client, code, uri, verifier, canSign);
    case ChangeEmail(sid, typed, email) => ChangeEmailKeeps(w, sid, typed, email);
    case DeleteAccount(sid, typed) => DeleteKeeps(w, sid, typed);
    case RunPurge => PurgeKeeps(w.db, w.now);
    case CreateFlow(client, uri, challenge) => CreateKeeps(w, client, uri, challenge);
    case RequestConfirmation(sid, action, plain) => ConfirmationKeeps(w, sid, action, plain);
    case ConfirmChange(change) => ConfirmChangeKeeps(w, change);
    case ImportUser(email) => ImportKeeps(w, email);
    case SetDisabled(user, disabled) => DisableKeeps(w, user, disabled);
    case Tick(_) =>
  }
}
