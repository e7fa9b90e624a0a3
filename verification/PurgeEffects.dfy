/** Which rows one purge leaves, table by table. */
module PurgeEffects {
  import opened Base
  import opened Tables
  import opened Purge
  import opened References

  predicate Stale(db: Db, u: Id, now: Time) {
    u in db.users && DueUser(db.users[u], now)
  }

  predicate StaleUser(db: Db, u: Option<Id>, now: Time) {
    u.Some? && Stale(db, u.value, now)
  }

  predicate FlowGoes(db: Db, f: Id, now: Time) {
    f in db.flows && DueFlow(db.flows[f], now)
  }

  predicate SessionGoes(db: Db, s: Id, now: Time)
    requires s in db.sessions
  {
    DueSession(db.sessions[s], now) || Stale(db, db.sessions[s].user, now)
  }

  ghost predicate LinksLeft(db: Db, links: map<Id, Link>, now: Time) {
    forall l :: l in db.links ==>
      (l in links <==> !FlowGoes(db, db.links[l].scope, now) && !StaleUser(db, db.links[l].user, now))
  }

  ghost predicate CodesLeft(db: Db, codes: map<Id, AuthCode>, now: Time) {
    forall c :: c in db.codes ==>
      (c in codes <==> !FlowGoes(db, db.codes[c].flow, now) && !Stale(db, db.codes[c].user, now))
  }

  ghost predicate SessionsLeft(db: Db, sessions: map<Id, Session>, now: Time) {
    forall s :: s in db.sessions ==>
      (s in sessions <==> !SessionGoes(db, s, now)) &&
      (s in sessions ==> sessions[s] == db.sessions[s].(code := sessions[s].code))
  }

  ghost predicate TokensLeft(db: Db, tokens: map<Id, Token>, sessions: map<Id, Session>) {
    forall t :: t in db.tokens ==> (t in tokens <==> db.tokens[t].session in sessions)
  }

  ghost predicate ChangesLeft(db: Db, changes: map<Id, EmailChange>, now: Time) {
    forall c :: c in db.changes ==>
      (c in changes <==> !DueChange(db.changes[c], now) && !Stale(db, db.changes[c].user, now))
  }

  ghost predicate ConfirmationsLeft(db: Db, confirmations: map<Id, Confirmation>, sessions: map<Id, Session>,
                                    now: Time) {
    forall c :: c in db.confirmations ==>
      (c in confirmations <==>
       !DueConfirmation(db.confirmations[c], now) && db.confirmations[c].scope.session in sessions)
  }

  ghost predicate UsersLeft(db: Db, users: map<Id, User>, now: Time) {
    forall u :: u in db.users ==> (u in users <==> !DueUser(db.users[u], now))
  }

  ghost predicate FlowsLeft(db: Db, flows: map<Id, Flow>, now: Time) {
    forall f :: f in db.flows ==> (f in flows <==> !DueFlow(db.flows[f], now))
  }

  // The tables as each part of the purge leaves them.

  function AfterFlows(db: Db, now: Time): Db { PurgeFlows(db, now) }
  function AfterMails(db: Db, now: Time): Db { PurgeConfirmations(PurgeChanges(AfterFlows(db, now), now), now) }
  function AfterSessions(db: Db, now: Time): Db { PurgeSessions(AfterMails(db, now), now) }

  lemma SameUntilUsers(db: Db, now: Time)
    ensures var d := AfterSessions(db, now);
      && d.users == db.users
      && d.flows == AfterFlows(db, now).flows && d.links == AfterFlows(db, now).links
      && d.codes == AfterFlows(db, now).codes
      && d.changes == AfterMails(db, now).changes
  {
  }

  lemma FlowsAfterFlows(db: Db, now: Time)
    ensures var d := AfterFlows(db, now);
      && FlowsLeft(db, d.flows, now)
      && (forall l :: l in db.links ==> (l in d.links <==> !FlowGoes(db, db.links[l].scope, now)))
      && (forall c :: c in db.codes ==> (c in d.codes <==> !FlowGoes(db, db.codes[c].flow, now)))
      && Within(d.links, db.links) && Within(d.codes, db.codes)
      && d.sessions.Keys == db.sessions.Keys
      && (forall s :: s in db.sessions ==> d.sessions[s] == db.sessions[s].(code := d.sessions[s].code))
      && d.tokens == db.tokens && d.changes == db.changes && d.confirmations == db.confirmations
  {
  }

  lemma MailsAfterMails(db: Db, now: Time)
    ensures var d := AfterMails(db, now); var x := AfterFlows(db, now);
      && d.sessions == x.sessions && d.tokens == x.tokens
      && (forall c :: c in x.changes ==> (c in d.changes <==> !DueChange(x.changes[c], now)))
      && (forall c :: c in x.confirmations ==> (c in d.confirmations <==> !DueConfirmation(x.confirmations[c], now)))
      && Within(d.changes, x.changes) && Within(d.confirmations, x.confirmations)
  {
    hide AfterFlows;
  }

  lemma RowsAfterSessions(db: Db, now: Time)
    ensures var d := AfterSessions(db, now); var x := AfterMails(db, now);
      && (forall s :: s in x.sessions ==> (s in d.sessions <==> !DueSession(x.sessions[s], now)))
      && (forall s :: s in d.sessions ==> s in x.sessions && d.sessions[s] == x.sessions[s])
      && (forall t :: t in x.tokens ==>
            (t in d.tokens <==> x.tokens[t].session !in x.sessions || x.tokens[t].session in d.sessions))
      && (forall c :: c in x.confirmations ==>
            (c in d.confirmations <==>
               x.confirmations[c].scope.session !in x.sessions || x.confirmations[c].scope.session in d.sessions))
      && Within(d.tokens, x.tokens) && Within(d.confirmations, x.confirmations)
  {
    hide AfterMails;
  }

  lemma RowsAfterUsers(x: Db, now: Time)
    ensures var d := PurgeUsers(x, now);
      && UsersLeft(x, d.users, now) && d.flows == x.flows
      && (forall l :: l in x.links ==> (l in d.links <==> !StaleUser(x, x.links[l].user, now)))
      && (forall c :: c in x.codes ==> (c in d.codes <==> !Stale(x, x.codes[c].user, now)))
      && (forall c :: c in x.changes ==> (c in d.changes <==> !Stale(x, x.changes[c].user, now)))
      && Within(d.links, x.links) && Within(d.codes, x.codes) && Within(d.changes, x.changes)
  {
  }

  lemma SessionsAfterUsers(x: Db, now: Time)
    ensures var d := PurgeUsers(x, now);
      && (forall s :: s in x.sessions ==>
            (s in d.sessions <==> !Stale(x, x.sessions[s].user, now)) &&
            (s in d.sessions ==> d.sessions[s] == x.sessions[s].(code := d.sessions[s].code)))
      && (forall s :: s in d.sessions ==> s in x.sessions)
      && (forall t :: t in x.tokens ==> (t in d.tokens <==> x.tokens[t].session in d.sessions))
      && (forall c :: c in x.confirmations ==>
            (c in d.confirmations <==>
               !Stale(x, x.confirmations[c].key, now) && x.confirmations[c].scope.session in d.sessions))
      && Within(d.tokens, x.tokens) && Within(d.confirmations, x.confirmations)
  {
  }

  lemma LoginRowsLeft(db: Db, now: Time)
    ensures var d := PurgeDb(db, now);
      && UsersLeft(db, d.users, now) && FlowsLeft(db, d.flows, now) && LinksLeft(db, d.links, now)
      && CodesLeft(db, d.codes, now) && ChangesLeft(db, d.changes, now)
  {
    hide AfterFlows; hide PurgeUsers; hide PurgeFlows; hide PurgeSessions; hide PurgeConfirmations; hide PurgeChanges;
    hide AfterMails; hide AfterSessions; hide DueFlow; hide DueChange; hide DueUser;
    assert PurgeDb(db, now) == PurgeUsers(AfterSessions(db, now), now) by { Composed(db, now); }
    SameUntilUsers(db, now);
    FlowsAfterFlows(db, now);
    MailsAfterMails(db, now);
    RowsAfterUsers(AfterSessions(db, now), now);
  }

  lemma Composed(db: Db, now: Time)
    ensures PurgeDb(db, now) == PurgeUsers(AfterSessions(db, now), now)
  {
  }

  lemma SessionRowsLeft(db: Db, now: Time)
    requires forall t :: t in db.tokens ==> db.tokens[t].session in db.sessions
    ensures var d := PurgeDb(db, now); SessionsLeft(db, d.sessions, now) && TokensLeft(db, d.tokens, d.sessions)
  {
    hide AfterFlows; hide PurgeUsers; hide PurgeFlows; hide PurgeSessions; hide PurgeConfirmations; hide PurgeChanges;
    hide AfterMails; hide AfterSessions; hide DueFlow; hide DueChange; hide DueUser; hide DueConfirmation;
    assert PurgeDb(db, now) == PurgeUsers(AfterSessions(db, now), now) by { Composed(db, now); }
    SameUntilUsers(db, now);
    FlowsAfterFlows(db, now);
    MailsAfterMails(db, now);
    RowsAfterSessions(db, now);
    SessionsAfterUsers(AfterSessions(db, now), now);
  }

  lemma ConfirmationRowsLeft(db: Db, now: Time)
    requires ConfirmationRefs(db.confirmations, db.sessions)
    ensures var d := PurgeDb(db, now); ConfirmationsLeft(db, d.confirmations, d.sessions, now)
  {
    hide AfterFlows; hide PurgeUsers; hide PurgeFlows; hide PurgeSessions; hide PurgeConfirmations; hide PurgeChanges;
    hide AfterMails; hide AfterSessions; hide DueFlow; hide DueChange; hide DueUser; hide DueConfirmation;
    hide DueSession;
    assert PurgeDb(db, now) == PurgeUsers(AfterSessions(db, now), now) by { Composed(db, now); }
    SameUntilUsers(db, now);
    FlowsAfterFlows(db, now);
    MailsAfterMails(db, now);
    RowsAfterSessions(db, now);
    SessionsAfterUsers(AfterSessions(db, now), now);
  }
}
