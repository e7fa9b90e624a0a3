/** Which rows a purge takes, by their dates. */
module PurgeDates {
  import opened Base
  import opened Tables
  import Purge
  import opened PurgeEffects
  import opened References
  import PurgeInvisible
  import TokenRuns
  import opened Soundness
  import opened System

  /** An account that was verified, or created in the last seven days. */
  predicate UserStays(db: Db, u: Id, now: Time) {
    u in db.users && (db.users[u].verifiedAt.Some? || now - 7 * DAY <= db.users[u].createdAt)
  }

  /** A flow that ended less than a day ago, or not yet. */
  predicate FlowStays(db: Db, f: Id, now: Time) {
    f in db.flows && now - DAY <= db.flows[f].expiresAt
  }

  /** A session that ended less than 30 days ago, or not yet, of an account that stays. */
  predicate SessionStays(db: Db, s: Id, now: Time) {
    s in db.sessions && now - 30 * DAY <= db.sessions[s].expiresAt &&
    (db.sessions[s].revokedAt.Some? ==> now - 30 * DAY <= db.sessions[s].revokedAt.value) &&
    UserStays(db, db.sessions[s].user, now)
  }

  /** Used or expired less than seven days ago, or neither yet. */
  predicate RecentMail(expiresAt: Time, consumedAt: Option<Time>, now: Time) {
    now - 7 * DAY <= expiresAt && (consumedAt.Some? ==> now - 7 * DAY <= consumedAt.value)
  }

  lemma LoginRowsByDate(db: Db, now: Time)
    requires Intact(db)
    ensures var d := Purge.PurgeDb(db, now);
      && (forall u :: u in d.users <==> UserStays(db, u, now))
      && (forall f :: f in d.flows <==> FlowStays(db, f, now))
      && (forall l :: l in d.links <==>
            l in db.links && FlowStays(db, db.links[l].scope, now) &&
            (db.links[l].user.Some? ==> UserStays(db, db.links[l].user.value, now)))
      && (forall c :: c in d.codes <==>
            c in db.codes && FlowStays(db, db.codes[c].flow, now) && UserStays(db, db.codes[c].user, now))
      && (forall c :: c in d.changes <==>
            c in db.changes && RecentMail(db.changes[c].expiresAt, db.changes[c].consumedAt, now) &&
            UserStays(db, db.changes[c].user, now))
  {
    hide Purge.PurgeDb;
    LoginRowsLeft(db, now);
    PurgeInvisible.Purged(db, now);
  }

  lemma SessionRowsByDate(db: Db, now: Time)
    requires Intact(db) && forall t :: t in db.tokens ==> db.tokens[t].session in db.sessions
    ensures var d := Purge.PurgeDb(db, now);
      && (forall s :: s in d.sessions <==> SessionStays(db, s, now))
      && (forall t :: t in d.tokens <==> t in db.tokens && SessionStays(db, db.tokens[t].session, now))
      && (forall c :: c in d.confirmations <==>
            c in db.confirmations && SessionStays(db, db.confirmations[c].scope.session, now) &&
            RecentMail(db.confirmations[c].expiresAt, db.confirmations[c].consumedAt, now))
  {
    hide Purge.PurgeDb;
    SessionRowsLeft(db, now);
    ConfirmationRowsLeft(db, now);
    PurgeInvisible.Purged(db, now);
  }

  /** In every run, a purge leaves exactly these rows, as they were but for the link of a session to its code. */
  lemma PurgeTakesExactly(start: Time, actions: seq<Action>)
    ensures var db := Run(Init(start), actions).db; var now := Run(Init(start), actions).now;
      var d := Purge.PurgeDb(db, now);
      && (forall u :: u in d.users <==> UserStays(db, u, now))
      && (forall f :: f in d.flows <==> FlowStays(db, f, now))
      && (forall s :: s in d.sessions <==> SessionStays(db, s, now))
      && (forall l :: l in d.links <==>
            l in db.links && FlowStays(db, db.links[l].scope, now) &&
            (db.links[l].user.Some? ==> UserStays(db, db.links[l].user.value, now)))
      && (forall c :: c in d.codes <==>
            c in db.codes && FlowStays(db, db.codes[c].flow, now) && UserStays(db, db.codes[c].user, now))
      && (forall t :: t in d.tokens <==> t in db.tokens && SessionStays(db, db.tokens[t].session, now))
      && (forall c :: c in d.changes <==>
            c in db.changes && RecentMail(db.changes[c].expiresAt, db.changes[c].consumedAt, now) &&
            UserStays(db, db.changes[c].user, now))
      && (forall c :: c in d.confirmations <==>
            c in db.confirmations && SessionStays(db, db.confirmations[c].scope.session, now) &&
            RecentMail(db.confirmations[c].expiresAt, db.confirmations[c].consumedAt, now))
    ensures var db := Run(Init(start), actions).db; var d := Purge.PurgeDb(db, Run(Init(start), actions).now);
      && Within(d.users, db.users) && Within(d.flows, db.flows) && Within(d.links, db.links)
      && Within(d.codes, db.codes) && Within(d.tokens, db.tokens) && Within(d.changes, db.changes)
      && Within(d.confirmations, db.confirmations)
      && (forall s :: s in d.sessions ==> d.sessions[s] == db.sessions[s].(code := d.sessions[s].code))
  {
    hide Run; hide Sound; hide Purge.PurgeDb; hide Intact; hide UserStays; hide FlowStays; hide SessionStays;
    hide RecentMail;
    Always(start, actions);
    var w := Run(Init(start), actions);
    SoundIntact(w);
    LoginRowsByDate(w.db, w.now);
    SessionRowsByDate(w.db, w.now) by { TokensHaveSessions(w); }
    PurgeInvisible.Purged(w.db, w.now);
  }

  lemma TokensHaveSessions(w: World)
    requires Sound(w)
    ensures forall t :: t in w.db.tokens ==> w.db.tokens[t].session in w.db.sessions
  {
    hide Intact;
    TokenRuns.ForestRooted(w);
  }
}
