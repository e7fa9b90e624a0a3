/** The hourly purge (jobs/purge.rs). */
module Purge {
  import opened Base
  import opened Tables
  import Account

  predicate DueFlow(f: Flow, now: Time) { f.expiresAt < now - DAY }
  predicate DueChange(c: EmailChange, now: Time) {
    c.expiresAt < now - 7 * DAY || Before(c.consumedAt, now - 7 * DAY)
  }
  predicate DueConfirmation(c: Confirmation, now: Time) {
    c.expiresAt < now - 7 * DAY || Before(c.consumedAt, now - 7 * DAY)
  }
  predicate DueSession(s: Session, now: Time) {
    s.expiresAt < now - 30 * DAY || Before(s.revokedAt, now - 30 * DAY)
  }
  predicate DueUser(u: User, now: Time) {
    u.verifiedAt.None? && u.createdAt < now - 7 * DAY
  }

  /** Flows go with their links and codes; a session outlives the code that opened it. */
  function DropFlows(db: Db, gone: set<Id>): Db {
    var codes := map c | c in db.codes && db.codes[c].flow !in gone :: db.codes[c];
    db.(flows := map f | f in db.flows && f !in gone :: db.flows[f],
        links := map l | l in db.links && db.links[l].scope !in gone :: db.links[l],
        codes := codes,
        sessions := map s | s in db.sessions :: Account.Detach(db.sessions[s], codes))
  }

  /** Sessions go with their refresh tokens and confirmations. */
  function DropSessions(db: Db, gone: set<Id>): Db {
    db.(sessions := map s | s in db.sessions && s !in gone :: db.sessions[s],
        tokens := map t | t in db.tokens && db.tokens[t].session !in gone :: db.tokens[t],
        confirmations := map c | c in db.confirmations && db.confirmations[c].scope.session !in gone ::
          db.confirmations[c])
  }

  function PurgeFlows(db: Db, now: Time): Db {
    DropFlows(db, set f | f in db.flows && DueFlow(db.flows[f], now))
  }
  function PurgeChanges(db: Db, now: Time): Db {
    db.(changes := map c | c in db.changes && !DueChange(db.changes[c], now) :: db.changes[c])
  }
  function PurgeConfirmations(db: Db, now: Time): Db {
    db.(confirmations := map c | c in db.confirmations && !DueConfirmation(db.confirmations[c], now) ::
          db.confirmations[c])
  }
  function PurgeSessions(db: Db, now: Time): Db {
    DropSessions(db, set s | s in db.sessions && DueSession(db.sessions[s], now))
  }
  function PurgeUsers(db: Db, now: Time): Db {
    Account.DropUsers(db, set u | u in db.users && DueUser(db.users[u], now))
  }

  /** The five row kinds in the order the job deletes them; signing keys are in module SigningKeys. */
  function PurgeDb(db: Db, now: Time): (r: Db)
    ensures r.next == db.next
  {
    PurgeUsers(PurgeSessions(PurgeConfirmations(PurgeChanges(PurgeFlows(db, now), now), now), now), now)
  }

  function Run(w: World): World {
    w.(db := PurgeDb(w.db, w.now))
  }
}
