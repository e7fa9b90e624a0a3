/** The purge as it runs: one batched delete after another (jobs/purge.rs). However the batches fall, the
    rows left are those of module Purge, and the report counts the rows that were due. */
module PurgeJob {
  import opened Base
  import opened Tables
  import opened Account
  import opened Purge
  import opened PurgeEffects
  import opened References
  import SigningKeys

  const BATCH_SIZE: nat := 1000

  function DueFlows(db: Db, now: Time): set<Id> { set f | f in db.flows && DueFlow(db.flows[f], now) }
  function DueChanges(db: Db, now: Time): set<Id> { set c | c in db.changes && DueChange(db.changes[c], now) }
  function DueConfirmations(db: Db, now: Time): set<Id> {
    set c | c in db.confirmations && DueConfirmation(db.confirmations[c], now)
  }
  function DueSessions(db: Db, now: Time): set<Id> { set s | s in db.sessions && DueSession(db.sessions[s], now) }
  function DueUsers(db: Db, now: Time): set<Id> { set u | u in db.users && DueUser(db.users[u], now) }

  function DueKeys(keys: SigningKeys.Table, now: Time): set<Id> {
    set k | k in keys && Before(keys[k].retiredAt, now - SigningKeys.RETIRED_KEY_RETENTION)
  }

  function DropChanges(db: Db, gone: set<Id>): Db {
    db.(changes := map c | c in db.changes && c !in gone :: db.changes[c])
  }
  function DropConfirmations(db: Db, gone: set<Id>): Db {
    db.(confirmations := map c | c in db.confirmations && c !in gone :: db.confirmations[c])
  }

  // ---- Deleting in two goes is deleting at once ----

  lemma FlowsInTwo(db: Db, a: set<Id>, b: set<Id>)
    ensures DropFlows(DropFlows(db, a), b) == DropFlows(db, a + b)
  {
    var x, y := DropFlows(DropFlows(db, a), b), DropFlows(db, a + b);
    assert x.flows == y.flows && x.links == y.links;
    assert x.codes == y.codes;
    assert x.sessions == y.sessions;
  }

  lemma NoFlows(db: Db)
    requires SessionRefs(db.sessions, db.users.Keys, db.codes.Keys)
    ensures DropFlows(db, {}) == db
  {
    var x := DropFlows(db, {});
    assert x.flows == db.flows && x.links == db.links && x.codes == db.codes;
    assert x.sessions == db.sessions;
  }

  lemma ChangesInTwo(db: Db, a: set<Id>, b: set<Id>)
    ensures DropChanges(DropChanges(db, a), b) == DropChanges(db, a + b) && DropChanges(db, {}) == db
  {
    assert DropChanges(DropChanges(db, a), b).changes == DropChanges(db, a + b).changes;
    assert DropChanges(db, {}).changes == db.changes;
  }

  lemma ConfirmationsInTwo(db: Db, a: set<Id>, b: set<Id>)
    ensures DropConfirmations(DropConfirmations(db, a), b) == DropConfirmations(db, a + b)
    ensures DropConfirmations(db, {}) == db
  {
    assert DropConfirmations(DropConfirmations(db, a), b).confirmations == DropConfirmations(db, a + b).confirmations;
    assert DropConfirmations(db, {}).confirmations == db.confirmations;
  }

  lemma MailsAtOnce(db: Db, now: Time)
    ensures DropChanges(db, DueChanges(db, now)) == PurgeChanges(db, now)
    ensures DropConfirmations(db, DueConfirmations(db, now)) == PurgeConfirmations(db, now)
  {
    assert DropChanges(db, DueChanges(db, now)).changes == PurgeChanges(db, now).changes;
    assert DropConfirmations(db, DueConfirmations(db, now)).confirmations == PurgeConfirmations(db, now).confirmations;
  }

  lemma SessionsInTwo(db: Db, a: set<Id>, b: set<Id>)
    ensures DropSessions(DropSessions(db, a), b) == DropSessions(db, a + b)
  {
    var x, y := DropSessions(DropSessions(db, a), b), DropSessions(db, a + b);
    assert x.sessions == y.sessions && x.tokens == y.tokens && x.confirmations == y.confirmations;
  }

  lemma NoSessions(db: Db)
    ensures DropSessions(db, {}) == db
  {
    var z := DropSessions(db, {});
    assert z.sessions == db.sessions && z.tokens == db.tokens && z.confirmations == db.confirmations;
  }

  lemma UsersInTwo(db: Db, a: set<Id>, b: set<Id>)
    ensures DropUsers(DropUsers(db, a), b) == DropUsers(db, a + b)
  {
    hide DropUsers;
    RowsInTwo(db, a, b);
    SessionRowsInTwo(db, a, b);
    SessionPartsInTwo(db, a, b);
    var x, y := DropUsers(DropUsers(db, a), b), DropUsers(db, a + b);
    assert x == Db(y.users, y.flows, y.links, y.codes, y.sessions, y.tokens, y.changes, y.confirmations, y.next);
  }

  lemma RowsInTwo(db: Db, a: set<Id>, b: set<Id>)
    ensures var x, y := DropUsers(DropUsers(db, a), b), DropUsers(db, a + b);
      x.users == y.users && x.links == y.links && x.changes == y.changes && x.codes == y.codes
  {
  }

  lemma SessionRowsInTwo(db: Db, a: set<Id>, b: set<Id>)
    ensures DropUsers(DropUsers(db, a), b).sessions == DropUsers(db, a + b).sessions
  {
    var once, twice, both := DropUsers(db, a), DropUsers(DropUsers(db, a), b), DropUsers(db, a + b);
    assert twice.codes == both.codes;
    assert twice.sessions.Keys == both.sessions.Keys;
    forall s | s in both.sessions
      ensures twice.sessions[s] == both.sessions[s]
    {
      DetachTwice(db.sessions[s], once.codes, both.codes);
    }
  }

  lemma DetachTwice(session: Session, codes: map<Id, AuthCode>, fewer: map<Id, AuthCode>)
    requires fewer.Keys <= codes.Keys
    ensures Detach(Detach(session, codes), fewer) == Detach(session, fewer)
  {
  }

  lemma SessionPartsInTwo(db: Db, a: set<Id>, b: set<Id>)
    ensures var x, y := DropUsers(DropUsers(db, a), b), DropUsers(db, a + b);
      x.tokens == y.tokens && x.confirmations == y.confirmations
  {
    SessionRowsInTwo(db, a, b);
  }

  lemma NoUsers(db: Db)
    requires TokensOwned(db) && SessionRefs(db.sessions, db.users.Keys, db.codes.Keys)
    requires ConfirmationRefs(db.confirmations, db.sessions)
    ensures DropUsers(db, {}) == db
  {
    var x := DropUsers(db, {});
    assert x.users == db.users && x.links == db.links && x.changes == db.changes && x.codes == db.codes;
    assert x.sessions == db.sessions;
    assert x.tokens == db.tokens && x.confirmations == db.confirmations;
  }

  datatype Report = Report(loginFlows: nat, emailChanges: nat, confirmations: nat, sessions: nat, unverifiedUsers: nat,
                           signingKeys: nat)

  ghost predicate TokensOwned(db: Db) {
    forall t :: t in db.tokens ==> db.tokens[t].session in db.sessions
  }

  /** `LIMIT`: any so many of the rows found. */
  method TakeBatch(due: set<Id>) returns (batch: set<Id>)
    ensures batch <= due && |batch| <= BATCH_SIZE && (|batch| < BATCH_SIZE ==> batch == due)
  {
    batch := {};
    while |batch| < BATCH_SIZE && batch != due
      invariant batch <= due && |batch| <= BATCH_SIZE
      decreases BATCH_SIZE - |batch|
    {
      assert due - batch != {} by { assert due == batch + (due - batch); }
      var row :| row in due - batch;
      batch := batch + {row};
    }
  }

  class Job {
    var db: Db
    var keys: SigningKeys.Table
    var now: Time

    constructor (db: Db, keys: SigningKeys.Table, now: Time)
      ensures this.db == db && this.keys == keys && this.now == now
    {
      this.db := db;
      this.keys := keys;
      this.now := now;
    }

    /** A handful of rows: one delete, no batches. */
    method PurgeSigningKeys() returns (total: nat)
      modifies this`keys
      ensures keys == SigningKeys.PurgeKeys(old(keys), now) && total == |DueKeys(old(keys), now)|
    {
      var due := set k | k in keys && Before(keys[k].retiredAt, now - SigningKeys.RETIRED_KEY_RETENTION);
      keys := keys - due;
      total := |due|;
    }

    method PurgeLoginFlows() returns (total: nat)
      requires SessionRefs(db.sessions, db.users.Keys, db.codes.Keys)
      modifies this`db
      ensures db == PurgeFlows(old(db), now) && total == |DueFlows(old(db), now)|
    {
      total := 0;
      ghost var first, done: set<Id> := db, {};
      NoFlows(db);
      while true
        invariant done <= DueFlows(first, now) && total == |done| && db == DropFlows(first, done)
        decreases DueFlows(first, now) - done
      {
        var due := DueFlows(db, now);
        assert due == DueFlows(first, now) - done;
        var batch := TakeBatch(due);
        FlowsInTwo(first, done, batch);
        db := DropFlows(db, batch);
        total := total + |batch|;
        done := done + batch;
        if |batch| < BATCH_SIZE {
          assert done == DueFlows(first, now);
          return;
        }
        assert |batch| > 0;
      }
    }

    method PurgeEmailChanges() returns (total: nat)
      modifies this`db
      ensures db == PurgeChanges(old(db), now) && total == |DueChanges(old(db), now)|
    {
      total := 0;
      ghost var first, done: set<Id> := db, {};
      ChangesInTwo(db, {}, {});
      MailsAtOnce(db, now);
      while true
        invariant done <= DueChanges(first, now) && total == |done| && db == DropChanges(first, done)
        decreases DueChanges(first, now) - done
      {
        var due := DueChanges(db, now);
        assert due == DueChanges(first, now) - done;
        var batch := TakeBatch(due);
        ChangesInTwo(first, done, batch);
        db := DropChanges(db, batch);
        total := total + |batch|;
        done := done + batch;
        if |batch| < BATCH_SIZE {
          assert done == DueChanges(first, now);
          return;
        }
        assert |batch| > 0;
      }
    }

    method PurgeSpentConfirmations() returns (total: nat)
      modifies this`db
      ensures db == PurgeConfirmations(old(db), now) && total == |DueConfirmations(old(db), now)|
    {
      total := 0;
      ghost var first, done: set<Id> := db, {};
      ConfirmationsInTwo(db, {}, {});
      MailsAtOnce(db, now);
      while true
        invariant done <= DueConfirmations(first, now) && total == |done| && db == DropConfirmations(first, done)
        decreases DueConfirmations(first, now) - done
      {
        var due := DueConfirmations(db, now);
        assert due == DueConfirmations(first, now) - done;
        var batch := TakeBatch(due);
        ConfirmationsInTwo(first, done, batch);
        db := DropConfirmations(db, batch);
        total := total + |batch|;
        done := done + batch;
        if |batch| < BATCH_SIZE {
          assert done == DueConfirmations(first, now);
          return;
        }
        assert |batch| > 0;
      }
    }

    method PurgeEndedSessions() returns (total: nat)
      modifies this`db
      ensures db == PurgeSessions(old(db), now) && total == |DueSessions(old(db), now)|
    {
      total := 0;
      ghost var first, done: set<Id> := db, {};
      NoSessions(db);
      while true
        invariant done <= DueSessions(first, now) && total == |done| && db == DropSessions(first, done)
        decreases DueSessions(first, now) - done
      {
        var due := DueSessions(db, now);
        assert due == DueSessions(first, now) - done;
        var batch := TakeBatch(due);
        SessionsInTwo(first, done, batch);
        db := DropSessions(db, batch);
        total := total + |batch|;
        done := done + batch;
        if |batch| < BATCH_SIZE {
          assert done == DueSessions(first, now);
          return;
        }
        assert |batch| > 0;
      }
    }

    method PurgeUnverifiedUsers() returns (total: nat)
      requires TokensOwned(db) && SessionRefs(db.sessions, db.users.Keys, db.codes.Keys)
      requires ConfirmationRefs(db.confirmations, db.sessions)
      modifies this`db
      ensures db == PurgeUsers(old(db), now) && total == |DueUsers(old(db), now)|
    {
      total := 0;
      ghost var first, done: set<Id> := db, {};
      NoUsers(db);
      while true
        invariant done <= DueUsers(first, now) && total == |done| && db == DropUsers(first, done)
        decreases DueUsers(first, now) - done
      {
        var due := DueUsers(db, now);
        assert due == DueUsers(first, now) - done;
        var batch := TakeBatch(due);
        UsersInTwo(first, done, batch);
        db := DropUsers(db, batch);
        total := total + |batch|;
        done := done + batch;
        if |batch| < BATCH_SIZE {
          assert done == DueUsers(first, now);
          return;
        }
        assert |batch| > 0;
      }
    }

    /** The six deletes in order. The counts are of the rows due when the job began: no delete makes
        another row due or saves one. */
    method Run() returns (report: Report)
      requires Intact(db) && TokensOwned(db)
      modifies this`db, this`keys
      ensures db == PurgeDb(old(db), now) && keys == SigningKeys.PurgeKeys(old(keys), now)
      ensures report == Report(|DueFlows(old(db), now)|, |DueChanges(old(db), now)|, |DueConfirmations(old(db), now)|,
                               |DueSessions(old(db), now)|, |DueUsers(old(db), now)|, |DueKeys(old(keys), now)|)
    {
      hide Intact; hide TokensOwned; hide PurgeFlows; hide PurgeSessions; hide PurgeUsers; hide PurgeChanges;
      hide PurgeConfirmations; hide DueFlows; hide DueChanges; hide DueConfirmations; hide DueSessions; hide DueUsers;
      hide DueKeys; hide SigningKeys.PurgeKeys;
      ghost var first := db;
      StillFit(db, now);
      SameDue(db, now);
      var flows := PurgeLoginFlows();
      var changes := PurgeEmailChanges();
      var confirmations := PurgeSpentConfirmations();
      var sessions := PurgeEndedSessions();
      var users := PurgeUnverifiedUsers();
      var signingKeys := PurgeSigningKeys();
      report := Report(flows, changes, confirmations, sessions, users, signingKeys);
    }
  }

  /** The intermediate tables are fit for the next delete. */
  lemma StillFit(db: Db, now: Time)
    requires Intact(db) && TokensOwned(db)
    ensures SessionRefs(db.sessions, db.users.Keys, db.codes.Keys)
    ensures var d := PurgeSessions(PurgeConfirmations(PurgeChanges(PurgeFlows(db, now), now), now), now);
      TokensOwned(d) && SessionRefs(d.sessions, d.users.Keys, d.codes.Keys) &&
      ConfirmationRefs(d.confirmations, d.sessions)
  {
    hide PurgeFlows; hide PurgeSessions; hide PurgeChanges; hide PurgeConfirmations; hide Smaller; hide AfterFlows;
    hide AfterMails; hide AfterSessions;
    PurgePartsKeep(db, now);
    var d1 := PurgeFlows(db, now);
    DropMailsKeeps(d1, now);
    var d2 := PurgeConfirmations(PurgeChanges(d1, now), now);
    PurgePartsKeep(d2, now);
    StillOwned(db, now);
  }

  lemma StillOwned(db: Db, now: Time)
    requires TokensOwned(db)
    ensures TokensOwned(PurgeSessions(PurgeConfirmations(PurgeChanges(PurgeFlows(db, now), now), now), now))
  {
    hide PurgeFlows; hide PurgeSessions; hide PurgeChanges; hide PurgeConfirmations; hide AfterFlows; hide AfterMails;
    assert AfterSessions(db, now) == PurgeSessions(PurgeConfirmations(PurgeChanges(PurgeFlows(db, now), now), now),
                                                   now) by {
      Parts(db, now);
    }
    FlowsAfterFlows(db, now);
    MailsAfterMails(db, now);
    RowsAfterSessions(db, now);
  }

  lemma Parts(db: Db, now: Time)
    ensures AfterSessions(db, now) == PurgeSessions(PurgeConfirmations(PurgeChanges(PurgeFlows(db, now), now), now),
                                                    now)
    ensures AfterMails(db, now) == PurgeConfirmations(PurgeChanges(PurgeFlows(db, now), now), now)
    ensures AfterFlows(db, now) == PurgeFlows(db, now)
  {
  }

  lemma SameDue(db: Db, now: Time)
    ensures var d1 := PurgeFlows(db, now);
      var d2 := PurgeChanges(d1, now);
      var d3 := PurgeConfirmations(d2, now);
      var d4 := PurgeSessions(d3, now);
      && DueChanges(d1, now) == DueChanges(db, now) && DueConfirmations(d2, now) == DueConfirmations(db, now)
      && DueSessions(d3, now) == DueSessions(db, now) && DueUsers(d4, now) == DueUsers(db, now)
  {
    hide PurgeFlows; hide PurgeSessions; hide AfterFlows; hide AfterMails; hide AfterSessions;
    Parts(db, now);
    FlowsAfterFlows(db, now);
    MailsAfterMails(db, now);
    SameUntilUsers(db, now);
  }
}
