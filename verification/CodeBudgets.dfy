/** The budgets of wrong codes, for the links of an address and the confirmations of an account, over
    every run of the server. */
module CodeBudgets {
  import opened Base
  import opened Tables
  import opened EmailedCodes
  import opened Budget
  import Refresh
  import opened Login
  import Account
  import Purge
  import opened References
  import opened FlowBounds
  import opened System

  /** A confirmation was requested while its session lived. */
  ghost predicate AskedInSession(confirmations: map<Id, Confirmation>, sessions: map<Id, Session>) {
    forall c :: c in confirmations ==>
      var s := confirmations[c].scope.session;
      s in sessions && confirmations[c].createdAt < sessions[s].expiresAt &&
      (sessions[s].revokedAt.Some? ==> confirmations[c].createdAt <= sessions[s].revokedAt.value)
  }

  ghost predicate CodeInv(w: World) {
    Budgeted(w.db.links, w.db.next, w.now) && Budgeted(w.db.confirmations, w.db.next, w.now) &&
    AskedInSession(w.db.confirmations, w.db.sessions)
  }

  /** No attempt of the last day is forgotten. */
  ghost predicate AttemptInv(w: World) {
    Accounted(w.db.links, w.ledger.guesses, w.db.next, w.now) &&
    Accounted(w.db.confirmations, w.ledger.confirmationGuesses, w.db.next, w.now)
  }

  // ---- Links ----

  lemma GuessedBudget(w: World, v: World, flow: Id, link: Id)
    requires LinkRows(w.db.links, w.db.flows) && Budgeted(w.db.links, w.db.next, w.now) && LinkGuessed(w, v, flow, link)
    ensures Budgeted(v.db.links, v.db.next, v.now)
    ensures Accounted(w.db.links, w.ledger.guesses, w.db.next, w.now) ==>
              Accounted(v.db.links, v.ledger.guesses, v.db.next, v.now)
  {
    hide Candidate; hide Newest; hide RecordFailure; hide Budgeted; hide Accounted;
    RecordKeeps(w.db.links, w.db.next, w.now, flow, w.db.links[link].key, link);
    if Accounted(w.db.links, w.ledger.guesses, w.db.next, w.now) {
      RecordAccounted(w.db.links, w.ledger.guesses, w.db.next, w.now, flow, w.db.links[link].key, link);
    }
  }

  /** Steps on links other than counting a wrong code. */
  ghost predicate LinksQuiet(w: World, v: World) {
    Quiet(w.db.links, w.db.next, v.db.links, v.db.next, v.now) && w.now <= v.now
  }

  lemma RequestQuiet(w: World, a: Action)
    requires a.RequestLink? && Intact(w.db)
    ensures LinksQuiet(w, Apply(w, a)) && Unforgetting(w.db.links, Apply(w, a).db.links, w.now)
  {
    hide Login.RequestLink; hide SessionRefs; hide ChangeRefs; hide ConfirmationRefs; hide CodeRefs; hide LinkRefs;
    var user := RequestCases(w, a.flow, a.email, a.signup, a.plain);
  }

  lemma UsedQuiet(w: World, v: World, link: Id, id: Id, code: Id)
    requires LinkUsed(w, v, link, id, code) && LoginFrame(w, v) && Capped(w.db.links, w.db.next, w.now)
    ensures LinksQuiet(w, v) && Unforgetting(w.db.links, v.db.links, w.now)
  {
    hide LoginDone; hide Pending;
  }

  lemma ConfirmLinks(w: World, a: Action)
    requires (a.ConfirmLink? || a.ConfirmCode?) && Intact(w.db) && FlowInv(w.db, w.now)
    requires Budgeted(w.db.links, w.db.next, w.now)
    ensures var v := Apply(w, a);
      Budgeted(v.db.links, v.db.next, v.now) &&
      (Accounted(w.db.links, w.ledger.guesses, w.db.next, w.now) ==>
         Accounted(v.db.links, v.ledger.guesses, v.db.next, v.now))
  {
    hide FlowInv; hide LinkUsed; hide LinkGuessed; hide Login.ConfirmLink; hide Login.ConfirmCode; hide Intact;
    hide LoginFrame; hide Budgeted; hide Accounted; hide LinkCandidate;
    IntactUsers(w.db);
    match a
    case ConfirmLink(link) =>
      var id := ConfirmLinkCases(w, link);
      var out := Login.ConfirmLink(w, link);
      if out.reply.Completed? { UsedBudget(w, out.world, link, id, out.reply.code); }
    case ConfirmCode(flow, typed) =>
      var link, id := ConfirmCodeCases(w, flow, typed);
      var out := Login.ConfirmCode(w, flow, typed);
      if out.reply.Completed? { UsedBudget(w, out.world, link, id, out.reply.code); }
      else if out.world != w {
        assert LinkRows(w.db.links, w.db.flows) by { FlowInvLinks(w); }
        GuessedBudget(w, out.world, flow, link);
      }
  }

  lemma FlowInvLinks(w: World)
    requires FlowInv(w.db, w.now)
    ensures LinkRows(w.db.links, w.db.flows)
  {
  }

  lemma UsedBudget(w: World, v: World, link: Id, id: Id, code: Id)
    requires LinkUsed(w, v, link, id, code) && LoginFrame(w, v) && Budgeted(w.db.links, w.db.next, w.now)
    ensures Budgeted(v.db.links, v.db.next, v.now)
    ensures Accounted(w.db.links, w.ledger.guesses, w.db.next, w.now) ==>
              Accounted(v.db.links, v.ledger.guesses, v.db.next, v.now)
  {
    hide LoginDone; hide Accounted; hide WithinDay;
    UsedQuiet(w, v, link, id, code);
    QuietKeeps(w.db.links, w.db.next, w.now, v.db.links, v.db.next, v.now);
    if Accounted(w.db.links, w.ledger.guesses, w.db.next, w.now) {
      QuietAccounted(w.db.links, w.ledger.guesses, w.db.next, w.now, v.db.links, v.db.next, v.now);
    }
  }

  lemma OtherLinks(w: World, a: Action)
    requires !a.ConfirmLink? && !a.ConfirmCode? && Intact(w.db)
    ensures LinksQuiet(w, Apply(w, a))
  {
    hide Apply;
    Frame(w, a);
    if a.RequestLink? { RequestQuiet(w, a); }
    else if a.DeleteAccount? || a.RunPurge? { DeletionsThin(w, a); }
  }

  lemma StepLinks(w: World, a: Action)
    requires Intact(w.db) && FlowInv(w.db, w.now) && Budgeted(w.db.links, w.db.next, w.now)
    ensures var v := Apply(w, a); Budgeted(v.db.links, v.db.next, v.now)
  {
    hide Intact; hide FlowInv; hide Budgeted; hide Apply; hide Accounted; hide Quiet;
    if a.ConfirmLink? || a.ConfirmCode? { ConfirmLinks(w, a); }
    else {
      OtherLinks(w, a);
      var v := Apply(w, a);
      QuietKeeps(w.db.links, w.db.next, w.now, v.db.links, v.db.next, v.now);
    }
  }

  // ---- Confirmations ----

  lemma SpentBudget(w: World, v: World, sid: Id, action: ConfirmationAction, typed: string, user: Id, id: Id,
                    right: bool)
    requires Account.Spent(w, v, sid, action, typed, user, id, right)
    requires ConfirmationRefs(w.db.confirmations, w.db.sessions)
    requires Budgeted(w.db.confirmations, w.db.next, w.now) && v.db.next == w.db.next && v.now == w.now
    ensures Budgeted(v.db.confirmations, w.db.next, w.now)
    ensures Accounted(w.db.confirmations, w.ledger.confirmationGuesses, w.db.next, w.now) ==>
              Accounted(v.db.confirmations, v.ledger.confirmationGuesses, w.db.next, w.now)
  {
    hide Accounted; hide WithinDay; hide FailuresSince; hide Newest;
    assert w.db.confirmations[id].key == user by { SpentKey(w, v, sid, action, typed, user, id, right); }
    if right {
      SpentQuiet(w.db.confirmations, w.db.next, w.now, id);
      QuietKeeps(w.db.confirmations, w.db.next, w.now, v.db.confirmations, w.db.next, w.now);
      assert v.ledger.confirmationGuesses == w.ledger.confirmationGuesses;
      if Accounted(w.db.confirmations, w.ledger.confirmationGuesses, w.db.next, w.now) {
        QuietAccounted(w.db.confirmations, w.ledger.confirmationGuesses, w.db.next, w.now, v.db.confirmations,
                       w.db.next, w.now);
      }
    } else {
      var scope := ConfirmationScope(sid, action);
      RecordKeeps(w.db.confirmations, w.db.next, w.now, scope, user, id);
      if Accounted(w.db.confirmations, w.ledger.confirmationGuesses, w.db.next, w.now) {
        RecordAccounted(w.db.confirmations, w.ledger.confirmationGuesses, w.db.next, w.now, scope, user, id);
      }
    }
  }

  lemma SpentKey(w: World, v: World, sid: Id, action: ConfirmationAction, typed: string, user: Id, id: Id, right: bool)
    requires Account.Spent(w, v, sid, action, typed, user, id, right)
    requires ConfirmationRefs(w.db.confirmations, w.db.sessions)
    ensures w.db.confirmations[id].key == user
  {
    hide FailuresSince;
  }

  lemma SpentQuiet(rows: map<Id, Confirmation>, next: Id, now: Time, id: Id)
    requires id in rows && Capped(rows, next, now)
    ensures Quiet(rows, next, Consume(rows, id, now), next, now) && Unforgetting(rows, Consume(rows, id, now), now)
  {
  }

  lemma CheckBudget(w: World, sid: Id, action: ConfirmationAction, typed: string)
    requires Intact(w.db) && Budgeted(w.db.confirmations, w.db.next, w.now)
    ensures var v := Account.CheckCode(w, sid, action, typed).world;
      Budgeted(v.db.confirmations, w.db.next, w.now) &&
      (Accounted(w.db.confirmations, w.ledger.confirmationGuesses, w.db.next, w.now) ==>
         Accounted(v.db.confirmations, v.ledger.confirmationGuesses, w.db.next, w.now))
  {
    hide Budgeted; hide Accounted; hide Account.CheckCode; hide Account.Spent; hide Intact;
    var user, id := Account.CheckCases(w, sid, action, typed);
    var out := Account.CheckCode(w, sid, action, typed);
    assert ConfirmationRefs(w.db.confirmations, w.db.sessions) by { IntactConfirmations(w.db); }
    if out.reply.Right? { SpentBudget(w, out.world, sid, action, typed, user, id, true); }
    else if out.world != w { SpentBudget(w, out.world, sid, action, typed, user, id, false); }
  }

  lemma IntactConfirmations(db: Db)
    requires Intact(db)
    ensures ConfirmationRefs(db.confirmations, db.sessions)
  {
  }

  /** The world in which the code has been checked: the account's own steps go on from there. */
  function Checked(w: World, a: Action): World {
    match a
    case ChangeEmail(sid, typed, email) =>
      var v := Account.ChangeEmail(w, sid, typed, email).world;
      if v == w then w else Account.CheckCode(w, sid, ChangeEmailAction, typed).world
    case DeleteAccount(sid, typed) => Account.CheckCode(w, sid, DeleteAccountAction, typed).world
    case _ => w
  }

  lemma CheckedStep(w: World, a: Action)
    requires Intact(w.db) && Budgeted(w.db.confirmations, w.db.next, w.now)
    ensures var v := Checked(w, a);
      Budgeted(v.db.confirmations, w.db.next, w.now) && OnlyMarked(w.db.confirmations, v.db.confirmations) &&
      v == w.(db := w.db.(confirmations := v.db.confirmations),
              ledger := w.ledger.(confirmationGuesses := v.ledger.confirmationGuesses)) &&
      (Accounted(w.db.confirmations, w.ledger.confirmationGuesses, w.db.next, w.now) ==>
         Accounted(v.db.confirmations, v.ledger.confirmationGuesses, w.db.next, w.now))
  {
    hide Budgeted; hide Accounted; hide Account.CheckCode; hide Intact; hide Account.ChangeEmail;
    match a {
      case ChangeEmail(sid, typed, email) =>
        CheckBudget(w, sid, ChangeEmailAction, typed);
        CheckMarks(w, sid, ChangeEmailAction, typed);
      case DeleteAccount(sid, typed) =>
        CheckBudget(w, sid, DeleteAccountAction, typed);
        CheckMarks(w, sid, DeleteAccountAction, typed);
      case _ =>
    }
  }

  ghost predicate ConfirmationsQuiet(c: World, v: World) {
    Quiet(c.db.confirmations, c.db.next, v.db.confirmations, v.db.next, v.now) && c.now <= v.now &&
    v.ledger.confirmationGuesses == c.ledger.confirmationGuesses
  }

  lemma ChangeQuiet(w: World, a: Action)
    requires Intact(w.db) && a.ChangeEmail?
    ensures ConfirmationsQuiet(Checked(w, a), Apply(w, a))
  {
    hide Account.CheckCode; hide FindByEmail; hide Refresh.FindAuthenticated; hide Intact;
    ChecksNumbered(w, a.changeSession, ChangeEmailAction, a.changeCode);
    IntactNumbered(w.db);
  }

  lemma DeleteQuiet(w: World, a: Action)
    requires Intact(w.db) && a.DeleteAccount?
    ensures ConfirmationsQuiet(Checked(w, a), Apply(w, a))
  {
    hide Account.CheckCode; hide Intact;
    ChecksNumbered(w, a.deleteSession, DeleteAccountAction, a.deleteCode);
  }

  lemma IntactNumbered(db: Db)
    requires Intact(db)
    ensures forall c :: c in db.confirmations ==> c < db.next
  {
  }

  lemma AskQuiet(w: World, sid: Id, action: ConfirmationAction, plain: string)
    requires Intact(w.db)
    ensures ConfirmationsQuiet(w, Account.RequestConfirmation(w, sid, action, plain))
  {
    hide Refresh.FindAuthenticated; hide Intact;
    IntactNumbered(w.db);
  }

  lemma PurgeQuiet(w: World, a: Action)
    requires Intact(w.db) && a.RunPurge?
    ensures ConfirmationsQuiet(w, Apply(w, a))
  {
    hide Purge.PurgeDb; hide Intact;
    IntactNumbered(w.db);
    PurgeKeeps(w.db, w.now);
  }

  lemma RestQuiet(w: World, a: Action)
    requires Intact(w.db) && !a.ChangeEmail? && !a.DeleteAccount? && !a.RequestConfirmation? && !a.RunPurge?
    ensures ConfirmationsQuiet(w, Apply(w, a))
  {
    hide Apply; hide Intact;
    IntactNumbered(w.db);
    Frame(w, a);
  }

  /** After the check, rows only go or are added. */
  lemma OtherConfirmations(w: World, a: Action)
    requires Intact(w.db)
    ensures ConfirmationsQuiet(Checked(w, a), Apply(w, a))
  {
    hide ConfirmationsQuiet; hide Account.RequestConfirmation; hide Purge.PurgeDb; hide Intact;
    if a.ChangeEmail? { ChangeQuiet(w, a); }
    else if a.DeleteAccount? { DeleteQuiet(w, a); }
    else if a.RequestConfirmation? { AskQuiet(w, a.session, a.action, a.confirmationCode); }
    else if a.RunPurge? { PurgeQuiet(w, a); }
    else { RestQuiet(w, a); }
  }

  lemma ChecksNumbered(w: World, sid: Id, action: ConfirmationAction, typed: string)
    requires Intact(w.db)
    ensures forall c :: c in Account.CheckCode(w, sid, action, typed).world.db.confirmations ==> c < w.db.next
  {
    hide Account.CheckCode;
    CheckMarks(w, sid, action, typed);
  }

  lemma StepConfirmations(w: World, a: Action)
    requires Intact(w.db) && Budgeted(w.db.confirmations, w.db.next, w.now)
    ensures var v := Apply(w, a); Budgeted(v.db.confirmations, v.db.next, v.now)
  {
    hide Intact; hide Budgeted; hide Apply; hide Checked; hide Quiet; hide Accounted; hide OnlyMarked;
    CheckedStep(w, a);
    OtherConfirmations(w, a);
    var v := Apply(w, a);
    QuietKeeps(Checked(w, a).db.confirmations, w.db.next, w.now, v.db.confirmations, v.db.next, v.now);
  }

  // ---- Confirmations and the life of their session ----

  /** How a step treats a confirmation that is there afterwards. */
  ghost predicate AskedEarlier(w: World, v: World, c: Id)
    requires c in v.db.confirmations
  {
    c in w.db.confirmations && v.db.confirmations[c].scope == w.db.confirmations[c].scope &&
    v.db.confirmations[c].createdAt == w.db.confirmations[c].createdAt
  }

  ghost predicate AskedNow(v: World, c: Id)
    requires c in v.db.confirmations
  {
    v.db.confirmations[c].createdAt == v.now && Refresh.Live(v.db.sessions, v.db.confirmations[c].scope.session, v.now)
  }

  ghost predicate SessionsGoOn(before: map<Id, Session>, after: map<Id, Session>, now: Time) {
    forall s :: s in before && s in after ==>
      after[s].expiresAt == before[s].expiresAt && after[s].user == before[s].user &&
      (after[s].revokedAt == before[s].revokedAt || after[s].revokedAt == Some(now))
  }

  lemma AskedKept(w: World, v: World)
    requires AskedInSession(w.db.confirmations, w.db.sessions) && Capped(w.db.confirmations, w.db.next, w.now)
    requires ConfirmationRefs(v.db.confirmations, v.db.sessions) && w.now <= v.now
    requires SessionsGoOn(w.db.sessions, v.db.sessions, v.now)
    requires forall c :: c in v.db.confirmations ==> AskedEarlier(w, v, c) || AskedNow(v, c)
    ensures AskedInSession(v.db.confirmations, v.db.sessions)
  {
  }

  lemma StepSessions(w: World, a: Action)
    requires Intact(w.db)
    ensures SessionsGoOn(w.db.sessions, Apply(w, a).db.sessions, Apply(w, a).now)
  {
    hide Apply; hide Intact;
    Frame(w, a);
    if a.RefreshGrant? || a.Logout? || a.RevokeOwnSession? { RevokeEnds(w, a); }
    else if a.Exchange? { ExchangeSessions(w, a); }
    else if a.DeleteAccount? || a.RunPurge? { DeletionSessions(w, a); }
  }

  lemma ExchangeSessions(w: World, a: Action)
    requires Intact(w.db) && a.Exchange?
    ensures SessionsGoOn(w.db.sessions, Apply(w, a).db.sessions, w.now)
  {
    hide Login.Exchange; hide RejectCode; hide PkceMatches; hide Intact;
    ExchangeCases(w, a.known, a.client, a.code, a.redirectUri, a.verifier, a.canSign);
    RejectEnds(w, a.code);
    SessionsNumbered(w.db);
  }

  lemma SessionsNumbered(db: Db)
    requires Intact(db)
    ensures forall s :: s in db.sessions ==> s < db.next
  {
  }

  lemma DeletionSessions(w: World, a: Action)
    requires Intact(w.db) && (a.DeleteAccount? || a.RunPurge?)
    ensures SessionsGoOn(w.db.sessions, Apply(w, a).db.sessions, w.now)
  {
    hide Purge.PurgeDb; hide Intact; hide Account.CheckCode;
    match a
    case RunPurge => PurgeKeeps(w.db, w.now);
    case DeleteAccount(_, _) =>
  }

  lemma StepAsked(w: World, a: Action)
    requires Intact(w.db)
    ensures var v := Apply(w, a); forall c :: c in v.db.confirmations ==> AskedEarlier(w, v, c) || AskedNow(v, c)
  {
    hide Apply; hide Intact;
    if a.RequestConfirmation? { AskedFromSession(w, a); }
    else if a.ChangeEmail? || a.DeleteAccount? { AskedChecked(w, a); }
    else if a.RunPurge? { AskedPurged(w, a); }
    else { Frame(w, a); }
  }

  lemma AskedFromSession(w: World, a: Action)
    requires a.RequestConfirmation?
    ensures var v := Apply(w, a); forall c :: c in v.db.confirmations ==> AskedEarlier(w, v, c) || AskedNow(v, c)
  {
  }

  lemma AskedChecked(w: World, a: Action)
    requires a.ChangeEmail? || a.DeleteAccount?
    ensures var v := Apply(w, a); forall c :: c in v.db.confirmations ==> AskedEarlier(w, v, c)
  {
    hide Account.CheckCode; hide FindByEmail; hide Refresh.FindAuthenticated;
    match a
    case ChangeEmail(sid, typed, email) => CheckMarks(w, sid, ChangeEmailAction, typed);
    case DeleteAccount(sid, typed) => CheckMarks(w, sid, DeleteAccountAction, typed);
  }

  lemma AskedPurged(w: World, a: Action)
    requires a.RunPurge? && Intact(w.db)
    ensures var v := Apply(w, a); forall c :: c in v.db.confirmations ==> AskedEarlier(w, v, c)
  {
    hide Purge.PurgeDb; hide Intact;
    PurgeKeeps(w.db, w.now);
  }

  lemma StepKeeps(w: World, a: Action)
    requires Intact(w.db) && FlowInv(w.db, w.now) && CodeInv(w)
    ensures CodeInv(Apply(w, a))
  {
    hide Intact; hide FlowInv; hide Apply; hide AskedInSession; hide WithinDay; hide Capped; hide SessionsGoOn;
    StepLinks(w, a);
    StepConfirmations(w, a);
    StepSessions(w, a);
    StepAsked(w, a);
    References.StepKeeps(w, a);
    IntactConfirmations(Apply(w, a).db);
    Frame(w, a);
    AskedKept(w, Apply(w, a));
  }

  // ---- Attempts, while no account is deleted ----

  ghost predicate AccountsStay(w: World, a: Action) {
    w.db.users.Keys <= Apply(w, a).db.users.Keys
  }

  /** Purging flows never removes a failure still inside the daily window. */
  lemma PurgeFlowsForgetsOld(db: Db, now: Time)
    requires Intact(db) && LinkRows(db.links, db.flows) && Capped(db.links, db.next, now)
    ensures Unforgetting(db.links, Purge.PurgeFlows(db, now).links, now)
  {
    hide SessionRefs; hide ChangeRefs; hide ConfirmationRefs; hide CodeRefs;
  }

  lemma PurgeForgetsOldLinks(db: Db, now: Time)
    requires Intact(db) && LinkRows(db.links, db.flows) && Capped(db.links, db.next, now)
    requires db.users.Keys <= Purge.PurgeDb(db, now).users.Keys
    ensures Unforgetting(db.links, Purge.PurgeDb(db, now).links, now)
  {
    hide Intact; hide LinkRows; hide Capped; hide Purge.PurgeFlows; hide Purge.PurgeSessions; hide Unforgetting;
    var d1 := Purge.PurgeFlows(db, now);
    var d3 := Purge.PurgeSessions(Purge.PurgeConfirmations(Purge.PurgeChanges(d1, now), now), now);
    PurgeFlowsForgetsOld(db, now);
    assert d3.links == d1.links by { SessionsLeaveLinks(d1, now); }
    assert d3.users == db.users by { SessionsLeaveLinks(d1, now); FlowsLeaveUsers(db, now); }
    NoUserDropped(d3, now);
  }

  lemma SessionsLeaveLinks(db: Db, now: Time)
    ensures var d := Purge.PurgeSessions(Purge.PurgeConfirmations(Purge.PurgeChanges(db, now), now), now);
      d.links == db.links && d.users == db.users
  {
  }

  lemma FlowsLeaveUsers(db: Db, now: Time)
    ensures var d := Purge.PurgeFlows(db, now);
      d.next == db.next && d.users == db.users && d.confirmations == db.confirmations &&
      d.sessions.Keys == db.sessions.Keys &&
      forall s :: s in db.sessions ==> d.sessions[s] == db.sessions[s].(code := d.sessions[s].code)
  {
  }

  lemma NoUserDropped(db: Db, now: Time)
    requires db.users.Keys <= Purge.PurgeUsers(db, now).users.Keys
    ensures Purge.PurgeUsers(db, now).links == db.links
    ensures forall c :: c in db.confirmations && db.confirmations[c].scope.session in db.sessions ==>
              c in Purge.PurgeUsers(db, now).confirmations
  {
    var gone := set u | u in db.users && Purge.DueUser(db.users[u], now);
    assert forall u :: u in gone ==> u in db.users.Keys && u !in Purge.PurgeUsers(db, now).users;
    assert gone == {};
  }

  lemma PurgeForgetsOldConfirmations(db: Db, now: Time)
    requires Intact(db) && AskedInSession(db.confirmations, db.sessions) && Capped(db.confirmations, db.next, now)
    requires db.users.Keys <= Purge.PurgeDb(db, now).users.Keys
    ensures Unforgetting(db.confirmations, Purge.PurgeDb(db, now).confirmations, now)
  {
    hide Intact; hide Purge.PurgeFlows; hide Purge.PurgeSessions; hide Purge.PurgeUsers; hide Purge.PurgeConfirmations;
    hide Purge.PurgeChanges;
    var d1 := Purge.PurgeFlows(db, now);
    var d2 := Purge.PurgeConfirmations(Purge.PurgeChanges(d1, now), now);
    var d3 := Purge.PurgeSessions(d2, now);
    FlowsLeaveUsers(db, now);
    SessionsLeaveLinks(d1, now);
    NoUserDropped(d3, now);
    PurgeKeeps(db, now);
    assert AskedInSession(d1.confirmations, d1.sessions);
    hide AskedInSession; hide Capped;
    forall c | c in db.confirmations && now - DAY < db.confirmations[c].createdAt
      ensures c in Purge.PurgeUsers(d3, now).confirmations
    {
      LostConfirmation(d1, now, c);
    }
  }

  /** A confirmation goes when it is a week old, or its session was over for a month. */
  lemma LostConfirmation(db: Db, now: Time, c: Id)
    requires c in db.confirmations && AskedInSession(db.confirmations, db.sessions)
    requires Capped(db.confirmations, db.next, now)
    ensures var d := Purge.PurgeSessions(Purge.PurgeConfirmations(Purge.PurgeChanges(db, now), now), now);
      db.confirmations[c].createdAt <= now - DAY ||
      (c in d.confirmations && d.confirmations[c] == db.confirmations[c] &&
       d.confirmations[c].scope.session in d.sessions)
  {
  }

  lemma DeleteForgetsNone(w: World, a: Action)
    requires a.DeleteAccount? && AccountsStay(w, a)
    ensures Apply(w, a) == Checked(w, a)
  {
    hide Account.CheckCode;
  }

  lemma LinksUnforgotten(w: World, a: Action)
    requires Intact(w.db) && FlowInv(w.db, w.now) && CodeInv(w) && AccountsStay(w, a)
    requires !a.ConfirmLink? && !a.ConfirmCode?
    ensures Unforgetting(w.db.links, Apply(w, a).db.links, Apply(w, a).now)
  {
    hide Intact; hide FlowInv; hide Purge.PurgeDb; hide Checked; hide WithinDay; hide AskedInSession;
    Frame(w, a);
    if a.RequestLink? { RequestQuiet(w, a); }
    else if a.DeleteAccount? { DeleteForgetsNone(w, a); CheckedStep(w, a); }
    else if a.RunPurge? { FlowInvLinks(w); PurgeForgetsOldLinks(w.db, w.now); }
    else { hide Apply; }
  }

  lemma ConfirmationsUnforgotten(w: World, a: Action)
    requires Intact(w.db) && CodeInv(w) && AccountsStay(w, a)
    ensures Unforgetting(Checked(w, a).db.confirmations, Apply(w, a).db.confirmations, Apply(w, a).now)
  {
    hide Intact; hide Purge.PurgeDb; hide CodeInv; hide Account.CheckCode; hide Apply; hide Checked;
    Frame(w, a);
    if a.RequestConfirmation? || a.ChangeEmail? { AskUnforgotten(w, a); }
    else if a.DeleteAccount? { DeleteForgetsNone(w, a); }
    else if a.RunPurge? { PurgeUnforgotten(w, a); }
    else { assert Checked(w, a) == w by { CheckedOnly(w, a); } }
  }

  lemma CheckedOnly(w: World, a: Action)
    requires !a.ChangeEmail? && !a.DeleteAccount?
    ensures Checked(w, a) == w
  {
  }

  lemma PurgeUnforgotten(w: World, a: Action)
    requires Intact(w.db) && CodeInv(w) && AccountsStay(w, a) && a.RunPurge?
    ensures Unforgetting(Checked(w, a).db.confirmations, Apply(w, a).db.confirmations, Apply(w, a).now)
  {
    hide Intact; hide Purge.PurgeDb; hide WithinDay; hide AskedInSession; hide Capped; hide Unforgetting;
    PurgeForgetsOldConfirmations(w.db, w.now);
  }

  lemma AskUnforgotten(w: World, a: Action)
    requires Intact(w.db) && (a.RequestConfirmation? || a.ChangeEmail?)
    ensures Unforgetting(Checked(w, a).db.confirmations, Apply(w, a).db.confirmations, Apply(w, a).now)
  {
    hide Intact; hide Account.CheckCode; hide FindByEmail; hide Refresh.FindAuthenticated;
    IntactNumbered(w.db);
  }

  lemma AttemptStep(w: World, a: Action)
    requires Intact(w.db) && FlowInv(w.db, w.now) && CodeInv(w) && AttemptInv(w) && AccountsStay(w, a)
    ensures AttemptInv(Apply(w, a))
  {
    hide Intact; hide FlowInv; hide Apply; hide Checked; hide AccountsStay; hide Accounted; hide Unforgetting;
    hide AskedInSession; hide WithinDay; hide OnlyMarked;
    var v := Apply(w, a);
    var c := Checked(w, a);
    Frame(w, a);
    CheckedStep(w, a);
    ConfirmationsUnforgotten(w, a);
    OtherConfirmations(w, a);
    QuietAccounted(c.db.confirmations, c.ledger.confirmationGuesses, w.db.next, w.now, v.db.confirmations, v.db.next,
                   v.now);
    if a.ConfirmLink? || a.ConfirmCode? { ConfirmLinks(w, a); }
    else {
      LinksUnforgotten(w, a);
      QuietAccounted(w.db.links, w.ledger.guesses, w.db.next, w.now, v.db.links, v.db.next, v.now);
    }
  }
}
