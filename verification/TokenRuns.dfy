/** What holds of refresh tokens after every run of the whole server. */
module TokenRuns {
  import opened Base
  import opened Tables
  import opened Refresh
  import opened TokenForest
  import Login
  import Account
  import Purge
  import opened System

  /** Sessions only end or disappear, with their tokens; nothing is issued. */
  ghost predicate Shrinks(w: World, v: World) {
    SessionsShrink(w.db.sessions, v.db.sessions) && TokensFollow(w.db.tokens, v.db.tokens, v.db.sessions) &&
    w.db.next <= v.db.next && w.now <= v.now && v.ledger.issues == w.ledger.issues
  }

  lemma ShrinkKeeps(w: World, v: World)
    requires TokenInv(w) && Shrinks(w, v)
    ensures TokenInv(v)
  {
    ShrinkKeepsForest(w.db.tokens, w.db.sessions, w.db.next, w.now, v.db.tokens, v.db.sessions, v.db.next, v.now);
    ShrinkKeepsCount(w.db.tokens, w.db.sessions, w.ledger.issues, w.db.next, v.db.tokens, v.db.sessions, v.db.next);
  }

  lemma DropUsersShrinks(db: Db, gone: set<Id>)
    requires Rooted(db.tokens, db.sessions)
    ensures var b := Account.DropUsers(db, gone);
      SessionsShrink(db.sessions, b.sessions) && TokensFollow(db.tokens, b.tokens, b.sessions) && b.next == db.next
  {
  }

  lemma PurgeSessionsShrinks(db: Db, now: Time)
    requires Rooted(db.tokens, db.sessions)
    ensures var b := Purge.PurgeSessions(db, now);
      SessionsShrink(db.sessions, b.sessions) && TokensFollow(db.tokens, b.tokens, b.sessions) &&
      Rooted(b.tokens, b.sessions)
  {
  }

  lemma PurgeShrinks(db: Db, now: Time)
    requires Rooted(db.tokens, db.sessions)
    ensures var b := Purge.PurgeDb(db, now);
      SessionsShrink(db.sessions, b.sessions) && TokensFollow(db.tokens, b.tokens, b.sessions) && b.next == db.next
  {
    var d1 := Purge.PurgeFlows(db, now);
    assert SessionsShrink(db.sessions, d1.sessions) && d1.tokens == db.tokens && Rooted(d1.tokens, d1.sessions);
    var d2 := Purge.PurgeConfirmations(Purge.PurgeChanges(d1, now), now);
    PurgeSessionsShrinks(d2, now);
    var d3 := Purge.PurgeSessions(d2, now);
    DropUsersShrinks(d3, set u | u in d3.users && Purge.DueUser(d3.users[u], now));
  }

  lemma SessionsOnly(w: World, v: World)
    requires Rooted(w.db.tokens, w.db.sessions) && SessionsShrink(w.db.sessions, v.db.sessions)
    requires v.db.sessions.Keys == w.db.sessions.Keys && v.db.tokens == w.db.tokens && w.db.next <= v.db.next
    requires w.now <= v.now && v.ledger.issues == w.ledger.issues
    ensures Shrinks(w, v)
  {
  }

  lemma RevokeShrinks(sessions: map<Id, Session>, id: Id, now: Time)
    ensures var after := RevokeSession(sessions, id, now);
      SessionsShrink(sessions, after) && after.Keys == sessions.Keys
  {
  }

  lemma DeleteShrinks(w: World, sid: Id, typed: string)
    requires Rooted(w.db.tokens, w.db.sessions)
    ensures Shrinks(w, Account.DeleteAccount(w, sid, typed).world)
  {
    hide Account.CheckCode;
    hide Account.DropUsers;
    var checked := Account.CheckCode(w, sid, DeleteAccountAction, typed);
    if checked.reply.Right? {
      DropUsersShrinks(checked.world.db, {checked.reply.user});
    }
  }

  lemma OtherStepsShrink(w: World, a: Action)
    requires Rooted(w.db.tokens, w.db.sessions) && !a.RefreshGrant? && !a.Exchange?
    ensures Shrinks(w, Apply(w, a))
  {
    Frame(w, a);
    if !EndsSessions(a) {
      hide Apply;
      SessionsOnly(w, Apply(w, a));
    } else {
      EndingShrinks(w, a);
    }
  }

  lemma EndingShrinks(w: World, a: Action)
    requires Rooted(w.db.tokens, w.db.sessions) && EndsSessions(a)
    ensures Shrinks(w, Apply(w, a))
  {
    hide Account.DeleteAccount; hide Purge.PurgeDb; hide Rooted; hide RevokeByToken; hide RevokeOwn; hide Shrinks;
    match a
    case DeleteAccount(sid, typed) => DeleteShrinks(w, sid, typed);
    case RunPurge => PurgeRunShrinks(w);
    case Logout(known, client, token) => LogoutShrinks(w, known, client, token);
    case RevokeOwnSession(caller, target) => RevokeOwnShrinks(w, caller, target);
  }

  lemma PurgeRunShrinks(w: World)
    requires Rooted(w.db.tokens, w.db.sessions)
    ensures Shrinks(w, Purge.Run(w))
  {
    hide Purge.PurgeDb; hide Rooted;
    PurgeShrinks(w.db, w.now);
  }

  lemma LogoutShrinks(w: World, known: bool, client: ClientId, token: Id)
    requires Rooted(w.db.tokens, w.db.sessions)
    ensures Shrinks(w, RevokeByToken(w, known, client, token))
  {
    hide Rooted; hide RevokeSession;
    if token in w.db.tokens { RevokeShrinks(w.db.sessions, w.db.tokens[token].session, w.now); }
    SessionsOnly(w, RevokeByToken(w, known, client, token));
  }

  lemma RevokeOwnShrinks(w: World, caller: Id, target: Id)
    requires Rooted(w.db.tokens, w.db.sessions)
    ensures Shrinks(w, RevokeOwn(w, caller, target))
  {
    hide Rooted; hide RevokeSession; hide FindAuthenticated;
    RevokeShrinks(w.db.sessions, target, w.now);
    SessionsOnly(w, RevokeOwn(w, caller, target));
  }

  lemma RefreshKeeps(w: World, known: bool, client: ClientId, t: Id, canSign: bool)
    requires TokenInv(w)
    ensures TokenInv(Grant(w, known, client, t, canSign).world)
  {
    hide Forest;
    hide Conserved;
    hide Present;
    hide Classify;
    hide Grant;
    GrantCases(w, known, client, t, canSign);
    var out := Grant(w, known, client, t, canSign);
    match out.reply
    case Reused =>
      RevokeShrinks(w.db.sessions, w.db.tokens[t].session, w.now);
      assert Rooted(w.db.tokens, w.db.sessions) by { ForestRooted(w); }
      SessionsOnly(w, out.world);
      ShrinkKeeps(w, out.world);
    case AccountDisabled =>
      DisabledKeepsForest(w.db.tokens, w.db.sessions, w.db.next, w.now, t);
      DisabledKeepsCount(w.db.tokens, w.db.sessions, w.ledger.issues, w.db.next, w.now, t);
    case Issued(_, _) =>
      AcceptKeepsForest(w.db.tokens, w.db.sessions, w.db.next, w.now, t);
      AcceptKeepsCount(w.db.tokens, w.db.sessions, w.ledger.issues, w.db.next, w.now, t);
    case _ =>
  }

  lemma ForestRooted(w: World)
    requires TokenInv(w)
    ensures Rooted(w.db.tokens, w.db.sessions)
  {
  }

  lemma RejectShrinks(w: World, code: Id)
    requires Rooted(w.db.tokens, w.db.sessions)
    ensures Shrinks(w, Login.RejectCode(w, code))
  {
  }

  lemma ExchangeKeeps(w: World, known: bool, client: ClientId, code: Id, uri: string, verifier: string, canSign: bool)
    requires TokenInv(w)
    ensures TokenInv(Login.Exchange(w, known, client, code, uri, verifier, canSign).world)
  {
    hide Forest;
    hide Conserved;
    hide Login.PkceMatches;
    hide Login.RejectCode;
    var out := Login.Exchange(w, known, client, code, uri, verifier, canSign);
    if out.reply.Opened? {
      var session := out.world.db.sessions[w.db.next];
      OpenKeepsForest(w.db.tokens, w.db.sessions, w.db.next, w.now, session);
      OpenKeepsCount(w.db.tokens, w.db.sessions, w.ledger.issues, w.db.next, w.now, session);
    } else if out.reply.UnusableCode? {
      ForestRooted(w);
      RejectShrinks(w, code);
      ShrinkKeeps(w, Login.RejectCode(w, code));
    }
  }

  lemma StepKeeps(w: World, a: Action)
    requires TokenInv(w)
    ensures TokenInv(Apply(w, a))
  {
    hide TokenInv; hide Grant; hide Login.Exchange;
    match a
    case RefreshGrant(known, client, t, canSign) => RefreshKeeps(w, known, client, t, canSign);
    case Exchange(known, client, code, uri, verifier, canSign) =>
      ExchangeKeeps(w, known, client, code, uri, verifier, canSign);
    case _ => OtherKeeps(w, a);
  }

  lemma OtherKeeps(w: World, a: Action)
    requires TokenInv(w) && !a.RefreshGrant? && !a.Exchange?
    ensures TokenInv(Apply(w, a))
  {
    hide TokenInv; hide Apply; hide Shrinks;
    ForestRooted(w);
    OtherStepsShrink(w, a);
    ShrinkKeeps(w, Apply(w, a));
  }

  lemma {:induction false} RunKeeps(w: World, actions: seq<Action>)
    requires TokenInv(w)
    ensures TokenInv(Run(w, actions))
    decreases |actions|
  {
    hide TokenInv;
    hide Apply;
    if actions != [] {
      StepKeeps(w, actions[0]);
      RunKeeps(Apply(w, actions[0]), actions[1..]);
    }
  }

  lemma Always(start: Time, actions: seq<Action>)
    ensures TokenInv(Run(Init(start), actions))
  {
    RunKeeps(Init(start), actions);
  }
}
