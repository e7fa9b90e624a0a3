/** The purge changes nothing a client can tell: what would be accepted before it is accepted after it,
    and what would be refused is refused. */
module PurgeInvisible {
  import opened Base
  import opened Tables
  import opened EmailedCodes
  import opened Budget
  import opened Refresh
  import Login
  import Account
  import Purge
  import opened PurgeEffects
  import opened References
  import opened FlowBounds
  import opened CodeBudgets
  import opened Accounts
  import Chain
  import opened TokenForest
  import TokenRuns
  import opened Soundness
  import opened System

  // ---- Live sessions ----

  /** No token of a live session is deleted: an account with a session is verified. */
  lemma LiveSpared(w: World, s: Id)
    requires Sound(w) && Live(w.db.sessions, s, w.now)
    ensures var d := Purge.PurgeDb(w.db, w.now);
      && Live(d.sessions, s, w.now) && d.sessions[s] == w.db.sessions[s].(code := d.sessions[s].code)
      && w.db.sessions[s].user in d.users && d.users[w.db.sessions[s].user] == w.db.users[w.db.sessions[s].user]
      && (forall t :: t in w.db.tokens && w.db.tokens[t].session == s ==>
            t in d.tokens && d.tokens[t] == w.db.tokens[t])
  {
    hide Intact; hide FlowInv; hide CodeInv; hide Chain.ChainInv; hide Purge.PurgeDb; hide Smaller; hide Forest;
    hide Conserved;
    hide UniqueEmails; hide Proven; hide ProofsMailed; hide RowsMailed; hide UsedUp;
    TokenRuns.ForestRooted(w);
    SessionRowsLeft(w.db, w.now);
    LoginRowsLeft(w.db, w.now);
    Purged(w.db, w.now);
  }

  lemma Purged(db: Db, now: Time)
    requires Intact(db)
    ensures var d := Purge.PurgeDb(db, now);
      && Within(d.users, db.users) && Within(d.flows, db.flows) && Within(d.links, db.links)
      && Within(d.codes, db.codes)
      && Within(d.changes, db.changes) && Within(d.confirmations, db.confirmations) && Within(d.tokens, db.tokens)
      && (forall s :: s in d.sessions ==>
            s in db.sessions && d.sessions[s] == db.sessions[s].(code := d.sessions[s].code))
  {
    hide Intact; hide Purge.PurgeDb;
    PurgeKeeps(db, now);
  }

  // ---- Refresh ----

  /** Refused before anything else is looked at, with nothing changed. */
  predicate TurnedAway(r: RefreshReply) {
    r.UnknownToken? || r.OtherClient? || r.SessionOver?
  }

  lemma SameClassification(w: World, t: Id)
    requires Sound(w) && t in w.db.tokens && Live(w.db.sessions, w.db.tokens[t].session, w.now)
    ensures var d := Purge.PurgeDb(w.db, w.now);
      t in d.tokens && d.tokens[t] == w.db.tokens[t] && Classify(d.tokens, t, w.now) == Classify(w.db.tokens, t, w.now)
  {
    hide Intact; hide FlowInv; hide CodeInv; hide Chain.ChainInv; hide Purge.PurgeDb; hide AccountInv; hide Conserved;
    hide Ordered; hide ForksInGrace; hide Succeeded; hide Dated; hide Rooted; hide Allocated;
    LiveSpared(w, w.db.tokens[t].session);
    Purged(w.db, w.now);
    var d := Purge.PurgeDb(w.db, w.now);
    forall c | c in w.db.tokens && ChildOf(w.db.tokens, c, t)
      ensures c in d.tokens && d.tokens[c] == w.db.tokens[c] && ChildOf(d.tokens, c, t)
    {
      assert GoodChild(w.db.tokens, c, t);
    }
    forall c | c in d.tokens && ChildOf(d.tokens, c, t)
      ensures c in w.db.tokens && d.tokens[c] == w.db.tokens[c] && ChildOf(w.db.tokens, c, t)
    {
    }
  }

  lemma RefreshUnchanged(w: World, known: bool, client: ClientId, token: Id, canSign: bool)
    requires Sound(w)
    ensures var before := Grant(w, known, client, token, canSign).reply;
      var after := Grant(Purge.Run(w), known, client, token, canSign).reply;
      before == after || (TurnedAway(before) && TurnedAway(after))
  {
    hide Sound; hide Purge.PurgeDb; hide Classify; hide Present; hide KindOf; hide RevokeSession;
    Purged(w.db, w.now) by { assert Intact(w.db) by { SoundIntact(w); } }
    if token in w.db.tokens && Live(w.db.sessions, w.db.tokens[token].session, w.now) {
      LiveSpared(w, w.db.tokens[token].session);
      SameClassification(w, token);
    }
  }

  // ---- Exchange ----

  lemma SameUsable(w: World, code: Id)
    requires Sound(w)
    ensures var d := Purge.PurgeDb(w.db, w.now);
      && (Login.CodeUsable(d, code, w.now) <==> Login.CodeUsable(w.db, code, w.now))
      && (Login.CodeUsable(d, code, w.now) ==>
            d.codes[code] == w.db.codes[code] && d.flows[d.codes[code].flow] == w.db.flows[d.codes[code].flow] &&
            (Enabled(d.users, d.codes[code].user) <==> Enabled(w.db.users, d.codes[code].user)))
  {
    hide Intact; hide CodeInv; hide Chain.ChainInv; hide Purge.PurgeDb; hide TokenInv; hide LinkRows; hide LinksCounted;
    hide UniqueEmails; hide Proven; hide ProofsMailed; hide RowsMailed; hide UsedUp; hide FlowRows;
    LoginRowsLeft(w.db, w.now);
    Purged(w.db, w.now);
  }

  lemma ExchangeUnchanged(w: World, known: bool, client: ClientId, code: Id, uri: string, verifier: string,
                          canSign: bool)
    requires Sound(w)
    ensures Login.Exchange(Purge.Run(w), known, client, code, uri, verifier, canSign).reply ==
            Login.Exchange(w, known, client, code, uri, verifier, canSign).reply
  {
    hide Sound; hide Purge.PurgeDb; hide Login.PkceMatches; hide Login.RejectCode; hide Login.CodeUsable;
    SameUsable(w, code);
    assert Purge.Run(w).db.next == w.db.next;
    UsableRow(w.db, code, w.now);
    UsableRow(Purge.Run(w).db, code, w.now);
  }

  lemma UsableRow(db: Db, code: Id, now: Time)
    ensures Login.CodeUsable(db, code, now) ==> code in db.codes && db.codes[code].flow in db.flows
  {
  }

  // ---- Emailed codes ----

  lemma {:induction false} NewestIsLast<K(!new), S(!new)>(rows: map<Id, CodeRow<K, S>>, scope: S, n: Id, r: Id)
    requires r < n && r in rows && rows[r].scope == scope
    ensures var m := Newest(rows, scope, n);
      m.Some? && (rows[r].createdAt < rows[m.value].createdAt ||
                  (rows[r].createdAt == rows[m.value].createdAt && r <= m.value))
  {
    if r < n - 1 { NewestIsLast(rows, scope, n - 1, r); }
  }

  /** Deleting rows more than a day old does not change which code may be typed. */
  lemma SameCandidate<K(!new), S(!new)>(rows: map<Id, CodeRow<K, S>>, after: map<Id, CodeRow<K, S>>, scope: S, key: K,
                                        next: Id, now: Time)
    requires Capped(rows, next, now) && Within(after, rows) && Unforgetting(rows, after, now)
    ensures Candidate(after, scope, key, now, next) == Candidate(rows, scope, key, now, next)
  {
    hide Newest; hide FailuresSince;
    SumShrinks(rows, now - DAY, after, now - DAY, key, next);
    SumShrinks(after, now - DAY, rows, now - DAY, key, next);
    var m, m' := Newest(rows, scope, next), Newest(after, scope, next);
    if m.Some? && Pending(rows[m.value], now) {
      assert m.value in after;
      NewestIsLast(after, scope, next, m.value);
      NewestIsLast(rows, scope, next, m'.value);
    } else if m'.Some? && Pending(after[m'.value], now) {
      NewestIsLast(rows, scope, next, m'.value);
      NewestIsLast(after, scope, next, m.value);
    }
  }

  /** What is gone from the confirmations is more than a day old. */
  lemma ConfirmationsForgotten(w: World)
    requires Sound(w)
    ensures Unforgetting(w.db.confirmations, Purge.PurgeDb(w.db, w.now).confirmations, w.now)
  {
    hide Intact; hide FlowInv; hide Chain.ChainInv; hide Purge.PurgeDb; hide TokenInv; hide Unforgetting;
    hide WithinDay; hide Capped; hide AskedInSession;
    hide UniqueEmails; hide Proven; hide ProofsMailed; hide RowsMailed; hide UsedUp; hide HoldersVerified;
    hide ConfirmationsLeft; hide SessionsLeft;
    ConfirmationRowsLeft(w.db, w.now) by { IntactConfirmations(w.db); }
    TokenRuns.ForestRooted(w);
    SessionRowsLeft(w.db, w.now);
    Purged(w.db, w.now);
    var d := Purge.PurgeDb(w.db, w.now);
    OldConfirmations(w.db, d.confirmations, d.sessions, w.now);
  }

  lemma OldConfirmations(db: Db, confirmations: map<Id, Confirmation>, sessions: map<Id, Session>, now: Time)
    requires ConfirmationsLeft(db, confirmations, sessions, now) && SessionsLeft(db, sessions, now)
    requires Capped(db.confirmations, db.next, now) && AskedInSession(db.confirmations, db.sessions)
    requires HoldersVerified(db.codes, db.sessions, db.users) && Within(confirmations, db.confirmations)
    ensures Unforgetting(db.confirmations, confirmations, now)
  {
  }

  lemma SoundConfirmations(w: World)
    requires Sound(w)
    ensures Capped(w.db.confirmations, w.db.next, w.now) && Capped(w.db.links, w.db.next, w.now)
  {
  }

  lemma SameCaller(w: World, sid: Id)
    requires Sound(w)
    ensures var d := Purge.PurgeDb(w.db, w.now);
      var user := FindAuthenticated(w.db, sid, w.now);
      FindAuthenticated(d, sid, w.now) == user &&
      (user.Some? ==>
         user.value in d.users && user.value in w.db.users && d.users[user.value] == w.db.users[user.value])
  {
    hide Sound; hide Purge.PurgeDb;
    Purged(w.db, w.now) by { SoundIntact(w); }
    if Live(w.db.sessions, sid, w.now) { LiveSpared(w, sid); }
  }

  lemma CheckUnchanged(w: World, sid: Id, action: ConfirmationAction, typed: string)
    requires Sound(w)
    ensures Account.CheckCode(Purge.Run(w), sid, action, typed).reply == Account.CheckCode(w, sid, action, typed).reply
  {
    hide Sound; hide Purge.PurgeDb; hide FindAuthenticated; hide Candidate; hide IsWellFormed; hide Capped;
    hide Unforgetting;
    SameCaller(w, sid);
    var user := FindAuthenticated(w.db, sid, w.now);
    if user.Some? {
      Purged(w.db, w.now) by { SoundIntact(w); }
      ConfirmationsForgotten(w);
      SoundConfirmations(w);
      SameCandidate(w.db.confirmations, Purge.Run(w).db.confirmations, ConfirmationScope(sid, action), user.value,
                    w.db.next, w.now);
    }
  }

  // ---- Links and codes, while no unverified account is a week old ----

  ghost predicate NoneStale(w: World) {
    forall u :: u in w.db.users ==> !Purge.DueUser(w.db.users[u], w.now)
  }

  lemma UsersSame(w: World)
    requires Sound(w) && NoneStale(w)
    ensures Purge.PurgeDb(w.db, w.now).users == w.db.users
  {
    hide Sound; hide Purge.PurgeDb; hide Purge.DueUser;
    LoginRowsLeft(w.db, w.now);
    Purged(w.db, w.now) by { SoundIntact(w); }
  }

  lemma LinksForgotten(w: World)
    requires Sound(w) && NoneStale(w)
    ensures Unforgetting(w.db.links, Purge.PurgeDb(w.db, w.now).links, w.now)
  {
    hide Intact; hide Chain.ChainInv; hide Purge.PurgeDb; hide WithinDay; hide TokenInv; hide AccountInv;
    hide FlowRows; hide CodeRows; hide LinksCounted; hide AskedInSession;
    LoginRowsLeft(w.db, w.now);
    Purged(w.db, w.now);
  }

  lemma PendingStays(w: World, link: Id)
    requires Sound(w) && NoneStale(w)
    ensures var d := Purge.PurgeDb(w.db, w.now);
      (link in d.links && Pending(d.links[link], w.now)) <==> (link in w.db.links && Pending(w.db.links[link], w.now))
    ensures var d := Purge.PurgeDb(w.db, w.now);
      link in w.db.links && Pending(w.db.links[link], w.now) ==>
        d.links[link] == w.db.links[link] &&
        (Login.FlowPending(d.flows, d.links[link].scope, w.now) <==>
         Login.FlowPending(w.db.flows, d.links[link].scope, w.now))
  {
    hide Intact; hide Chain.ChainInv; hide Purge.PurgeDb; hide TokenInv; hide AccountInv; hide CodeInv;
    hide FlowRows; hide CodeRows; hide LinksCounted;
    LoginRowsLeft(w.db, w.now);
    Purged(w.db, w.now);
  }

  lemma SameLogIn(w: World, v: World, mail: Id, flow: Id, user: Option<Id>, email: Email, stale: Login.LoginReply)
    requires v.db.users == w.db.users && v.db.next == w.db.next && v.now == w.now
    requires Login.FlowPending(v.db.flows, flow, w.now) <==> Login.FlowPending(w.db.flows, flow, w.now)
    ensures Login.LogIn(v, mail, flow, user, email, stale).1 == Login.LogIn(w, mail, flow, user, email, stale).1
  {
    hide Login.MarkVerified; hide Login.Recipient; hide Login.FlowPending;
    SameRecipient(w.db, v.db, user, email, w.now);
  }

  lemma SameRecipient(x: Db, y: Db, user: Option<Id>, email: Email, now: Time)
    requires y.users == x.users && y.next == x.next
    ensures var (dx, rx) := Login.Recipient(x, user, email, now);
      var (dy, ry) := Login.Recipient(y, user, email, now);
      rx == ry && dx.users == dy.users && dx.next == dy.next && dx.flows == x.flows && dy.flows == y.flows
  {
    hide Login.FindByEmail;
  }

  lemma LinkUnchanged(w: World, link: Id)
    requires Sound(w) && NoneStale(w)
    ensures Login.ConfirmLink(Purge.Run(w), link).reply == Login.ConfirmLink(w, link).reply
  {
    hide Sound; hide NoneStale; hide Purge.PurgeDb; hide Login.LogIn; hide Pending; hide Login.FlowPending;
    UsersSame(w);
    PendingStays(w, link);
    if link in w.db.links && Pending(w.db.links[link], w.now) {
      var row := w.db.links[link];
      var v := Purge.Run(w);
      SameLogIn(Login.WithLinks(w, Consume(w.db.links, link, w.now)),
                Login.WithLinks(v, Consume(v.db.links, link, w.now)),
                link, row.scope, row.user, row.email, Login.InvalidToken);
    }
  }

  lemma SameLinkCandidate(w: World, flow: Id)
    requires Sound(w) && NoneStale(w)
    ensures Login.LinkCandidate(Purge.PurgeDb(w.db, w.now).links, flow, w.now, w.db.next) ==
            Login.LinkCandidate(w.db.links, flow, w.now, w.db.next)
  {
    hide Sound; hide NoneStale; hide Purge.PurgeDb; hide Candidate; hide Newest; hide Capped; hide Unforgetting;
    var links := Purge.PurgeDb(w.db, w.now).links;
    Purged(w.db, w.now) by { SoundIntact(w); }
    LinksForgotten(w);
    SoundConfirmations(w);
    var m, m' := Newest(w.db.links, flow, w.db.next), Newest(links, flow, w.db.next);
    if m.Some? { SameCandidate(w.db.links, links, flow, w.db.links[m.value].email, w.db.next, w.now); }
    if m'.Some? { SameCandidate(w.db.links, links, flow, links[m'.value].email, w.db.next, w.now); }
  }

  lemma CodeUnchanged(w: World, flow: Id, typed: string)
    requires Sound(w) && NoneStale(w)
    ensures Login.ConfirmCode(Purge.Run(w), flow, typed).reply == Login.ConfirmCode(w, flow, typed).reply
  {
    hide Sound; hide NoneStale; hide Purge.PurgeDb; hide Login.LogIn; hide Pending; hide Login.FlowPending;
    hide Login.LinkCandidate; hide IsWellFormed;
    UsersSame(w);
    SameLinkCandidate(w, flow);
    var candidate := Login.LinkCandidate(w.db.links, flow, w.now, w.db.next);
    if candidate.Some? {
      var link := candidate.value;
      Login.CandidateIsPending(w.db.links, flow, w.now, w.db.next);
      PendingStays(w, link);
      var row := w.db.links[link];
      var v := Purge.Run(w);
      SameLogIn(Login.WithLinks(w, Consume(w.db.links, link, w.now)),
                Login.WithLinks(v, Consume(v.db.links, link, w.now)),
                link, flow, row.user, row.email, Login.InvalidCode);
    }
  }

  // ---- Every run ----

  /** In every run, purging at that moment leaves the outcome of the next refresh, exchange or typed
      confirmation code as it was, and spares every token of a live session. */
  lemma PurgeSparesSessions(start: Time, actions: seq<Action>, known: bool, client: ClientId, token: Id, code: Id,
                            uri: string, verifier: string, canSign: bool, sid: Id,
                            action: ConfirmationAction, typed: string)
    ensures var w := Run(Init(start), actions);
      var before := Grant(w, known, client, token, canSign).reply;
      var after := Grant(Purge.Run(w), known, client, token, canSign).reply;
      before == after || (TurnedAway(before) && TurnedAway(after))
    ensures var w := Run(Init(start), actions);
      Login.Exchange(Purge.Run(w), known, client, code, uri, verifier, canSign).reply ==
      Login.Exchange(w, known, client, code, uri, verifier, canSign).reply
    ensures var w := Run(Init(start), actions);
      Account.CheckCode(Purge.Run(w), sid, action, typed).reply == Account.CheckCode(w, sid, action, typed).reply
    ensures var w := Run(Init(start), actions);
      forall t :: t in w.db.tokens && Live(w.db.sessions, w.db.tokens[t].session, w.now) ==>
        t in Purge.Run(w).db.tokens && Purge.Run(w).db.tokens[t] == w.db.tokens[t]
  {
    hide System.Run; hide Sound; hide Grant; hide Login.Exchange; hide Account.CheckCode; hide Purge.PurgeDb;
    Always(start, actions);
    var w := Run(Init(start), actions);
    RefreshUnchanged(w, known, client, token, canSign);
    ExchangeUnchanged(w, known, client, code, uri, verifier, canSign);
    CheckUnchanged(w, sid, action, typed);
    forall t | t in w.db.tokens && Live(w.db.sessions, w.db.tokens[t].session, w.now)
      ensures t in Purge.PurgeDb(w.db, w.now).tokens && Purge.PurgeDb(w.db, w.now).tokens[t] == w.db.tokens[t]
    {
      LiveSpared(w, w.db.tokens[t].session);
    }
  }

  predicate SignUpOnly(actions: seq<Action>) {
    forall i :: 0 <= i < |actions| ==> !actions[i].ImportUser?
  }

  ghost predicate AllVerified(users: map<Id, User>) {
    forall u :: u in users ==> users[u].verifiedAt.Some?
  }

  lemma StepVerified(w: World, a: Action)
    requires Sound(w) && AllVerified(w.db.users) && !a.ImportUser?
    ensures AllVerified(Apply(w, a).db.users)
  {
    hide Sound; hide Apply;
    assert Intact(w.db) by { SoundIntact(w); }
    if a.ConfirmLink? || a.ConfirmCode? { ConfirmVerified(w, a); }
    else if a.DeleteAccount? || a.RunPurge? { DeletionsShrink(w, a); }
    else if a.ConfirmChange? || a.SetDisabled? { UsersVerified(w, a); }
    else { Frame(w, a); }
  }

  lemma UsersVerified(w: World, a: Action)
    requires AllVerified(w.db.users) && (a.ConfirmChange? || a.SetDisabled?)
    ensures AllVerified(Apply(w, a).db.users)
  {
  }

  lemma ConfirmVerified(w: World, a: Action)
    requires Intact(w.db) && AllVerified(w.db.users) && (a.ConfirmLink? || a.ConfirmCode?)
    ensures AllVerified(Apply(w, a).db.users)
  {
    hide Intact; hide Login.ConfirmLink; hide Login.ConfirmCode; hide Pending; hide Login.LinkCandidate; hide Consume;
    IntactUsers(w.db);
    match a
    case ConfirmLink(link) => var id := Login.ConfirmLinkCases(w, link);
    case ConfirmCode(flow, typed) => var link, id := Login.ConfirmCodeCases(w, flow, typed);
  }

  lemma {:induction false} RunVerified(w: World, actions: seq<Action>)
    requires Sound(w) && AllVerified(w.db.users) && SignUpOnly(actions)
    ensures AllVerified(Run(w, actions).db.users)
    decreases |actions|
  {
    hide Sound; hide Apply; hide AllVerified;
    if actions != [] {
      StepVerified(w, actions[0]);
      Soundness.StepKeeps(w, actions[0]);
      RunVerified(Apply(w, actions[0]), actions[1..]);
    }
  }

  /** Where no unverified account is a week old, and so wherever every account came from a sign-up,
      purging leaves the answer to the next link or code exactly as it was. */
  lemma PurgeIsInvisible(start: Time, actions: seq<Action>, link: Id, flow: Id, typed: string)
    requires SignUpOnly(actions) || NoneStale(Run(Init(start), actions))
    ensures var w := Run(Init(start), actions);
      && Login.ConfirmLink(Purge.Run(w), link).reply == Login.ConfirmLink(w, link).reply
      && Login.ConfirmCode(Purge.Run(w), flow, typed).reply == Login.ConfirmCode(w, flow, typed).reply
  {
    hide System.Run; hide Sound; hide Login.ConfirmLink; hide Login.ConfirmCode;
    hide Purge.PurgeDb;
    Always(start, actions);
    var w := Run(Init(start), actions);
    if SignUpOnly(actions) {
      SoundAtFirst(start);
      RunVerified(Init(start), actions);
      assert NoneStale(w);
    }
    LinkUnchanged(w, link);
    CodeUnchanged(w, flow, typed);
  }
}
