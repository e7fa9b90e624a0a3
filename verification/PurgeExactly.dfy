/** What a purge changes for links, codes and email changes in every run, unverified accounts included. */
module PurgeExactly {
  import opened Base
  import opened Tables
  import opened EmailedCodes
  import opened Budget
  import Login
  import Account
  import Purge
  import opened PurgeEffects
  import opened References
  import opened FlowBounds
  import CodeBudgets
  import opened Accounts
  import Chain
  import TokenForest
  import opened Soundness
  import opened Owners
  import opened PurgeInvisible
  import opened System

  // ---- Email changes ----

  /** The change row, its account and every other holder of its address survive while it is pending. */
  lemma ChangeUnchanged(w: World, change: Id)
    requires Sound(w) && OwnerInv(w)
    ensures Account.ConfirmChange(Purge.Run(w), change).reply == Account.ConfirmChange(w, change).reply
  {
    hide Sound; hide Purge.PurgeDb; hide LinksOwned; hide LinkDates;
    LoginRowsLeft(w.db, w.now);
    Purged(w.db, w.now) by { SoundIntact(w); }
    var d := Purge.PurgeDb(w.db, w.now);
    if change in w.db.changes && w.now < w.db.changes[change].expiresAt {
      var row := w.db.changes[change];
      forall u | u in w.db.users && w.db.users[u].email == row.toEmail
        ensures u in d.users
      {
        assert w.db.users[u].verifiedAt.None? ==> ChangeFree(row, w.db.users[u]);
      }
    }
  }

  // ---- Links ----

  /** A pending link that was not mailed to a stale account: no stale account holds its address. */
  lemma NoStaleHolder(w: World, link: Id, u: Id)
    requires Sound(w) && OwnerInv(w) && link in w.db.links && Pending(w.db.links[link], w.now)
    requires !StaleUser(w.db, w.db.links[link].user, w.now) && Stale(w.db, u, w.now)
    ensures w.db.users[u].email != w.db.links[link].email
  {
    hide Intact; hide FlowInv; hide AccountInv; hide Chain.ChainInv; hide TokenForest.TokenInv; hide WithinDay;
    hide ChangesFree; hide ChangeRows;
    assert LinkOwned(w.db.links[link], u, w.db.users[u]);
  }

  lemma SameHolder(w: World, link: Id)
    requires Sound(w) && OwnerInv(w) && link in w.db.links && Pending(w.db.links[link], w.now)
    requires !StaleUser(w.db, w.db.links[link].user, w.now)
    ensures var email := w.db.links[link].email;
      Login.FindByEmail(Purge.PurgeDb(w.db, w.now).users, email, w.db.next) ==
      Login.FindByEmail(w.db.users, email, w.db.next)
  {
    hide Sound; hide OwnerInv; hide Purge.PurgeDb; hide Login.FindByEmail; hide Purge.DueUser;
    var email := w.db.links[link].email;
    LoginRowsLeft(w.db, w.now);
    Purged(w.db, w.now) by { SoundIntact(w); }
    assert UniqueEmails(w.db.users) && forall u :: u in w.db.users ==> u < w.db.next by { SoundUsers(w); }
    var found := Login.FindByEmail(w.db.users, email, w.db.next);
    if found.Some? && Stale(w.db, found.value, w.now) { NoStaleHolder(w, link, found.value); }
  }

  /** The account a mail logs in is the same before and after. */
  lemma SameLogInReply(w: World, link: Id, x: World, y: World, stale: Login.LoginReply)
    requires Sound(w) && OwnerInv(w) && link in w.db.links && Pending(w.db.links[link], w.now)
    requires !StaleUser(w.db, w.db.links[link].user, w.now)
    requires x.db.users == w.db.users && x.db.next == w.db.next && x.now == w.now
    requires y.db.users == Purge.PurgeDb(w.db, w.now).users && y.db.next == w.db.next && y.now == w.now
    requires var flow := w.db.links[link].scope;
      Login.FlowPending(y.db.flows, flow, w.now) <==> Login.FlowPending(x.db.flows, flow, w.now)
    ensures var row := w.db.links[link];
      Login.LogIn(y, link, row.scope, row.user, row.email, stale).1 ==
      Login.LogIn(x, link, row.scope, row.user, row.email, stale).1
  {
    hide Sound; hide OwnerInv; hide Purge.PurgeDb; hide Login.FlowPending; hide Login.MarkVerified;
    hide Login.Recipient;
    hide StaleUser;
    SameRecipientRow(w, link, x.db, y.db);
  }

  lemma SameRecipientRow(w: World, link: Id, x: Db, y: Db)
    requires Sound(w) && OwnerInv(w) && link in w.db.links && Pending(w.db.links[link], w.now)
    requires !StaleUser(w.db, w.db.links[link].user, w.now)
    requires x.users == w.db.users && x.next == w.db.next
    requires y.users == Purge.PurgeDb(w.db, w.now).users && y.next == w.db.next
    ensures var row := w.db.links[link];
      var (dx, rx) := Login.Recipient(x, row.user, row.email, w.now);
      var (dy, ry) := Login.Recipient(y, row.user, row.email, w.now);
      && rx == ry && dx.next == dy.next && dx.flows == x.flows && dy.flows == y.flows
      && (rx.Some? ==> rx.value in dx.users && rx.value in dy.users && dx.users[rx.value] == dy.users[rx.value])
  {
    hide Sound; hide OwnerInv; hide Purge.PurgeDb; hide Login.FindByEmail; hide Purge.DueUser; hide Login.Recipient;
    LoginRowsLeft(w.db, w.now);
    Purged(w.db, w.now) by { SoundIntact(w); }
    SameHolder(w, link);
    RecipientsAgree(x, y, w.db.links[link], w.now);
  }

  lemma RecipientsAgree(x: Db, y: Db, row: Link, now: Time)
    requires x.next == y.next && (row.user.Some? ==> (row.user.value in x.users <==> row.user.value in y.users))
    requires row.user.None? ==>
               Login.FindByEmail(x.users, row.email, x.next) == Login.FindByEmail(y.users, row.email, y.next)
    requires forall u :: u in x.users && u in y.users ==> x.users[u] == y.users[u]
    ensures var (dx, rx) := Login.Recipient(x, row.user, row.email, now);
      var (dy, ry) := Login.Recipient(y, row.user, row.email, now);
      && rx == ry && dx.next == dy.next && dx.flows == x.flows && dy.flows == y.flows
      && (rx.Some? ==> rx.value in dx.users && rx.value in dy.users && dx.users[rx.value] == dy.users[rx.value])
  {
    hide Login.FindByEmail;
  }

  lemma LinkLeft(w: World, link: Id)
    requires Sound(w) && link in w.db.links && Pending(w.db.links[link], w.now)
    ensures link in Purge.PurgeDb(w.db, w.now).links <==> !StaleUser(w.db, w.db.links[link].user, w.now)
    ensures var d := Purge.PurgeDb(w.db, w.now); var flow := w.db.links[link].scope;
      Login.FlowPending(d.flows, flow, w.now) <==> Login.FlowPending(w.db.flows, flow, w.now)
  {
    hide Intact; hide Chain.ChainInv; hide Purge.PurgeDb; hide TokenForest.TokenInv; hide AccountInv;
    hide CodeBudgets.CodeInv;
    hide FlowRows; hide CodeRows; hide LinksCounted; hide Purge.DueUser;
    LoginRowsLeft(w.db, w.now);
    Purged(w.db, w.now);
  }

  /** The answer to a link after a purge: as before, except that a pending link mailed to an account the
      purge deletes is gone. So nothing refused before is accepted after. */
  lemma LinkAfterPurge(w: World, link: Id)
    requires Sound(w) && OwnerInv(w)
    ensures Login.ConfirmLink(Purge.Run(w), link).reply ==
      if link in w.db.links && Pending(w.db.links[link], w.now) && StaleUser(w.db, w.db.links[link].user, w.now)
      then Login.InvalidToken else Login.ConfirmLink(w, link).reply
  {
    hide Sound; hide OwnerInv; hide Purge.PurgeDb; hide Login.LogIn; hide Login.FlowPending; hide Purge.DueUser;
    Purged(w.db, w.now) by { SoundIntact(w); }
    if link in w.db.links && Pending(w.db.links[link], w.now) {
      LinkLeft(w, link);
      if !StaleUser(w.db, w.db.links[link].user, w.now) {
        var v := Purge.Run(w);
        SameLogInReply(w, link, Login.WithLinks(w, Consume(w.db.links, link, w.now)),
                       Login.WithLinks(v, Consume(v.db.links, link, w.now)), Login.InvalidToken);
      }
    }
  }

  // ---- Typed codes ----

  /** An email logs somebody in: its account is there, enabled and at the address, or nobody disabled is. */
  ghost predicate AccountReady(users: map<Id, User>, row: Link) {
    match row.user
    case Some(v) => v in users && users[v].disabledAt.None? && users[v].email == row.email
    case None => forall u :: u in users && users[u].email == row.email ==> users[u].disabledAt.None?
  }

  /** The code `typed` is the one mailed with link `l` of `flow`, and still works. */
  ghost predicate CodeOpens(w: World, flow: Id, l: Option<Id>, typed: string) {
    && l.Some? && l.value in w.db.links && IsWellFormed(typed)
    && var row := w.db.links[l.value];
    && Pending(row, w.now) && row.failures < MAX_FAILURES_PER_CODE
    && DayTotal(w.db.links, row.email, w.db.next, w.now) < MAX_FAILURES_PER_DAY
    && row.hash == Hmac(flow, typed) && Login.FlowPending(w.db.flows, flow, w.now) && AccountReady(w.db.users, row)
  }

  lemma LogInCompletesIff(w: World, mail: Id, flow: Id, row: Link, stale: Login.LoginReply)
    requires UniqueEmails(w.db.users) && (forall u :: u in w.db.users ==> u < w.db.next) && !stale.Completed?
    ensures Login.LogIn(w, mail, flow, row.user, row.email, stale).1.Completed? <==>
            Login.FlowPending(w.db.flows, flow, w.now) && AccountReady(w.db.users, row)
  {
    hide Login.MarkVerified; hide Login.Recipient; hide AccountReady;
    RecipientIff(w, row);
    var (db, r) := Login.Recipient(w.db, row.user, row.email, w.now);
    assert Login.FlowPending(db.flows, flow, w.now) == Login.FlowPending(w.db.flows, flow, w.now);
  }

  lemma RecipientIff(w: World, row: Link)
    requires UniqueEmails(w.db.users) && forall u :: u in w.db.users ==> u < w.db.next
    ensures var (db, r) := Login.Recipient(w.db, row.user, row.email, w.now);
      && db.flows == w.db.flows
      && (AccountReady(w.db.users, row) <==>
            r.Some? && r.value in db.users && db.users[r.value].disabledAt.None? &&
            db.users[r.value].email == row.email)
  {
    hide Login.FindByEmail;
  }

  /** Only the newest link of a flow counts. */
  lemma CompletesIff(w: World, flow: Id, typed: string)
    requires UniqueEmails(w.db.users) && forall u :: u in w.db.users ==> u < w.db.next
    ensures Login.ConfirmCode(w, flow, typed).reply.Completed? <==>
            CodeOpens(w, flow, Newest(w.db.links, flow, w.db.next), typed)
  {
    hide Login.LogIn; hide IsWellFormed; hide Newest; hide FailuresSince; hide AccountReady; hide Login.FlowPending;
    var m := Newest(w.db.links, flow, w.db.next);
    if m.Some? {
      LogInCompletesIff(Login.WithLinks(w, Consume(w.db.links, m.value, w.now)), m.value, flow, w.db.links[m.value],
                        Login.InvalidCode);
    }
  }

  /** The links not mailed to an account the purge deletes. */
  function Spared(w: World): map<Id, Link> {
    map l | l in w.db.links && !StaleUser(w.db, w.db.links[l].user, w.now) :: w.db.links[l]
  }

  function Survivor(w: World, flow: Id): Option<Id> {
    Newest(Spared(w), flow, w.db.next)
  }

  lemma {:induction false} NewestAgrees(a: map<Id, Link>, b: map<Id, Link>, flow: Id, n: Id)
    requires forall l :: l in a && a[l].scope == flow ==> l in b && b[l] == a[l]
    requires forall l :: l in b && b[l].scope == flow ==> l in a && a[l] == b[l]
    ensures Newest(a, flow, n) == Newest(b, flow, n)
  {
    if n > 0 { NewestAgrees(a, b, flow, n - 1); }
  }

  /** The purge leaves a flow its spared links, or, expired for a day, none. */
  lemma SurvivorIsNewest(w: World, flow: Id)
    requires Sound(w)
    ensures var d := Purge.PurgeDb(w.db, w.now);
      if FlowGoes(w.db, flow, w.now) then Newest(d.links, flow, w.db.next).None?
      else Newest(d.links, flow, w.db.next) == Survivor(w, flow)
  {
    hide Sound; hide Purge.PurgeDb; hide Newest; hide Purge.DueUser; hide Purge.DueFlow;
    LoginRowsLeft(w.db, w.now);
    Purged(w.db, w.now) by { SoundIntact(w); }
    var d := Purge.PurgeDb(w.db, w.now);
    if !FlowGoes(w.db, flow, w.now) { NewestAgrees(d.links, Spared(w), flow, w.db.next); }
  }

  lemma GoneFlowOpensNothing(w: World, flow: Id, l: Option<Id>, typed: string)
    requires Sound(w) && FlowGoes(w.db, flow, w.now)
    ensures !CodeOpens(w, flow, l, typed)
  {
    hide Sound; hide IsWellFormed; hide AccountReady; hide DayTotal;
  }

  /** A spared pending link loses none of the failures that count against it. */
  lemma SameTotal(w: World, link: Id)
    requires Sound(w) && OwnerInv(w) && link in w.db.links && Pending(w.db.links[link], w.now)
    requires !StaleUser(w.db, w.db.links[link].user, w.now)
    ensures var d := Purge.PurgeDb(w.db, w.now); var email := w.db.links[link].email;
      DayTotal(d.links, email, w.db.next, w.now) == DayTotal(w.db.links, email, w.db.next, w.now)
  {
    hide Sound; hide OwnerInv; hide Purge.PurgeDb; hide FailuresSince; hide Pending; hide StaleUser; hide Weight;
    var d := Purge.PurgeDb(w.db, w.now);
    var email, since := w.db.links[link].email, w.now - DAY;
    forall r: Id
      ensures Weight(d.links, email, since, r) == Weight(w.db.links, email, since, r)
    {
      SameWeight(w, link, r);
    }
    SumShrinks(w.db.links, since, d.links, since, email, w.db.next);
    SumShrinks(d.links, since, w.db.links, since, email, w.db.next);
  }

  lemma SameWeight(w: World, link: Id, r: Id)
    requires Sound(w) && OwnerInv(w) && link in w.db.links && Pending(w.db.links[link], w.now)
    requires !StaleUser(w.db, w.db.links[link].user, w.now)
    ensures var email := w.db.links[link].email;
      Weight(Purge.PurgeDb(w.db, w.now).links, email, w.now - DAY, r) == Weight(w.db.links, email, w.now - DAY, r)
  {
    hide Sound; hide OwnerInv; hide Purge.PurgeDb; hide Purge.DueUser;
    LoginRowsLeft(w.db, w.now);
    Purged(w.db, w.now) by { SoundIntact(w); }
    if r in w.db.links && w.db.links[r].key == w.db.links[link].email {
      RowFacts(w, r);
      if StaleUser(w.db, w.db.links[r].user, w.now) { NoStaleHolder(w, link, w.db.links[r].user.value); }
    }
  }

  lemma RowFacts(w: World, r: Id)
    requires Sound(w) && OwnerInv(w) && r in w.db.links
    ensures w.db.links[r].key == w.db.links[r].email && w.db.links[r].createdAt <= w.db.links[r].expiresAt
    ensures w.db.links[r].scope in w.db.flows && w.db.links[r].expiresAt <= w.db.flows[w.db.links[r].scope].expiresAt
    ensures StaleUser(w.db, w.db.links[r].user, w.now) ==>
              w.db.users[w.db.links[r].user.value].email == w.db.links[r].email
  {
    hide Intact; hide AccountInv; hide Chain.ChainInv; hide TokenForest.TokenInv; hide WithinDay; hide ChangesFree;
    hide ChangeRows;
    if StaleUser(w.db, w.db.links[r].user, w.now) {
      assert LinkOwned(w.db.links[r], w.db.links[r].user.value, w.db.users[w.db.links[r].user.value]);
    }
  }

  lemma SameReady(w: World, link: Id)
    requires Sound(w) && OwnerInv(w) && link in w.db.links && Pending(w.db.links[link], w.now)
    requires !StaleUser(w.db, w.db.links[link].user, w.now)
    ensures AccountReady(Purge.PurgeDb(w.db, w.now).users, w.db.links[link]) <==>
            AccountReady(w.db.users, w.db.links[link])
  {
    hide Sound; hide OwnerInv; hide Purge.PurgeDb; hide Purge.DueUser;
    LoginRowsLeft(w.db, w.now);
    Purged(w.db, w.now) by { SoundIntact(w); }
    var row := w.db.links[link];
    forall u | u in w.db.users && w.db.users[u].email == row.email && Stale(w.db, u, w.now)
      ensures false
    {
      NoStaleHolder(w, link, u);
    }
  }

  /** For a spared link, the same conditions before and after. */
  lemma SameOpens(w: World, flow: Id, l: Id, typed: string)
    requires Sound(w) && OwnerInv(w) && !FlowGoes(w.db, flow, w.now)
    requires l in w.db.links && w.db.links[l].scope == flow && !StaleUser(w.db, w.db.links[l].user, w.now)
    ensures CodeOpens(Purge.Run(w), flow, Some(l), typed) <==> CodeOpens(w, flow, Some(l), typed)
  {
    hide Sound; hide OwnerInv; hide Purge.PurgeDb; hide Purge.DueUser; hide Purge.DueFlow; hide DayTotal;
    hide AccountReady;
    hide IsWellFormed;
    LoginRowsLeft(w.db, w.now);
    Purged(w.db, w.now) by { SoundIntact(w); }
    assert l in Purge.Run(w).db.links && Purge.Run(w).db.links[l] == w.db.links[l];
    if Pending(w.db.links[l], w.now) {
      SameTotal(w, l);
      SameReady(w, l);
      LinkLeft(w, l);
    }
  }

  lemma AfterPurgeIff(w: World, flow: Id, typed: string)
    requires Sound(w) && OwnerInv(w)
    ensures Login.ConfirmCode(Purge.Run(w), flow, typed).reply.Completed? <==>
            CodeOpens(w, flow, Survivor(w, flow), typed)
  {
    hide Sound; hide OwnerInv; hide Purge.PurgeDb; hide Login.ConfirmCode; hide CodeOpens; hide Newest; hide FlowGoes;
    hide StaleUser;
    var v := Purge.Run(w);
    SurvivorIsNewest(w, flow);
    assert UniqueEmails(v.db.users) && forall u :: u in v.db.users ==> u < v.db.next by { PurgedUsers(w); }
    CompletesIff(v, flow, typed);
    var l := Survivor(w, flow);
    if FlowGoes(w.db, flow, w.now) {
      GoneFlowOpensNothing(w, flow, l, typed);
      NobodyOpensNothing(v, flow, typed);
    } else if l.Some? {
      SameOpens(w, flow, l.value, typed);
    } else {
      NobodyOpensNothing(v, flow, typed);
      NobodyOpensNothing(w, flow, typed);
    }
  }

  lemma NobodyOpensNothing(w: World, flow: Id, typed: string)
    ensures !CodeOpens(w, flow, None, typed)
  {
  }

  lemma PurgedUsers(w: World)
    requires Sound(w)
    ensures var v := Purge.Run(w); UniqueEmails(v.db.users) && forall u :: u in v.db.users ==> u < v.db.next
  {
    hide Sound; hide Purge.PurgeDb;
    SoundUsers(w);
    Purged(w.db, w.now) by { SoundIntact(w); }
    assert Purge.PurgeDb(w.db, w.now).next == w.db.next;
  }

  // ---- Every run ----

  /** In every run, for every link, code and email change, what a purge changes about the answer: a link
      pending for an account it deletes is gone, and no other link is answered differently; a typed code
      logs in before exactly if it opens the newest link of its flow, and after exactly if it opens the
      newest link not mailed to such an account; an email change is answered as before. */
  lemma PurgeShowsExactly(start: Time, actions: seq<Action>, link: Id, flow: Id, typed: string, change: Id)
    ensures var w := Run(Init(start), actions);
      Login.ConfirmLink(Purge.Run(w), link).reply ==
      if link in w.db.links && Pending(w.db.links[link], w.now) && StaleUser(w.db, w.db.links[link].user, w.now)
      then Login.InvalidToken else Login.ConfirmLink(w, link).reply
    ensures var w := Run(Init(start), actions);
      && (Login.ConfirmCode(w, flow, typed).reply.Completed? <==>
            CodeOpens(w, flow, Newest(w.db.links, flow, w.db.next), typed))
      && (Login.ConfirmCode(Purge.Run(w), flow, typed).reply.Completed? <==>
          CodeOpens(w, flow, Survivor(w, flow), typed))
    ensures var w := Run(Init(start), actions);
      Account.ConfirmChange(Purge.Run(w), change).reply == Account.ConfirmChange(w, change).reply
  {
    hide System.Run; hide Sound; hide OwnerInv; hide Login.ConfirmLink; hide Login.ConfirmCode;
    hide Account.ConfirmChange;
    hide Purge.PurgeDb; hide CodeOpens; hide Pending; hide StaleUser;
    OwnersAlways(start, actions);
    var w := Run(Init(start), actions);
    LinkAfterPurge(w, link);
    SoundUsers(w);
    CompletesIff(w, flow, typed);
    AfterPurgeIff(w, flow, typed);
    ChangeUnchanged(w, change);
  }

  /** The verdict on a typed code is unchanged if the newest link of its flow was not mailed to an account
      the purge deletes. If it was, an accepted code is refused afterwards unless the newest spared link has
      the same code, and a refused one is accepted exactly if it opens that link. */
  lemma CodeVerdictIff(start: Time, actions: seq<Action>, flow: Id, typed: string)
    ensures var w := Run(Init(start), actions);
      var newest := Newest(w.db.links, flow, w.db.next);
      var before := Login.ConfirmCode(w, flow, typed).reply.Completed?;
      var after := Login.ConfirmCode(Purge.Run(w), flow, typed).reply.Completed?;
      if newest.None? || !StaleUser(w.db, w.db.links[newest.value].user, w.now) then after == before
      else after == CodeOpens(w, flow, Survivor(w, flow), typed) && Survivor(w, flow) != newest
  {
    hide System.Run; hide Login.ConfirmCode; hide Purge.PurgeDb; hide CodeOpens; hide Purge.DueUser; hide Newest;
    PurgeShowsExactly(start, actions, 0, flow, typed, 0);
    var w := Run(Init(start), actions);
    SurvivorIs(w, flow);
  }

  lemma SurvivorIs(w: World, flow: Id)
    ensures var newest := Newest(w.db.links, flow, w.db.next);
      if newest.None? || !StaleUser(w.db, w.db.links[newest.value].user, w.now) then Survivor(w, flow) == newest
      else Survivor(w, flow) != newest
  {
    hide Purge.DueUser; hide Newest; hide StaleUser;
    SparedNewest(w, flow, w.db.next);
    var newest := Newest(w.db.links, flow, w.db.next);
    if newest.Some? && StaleUser(w.db, w.db.links[newest.value].user, w.now) {
      var l := Survivor(w, flow);
      assert l.Some? ==> l.value in Spared(w);
    }
  }

  lemma {:induction false} SparedNewest(w: World, flow: Id, n: Id)
    ensures var newest := Newest(w.db.links, flow, n); var spared := Newest(Spared(w), flow, n);
      && (newest.None? ==> spared.None?)
      && (newest.Some? && !StaleUser(w.db, w.db.links[newest.value].user, w.now) ==> spared == newest)
      && (newest.Some? && spared.Some? ==> Spared(w)[spared.value].createdAt <= w.db.links[newest.value].createdAt)
  {
    hide StaleUser;
    if n > 0 { SparedNewest(w, flow, n - 1); }
  }
}
