/** Whom a mail was for: a link names the unverified account that used its address, and no unverified
    account older than a pending change holds the address the change asks for. */
module Owners {
  import opened Base
  import opened Tables
  import opened EmailedCodes
  import Refresh
  import opened Login
  import Account
  import opened References
  import opened FlowBounds
  import opened Accounts
  import CodeBudgets
  import Chain
  import TokenForest
  import opened Soundness
  import opened System

  /** An unverified account never changes address. */
  predicate LinkOwned(link: Link, u: Id, user: User) {
    && (link.user == Some(u) ==> user.email == link.email)
    && (user.email == link.email && user.createdAt < link.createdAt ==> link.user == Some(u))
  }

  predicate ChangeFree(change: EmailChange, user: User) {
    user.email == change.toEmail ==> change.createdAt <= user.createdAt
  }

  ghost predicate LinksOwned(links: map<Id, Link>, users: map<Id, User>) {
    forall l, u :: l in links && u in users && users[u].verifiedAt.None? ==> LinkOwned(links[l], u, users[u])
  }

  ghost predicate ChangesFree(changes: map<Id, EmailChange>, users: map<Id, User>) {
    forall c, u :: c in changes && u in users && users[u].verifiedAt.None? ==> ChangeFree(changes[c], users[u])
  }

  /** A change was asked for by a verified account, an hour ago at most while it works. */
  ghost predicate ChangeRows(changes: map<Id, EmailChange>, users: map<Id, User>, now: Time) {
    forall c :: c in changes ==>
      changes[c].user in users && users[changes[c].user].verifiedAt.Some? &&
      changes[c].expiresAt == changes[c].createdAt + EMAIL_CHANGE_TTL && changes[c].createdAt <= now
  }

  ghost predicate LinkDates(links: map<Id, Link>, now: Time) {
    forall l :: l in links ==> links[l].createdAt <= now
  }

  ghost predicate OwnerInv(w: World) {
    LinksOwned(w.db.links, w.db.users) && ChangesFree(w.db.changes, w.db.users) &&
    ChangeRows(w.db.changes, w.db.users, w.now) && LinkDates(w.db.links, w.now)
  }

  // ---- What steps do to users, links and changes ----

  /** An unverified account was there with the same address, or was created just now. */
  ghost predicate UsersGo(before: map<Id, User>, after: map<Id, User>, now: Time) {
    forall u :: u in after && after[u].verifiedAt.None? ==>
      if u in before
      then before[u].verifiedAt.None? && after[u].email == before[u].email && after[u].createdAt == before[u].createdAt
      else after[u].createdAt == now
  }

  predicate SameMail(x: Link, y: Link) {
    y.user == x.user && y.email == x.email && y.createdAt == x.createdAt
  }

  /** A link was there, or was just mailed to whoever uses its address. */
  ghost predicate LinksGo(before: map<Id, Link>, after: map<Id, Link>, users: map<Id, User>, now: Time) {
    forall l :: l in after ==>
      if l in before then SameMail(before[l], after[l])
      else after[l].createdAt == now &&
           forall u :: u in users ==> (after[l].user == Some(u) <==> users[u].email == after[l].email)
  }

  ghost predicate ChangesGo(before: map<Id, EmailChange>, after: map<Id, EmailChange>, users: map<Id, User>,
                            now: Time) {
    forall c :: c in after ==>
      (c in before && after[c] == before[c].(consumedAt := after[c].consumedAt)) ||
      (after[c].createdAt == now && after[c].expiresAt == now + EMAIL_CHANGE_TTL &&
       after[c].user in users && users[after[c].user].verifiedAt.Some? &&
       forall u :: u in users ==> users[u].email != after[c].toEmail)
  }

  lemma LinksKept(w: World, v: World)
    requires Intact(w.db) && Intact(v.db) && LinksOwned(w.db.links, w.db.users) && LinkDates(w.db.links, w.now)
    requires UsersGo(w.db.users, v.db.users, v.now) && LinksGo(w.db.links, v.db.links, w.db.users, v.now)
    requires w.now <= v.now
    requires v.db.links == w.db.links || v.db.users == w.db.users || forall l :: l in v.db.links ==> l in w.db.links
    ensures LinksOwned(v.db.links, v.db.users) && LinkDates(v.db.links, v.now)
  {
    hide CodeRefs; hide SessionRefs; hide ChangeRefs; hide ConfirmationRefs; hide Numbered;
    forall l, u | l in v.db.links && u in v.db.users && v.db.users[u].verifiedAt.None?
      ensures LinkOwned(v.db.links[l], u, v.db.users[u])
    {
      if l in w.db.links && u in w.db.users && SameMail(w.db.links[l], v.db.links[l]) {
        assert LinkOwned(w.db.links[l], u, w.db.users[u]);
      }
    }
  }

  lemma ChangesKept(w: World, v: World)
    requires ChangesFree(w.db.changes, w.db.users) && ChangeRows(w.db.changes, w.db.users, w.now)
    requires ChangeRefs(v.db.changes, v.db.users.Keys)
    requires UsersGo(w.db.users, v.db.users, v.now) && ChangesGo(w.db.changes, v.db.changes, w.db.users, v.now)
    requires w.now <= v.now
    requires forall u :: u in w.db.users && w.db.users[u].verifiedAt.Some? && u in v.db.users ==>
               v.db.users[u].verifiedAt.Some?
    ensures ChangesFree(v.db.changes, v.db.users) && ChangeRows(v.db.changes, v.db.users, v.now)
  {
    forall c, u | c in v.db.changes && u in v.db.users && v.db.users[u].verifiedAt.None?
      ensures ChangeFree(v.db.changes[c], v.db.users[u])
    {
      if c in w.db.changes && u in w.db.users { assert ChangeFree(w.db.changes[c], w.db.users[u]); }
    }
  }

  // ---- Steps ----

  lemma ConfirmGoes(w: World, a: Action)
    requires Intact(w.db) && (a.ConfirmLink? || a.ConfirmCode?)
    ensures var v := Apply(w, a);
      UsersGo(w.db.users, v.db.users, w.now) && LinksGo(w.db.links, v.db.links, w.db.users, w.now) &&
      StayVerified(w.db.users, v.db.users) && v.db.links.Keys == w.db.links.Keys
  {
    hide Intact; hide Login.ConfirmLink; hide Login.ConfirmCode; hide LinkCandidate; hide Pending; hide LoginFrame;
    IntactUsers(w.db);
    match a
    case ConfirmLink(link) =>
      var id := ConfirmLinkCases(w, link);
      var out := Login.ConfirmLink(w, link);
      if out.reply.Completed? { UsedGoes(w, out.world, link, id, out.reply.code); }
    case ConfirmCode(flow, typed) =>
      var link, id := ConfirmCodeCases(w, flow, typed);
      var out := Login.ConfirmCode(w, flow, typed);
      if out.reply.Completed? { UsedGoes(w, out.world, link, id, out.reply.code); }
  }

  lemma UsedGoes(w: World, v: World, link: Id, id: Id, code: Id)
    requires LinkUsed(w, v, link, id, code)
    ensures UsersGo(w.db.users, v.db.users, w.now) && LinksGo(w.db.links, v.db.links, w.db.users, w.now) &&
            StayVerified(w.db.users, v.db.users) && v.db.links.Keys == w.db.links.Keys
  {
    hide Pending;
  }

  lemma RequestGoes(w: World, a: Action)
    requires Intact(w.db) && UniqueEmails(w.db.users) && a.RequestLink?
    ensures LinksGo(w.db.links, Apply(w, a).db.links, w.db.users, w.now)
  {
    hide Intact; hide FindByEmail; hide Login.RequestLink;
    IntactUsers(w.db);
    LinkIds(w.db);
    var user := RequestCases(w, a.flow, a.email, a.signup, a.plain);
    assert Login.RequestLink(w, a.flow, a.email, a.signup, a.plain).reply.Accepted? ==>
           user == FindByEmail(w.db.users, a.email, w.db.next);
    user := FindByEmail(w.db.users, a.email, w.db.next);
    assert forall u :: u in w.db.users ==> (user == Some(u) <==> w.db.users[u].email == a.email);
  }

  lemma ChangeGoes(w: World, a: Action)
    requires Intact(w.db) && HoldersVerified(w.db.codes, w.db.sessions, w.db.users) && a.ChangeEmail?
    ensures ChangesGo(w.db.changes, Apply(w, a).db.changes, w.db.users, w.now)
  {
    hide Intact; hide FindByEmail; hide Account.ChangeEmail; hide HoldersVerified; hide Refresh.FindAuthenticated;
    var sid, typed, email := a.changeSession, a.changeCode, a.newEmail;
    IntactUsers(w.db);
    var found := FindByEmail(w.db.users, email, w.db.next);
    assert found.None? ==> forall u :: u in w.db.users ==> w.db.users[u].email != email;
    CallerVerified(w, sid);
    Account.ChangeEmailCases(w, sid, typed, email);
  }

  lemma CallerVerified(w: World, sid: Id)
    requires HoldersVerified(w.db.codes, w.db.sessions, w.db.users)
    ensures var user := Refresh.FindAuthenticated(w.db, sid, w.now);
      user.Some? ==> user.value in w.db.users && w.db.users[user.value].verifiedAt.Some?
  {
  }

  lemma MoveGoes(w: World, change: Id)
    ensures var v := Account.ConfirmChange(w, change).world;
      && UsersGo(w.db.users, v.db.users, w.now) && StayVerified(w.db.users, v.db.users)
      && ChangesGo(w.db.changes, v.db.changes, w.db.users, w.now)
  {
    hide Account.ConfirmChange;
    Account.ConfirmChangeCases(w, change);
  }

  lemma ImportGoes(w: World, email: Email)
    requires forall u :: u in w.db.users ==> u < w.db.next
    ensures UsersGo(w.db.users, Account.Import(w, email).db.users, w.now)
    ensures StayVerified(w.db.users, Account.Import(w, email).db.users)
  {
    hide FindByEmail;
  }

  lemma DisableGoes(w: World, user: Id, disabled: bool)
    ensures var users := Account.SetDisabled(w, user, disabled).db.users;
      UsersGo(w.db.users, users, w.now) && StayVerified(w.db.users, users)
  {
    if user in w.db.users {
      assert Account.SetDisabled(w, user, disabled).db.users ==
        w.db.users[user := w.db.users[user].(disabledAt := if disabled then Some(w.now) else None)];
    }
  }

  lemma AccountsGo(w: World, a: Action)
    requires a.ConfirmChange? || a.ImportUser? || a.SetDisabled?
    requires forall u :: u in w.db.users ==> u < w.db.next
    ensures var v := Apply(w, a);
      && UsersGo(w.db.users, v.db.users, w.now) && StayVerified(w.db.users, v.db.users)
      && ChangesGo(w.db.changes, v.db.changes, w.db.users, w.now)
  {
    hide Account.ConfirmChange; hide Account.Import; hide Account.SetDisabled; hide UsersGo; hide StayVerified;
    match a
    case ConfirmChange(change) => MoveGoes(w, change);
    case ImportUser(email) => ImportGoes(w, email);
    case SetDisabled(user, disabled) => DisableGoes(w, user, disabled);
  }

  lemma StepGoes(w: World, a: Action)
    requires Intact(w.db) && AccountInv(w)
    ensures var v := Apply(w, a);
      && UsersGo(w.db.users, v.db.users, v.now) && LinksGo(w.db.links, v.db.links, w.db.users, v.now)
      && ChangesGo(w.db.changes, v.db.changes, w.db.users, v.now)
      && (v.db.links == w.db.links || v.db.users == w.db.users || v.db.links.Keys <= w.db.links.Keys)
      && (forall u :: u in w.db.users && w.db.users[u].verifiedAt.Some? && u in v.db.users ==>
            v.db.users[u].verifiedAt.Some?)
  {
    hide Apply; hide Intact; hide Proven; hide ProofsMailed; hide RowsMailed; hide UsedUp;
    Frame(w, a);
    if a.ConfirmLink? || a.ConfirmCode? { ConfirmGoes(w, a); }
    else if a.RequestLink? { RequestGoes(w, a); }
    else if a.ChangeEmail? { ChangeGoes(w, a); }
    else if a.ConfirmChange? || a.ImportUser? || a.SetDisabled? { IntactUsers(w.db); AccountsGo(w, a); }
    else if a.DeleteAccount? || a.RunPurge? { DeletionsShrink(w, a); }
  }

  lemma StepKeepsOwners(w: World, a: Action)
    requires Sound(w) && OwnerInv(w)
    ensures OwnerInv(Apply(w, a))
  {
    hide Apply; hide FlowInv; hide CodeBudgets.CodeInv; hide Chain.ChainInv; hide TokenForest.TokenInv; hide AccountInv;
    hide LinksGo; hide ChangesGo; hide UsersGo; hide LinksOwned; hide ChangesFree; hide ChangeRows; hide LinkDates;
    var v := Apply(w, a);
    StepGoes(w, a);
    Frame(w, a);
    References.StepKeeps(w, a);
    LinksKept(w, v);
    ChangesKept(w, v);
  }

  lemma {:induction false} RunKeepsOwners(w: World, actions: seq<Action>)
    requires Sound(w) && OwnerInv(w)
    ensures OwnerInv(Run(w, actions))
    decreases |actions|
  {
    hide Sound; hide Apply; hide OwnerInv;
    if actions != [] {
      StepKeepsOwners(w, actions[0]);
      Soundness.StepKeeps(w, actions[0]);
      RunKeepsOwners(Apply(w, actions[0]), actions[1..]);
    }
  }

  lemma OwnersAlways(start: Time, actions: seq<Action>)
    ensures Sound(Run(Init(start), actions)) && OwnerInv(Run(Init(start), actions))
  {
    hide Run; hide Sound;
    Always(start, actions);
    SoundAtFirst(start);
    RunKeepsOwners(Init(start), actions);
  }
}
