/** Whose account it is: addresses are unique, and a verified one was shown to be read by its owner. */
module Accounts {
  import opened Base
  import opened Tables
  import opened EmailedCodes
  import Refresh
  import opened Login
  import Account
  import Purge
  import opened References
  import opened FlowBounds
  import opened System

  ghost predicate UniqueEmails(users: map<Id, User>) {
    forall u, v :: u in users && v in users && users[u].email == users[v].email ==> u == v
  }

  ghost predicate Shown(proofs: set<Proof>, user: Id, email: Email, mail: Id) {
    Proof(user, email, mail) in proofs
  }

  /** The current address of a verified account was proved by some mail. */
  ghost predicate Proven(users: map<Id, User>, proofs: set<Proof>) {
    forall u :: u in users && users[u].verifiedAt.Some? ==> exists mail :: Shown(proofs, u, users[u].email, mail)
  }

  /** A mail that proved an address went to exactly that address. */
  ghost predicate ProofsMailed(proofs: set<Proof>, sent: map<Id, Email>) {
    forall p :: p in proofs ==> p.mail in sent && sent[p.mail] == p.email
  }

  ghost predicate RowsMailed(links: map<Id, Link>, changes: map<Id, EmailChange>, sent: map<Id, Email>) {
    && (forall l :: l in links ==> l in sent && sent[l] == links[l].email)
    && (forall c :: c in changes ==> c in sent && sent[c] == changes[c].toEmail)
  }

  ghost predicate SentNumbered(sent: map<Id, Email>, next: Id) {
    forall m :: m in sent ==> m < next
  }

  /** A mail proves one thing once: its row, while it is there, is used up. */
  ghost predicate UsedUp(proofs: set<Proof>, links: map<Id, Link>, changes: map<Id, EmailChange>) {
    && (forall p, q :: p in proofs && q in proofs && p.mail == q.mail ==> p == q)
    && (forall p :: p in proofs && p.mail in links ==> links[p.mail].consumedAt.Some?)
    && (forall p :: p in proofs && p.mail in changes ==> changes[p.mail].consumedAt.Some?)
  }

  /** No id names both a link and an email change. */
  ghost predicate Disjoint(links: map<Id, Link>, changes: map<Id, EmailChange>) {
    forall l :: l in links ==> l !in changes
  }

  /** Codes and sessions belong to verified accounts. */
  ghost predicate HoldersVerified(codes: map<Id, AuthCode>, sessions: map<Id, Session>, users: map<Id, User>) {
    && (forall c :: c in codes ==> codes[c].user in users && users[codes[c].user].verifiedAt.Some?)
    && (forall s :: s in sessions ==> sessions[s].user in users && users[sessions[s].user].verifiedAt.Some?)
  }

  ghost predicate AccountInv(w: World) {
    && UniqueEmails(w.db.users)
    && Proven(w.db.users, w.ledger.proofs)
    && ProofsMailed(w.ledger.proofs, w.ledger.sent)
    && RowsMailed(w.db.links, w.db.changes, w.ledger.sent)
    && SentNumbered(w.ledger.sent, w.db.next)
    && UsedUp(w.ledger.proofs, w.db.links, w.db.changes)
    && Disjoint(w.db.links, w.db.changes)
    && HoldersVerified(w.db.codes, w.db.sessions, w.db.users)
  }

  // ---- Users ----

  /** Accounts go, or keep their address and their verification. */
  ghost predicate UsersStay(before: map<Id, User>, after: map<Id, User>) {
    forall u :: u in after ==>
      u in before && after[u].email == before[u].email && after[u].verifiedAt == before[u].verifiedAt
  }

  lemma StayKeeps(before: map<Id, User>, after: map<Id, User>, proofs: set<Proof>)
    requires UniqueEmails(before) && Proven(before, proofs) && UsersStay(before, after)
    ensures UniqueEmails(after) && Proven(after, proofs)
  {
  }

  lemma ReadyKeeps(before: map<Id, User>, after: map<Id, User>, proofs: set<Proof>, id: Id, email: Email, mail: Id,
                   now: Time, next: Id)
    requires UniqueEmails(before) && Proven(before, proofs) && UserReady(before, after, id, email, now, next)
    requires forall u :: u in before ==> u < next
    ensures UniqueEmails(after) && Proven(after, proofs + {Proof(id, email, mail)})
    ensures StayVerified(before, after)
    ensures id in after && after[id].verifiedAt.Some? && after[id].email == email
  {
    var more := proofs + {Proof(id, email, mail)};
    assert Shown(more, id, email, mail);
    forall u | u in after && after[u].verifiedAt.Some?
      ensures exists m :: Shown(more, u, after[u].email, m)
    {
      if u != id {
        var m :| Shown(proofs, u, before[u].email, m);
        assert Shown(more, u, after[u].email, m);
      }
    }
  }

  ghost predicate StayVerified(before: map<Id, User>, after: map<Id, User>) {
    forall u :: u in before && before[u].verifiedAt.Some? ==> u in after && after[u].verifiedAt.Some?
  }

  lemma HoldersKept(codes: map<Id, AuthCode>, sessions: map<Id, Session>, users: map<Id, User>,
                    codes': map<Id, AuthCode>, users': map<Id, User>)
    requires HoldersVerified(codes, sessions, users) && StayVerified(users, users')
    requires forall c :: c in codes' ==>
               (c in codes && codes'[c].user == codes[c].user) ||
               (codes'[c].user in users' && users'[codes'[c].user].verifiedAt.Some?)
    ensures HoldersVerified(codes', sessions, users')
  {
  }

  // ---- Rows that go or are marked ----

  ghost predicate LinksMarked(before: map<Id, Link>, after: map<Id, Link>) {
    FewerLinks(before, after) &&
    forall l :: l in after && before[l].consumedAt.Some? ==> after[l].consumedAt.Some?
  }

  ghost predicate ChangesMarked(before: map<Id, EmailChange>, after: map<Id, EmailChange>) {
    forall c :: c in after ==> c in before && after[c] == before[c].(consumedAt := after[c].consumedAt) &&
                               (before[c].consumedAt.Some? ==> after[c].consumedAt.Some?)
  }

  lemma MarkKeepsMail(links: map<Id, Link>, changes: map<Id, EmailChange>, links': map<Id, Link>,
                      changes': map<Id, EmailChange>, sent: map<Id, Email>, proofs: set<Proof>)
    requires RowsMailed(links, changes, sent) && UsedUp(proofs, links, changes)
    requires LinksMarked(links, links') && ChangesMarked(changes, changes')
    ensures RowsMailed(links', changes', sent) && UsedUp(proofs, links', changes')
  {
  }

  lemma ProofAdded(links: map<Id, Link>, changes: map<Id, EmailChange>, links': map<Id, Link>,
                   changes': map<Id, EmailChange>, sent: map<Id, Email>, proofs: set<Proof>, p: Proof)
    requires RowsMailed(links, changes, sent) && UsedUp(proofs, links, changes) && ProofsMailed(proofs, sent)
    requires LinksMarked(links, links') && ChangesMarked(changes, changes') && p.mail in sent && sent[p.mail] == p.email
    requires (p.mail in links && links[p.mail].consumedAt.None?) ||
             (p.mail in changes && changes[p.mail].consumedAt.None?)
    requires (p.mail in links' ==> links'[p.mail].consumedAt.Some?)
    requires (p.mail in changes' ==> changes'[p.mail].consumedAt.Some?)
    ensures RowsMailed(links', changes', sent) && UsedUp(proofs + {p}, links', changes')
    ensures ProofsMailed(proofs + {p}, sent)
  {
    MarkKeepsMail(links, changes, links', changes', sent, proofs);
  }

  // ---- Steps ----

  lemma UsedKeeps(w: World, v: World, link: Id, id: Id, code: Id)
    requires Intact(w.db) && AccountInv(w) && LinkUsed(w, v, link, id, code) && LoginFrame(w, v)
    ensures AccountInv(v)
  {
    hide Intact; hide UniqueEmails; hide Proven; hide ProofsMailed; hide UsedUp; hide UserReady; hide HoldersVerified;
    hide StayVerified;
    var row := w.db.links[link];
    IntactUsers(w.db);
    ReadyKeeps(w.db.users, v.db.users, w.ledger.proofs, id, row.email, link, w.now, w.db.next);
    ProofAdded(w.db.links, w.db.changes, v.db.links, v.db.changes, w.ledger.sent, w.ledger.proofs,
               Proof(id, row.email, link));
    HoldersKept(w.db.codes, w.db.sessions, w.db.users, v.db.codes, v.db.users);
  }

  lemma GuessKeeps(w: World, v: World, flow: Id, link: Id)
    requires AccountInv(w) && LinkGuessed(w, v, flow, link)
    ensures AccountInv(v)
  {
    hide LinkCandidate; hide UniqueEmails; hide Proven; hide ProofsMailed; hide UsedUp; hide HoldersVerified;
    CandidateIsPending(w.db.links, flow, w.now, w.db.next);
    MarkKeepsMail(w.db.links, w.db.changes, v.db.links, v.db.changes, w.ledger.sent, w.ledger.proofs);
  }

  lemma ConfirmKeeps(w: World, a: Action)
    requires Intact(w.db) && AccountInv(w) && (a.ConfirmLink? || a.ConfirmCode?)
    ensures AccountInv(Apply(w, a))
  {
    hide AccountInv; hide LinkUsed; hide LinkGuessed; hide Login.ConfirmLink; hide Login.ConfirmCode; hide Intact;
    hide LoginFrame; hide LinkCandidate;
    IntactUsers(w.db);
    match a
    case ConfirmLink(link) =>
      var id := ConfirmLinkCases(w, link);
      var out := Login.ConfirmLink(w, link);
      if out.reply.Completed? { UsedKeeps(w, out.world, link, id, out.reply.code); }
    case ConfirmCode(flow, typed) =>
      var link, id := ConfirmCodeCases(w, flow, typed);
      var out := Login.ConfirmCode(w, flow, typed);
      if out.reply.Completed? { UsedKeeps(w, out.world, link, id, out.reply.code); }
      else if out.world != w { GuessKeeps(w, out.world, flow, link); }
  }

  /** A mail goes out, perhaps with a new row for it. */
  lemma MailSent(w: World, v: World, email: Email)
    requires Intact(w.db) && AccountInv(w)
    requires v.ledger == w.ledger.(sent := w.ledger.sent[w.db.next := email],
                                   confirmationGuesses := v.ledger.confirmationGuesses)
    requires v.db == w.db.(flows := v.db.flows, links := v.db.links, changes := v.db.changes,
                           confirmations := v.db.confirmations, next := w.db.next + 1)
    requires v.db.links == w.db.links || v.db.changes == w.db.changes
    requires w.db.next in v.db.links ==> v.db.links[w.db.next].email == email
    requires w.db.next in v.db.changes ==> v.db.changes[w.db.next].toEmail == email
    requires forall l :: l in v.db.links && l != w.db.next ==> l in w.db.links && v.db.links[l] == w.db.links[l]
    requires forall c :: c in v.db.changes && c != w.db.next ==> c in w.db.changes && v.db.changes[c] == w.db.changes[c]
    ensures AccountInv(v)
  {
    hide UniqueEmails; hide Proven; hide HoldersVerified; hide LinkRefs; hide CodeRefs; hide SessionRefs;
    hide ChangeRefs;
    hide ConfirmationRefs; hide UsedUp;
    MailKeepsRows(w.db.links, w.db.changes, v.db.links, v.db.changes, w.db.next, w.ledger.proofs, w.ledger.sent);
  }

  lemma MailKeepsRows(links: map<Id, Link>, changes: map<Id, EmailChange>, links': map<Id, Link>,
                      changes': map<Id, EmailChange>, next: Id, proofs: set<Proof>, sent: map<Id, Email>)
    requires UsedUp(proofs, links, changes) && ProofsMailed(proofs, sent) && SentNumbered(sent, next)
    requires forall l :: l in links' && l != next ==> l in links && links'[l] == links[l]
    requires forall c :: c in changes' && c != next ==> c in changes && changes'[c] == changes[c]
    ensures UsedUp(proofs, links', changes')
  {
  }

  lemma RequestKeeps(w: World, flow: Id, email: Email, signup: Option<bool>, plain: string)
    requires Intact(w.db) && AccountInv(w)
    ensures AccountInv(Login.RequestLink(w, flow, email, signup, plain).world)
  {
    hide Login.RequestLink; hide Intact; hide UniqueEmails; hide Proven; hide HoldersVerified; hide UsedUp;
    hide ProofsMailed; hide RowsMailed; hide Disjoint; hide SentNumbered;
    var user := RequestCases(w, flow, email, signup, plain);
    var v := Login.RequestLink(w, flow, email, signup, plain).world;
    if v.db.next != w.db.next { LinkIds(w.db); MailSent(w, v, email); }
  }

  lemma LinkIds(db: Db)
    requires Intact(db)
    ensures db.next !in db.links && db.next !in db.changes
  {
  }

  lemma ChangeEmailKeeps(w: World, sid: Id, typed: string, email: Email)
    requires Intact(w.db) && AccountInv(w)
    ensures AccountInv(Account.ChangeEmail(w, sid, typed, email).world)
  {
    hide Account.CheckCode; hide FindByEmail; hide Refresh.FindAuthenticated; hide Intact; hide UniqueEmails;
    hide Proven;
    hide HoldersVerified; hide UsedUp; hide ProofsMailed; hide RowsMailed; hide Disjoint; hide SentNumbered;
    var v := Account.ChangeEmail(w, sid, typed, email).world;
    if v.db.next != w.db.next { LinkIds(w.db); MailSent(w, v, email); }
  }

  lemma AskKeeps(w: World, sid: Id, action: ConfirmationAction, plain: string)
    requires Intact(w.db) && AccountInv(w)
    ensures AccountInv(Account.RequestConfirmation(w, sid, action, plain))
  {
    hide Refresh.FindAuthenticated; hide Intact; hide AccountInv;
    var v := Account.RequestConfirmation(w, sid, action, plain);
    if v != w { LinkIds(w.db); MailSent(w, v, v.ledger.sent[w.db.next]); }
  }

  lemma ConfirmChangeKeeps(w: World, change: Id)
    requires Intact(w.db) && AccountInv(w)
    ensures AccountInv(Account.ConfirmChange(w, change).world)
  {
    hide Intact; hide ProofsMailed; hide UsedUp; hide UniqueEmails; hide Proven; hide HoldersVerified;
    hide StayVerified;
    var out := Account.ConfirmChange(w, change);
    if out.reply.Changed? {
      var row := w.db.changes[change];
      MovedKeeps(w.db.users, out.world.db.users, w.ledger.proofs, row.user, row.toEmail, change, w.now);
      ProofAdded(w.db.links, w.db.changes, out.world.db.links, out.world.db.changes, w.ledger.sent, w.ledger.proofs,
                 Proof(row.user, row.toEmail, change));
      HoldersKept(w.db.codes, w.db.sessions, w.db.users, out.world.db.codes, out.world.db.users);
    }
  }

  lemma MovedKeeps(before: map<Id, User>, after: map<Id, User>, proofs: set<Proof>, id: Id, email: Email, mail: Id,
                   now: Time)
    requires UniqueEmails(before) && Proven(before, proofs) && id in before
    requires forall u :: u in before && u != id ==> before[u].email != email
    requires after == before[id := before[id].(email := email, verifiedAt := Some(now))]
    ensures UniqueEmails(after) && Proven(after, proofs + {Proof(id, email, mail)}) && StayVerified(before, after)
  {
    var more := proofs + {Proof(id, email, mail)};
    assert Shown(more, id, email, mail);
    forall u | u in after && after[u].verifiedAt.Some?
      ensures exists m :: Shown(more, u, after[u].email, m)
    {
      if u != id {
        var m :| Shown(proofs, u, before[u].email, m);
        assert Shown(more, u, after[u].email, m);
      }
    }
  }

  lemma ImportKeeps(w: World, email: Email)
    requires Intact(w.db) && AccountInv(w)
    ensures AccountInv(Account.Import(w, email))
  {
    hide ProofsMailed; hide RowsMailed; hide UsedUp; hide FindByEmail; hide HoldersVerified; hide Intact; hide Disjoint;
    IntactUsers(w.db);
    HoldersKept(w.db.codes, w.db.sessions, w.db.users, w.db.codes, Account.Import(w, email).db.users);
  }

  lemma DisableKeeps(w: World, user: Id, disabled: bool)
    requires AccountInv(w)
    ensures AccountInv(Account.SetDisabled(w, user, disabled))
  {
    hide ProofsMailed; hide RowsMailed; hide UsedUp; hide HoldersVerified; hide UniqueEmails; hide Proven;
    hide Account.SetDisabled; hide UsersStay; hide StayVerified;
    var v := Account.SetDisabled(w, user, disabled);
    DisabledUsers(w, user, disabled);
    StayKeeps(w.db.users, v.db.users, w.ledger.proofs);
    HoldersKept(w.db.codes, w.db.sessions, w.db.users, w.db.codes, v.db.users);
  }

  lemma DisabledUsers(w: World, user: Id, disabled: bool)
    ensures var users := Account.SetDisabled(w, user, disabled).db.users;
      UsersStay(w.db.users, users) && StayVerified(w.db.users, users)
  {
    if user in w.db.users {
      assert Account.SetDisabled(w, user, disabled).db.users ==
        w.db.users[user := w.db.users[user].(disabledAt := if disabled then Some(w.now) else None)];
    }
  }

  lemma ExchangeKeeps(w: World, a: Action)
    requires AccountInv(w) && a.Exchange?
    ensures AccountInv(Apply(w, a))
  {
    hide Login.Exchange; hide PkceMatches; hide RejectCode; hide UniqueEmails; hide Proven; hide ProofsMailed;
    hide RowsMailed; hide UsedUp;
    ExchangeCases(w, a.known, a.client, a.code, a.redirectUri, a.verifier, a.canSign);
    RejectEnds(w, a.code);
  }

  /** Nothing is added and only sessions end. */
  lemma SmallerKeeps(w: World, v: World)
    requires AccountInv(w) && Intact(v.db) && w.db.next <= v.db.next
    requires v.ledger.sent == w.ledger.sent && v.ledger.proofs == w.ledger.proofs
    requires Within(v.db.users, w.db.users) && Within(v.db.links, w.db.links) && Within(v.db.changes, w.db.changes)
    requires Within(v.db.codes, w.db.codes)
    requires forall s :: s in v.db.sessions ==> s in w.db.sessions && v.db.sessions[s].user == w.db.sessions[s].user
    ensures AccountInv(v)
  {
    hide UniqueEmails; hide Proven; hide ProofsMailed; hide RowsMailed; hide UsedUp; hide ConfirmationRefs;
    hide LinkRefs;
    StayKeeps(w.db.users, v.db.users, w.ledger.proofs);
    MarkKeepsMail(w.db.links, w.db.changes, v.db.links, v.db.changes, w.ledger.sent, w.ledger.proofs);
  }

  lemma OthersShrink(w: World, a: Action)
    requires Intact(w.db)
    requires a.CreateFlow? || a.RefreshGrant? || a.Logout? || a.RevokeOwnSession? || a.DeleteAccount? ||
             a.RunPurge? || a.Tick?
    ensures var v := Apply(w, a);
      && Within(v.db.users, w.db.users) && Within(v.db.links, w.db.links) && Within(v.db.changes, w.db.changes)
      && Within(v.db.codes, w.db.codes)
      && forall s :: s in v.db.sessions ==> s in w.db.sessions && v.db.sessions[s].user == w.db.sessions[s].user
  {
    hide Apply; hide Intact;
    Frame(w, a);
    if a.RefreshGrant? || a.Logout? || a.RevokeOwnSession? { RevokeEnds(w, a); }
    else if a.DeleteAccount? || a.RunPurge? { DeletionsShrink(w, a); }
  }

  lemma DeletionsShrink(w: World, a: Action)
    requires Intact(w.db) && (a.DeleteAccount? || a.RunPurge?)
    ensures var v := Apply(w, a);
      && Within(v.db.users, w.db.users) && Within(v.db.links, w.db.links) && Within(v.db.changes, w.db.changes)
      && Within(v.db.codes, w.db.codes)
      && forall s :: s in v.db.sessions ==> s in w.db.sessions && v.db.sessions[s].user == w.db.sessions[s].user
  {
    hide Purge.PurgeDb; hide Intact; hide Account.CheckCode;
    match a
    case RunPurge => PurgeKeeps(w.db, w.now);
    case DeleteAccount(_, _) =>
  }

  lemma StepKeeps(w: World, a: Action)
    requires Intact(w.db) && AccountInv(w)
    ensures AccountInv(Apply(w, a))
  {
    hide Intact; hide AccountInv; hide Login.RequestLink; hide Account.ChangeEmail; hide Account.RequestConfirmation;
    hide Account.ConfirmChange; hide Account.Import; hide Account.SetDisabled;
    match a {
      case ConfirmLink(_) => ConfirmKeeps(w, a);
      case ConfirmCode(_, _) => ConfirmKeeps(w, a);
      case RequestLink(flow, email, signup, plain) => RequestKeeps(w, flow, email, signup, plain);
      case RequestConfirmation(sid, action, plain) => AskKeeps(w, sid, action, plain);
      case ChangeEmail(sid, typed, email) => ChangeEmailKeeps(w, sid, typed, email);
      case ConfirmChange(change) => ConfirmChangeKeeps(w, change);
      case ImportUser(email) => ImportKeeps(w, email);
      case SetDisabled(user, disabled) => DisableKeeps(w, user, disabled);
      case Exchange(_, _, _, _, _, _) => ExchangeKeeps(w, a);
      case _ => OtherKeeps(w, a);
    }
  }

  lemma OtherKeeps(w: World, a: Action)
    requires Intact(w.db) && AccountInv(w)
    requires a.CreateFlow? || a.RefreshGrant? || a.Logout? || a.RevokeOwnSession? || a.DeleteAccount? ||
             a.RunPurge? || a.Tick?
    ensures AccountInv(Apply(w, a))
  {
    hide Intact; hide AccountInv; hide Apply;
    Frame(w, a);
    References.StepKeeps(w, a);
    OthersShrink(w, a);
    SmallerKeeps(w, Apply(w, a));
  }
}
