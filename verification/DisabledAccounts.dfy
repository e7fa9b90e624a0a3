/** What a refresh answers, and what disabling an account is for: nothing is issued to it any more, by any of its
    sessions, for as long as it stays disabled. */
module DisabledAccounts {
  import opened Base
  import opened Tables
  import opened Refresh
  import Login
  import Account
  import opened References
  import FlowBounds
  import CodeBudgets
  import Accounts
  import opened Chain
  import TokenForest
  import opened Soundness
  import opened System
  import Guarantees

  // ---- The answers ----

  /** Replaced by a retry of its parent, or back more than 30 seconds after its rotation when some successor of
      it was used. */
  predicate IsReuse(tokens: map<Id, Token>, t: Id, now: Time)
    requires t in tokens
  {
    tokens[t].supersededAt.Some? ||
    (tokens[t].rotatedAt.Some? && 30 * SECOND < now - tokens[t].rotatedAt.value &&
     exists c | c in tokens :: tokens[c].parent == Some(t) && tokens[c].rotatedAt.Some?)
  }

  lemma ReuseIsStolen(tokens: map<Id, Token>, t: Id, now: Time)
    requires t in tokens
    ensures Classify(tokens, t, now).Stolen? <==> IsReuse(tokens, t, now)
  {
    if c :| c in tokens && tokens[c].parent == Some(t) && tokens[c].rotatedAt.Some? { assert ChildOf(tokens, c, t); }
  }

  /** An access token that names its account, session and client, dated to the second, good for 15 minutes. */
  predicate ForFifteenMinutes(x: AccessToken, user: Id, session: Id, client: ClientId, now: Time) {
    x.user == user && x.session == session && x.client == client &&
    x.issuedAt % SECOND == 0 && x.issuedAt <= now < x.issuedAt + SECOND && x.expiresAt == x.issuedAt + 15 * MINUTE
  }

  lemma IssuedFor(user: Id, session: Id, client: ClientId, now: Time)
    ensures ForFifteenMinutes(IssueAccess(user, session, client, now), user, session, client, now)
  {
  }

  /** Each answer to a token of this client, and when a session ends by it: in a session that is neither revoked
      nor over, reuse ends it, and so does a disabled or deleted account; anything else is served if a key can
      sign. */
  lemma RefreshAnswers(w: World, client: ClientId, t: Id, canSign: bool)
    requires t in w.db.tokens && w.db.tokens[t].session in w.db.sessions
    requires w.db.sessions[w.db.tokens[t].session].client == client
    ensures var s := w.db.tokens[t].session; var row := w.db.sessions[s];
      var out := Grant(w, true, client, t, canSign);
      var open := row.revokedAt.None? && w.now < row.expiresAt;
      var reuse := IsReuse(w.db.tokens, t, w.now);
      var served := row.user in w.db.users && w.db.users[row.user].disabledAt.None?;
      && (out.reply.SessionOver? <==> !open)
      && (out.reply.Reused? <==> open && reuse)
      && (out.reply.AccountDisabled? <==> open && !reuse && !served)
      && (out.reply.NoSigningKey? <==> open && !reuse && served && !canSign)
      && (out.reply.Issued? <==> open && !reuse && served && canSign)
      && (out.reply.Issued? ==> ForFifteenMinutes(out.reply.access, row.user, s, client, w.now))
      && s in out.world.db.sessions
      && out.world.db.sessions[s] ==
           (if out.reply.Reused? || out.reply.AccountDisabled? then row.(revokedAt := Some(w.now)) else row)
  {
    hide Present; hide Classify; hide IssueAccess;
    ReuseIsStolen(w.db.tokens, t, w.now);
    IssuedFor(w.db.sessions[w.db.tokens[t].session].user, w.db.tokens[t].session, client, w.now);
  }

  /** And who is turned away before that. */
  lemma RefreshStrangers(w: World, known: bool, client: ClientId, t: Id, canSign: bool)
    ensures var out := Grant(w, known, client, t, canSign);
      var found := t in w.db.tokens && w.db.tokens[t].session in w.db.sessions;
      && (out.reply.InvalidClient? <==> !known)
      && (out.reply.UnknownToken? <==> known && !found)
      && (out.reply.OtherClient? <==> known && found && w.db.sessions[w.db.tokens[t].session].client != client)
      && (!known || !found || w.db.sessions[w.db.tokens[t].session].client != client ==> out.world == w)
  {
    hide Present; hide Classify;
  }

  // ---- A disabled account ----

  /** The account is disabled, or deleted: no account will ever have this identifier again. */
  predicate Shut(w: World, u: Id) {
    u < w.db.next && (u in w.db.users ==> w.db.users[u].disabledAt.Some?)
  }

  /** The account a session was opened for, from the record. */
  predicate Owns(ledger: Ledger, u: Id, s: Id) {
    s in ledger.openings && ledger.openings[s].code in ledger.completions &&
    ledger.completions[ledger.openings[s].code].user == u
  }

  /** Nothing was issued for an account on the way from `w` to `v`. */
  ghost predicate NothingFor(w: World, v: World, u: Id) {
    && (forall x :: x in v.ledger.access && x.user == u ==> x in w.ledger.access)
    && (forall t :: t in v.ledger.issues && Owns(v.ledger, u, v.ledger.issues[t].session) ==>
          t in w.ledger.issues && w.ledger.issues[t] == v.ledger.issues[t])
  }

  /** Every issue was for a session somebody opened. */
  ghost predicate IssuesOwned(ledger: Ledger) {
    forall t :: t in ledger.issues ==>
      ledger.issues[t].session in ledger.openings &&
      ledger.openings[ledger.issues[t].session].code in ledger.completions
  }

  ghost predicate RecordGrows(w: World, v: World) {
    Guarantees.Grows(w.ledger.openings, v.ledger.openings) &&
    Guarantees.Grows(w.ledger.completions, v.ledger.completions)
  }

  /** A step issues for one session at most, of an account that is there and enabled. */
  ghost predicate IssuedTo(w: World, v: World, u: Id, s: Id, t: Id) {
    && u in w.db.users && w.db.users[u].disabledAt.None? && Owns(v.ledger, u, s)
    && (forall x :: x in v.ledger.access ==> x in w.ledger.access || x.user == u)
    && (forall i :: i in v.ledger.issues ==>
          if i == t then v.ledger.issues[i].session == s
          else i in w.ledger.issues && v.ledger.issues[i] == w.ledger.issues[i])
  }

  lemma GrantIssuesTo(w: World, a: Action) returns (u: Id, s: Id)
    requires a.RefreshGrant? && ChainInv(w)
    ensures var v := Apply(w, a);
      v.ledger == w.ledger || (IssuedTo(w, v, u, s, w.db.next) && v.ledger.openings == w.ledger.openings &&
                               v.ledger.completions == w.ledger.completions)
  {
    hide Grant; hide Classify; hide Present; hide SpentCodes; hide CompletedOnce; hide OpenedOnce; hide CodesRecorded;
    hide FlowsRecorded;
    u, s := 0, 0;
    if a.token in w.db.tokens && w.db.tokens[a.token].session in w.db.sessions {
      s := w.db.tokens[a.token].session;
      u := w.db.sessions[s].user;
      assert SessionRecorded(w.db.sessions[s], s, w.ledger.openings, w.ledger.completions, w.db.codes);
      if w.db.sessions[s].client == a.tokenClient { RefreshAnswers(w, a.tokenClient, a.token, a.signs); }
    }
    GrantCases(w, a.knownClient, a.tokenClient, a.token, a.signs);
    RefreshStrangers(w, a.knownClient, a.tokenClient, a.token, a.signs);
  }

  lemma ExchangeIssuesTo(w: World, a: Action) returns (u: Id, s: Id)
    requires a.Exchange? && ChainInv(w)
    ensures var v := Apply(w, a);
      v.ledger == w.ledger || (IssuedTo(w, v, u, s, w.db.next + 1) && RecordGrows(w, v))
  {
    hide Login.PkceMatches; hide Login.RejectCode; hide SpentCodes; hide CompletedOnce; hide FlowsRecorded;
    hide SessionsRecorded; hide Matches;
    u, s := if a.code in w.db.codes then w.db.codes[a.code].user else 0, w.db.next;
  }

  lemma StepIssues(w: World, a: Action, u: Id)
    requires Sound(w) && Shut(w, u) && IssuesOwned(w.ledger)
    ensures var v := Apply(w, a); NothingFor(w, v, u) && IssuesOwned(v.ledger) && RecordGrows(w, v)
  {
    hide Intact; hide FlowBounds.FlowInv; hide CodeBudgets.CodeInv; hide Accounts.AccountInv; hide TokenForest.TokenInv;
    hide Apply; hide ChainInv;
    if a.RefreshGrant? {
      var x, s := GrantIssuesTo(w, a);
    } else if a.Exchange? {
      var x, s := ExchangeIssuesTo(w, a);
    } else {
      Frame(w, a);
      if a.ConfirmLink? || a.ConfirmCode? { Guarantees.ConfirmNames(w, a); }
    }
  }

  // ---- It stays disabled ----

  lemma ConfirmStaysShut(w: World, a: Action, u: Id)
    requires Intact(w.db) && Shut(w, u) && (a.ConfirmLink? || a.ConfirmCode?)
    ensures Shut(Apply(w, a), u) && (u !in w.db.users ==> u !in Apply(w, a).db.users)
  {
    hide Intact; hide Login.ConfirmLink; hide Login.ConfirmCode; hide Login.LinkCandidate;
    IntactUsers(w.db);
    match a
    case ConfirmLink(link) => var id := Login.ConfirmLinkCases(w, link);
    case ConfirmCode(flow, typed) => var link, id := Login.ConfirmCodeCases(w, flow, typed);
  }

  lemma StaysShut(w: World, a: Action, u: Id)
    requires Intact(w.db) && Shut(w, u) && (a.SetDisabled? && a.account == u && !a.disabled ==> u !in w.db.users)
    ensures Shut(Apply(w, a), u) && (u !in w.db.users ==> u !in Apply(w, a).db.users)
  {
    hide Intact;
    if a.ConfirmLink? || a.ConfirmCode? {
      hide Apply;
      ConfirmStaysShut(w, a, u);
    } else if a.ConfirmChange? || a.DeleteAccount? || a.RunPurge? || a.ImportUser? || a.SetDisabled? {
      ChangesStayShut(w, a, u);
    } else {
      hide Apply;
      Frame(w, a);
    }
  }

  lemma ChangesStayShut(w: World, a: Action, u: Id)
    requires Shut(w, u) && (a.SetDisabled? && a.account == u && !a.disabled ==> u !in w.db.users)
    requires a.ConfirmChange? || a.DeleteAccount? || a.RunPurge? || a.ImportUser? || a.SetDisabled?
    ensures Shut(Apply(w, a), u) && (u !in w.db.users ==> u !in Apply(w, a).db.users)
  {
    hide Account.CheckCode; hide Login.FindByEmail;
    if a.RunPurge? { Frame(w, a); }
  }

  predicate NeverEnabled(actions: seq<Action>, u: Id) {
    forall i :: 0 <= i < |actions| ==>
      !(actions[i].SetDisabled? && actions[i].account == u && !actions[i].disabled)
  }

  lemma NothingYet(w: World, u: Id)
    ensures NothingFor(w, w, u) && RecordGrows(w, w)
  {
  }

  lemma {:induction false} RunShut(w: World, actions: seq<Action>, u: Id)
    requires Sound(w) && Shut(w, u) && IssuesOwned(w.ledger)
    requires u in w.db.users ==> NeverEnabled(actions, u)
    ensures var v := Run(w, actions); Shut(v, u) && NothingFor(w, v, u) && IssuesOwned(v.ledger) && RecordGrows(w, v)
    decreases |actions|
  {
    hide Sound; hide Apply; hide Shut; hide NothingFor; hide RecordGrows; hide IssuesOwned;
    if actions != [] {
      var v := Apply(w, actions[0]);
      StaysShut(w, actions[0], u) by { SoundIntact(w); }
      StepIssues(w, actions[0], u);
      Soundness.StepKeeps(w, actions[0]);
      RunShut(v, actions[1..], u);
      NothingInAll(w, v, Run(v, actions[1..]), u);
    } else {
      NothingYet(w, u);
    }
  }

  lemma NothingInAll(w: World, v: World, x: World, u: Id)
    requires NothingFor(w, v, u) && NothingFor(v, x, u) && IssuesOwned(v.ledger) && RecordGrows(v, x)
    requires RecordGrows(w, v)
    ensures NothingFor(w, x, u) && RecordGrows(w, x)
  {
  }

  /** An operator disables an account in any reachable state. After any further run in which nobody enables it:
      no refresh token and no access token was issued for any of its sessions since, none of its sessions finds
      an account, and a refresh of any of them is refused, whichever token, client and key. */
  lemma DisabledGetsNothing(start: Time, history: seq<Action>, u: Id, afterwards: seq<Action>)
    requires u in Run(Init(start), history).db.users && NeverEnabled(afterwards, u)
    ensures var w := Apply(Run(Init(start), history), SetDisabled(u, true));
      var v := Run(w, afterwards);
      && NothingFor(w, v, u)
      && (forall s :: s in v.db.sessions && v.db.sessions[s].user == u ==> FindAuthenticated(v.db, s, v.now).None?)
      && (forall t, known, client, canSign | t in v.db.tokens && v.db.tokens[t].session in v.db.sessions ::
            v.db.sessions[v.db.tokens[t].session].user == u ==> !Grant(v, known, client, t, canSign).reply.Issued?)
  {
    hide Run; hide Sound; hide Grant; hide NothingFor;
    Always(start, history);
    var w0 := Run(Init(start), history);
    var w := Apply(w0, SetDisabled(u, true));
    assert Shut(w, u) by { SoundIds(w0, u); }
    Soundness.StepKeeps(w0, SetDisabled(u, true));
    IssuesAlwaysOwned(start, history);
    RunShut(w, afterwards, u);
    var v := Run(w, afterwards);
    forall t, known, client, canSign |
      t in v.db.tokens && v.db.tokens[t].session in v.db.sessions && v.db.sessions[v.db.tokens[t].session].user == u
      ensures !Grant(v, known, client, t, canSign).reply.Issued?
    {
      RefreshStrangers(v, known, client, t, canSign);
      GrantCases(v, known, client, t, canSign);
      if known && v.db.sessions[v.db.tokens[t].session].client == client { RefreshAnswers(v, client, t, canSign); }
    }
  }

  lemma SoundIds(w: World, u: Id)
    requires Sound(w) && u in w.db.users
    ensures u < w.db.next
  {
    IntactUsers(w.db);
  }

  lemma IssuesAlwaysOwned(start: Time, actions: seq<Action>)
    ensures IssuesOwned(Run(Init(start), actions).ledger)
  {
    hide Sound;
    SoundAtFirst(start);
    RunOwned(Init(start), actions);
  }

  lemma {:induction false} RunOwned(w: World, actions: seq<Action>)
    requires Sound(w) && IssuesOwned(w.ledger)
    ensures IssuesOwned(Run(w, actions).ledger)
    decreases |actions|
  {
    hide Sound; hide Apply; hide IssuesOwned;
    if actions != [] {
      StepOwned(w, actions[0]);
      Soundness.StepKeeps(w, actions[0]);
      RunOwned(Apply(w, actions[0]), actions[1..]);
    }
  }

  lemma StepOwned(w: World, a: Action)
    requires Sound(w) && IssuesOwned(w.ledger)
    ensures IssuesOwned(Apply(w, a).ledger)
  {
    hide Intact; hide FlowBounds.FlowInv; hide CodeBudgets.CodeInv; hide Accounts.AccountInv; hide TokenForest.TokenInv;
    hide Apply; hide ChainInv;
    if a.RefreshGrant? { var x, s := GrantIssuesTo(w, a); }
    else if a.Exchange? { var x, s := ExchangeIssuesTo(w, a); }
    else {
      Frame(w, a);
      if a.ConfirmLink? || a.ConfirmCode? { Guarantees.ConfirmNames(w, a); }
    }
  }

  /** Likewise after the account is deleted, whatever happens then. */
  lemma DeletedGetsNothing(start: Time, history: seq<Action>, sid: Id, typed: string, afterwards: seq<Action>)
    requires Account.DeleteAccount(Run(Init(start), history), sid, typed).reply.Right?
    ensures var out := Account.DeleteAccount(Run(Init(start), history), sid, typed);
      var u := out.reply.user; var v := Run(out.world, afterwards);
      && NothingFor(out.world, v, u) && u !in v.db.users
      && (forall s :: s in v.db.sessions ==> v.db.sessions[s].user != u)
  {
    hide Run; hide Sound; hide NothingFor; hide IssuesOwned; hide Account.DeleteAccount;
    Always(start, history);
    var w := Run(Init(start), history);
    var a := DeleteAccount(sid, typed);
    Soundness.StepKeeps(w, a);
    IssuesAlwaysOwned(start, history);
    StepOwned(w, a);
    var out := Account.DeleteAccount(w, sid, typed);
    DeletedIsShut(w, sid, typed);
    RunShut(out.world, afterwards, out.reply.user);
    RunGone(out.world, afterwards, out.reply.user);
    Soundness.RunKeeps(out.world, afterwards);
    NoOrphans(Run(out.world, afterwards));
  }

  lemma NoOrphans(w: World)
    requires Sound(w)
    ensures forall s :: s in w.db.sessions ==> w.db.sessions[s].user in w.db.users
  {
    hide FlowBounds.FlowInv; hide CodeBudgets.CodeInv; hide Accounts.AccountInv; hide ChainInv;
    hide TokenForest.TokenInv;
  }

  lemma DeletedIsShut(w: World, sid: Id, typed: string)
    requires Sound(w) && Account.DeleteAccount(w, sid, typed).reply.Right?
    ensures var out := Account.DeleteAccount(w, sid, typed);
      Shut(out.world, out.reply.user) && out.reply.user !in out.world.db.users
  {
    hide Sound; hide Account.CheckCode;
    SoundUsers(w);
    assert FindAuthenticated(w.db, sid, w.now) == Some(Account.DeleteAccount(w, sid, typed).reply.user);
  }

  lemma {:induction false} RunGone(w: World, actions: seq<Action>, u: Id)
    requires Sound(w) && u < w.db.next && u !in w.db.users
    ensures u !in Run(w, actions).db.users
    decreases |actions|
  {
    hide Sound; hide Apply;
    if actions != [] {
      StaysShut(w, actions[0], u) by { SoundIntact(w); }
      Soundness.StepKeeps(w, actions[0]);
      RunGone(Apply(w, actions[0]), actions[1..], u);
    }
  }
}
