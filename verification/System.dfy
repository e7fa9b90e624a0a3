/** Every committed transaction of the server as one step, with any choice an outsider, an operator or
    the configuration makes carried by the action. */
module System {
  import opened Base
  import opened Tables
  import Refresh
  import Login
  import Account
  import Purge

  datatype Action =
    | CreateFlow(flowClient: ClientId, flowRedirect: string, challenge: Challenge)
    | RequestLink(flow: Id, email: Email, signup: Option<bool>, plain: string)
    | ConfirmLink(link: Id)
    | ConfirmCode(codeFlow: Id, typedCode: string)
    | Exchange(known: bool, client: ClientId, code: Id, redirectUri: string, verifier: string, canSign: bool)
    | RefreshGrant(knownClient: bool, tokenClient: ClientId, token: Id, signs: bool)
    | Logout(logoutKnown: bool, logoutClient: ClientId, logoutToken: Id)
    | RevokeOwnSession(caller: Id, target: Id)
    | RequestConfirmation(session: Id, action: ConfirmationAction, confirmationCode: string)
    | ChangeEmail(changeSession: Id, changeCode: string, newEmail: Email)
    | ConfirmChange(change: Id)
    | DeleteAccount(deleteSession: Id, deleteCode: string)
    | RunPurge
    | ImportUser(imported: Email)
    | SetDisabled(account: Id, disabled: bool)
    | Tick(elapsed: nat)

  function Apply(w: World, a: Action): World {
    match a
    case CreateFlow(client, redirect, challenge) => Login.CreateFlow(w, client, redirect, challenge)
    case RequestLink(flow, email, signup, plain) => Login.RequestLink(w, flow, email, signup, plain).world
    case ConfirmLink(link) => Login.ConfirmLink(w, link).world
    case ConfirmCode(flow, typed) => Login.ConfirmCode(w, flow, typed).world
    case Exchange(known, client, code, uri, verifier, canSign) =>
      Login.Exchange(w, known, client, code, uri, verifier, canSign).world
    case RefreshGrant(known, client, token, canSign) => Refresh.Grant(w, known, client, token, canSign).world
    case Logout(known, client, token) => Refresh.RevokeByToken(w, known, client, token)
    case RevokeOwnSession(caller, target) => Refresh.RevokeOwn(w, caller, target)
    case RequestConfirmation(sid, action, plain) => Account.RequestConfirmation(w, sid, action, plain)
    case ChangeEmail(sid, typed, email) => Account.ChangeEmail(w, sid, typed, email).world
    case ConfirmChange(change) => Account.ConfirmChange(w, change).world
    case DeleteAccount(sid, typed) => Account.DeleteAccount(w, sid, typed).world
    case RunPurge => Purge.Run(w)
    case ImportUser(email) => Account.Import(w, email)
    case SetDisabled(user, disabled) => Account.SetDisabled(w, user, disabled)
    case Tick(elapsed) => w.(now := w.now + elapsed)
  }

  function Run(w: World, actions: seq<Action>): World
    decreases |actions|
  {
    if actions == [] then w else Run(Apply(w, actions[0]), actions[1..])
  }

  predicate EndsSessions(a: Action) {
    a.Logout? || a.RevokeOwnSession? || a.DeleteAccount? || a.RunPurge?
  }

  /** Which steps leave which tables alone. */
  lemma Frame(w: World, a: Action)
    ensures var v := Apply(w, a);
      && w.db.next <= v.db.next
      && w.now <= v.now && (v.now == w.now || a.Tick?)
      && (!a.RefreshGrant? && !a.Exchange? ==>
            v.ledger.issues == w.ledger.issues && v.ledger.access == w.ledger.access &&
            v.ledger.openings == w.ledger.openings)
      && (!a.RefreshGrant? && !a.Exchange? && !EndsSessions(a) ==>
            v.db.tokens == w.db.tokens && v.db.sessions == w.db.sessions)
      && (!a.CreateFlow? && !a.RequestLink? && !a.ConfirmLink? && !a.ConfirmCode? && !a.RunPurge? ==>
            v.db.flows == w.db.flows)
      && (!a.RequestLink? && !a.ConfirmLink? && !a.ConfirmCode? && !a.DeleteAccount? && !a.RunPurge? ==>
            v.db.links == w.db.links)
      && (!a.ConfirmLink? && !a.ConfirmCode? && !a.Exchange? && !a.DeleteAccount? && !a.RunPurge? ==>
            v.db.codes == w.db.codes)
      && (!a.ConfirmLink? && !a.ConfirmCode? && !a.ConfirmChange? && !a.DeleteAccount? && !a.RunPurge? &&
          !a.ImportUser? && !a.SetDisabled? ==>
            v.db.users == w.db.users)
      && (!a.RequestConfirmation? && !a.ChangeEmail? && !a.DeleteAccount? && !a.RunPurge? ==>
            v.db.confirmations == w.db.confirmations)
      && (!a.ChangeEmail? && !a.ConfirmChange? && !a.DeleteAccount? && !a.RunPurge? ==>
            v.db.changes == w.db.changes)
      && (!a.CreateFlow? ==> v.ledger.flows == w.ledger.flows)
      && (!a.RequestLink? && !a.RequestConfirmation? && !a.ChangeEmail? ==> v.ledger.sent == w.ledger.sent)
      && (!a.ConfirmLink? && !a.ConfirmCode? ==> v.ledger.completions == w.ledger.completions)
      && (!a.ConfirmLink? && !a.ConfirmCode? && !a.ConfirmChange? ==> v.ledger.proofs == w.ledger.proofs)
      && (!a.ConfirmLink? && !a.ConfirmCode? ==> v.ledger.guesses == w.ledger.guesses)
      && (!a.ChangeEmail? && !a.DeleteAccount? ==> v.ledger.confirmationGuesses == w.ledger.confirmationGuesses)
  {
    hide Login.CreateFlow;
    hide Login.RequestLink;
    hide Login.ConfirmLink;
    hide Login.ConfirmCode;
    hide Login.Exchange;
    hide Refresh.Grant;
    hide Refresh.RevokeByToken;
    hide Refresh.RevokeOwn;
    hide Account.RequestConfirmation;
    hide Account.ChangeEmail;
    hide Account.ConfirmChange;
    hide Account.DeleteAccount;
    hide Account.Import;
    hide Account.SetDisabled;
    hide Purge.PurgeDb;
    match a
    case RunPurge => assert Purge.PurgeDb(w.db, w.now).next == w.db.next;
    case _ =>
  }
}
