/** Runs in which no account row is deleted, told by their steps alone. */
module Pacing {
  import opened Base
  import opened Tables
  import opened EmailedCodes
  import opened Budget
  import opened Login
  import Purge
  import opened References
  import opened CodeBudgets
  import opened Soundness
  import opened Guarantees
  import opened PurgeInvisible
  import opened System

  predicate NoDeletion(actions: seq<Action>) {
    forall i :: 0 <= i < |actions| ==> !actions[i].DeleteAccount?
  }

  lemma ConfirmAddsAccounts(w: World, a: Action)
    requires Intact(w.db) && (a.ConfirmLink? || a.ConfirmCode?)
    ensures w.db.users.Keys <= Apply(w, a).db.users.Keys
  {
    hide Intact; hide Login.ConfirmLink; hide Login.ConfirmCode; hide Pending; hide LinkCandidate; hide Consume;
    IntactUsers(w.db);
    match a
    case ConfirmLink(link) => var id := ConfirmLinkCases(w, link);
    case ConfirmCode(flow, typed) => var link, id := ConfirmCodeCases(w, flow, typed);
  }

  lemma EditsKeepAccounts(w: World, a: Action)
    requires a.ConfirmChange? || a.SetDisabled?
    ensures w.db.users.Keys <= Apply(w, a).db.users.Keys
  {
  }

  lemma PurgeKeepsAccounts(w: World, a: Action)
    requires Sound(w) && AllVerified(w.db.users) && a.RunPurge?
    ensures w.db.users.Keys <= Apply(w, a).db.users.Keys
  {
    hide Sound; hide Purge.PurgeDb;
    UsersSame(w);
  }

  lemma StepKeepsAccounts(w: World, a: Action)
    requires Sound(w) && AllVerified(w.db.users) && !a.ImportUser? && !a.DeleteAccount?
    ensures AccountsStay(w, a)
  {
    hide Sound; hide Apply; hide AllVerified;
    if a.RunPurge? { PurgeKeepsAccounts(w, a); }
    else if a.ConfirmLink? || a.ConfirmCode? { SoundIntact(w); ConfirmAddsAccounts(w, a); }
    else if a.ConfirmChange? || a.SetDisabled? { EditsKeepAccounts(w, a); }
    else { Frame(w, a); }
  }

  lemma {:induction false} AccountsKept(w: World, actions: seq<Action>)
    requires Sound(w) && AllVerified(w.db.users) && SignUpOnly(actions) && NoDeletion(actions)
    ensures AccountsAlwaysStay(w, actions)
    decreases |actions|
  {
    hide Sound; hide Apply; hide AllVerified; hide AccountsStay;
    if actions != [] {
      StepKeepsAccounts(w, actions[0]);
      StepVerified(w, actions[0]);
      Soundness.StepKeeps(w, actions[0]);
      AccountsKept(Apply(w, actions[0]), actions[1..]);
    }
  }

  /** Where accounts come from sign-ups and none is deleted, ten wrong codes are the most an address or an
      account sees in any 23 hours and 45 minutes, purges included. */
  lemma TenGuessesInAnySpan(start: Time, actions: seq<Action>, email: Email, user: Id, begin: Time)
    requires SignUpOnly(actions) && NoDeletion(actions)
    ensures var ledger := Run(Init(start), actions).ledger;
      AttemptsIn(ledger.guesses, email, begin) <= 10 && AttemptsIn(ledger.confirmationGuesses, user, begin) <= 10
  {
    hide Run; hide Sound;
    SoundAtFirst(start);
    AccountsKept(Init(start), actions);
    AttemptsArePaced(start, actions, email, user, begin);
  }
}
