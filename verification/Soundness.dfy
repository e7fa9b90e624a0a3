/** Everything that holds of every reachable state, together. */
module Soundness {
  import opened Base
  import opened Tables
  import opened References
  import opened FlowBounds
  import opened CodeBudgets
  import opened Accounts
  import opened Chain
  import opened TokenForest
  import TokenRuns
  import opened System

  ghost predicate Sound(w: World) {
    Intact(w.db) && FlowInv(w.db, w.now) && CodeInv(w) && AccountInv(w) && ChainInv(w) && TokenInv(w)
  }

  lemma StepKeeps(w: World, a: Action)
    requires Sound(w)
    ensures Sound(Apply(w, a))
  {
    hide Intact; hide FlowInv; hide CodeInv; hide AccountInv; hide ChainInv; hide TokenInv; hide Apply;
    References.StepKeeps(w, a);
    FlowBounds.StepKeeps(w, a);
    CodeBudgets.StepKeeps(w, a);
    Accounts.StepKeeps(w, a);
    Chain.StepKeeps(w, a);
    TokenRuns.StepKeeps(w, a);
  }

  lemma {:induction false} RunKeeps(w: World, actions: seq<Action>)
    requires Sound(w)
    ensures Sound(Run(w, actions))
    decreases |actions|
  {
    hide Sound; hide Apply;
    if actions != [] {
      StepKeeps(w, actions[0]);
      RunKeeps(Apply(w, actions[0]), actions[1..]);
    }
  }

  lemma SoundAtFirst(start: Time)
    ensures Sound(Init(start))
  {
    hide Intact; hide FlowInv; hide CodeInv; hide AccountInv; hide ChainInv; hide TokenInv;
    FirstRows(start);
    FirstRecord(start);
    TokenRuns.Always(start, []);
  }

  lemma FirstRows(start: Time)
    ensures Intact(Init(start).db) && FlowInv(Init(start).db, start) && CodeInv(Init(start))
  {
  }

  lemma FirstRecord(start: Time)
    ensures AccountInv(Init(start)) && ChainInv(Init(start))
  {
  }

  lemma Always(start: Time, actions: seq<Action>)
    ensures Sound(Run(Init(start), actions))
  {
    hide Run; hide Sound;
    SoundAtFirst(start);
    RunKeeps(Init(start), actions);
  }

  lemma SoundUsers(w: World)
    requires Sound(w)
    ensures UniqueEmails(w.db.users) && forall u :: u in w.db.users ==> u < w.db.next
  {
  }

  lemma SoundMails(w: World)
    requires Sound(w)
    ensures forall l :: l in w.db.links ==> l < w.db.next
    ensures forall c :: c in w.db.confirmations ==> c < w.db.next
  {
  }

  lemma SoundIntact(w: World)
    requires Sound(w)
    ensures Intact(w.db)
  {
  }
}
