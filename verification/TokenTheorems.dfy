/** The shape of the token tree, told for every run from an empty server. */
module TokenTheorems {
  import opened Base
  import opened Tables
  import opened Refresh
  import opened TokenForest
  import TokenRuns
  import opened System

  predicate IsRoot(tokens: map<Id, Token>, s: Id, t: Id) {
    t in tokens && tokens[t].session == s && tokens[t].parent.None?
  }

  /** One root per session, children in their parent's session and no older than its rotation, and a
      superseded token was never used and has no children. */
  lemma ForestAlways(start: Time, actions: seq<Action>)
    ensures var db := Run(Init(start), actions).db;
      && (forall s :: s in db.sessions ==> IsRoot(db.tokens, s, s + 1))
      && (forall s, t :: IsRoot(db.tokens, s, t) ==> s in db.sessions && t == s + 1)
      && (forall c, p :: ChildOf(db.tokens, c, p) ==>
            p in db.tokens && db.tokens[p].session == db.tokens[c].session && db.tokens[p].rotatedAt.Some? &&
            db.tokens[p].rotatedAt.value <= db.tokens[c].createdAt)
      && (forall t, c :: t in db.tokens && db.tokens[t].supersededAt.Some? ==>
            db.tokens[t].rotatedAt.None? && !ChildOf(db.tokens, c, t))
  {
    hide Run;
    TokenRuns.Always(start, actions);
    var w := Run(Init(start), actions);
    assert Rooted(w.db.tokens, w.db.sessions) && Parented(w.db.tokens) && Dated(w.db.tokens, w.now);
  }

  /** Once some child of a token was issued more than the grace period after the token's rotation, every
      child but the newest is superseded. */
  lemma ForkBound(start: Time, actions: seq<Action>, p: Id, late: Id, older: Id, newest: Id)
    requires var tokens := Run(Init(start), actions).db.tokens;
      IssuedLate(tokens, late, p) && ChildOf(tokens, older, p) && ChildOf(tokens, newest, p) && older < newest
    ensures Run(Init(start), actions).db.tokens[older].supersededAt.Some?
  {
    hide Run;
    TokenRuns.Always(start, actions);
    var tokens := Run(Init(start), actions).db.tokens;
    if late < newest { assert IssuedLate(tokens, newest, p); }
    if older == late { assert IssuedLate(tokens, newest, p); }
  }

  /** Two successors of a token that are both still good were issued within its grace period. */
  lemma SiblingsComeFromGrace(start: Time, actions: seq<Action>, p: Id, a: Id, b: Id)
    requires var tokens := Run(Init(start), actions).db.tokens;
      Unreplaced(tokens, a, p) && Unreplaced(tokens, b, p) && a != b
    ensures var tokens := Run(Init(start), actions).db.tokens;
      !IssuedLate(tokens, a, p) && !IssuedLate(tokens, b, p)
  {
    hide Run;
    var (x, y) := if a < b then (a, b) else (b, a);
    if IssuedLate(Run(Init(start), actions).db.tokens, a, p) { ForkBound(start, actions, p, a, x, y); }
    if IssuedLate(Run(Init(start), actions).db.tokens, b, p) { ForkBound(start, actions, p, b, x, y); }
  }

  /** Each token of the path is an unsuperseded child of the one before. */
  predicate PathFrom(tokens: map<Id, Token>, path: seq<Id>, t: Id) {
    path != [] && path[0] == t && forall i :: 0 < i < |path| ==> Unreplaced(tokens, path[i], path[i - 1])
  }

  /** From any token that was not superseded, a path of unsuperseded successors leads to a fresh one. */
  lemma {:induction false} LeadsToFresh(tokens: map<Id, Token>, sessions: map<Id, Session>, next: Id, now: Time,
                                        s: Id, t: Id) returns (path: seq<Id>)
    requires Forest(tokens, sessions, next, now) && s in sessions && sessions[s].revokedAt.None?
    requires t in tokens && tokens[t].session == s && tokens[t].supersededAt.None?
    ensures PathFrom(tokens, path, t) && Fresh(tokens, s, path[|path| - 1])
    decreases next - t
  {
    if tokens[t].rotatedAt.None? {
      path := [t];
    } else {
      assert RotatedInOpen(tokens, sessions, t);
      var c :| Unreplaced(tokens, c, t);
      assert GoodChild(tokens, c, t);
      var rest := LeadsToFresh(tokens, sessions, next, now, s, c);
      path := [t] + rest;
      assert forall i :: 0 < i < |path| ==> path[i] == rest[i - 1];
      assert path[|path| - 1] == rest[|rest| - 1];
    }
  }

  /** A session that was not revoked has a fresh token, and one more at most for each accepted reuse
      within a grace period. */
  lemma Conservation(start: Time, actions: seq<Action>, s: Id)
    requires var db := Run(Init(start), actions).db; s in db.sessions && db.sessions[s].revokedAt.None?
    ensures var w := Run(Init(start), actions);
      var reuses := GraceCount(w.ledger.issues, s, w.db.next);
      1 <= FreshCount(w.db.tokens, s, w.db.next) <= 1 + reuses &&
      (reuses == 0 ==> FreshCount(w.db.tokens, s, w.db.next) == 1)
  {
    hide Run;
    TokenRuns.Always(start, actions);
    var w := Run(Init(start), actions);
    assert IsRoot(w.db.tokens, s, s + 1);
    var path := LeadsToFresh(w.db.tokens, w.db.sessions, w.db.next, w.now, s, s + 1);
    FreshFound(w.db.tokens, s, w.db.next, path[|path| - 1]);
  }
}
