/** The refresh tokens of a session form a tree whose shape every step keeps. Each part of the shape is
    its own predicate over the tables it needs. */
module TokenForest {
  import opened Base
  import opened Tables
  import opened Refresh

  /** Identifiers come from the counter; a session is followed by its root token. */
  ghost predicate Allocated(tokens: map<Id, Token>, sessions: map<Id, Session>, next: Id) {
    && (forall t :: t in tokens ==> t < next)
    && (forall s :: s in sessions ==> s + 1 < next)
  }

  /** Every session has a root, and every token belongs to a session. */
  ghost predicate Rooted(tokens: map<Id, Token>, sessions: map<Id, Session>) {
    && (forall s :: s in sessions ==> s + 1 in tokens && tokens[s + 1].session == s)
    && (forall t :: t in tokens ==> tokens[t].session in sessions &&
                                    (tokens[t].parent.None? <==> t == tokens[t].session + 1))
  }

  predicate GoodChild(tokens: map<Id, Token>, c: Id, p: Id)
    requires c in tokens
  {
    p in tokens && p < c && tokens[p].session == tokens[c].session && tokens[p].rotatedAt.Some? &&
    tokens[p].rotatedAt.value <= tokens[c].createdAt
  }

  /** A child is in its parent's session and no older than its parent's rotation. */
  ghost predicate Parented(tokens: map<Id, Token>) {
    forall c, p :: ChildOf(tokens, c, p) ==> GoodChild(tokens, c, p)
  }

  /** A superseded token was never used, and no timestamp is in the future. */
  ghost predicate Dated(tokens: map<Id, Token>, now: Time) {
    forall t :: t in tokens ==>
      && tokens[t].createdAt <= now
      && (tokens[t].rotatedAt.Some? ==> tokens[t].rotatedAt.value <= now)
      && (tokens[t].supersededAt.Some? ==> tokens[t].rotatedAt.None? && tokens[t].parent.Some?)
  }

  /** Later tokens were not created earlier. */
  ghost predicate Ordered(tokens: map<Id, Token>) {
    forall a, b :: a in tokens && b in tokens && a < b ==> tokens[a].createdAt <= tokens[b].createdAt
  }

  predicate IssuedLate(tokens: map<Id, Token>, c: Id, p: Id) {
    ChildOf(tokens, c, p) && p in tokens && tokens[p].rotatedAt.Some? &&
    REFRESH_REUSE_GRACE < tokens[c].createdAt - tokens[p].rotatedAt.value
  }

  /** A child issued after the grace period left every older sibling superseded. */
  ghost predicate ForksInGrace(tokens: map<Id, Token>) {
    forall p, older, newer ::
      ChildOf(tokens, older, p) && IssuedLate(tokens, newer, p) && older < newer
      ==> tokens[older].supersededAt.Some?
  }

  predicate Unreplaced(tokens: map<Id, Token>, c: Id, p: Id) {
    ChildOf(tokens, c, p) && tokens[c].supersededAt.None?
  }

  predicate RotatedInOpen(tokens: map<Id, Token>, sessions: map<Id, Session>, p: Id) {
    p in tokens && tokens[p].rotatedAt.Some? && tokens[p].session in sessions &&
    sessions[tokens[p].session].revokedAt.None?
  }

  /** While its session is not revoked, a rotated token keeps a successor that was not superseded. */
  ghost predicate Succeeded(tokens: map<Id, Token>, sessions: map<Id, Session>) {
    forall p :: RotatedInOpen(tokens, sessions, p) ==> exists c :: Unreplaced(tokens, c, p)
  }

  /** Neither exchanged nor replaced. */
  predicate Fresh(tokens: map<Id, Token>, s: Id, t: Id) {
    t in tokens && tokens[t].session == s && tokens[t].rotatedAt.None? && tokens[t].supersededAt.None?
  }

  function FreshCount(tokens: map<Id, Token>, s: Id, n: Id): nat {
    if n == 0 then 0 else FreshCount(tokens, s, n - 1) + if Fresh(tokens, s, n - 1) then 1 else 0
  }

  predicate GraceIssue(issues: map<Id, Issue>, s: Id, t: Id) {
    t in issues && issues[t].session == s && issues[t].kind.GraceReuse?
  }

  /** Accepted reuses of session `s` within the grace period, over its whole life. */
  function GraceCount(issues: map<Id, Issue>, s: Id, n: Id): nat {
    if n == 0 then 0 else GraceCount(issues, s, n - 1) + if GraceIssue(issues, s, n - 1) then 1 else 0
  }

  /** A session has at most one fresh token, and one more for each reuse in its grace period. */
  ghost predicate Conserved(tokens: map<Id, Token>, sessions: map<Id, Session>, issues: map<Id, Issue>, n: Id) {
    forall s :: s in sessions ==> FreshCount(tokens, s, n) <= 1 + GraceCount(issues, s, n)
  }

  ghost predicate Forest(tokens: map<Id, Token>, sessions: map<Id, Session>, next: Id, now: Time) {
    Allocated(tokens, sessions, next) && Rooted(tokens, sessions) && Parented(tokens) && Dated(tokens, now) &&
    Ordered(tokens) && ForksInGrace(tokens) && Succeeded(tokens, sessions)
  }

  ghost predicate TokenInv(w: World) {
    Forest(w.db.tokens, w.db.sessions, w.db.next, w.now) &&
    Conserved(w.db.tokens, w.db.sessions, w.ledger.issues, w.db.next)
  }

  // ---- Counting ----

  lemma {:induction false} FreshShrinks(before: map<Id, Token>, after: map<Id, Token>, s: Id, n: Id)
    requires forall t: Id :: t < n && Fresh(after, s, t) ==> Fresh(before, s, t)
    ensures FreshCount(after, s, n) <= FreshCount(before, s, n)
  {
    if n > 0 { FreshShrinks(before, after, s, n - 1); }
  }

  lemma {:induction false} FreshDrops(before: map<Id, Token>, after: map<Id, Token>, s: Id, n: Id, lost: Id)
    requires forall t: Id :: t < n && Fresh(after, s, t) ==> Fresh(before, s, t)
    requires lost < n && Fresh(before, s, lost) && !Fresh(after, s, lost)
    ensures FreshCount(after, s, n) < FreshCount(before, s, n)
  {
    if lost == n - 1 { FreshShrinks(before, after, s, n - 1); } else { FreshDrops(before, after, s, n - 1, lost); }
  }

  lemma {:induction false} FreshExtends(tokens: map<Id, Token>, s: Id, n: Id, m: Id)
    requires n <= m && forall t :: t in tokens ==> t < n
    ensures FreshCount(tokens, s, m) == FreshCount(tokens, s, n)
  {
    if n < m { FreshExtends(tokens, s, n, m - 1); }
  }

  lemma {:induction false} FreshFound(tokens: map<Id, Token>, s: Id, n: Id, t: Id)
    requires t < n && Fresh(tokens, s, t)
    ensures FreshCount(tokens, s, n) >= 1
  {
    if t < n - 1 { FreshFound(tokens, s, n - 1, t); }
  }

  lemma {:induction false} FreshNone(tokens: map<Id, Token>, s: Id, n: Id)
    requires forall t: Id :: t < n ==> !Fresh(tokens, s, t)
    ensures FreshCount(tokens, s, n) == 0
  {
    if n > 0 { FreshNone(tokens, s, n - 1); }
  }

  lemma {:induction false} GraceKept(before: map<Id, Issue>, after: map<Id, Issue>, s: Id, n: Id)
    requires forall t: Id :: t < n && GraceIssue(before, s, t) ==> GraceIssue(after, s, t)
    ensures GraceCount(before, s, n) <= GraceCount(after, s, n)
  {
    if n > 0 { GraceKept(before, after, s, n - 1); }
  }

  lemma {:induction false} GraceGrows(issues: map<Id, Issue>, s: Id, n: Id, m: Id)
    requires n <= m
    ensures GraceCount(issues, s, n) <= GraceCount(issues, s, m)
  {
    if n < m { GraceGrows(issues, s, n, m - 1); }
  }

  // ---- Sessions end, or are deleted with all their tokens ----

  predicate Later(x: Session, y: Session) {
    y.user == x.user && y.client == x.client && y.expiresAt == x.expiresAt && y.createdAt == x.createdAt &&
    (x.revokedAt.Some? ==> y.revokedAt == x.revokedAt)
  }

  ghost predicate SessionsShrink(before: map<Id, Session>, after: map<Id, Session>) {
    forall s :: s in after ==> s in before && Later(before[s], after[s])
  }

  /** Exactly the tokens of the remaining sessions remain. */
  ghost predicate TokensFollow(before: map<Id, Token>, after: map<Id, Token>, sessions: map<Id, Session>) {
    && (forall t :: t in after ==> t in before && after[t] == before[t])
    && (forall t :: t in before && before[t].session in sessions ==> t in after)
    && (forall t :: t in after ==> after[t].session in sessions)
  }

  lemma ShrinkKeepsSuccessors(tokens: map<Id, Token>, sessions: map<Id, Session>, tokens': map<Id, Token>,
                              sessions': map<Id, Session>)
    requires Parented(tokens) && Succeeded(tokens, sessions)
    requires SessionsShrink(sessions, sessions') && TokensFollow(tokens, tokens', sessions')
    ensures Succeeded(tokens', sessions')
  {
    forall p | RotatedInOpen(tokens', sessions', p)
      ensures exists c :: Unreplaced(tokens', c, p)
    {
      assert RotatedInOpen(tokens, sessions, p);
      var c :| Unreplaced(tokens, c, p);
      assert Unreplaced(tokens', c, p);
    }
  }

  lemma ShrinkKeepsForks(tokens: map<Id, Token>, tokens': map<Id, Token>, sessions': map<Id, Session>)
    requires ForksInGrace(tokens) && TokensFollow(tokens, tokens', sessions')
    ensures ForksInGrace(tokens')
  {
    forall p, older, newer | ChildOf(tokens', older, p) && IssuedLate(tokens', newer, p) && older < newer
      ensures tokens'[older].supersededAt.Some?
    {
      assert ChildOf(tokens, older, p) && IssuedLate(tokens, newer, p);
    }
  }

  lemma ShrinkKeepsForest(tokens: map<Id, Token>, sessions: map<Id, Session>, next: Id, now: Time,
                          tokens': map<Id, Token>, sessions': map<Id, Session>, next': Id, now': Time)
    requires Forest(tokens, sessions, next, now)
    requires SessionsShrink(sessions, sessions') && TokensFollow(tokens, tokens', sessions')
    requires next <= next' && now <= now'
    ensures Forest(tokens', sessions', next', now')
  {
    forall c, p | ChildOf(tokens', c, p)
      ensures GoodChild(tokens', c, p)
    {
      assert ChildOf(tokens, c, p);
    }
    ShrinkKeepsSuccessors(tokens, sessions, tokens', sessions');
    ShrinkKeepsForks(tokens, tokens', sessions');
  }

  lemma ShrinkKeepsCount(tokens: map<Id, Token>, sessions: map<Id, Session>, issues: map<Id, Issue>, next: Id,
                         tokens': map<Id, Token>, sessions': map<Id, Session>, next': Id)
    requires Conserved(tokens, sessions, issues, next) && forall t :: t in tokens ==> t < next
    requires SessionsShrink(sessions, sessions') && TokensFollow(tokens, tokens', sessions') && next <= next'
    ensures Conserved(tokens', sessions', issues, next')
  {
    forall s | s in sessions'
      ensures FreshCount(tokens', s, next') <= 1 + GraceCount(issues, s, next')
    {
      FreshShrinks(tokens, tokens', s, next');
      FreshExtends(tokens, s, next, next');
      GraceGrows(issues, s, next, next');
    }
  }

  // ---- A token is presented and not refused ----

  /** How a presentation may change a row: the presented one is rotated, an unused successor superseded. */
  predicate RowPresented(tokens: map<Id, Token>, after: map<Id, Token>, t: Id, x: Id, now: Time)
    requires t in tokens && x in tokens && x in after
  {
    && after[x] == tokens[x].(rotatedAt := after[x].rotatedAt, supersededAt := after[x].supersededAt)
    && after[x].rotatedAt == (if x == t && tokens[t].rotatedAt.None? then Some(now) else tokens[x].rotatedAt)
    && after[x].supersededAt == (if Classify(tokens, t, now).Retry? && UnusedSuccessor(tokens, x, t) then Some(now)
                                 else tokens[x].supersededAt)
  }

  ghost predicate Presented(tokens: map<Id, Token>, after: map<Id, Token>, t: Id, now: Time) {
    t in tokens && after.Keys == tokens.Keys && forall x :: x in tokens ==> RowPresented(tokens, after, t, x, now)
  }

  lemma PresentRows(tokens: map<Id, Token>, t: Id, now: Time)
    requires t in tokens && !Classify(tokens, t, now).Stolen?
    ensures Presented(tokens, Present(tokens, t, now), t, now)
  {
  }

  lemma PresentKeepsRoots(tokens: map<Id, Token>, after: map<Id, Token>, sessions: map<Id, Session>, now: Time, t: Id)
    requires Rooted(tokens, sessions) && Presented(tokens, after, t, now)
    ensures Rooted(after, sessions)
  {
    forall x | x in after
      ensures after[x].session == tokens[x].session && after[x].parent == tokens[x].parent
    {
      assert RowPresented(tokens, after, t, x, now);
    }
  }

  lemma PresentKeepsDates(tokens: map<Id, Token>, after: map<Id, Token>, now: Time, t: Id)
    requires Dated(tokens, now) && Presented(tokens, after, t, now) && tokens[t].supersededAt.None?
    ensures Dated(after, now) && after[t].rotatedAt.Some?
  {
    forall x | x in after
      ensures RowPresented(tokens, after, t, x, now)
    {
    }
  }

  lemma PresentKeepsParents(tokens: map<Id, Token>, after: map<Id, Token>, now: Time, t: Id)
    requires Parented(tokens) && Dated(tokens, now) && Presented(tokens, after, t, now)
    ensures Parented(after)
  {
    forall c, p | ChildOf(after, c, p)
      ensures GoodChild(after, c, p)
    {
      assert RowPresented(tokens, after, t, c, now);
      assert ChildOf(tokens, c, p);
      assert RowPresented(tokens, after, t, p, now);
    }
  }

  lemma PresentKeepsOrder(tokens: map<Id, Token>, after: map<Id, Token>, now: Time, t: Id)
    requires Ordered(tokens) && Presented(tokens, after, t, now)
    ensures Ordered(after)
  {
    forall a, b | a in after && b in after && a < b
      ensures after[a].createdAt <= after[b].createdAt
    {
      assert RowPresented(tokens, after, t, a, now) && RowPresented(tokens, after, t, b, now);
    }
  }

  lemma PresentKeepsForks(tokens: map<Id, Token>, after: map<Id, Token>, now: Time, t: Id)
    requires ForksInGrace(tokens) && Parented(tokens) && Presented(tokens, after, t, now)
    ensures ForksInGrace(after)
  {
    forall p, older, newer | ChildOf(after, older, p) && IssuedLate(after, newer, p) && older < newer
      ensures after[older].supersededAt.Some?
    {
      assert RowPresented(tokens, after, t, older, now);
      assert RowPresented(tokens, after, t, newer, now);
      assert ChildOf(tokens, newer, p);
      assert RowPresented(tokens, after, t, p, now);
      assert ChildOf(tokens, older, p) && IssuedLate(tokens, newer, p);
    }
  }

  lemma PresentKeepsShape(tokens: map<Id, Token>, after: map<Id, Token>, sessions: map<Id, Session>, next: Id,
                          now: Time, t: Id)
    requires Allocated(tokens, sessions, next) && Rooted(tokens, sessions) && Parented(tokens) && Dated(tokens, now)
    requires Ordered(tokens) && ForksInGrace(tokens) && Presented(tokens, after, t, now)
    requires tokens[t].supersededAt.None?
    ensures Allocated(after, sessions, next) && Rooted(after, sessions) && Parented(after) && Dated(after, now)
    ensures Ordered(after) && ForksInGrace(after) && after[t].rotatedAt.Some?
  {
    PresentKeepsRoots(tokens, after, sessions, now, t);
    PresentKeepsDates(tokens, after, now, t);
    PresentKeepsParents(tokens, after, now, t);
    PresentKeepsOrder(tokens, after, now, t);
    PresentKeepsForks(tokens, after, now, t);
  }

  /** A late retry supersedes every child the token had. */
  lemma LateChildrenSuperseded(tokens: map<Id, Token>, after: map<Id, Token>, now: Time, t: Id, c: Id)
    requires Presented(tokens, after, t, now) && !Classify(tokens, t, now).Stolen? && ChildOf(tokens, c, t)
    requires tokens[t].rotatedAt.Some? && REFRESH_REUSE_GRACE < now - tokens[t].rotatedAt.value
    ensures after[c].supersededAt.Some?
  {
    assert !HasUsedSuccessor(tokens, t);
    assert RowPresented(tokens, after, t, c, now);
  }

  // ---- The replacement is added ----

  function Successor(tokens: map<Id, Token>, t: Id, now: Time): Token
    requires t in tokens
  {
    Token(tokens[t].session, Some(t), None, None, now)
  }

  lemma AddKeepsRows(tokens: map<Id, Token>, sessions: map<Id, Session>, next: Id, now: Time, t: Id)
    requires Allocated(tokens, sessions, next) && Rooted(tokens, sessions) && Dated(tokens, now) && t in tokens
    ensures var after := tokens[next := Successor(tokens, t, now)];
      Allocated(after, sessions, next + 1) && Rooted(after, sessions) && Dated(after, now)
  {
    var after := tokens[next := Successor(tokens, t, now)];
    assert forall x :: x in after <==> x in tokens || x == next;
  }

  lemma AddKeepsOrder(tokens: map<Id, Token>, sessions: map<Id, Session>, next: Id, now: Time, added: Token)
    requires Allocated(tokens, sessions, next) && Dated(tokens, now) && Ordered(tokens) && added.createdAt == now
    ensures Ordered(tokens[next := added])
  {
    var after := tokens[next := added];
    forall a, b | a in after && b in after && a < b
      ensures after[a].createdAt <= after[b].createdAt
    {
      assert a in tokens;
    }
  }

  lemma AddKeepsShape(tokens: map<Id, Token>, sessions: map<Id, Session>, next: Id, now: Time, t: Id)
    requires Allocated(tokens, sessions, next) && Rooted(tokens, sessions) && Parented(tokens) && Dated(tokens, now)
    requires Ordered(tokens) && t in tokens && tokens[t].rotatedAt.Some?
    ensures var after := tokens[next := Successor(tokens, t, now)];
      Allocated(after, sessions, next + 1) && Rooted(after, sessions) && Parented(after) && Dated(after, now) &&
      Ordered(after)
  {
    var after := tokens[next := Successor(tokens, t, now)];
    AddKeepsRows(tokens, sessions, next, now, t);
    AddKeepsOrder(tokens, sessions, next, now, Successor(tokens, t, now));
    forall c, p | ChildOf(after, c, p)
      ensures GoodChild(after, c, p)
    {
      if c != next { assert ChildOf(tokens, c, p); }
    }
  }

  lemma AddKeepsForks(tokens: map<Id, Token>, presented: map<Id, Token>, sessions: map<Id, Session>, next: Id,
                      now: Time, t: Id)
    requires ForksInGrace(presented) && Parented(presented) && Allocated(presented, sessions, next)
    requires Presented(tokens, presented, t, now) && !Classify(tokens, t, now).Stolen?
    ensures ForksInGrace(presented[next := Successor(presented, t, now)])
  {
    var after := presented[next := Successor(presented, t, now)];
    forall p, older: Id, newer: Id | ChildOf(after, older, p) && IssuedLate(after, newer, p) && older < newer
      ensures after[older].supersededAt.Some?
    {
      assert newer < next + 1 && older < next;
      assert ChildOf(presented, older, p);
      if newer == next {
        assert RowPresented(tokens, presented, t, older, now);
        assert RowPresented(tokens, presented, t, t, now);
        LateChildrenSuperseded(tokens, presented, now, t, older);
      } else {
        assert ChildOf(presented, newer, p);
        assert IssuedLate(presented, newer, p);
      }
    }
  }

  lemma AddKeepsSuccessors(tokens: map<Id, Token>, presented: map<Id, Token>, sessions: map<Id, Session>, next: Id,
                           now: Time, t: Id)
    requires Succeeded(tokens, sessions) && Allocated(presented, sessions, next)
    requires Presented(tokens, presented, t, now)
    ensures Succeeded(presented[next := Successor(presented, t, now)], sessions)
  {
    var after := presented[next := Successor(presented, t, now)];
    forall p | RotatedInOpen(after, sessions, p)
      ensures exists c :: Unreplaced(after, c, p)
    {
      if p == t {
        assert Unreplaced(after, next, t);
      } else {
        assert p != next;
        assert RowPresented(tokens, presented, t, p, now);
        assert RotatedInOpen(tokens, sessions, p);
        var c :| Unreplaced(tokens, c, p);
        assert RowPresented(tokens, presented, t, c, now);
        assert Unreplaced(after, c, p);
      }
    }
  }

  lemma AcceptKeepsForest(tokens: map<Id, Token>, sessions: map<Id, Session>, next: Id, now: Time, t: Id)
    requires Forest(tokens, sessions, next, now) && t in tokens && !Classify(tokens, t, now).Stolen?
    ensures Forest(Present(tokens, t, now)[next := Successor(tokens, t, now)], sessions, next + 1, now)
  {
    PresentRows(tokens, t, now);
    var presented := Present(tokens, t, now);
    assert Successor(presented, t, now) == Successor(tokens, t, now) by {
      assert RowPresented(tokens, presented, t, t, now);
    }
    PresentKeepsShape(tokens, presented, sessions, next, now, t);
    AddKeepsShape(presented, sessions, next, now, t);
    AddKeepsForks(tokens, presented, sessions, next, now, t);
    AddKeepsSuccessors(tokens, presented, sessions, next, now, t);
  }

  /** No row becomes fresh by presenting a token. */
  lemma PresentFresh(tokens: map<Id, Token>, now: Time, t: Id, s: Id, x: Id)
    requires t in tokens && !Classify(tokens, t, now).Stolen?
    ensures Fresh(Present(tokens, t, now), s, x) ==> Fresh(tokens, s, x)
    ensures x == t ==> !Fresh(Present(tokens, t, now), s, x)
    ensures Classify(tokens, t, now).Retry? && Unreplaced(tokens, x, t) ==>
      Fresh(tokens, tokens[x].session, x) && !Fresh(Present(tokens, t, now), s, x)
  {
    PresentRows(tokens, t, now);
    if x in tokens { assert RowPresented(tokens, Present(tokens, t, now), t, x, now); }
  }

  /** The fresh tokens of the session, but for a reuse within the grace period, lose one. */
  lemma PresentCount(tokens: map<Id, Token>, sessions: map<Id, Session>, next: Id, now: Time, t: Id)
    requires Allocated(tokens, sessions, next) && Parented(tokens) && Succeeded(tokens, sessions)
    requires RotatedInOpen(tokens, sessions, t) || (t in tokens && tokens[t].rotatedAt.None?)
    requires !Classify(tokens, t, now).Stolen?
    ensures FreshCount(Present(tokens, t, now), tokens[t].session, next) +
            (if Classify(tokens, t, now).WithinGrace? then 0 else 1) <= FreshCount(tokens, tokens[t].session, next)
  {
    var how := Classify(tokens, t, now);
    var after := Present(tokens, t, now);
    var s := tokens[t].session;
    forall x: Id { PresentFresh(tokens, now, t, s, x); }
    if how.FirstUse? {
      FreshDrops(tokens, after, s, next, t);
    } else if how.Retry? {
      var c :| Unreplaced(tokens, c, t);
      assert GoodChild(tokens, c, t);
      FreshDrops(tokens, after, s, next, c);
    }
  }

  lemma {:induction false} AddCount(tokens: map<Id, Token>, s: Id, n: Id, added: Token)
    requires forall t :: t in tokens ==> t < n
    ensures FreshCount(tokens[n := added], s, n) == FreshCount(tokens, s, n)
  {
    FreshShrinks(tokens, tokens[n := added], s, n);
    FreshShrinks(tokens[n := added], tokens, s, n);
  }

  lemma PresentOthers(tokens: map<Id, Token>, now: Time, t: Id, s: Id, n: Id)
    requires t in tokens && !Classify(tokens, t, now).Stolen?
    ensures FreshCount(Present(tokens, t, now), s, n) <= FreshCount(tokens, s, n)
  {
    forall x: Id { PresentFresh(tokens, now, t, s, x); }
    FreshShrinks(tokens, Present(tokens, t, now), s, n);
  }

  lemma AcceptKeepsCount(tokens: map<Id, Token>, sessions: map<Id, Session>, issues: map<Id, Issue>, next: Id,
                         now: Time, t: Id)
    requires Forest(tokens, sessions, next, now) && Conserved(tokens, sessions, issues, next)
    requires t in tokens && tokens[t].session in sessions && sessions[tokens[t].session].revokedAt.None?
    requires !Classify(tokens, t, now).Stolen?
    ensures Conserved(Present(tokens, t, now)[next := Successor(tokens, t, now)], sessions,
                      issues[next := Issue(tokens[t].session, KindOf(Classify(tokens, t, now)), now)], next + 1)
  {
    PresentRows(tokens, t, now);
    var presented := Present(tokens, t, now);
    var after := presented[next := Successor(tokens, t, now)];
    var issues' := issues[next := Issue(tokens[t].session, KindOf(Classify(tokens, t, now)), now)];
    forall s | s in sessions
      ensures FreshCount(after, s, next + 1) <= 1 + GraceCount(issues', s, next + 1)
    {
      AddCount(presented, s, next, Successor(tokens, t, now));
      GraceKept(issues, issues', s, next);
      if s == tokens[t].session {
        PresentCount(tokens, sessions, next, now, t);
      } else {
        PresentOthers(tokens, now, t, s, next);
      }
    }
  }

  // ---- The account is disabled: the presented token is dealt with and its session ends ----

  lemma DisabledKeepsSuccessors(tokens: map<Id, Token>, sessions: map<Id, Session>, now: Time, t: Id)
    requires Succeeded(tokens, sessions) && t in tokens && !Classify(tokens, t, now).Stolen?
    ensures Succeeded(Present(tokens, t, now), RevokeSession(sessions, tokens[t].session, now))
  {
    var after := Present(tokens, t, now);
    var ended := RevokeSession(sessions, tokens[t].session, now);
    PresentRows(tokens, t, now);
    forall p | RotatedInOpen(after, ended, p)
      ensures exists c :: Unreplaced(after, c, p)
    {
      assert RowPresented(tokens, after, t, p, now);
      assert RotatedInOpen(tokens, sessions, p);
      var c :| Unreplaced(tokens, c, p);
      assert RowPresented(tokens, after, t, c, now);
      assert Unreplaced(after, c, p);
    }
  }

  lemma SameSessions(tokens: map<Id, Token>, sessions: map<Id, Session>, sessions': map<Id, Session>, next: Id)
    requires Allocated(tokens, sessions, next) && Rooted(tokens, sessions) && sessions'.Keys == sessions.Keys
    ensures Allocated(tokens, sessions', next) && Rooted(tokens, sessions')
  {
    assert forall s :: s in sessions' <==> s in sessions;
  }

  lemma DisabledKeepsForest(tokens: map<Id, Token>, sessions: map<Id, Session>, next: Id, now: Time, t: Id)
    requires Forest(tokens, sessions, next, now) && t in tokens && !Classify(tokens, t, now).Stolen?
    ensures Forest(Present(tokens, t, now), RevokeSession(sessions, tokens[t].session, now), next, now)
  {
    hide Allocated; hide Rooted; hide Parented; hide Dated; hide Ordered; hide ForksInGrace; hide Succeeded;
    hide Present; hide Presented;
    PresentRows(tokens, t, now);
    PresentKeepsShape(tokens, Present(tokens, t, now), sessions, next, now, t);
    DisabledKeepsSuccessors(tokens, sessions, now, t);
    SameSessions(Present(tokens, t, now), sessions, RevokeSession(sessions, tokens[t].session, now), next);
  }

  lemma DisabledKeepsCount(tokens: map<Id, Token>, sessions: map<Id, Session>, issues: map<Id, Issue>, next: Id,
                           now: Time, t: Id)
    requires Conserved(tokens, sessions, issues, next) && t in tokens && !Classify(tokens, t, now).Stolen?
    ensures Conserved(Present(tokens, t, now), RevokeSession(sessions, tokens[t].session, now), issues, next)
  {
    forall s | s in sessions { PresentOthers(tokens, now, t, s, next); }
  }

  // ---- A session opens with its root ----

  lemma OpenKeepsSuccessors(tokens: map<Id, Token>, sessions: map<Id, Session>, next: Id, root: Token, session: Session)
    requires Allocated(tokens, sessions, next) && Rooted(tokens, sessions) && Succeeded(tokens, sessions)
    requires root.rotatedAt.None?
    ensures Succeeded(tokens[next + 1 := root], sessions[next := session])
  {
    var (after, withNew) := (tokens[next + 1 := root], sessions[next := session]);
    forall p | RotatedInOpen(after, withNew, p)
      ensures exists c :: Unreplaced(after, c, p)
    {
      assert RotatedInOpen(tokens, sessions, p);
      var c :| Unreplaced(tokens, c, p);
      assert Unreplaced(after, c, p);
    }
  }

  lemma OpenKeepsForks(tokens: map<Id, Token>, sessions: map<Id, Session>, next: Id, root: Token)
    requires Allocated(tokens, sessions, next) && Parented(tokens) && ForksInGrace(tokens) && root.parent.None?
    ensures ForksInGrace(tokens[next + 1 := root])
  {
    var after := tokens[next + 1 := root];
    forall p, older, newer | ChildOf(after, older, p) && IssuedLate(after, newer, p) && older < newer
      ensures after[older].supersededAt.Some?
    {
      assert ChildOf(tokens, newer, p);
      assert ChildOf(tokens, older, p) && IssuedLate(tokens, newer, p);
    }
  }

  lemma OpenKeepsForest(tokens: map<Id, Token>, sessions: map<Id, Session>, next: Id, now: Time, session: Session)
    requires Forest(tokens, sessions, next, now)
    ensures Forest(tokens[next + 1 := Token(next, None, None, None, now)], sessions[next := session], next + 2, now)
  {
    var root := Token(next, None, None, None, now);
    var after := tokens[next + 1 := root];
    forall c, p | ChildOf(after, c, p)
      ensures GoodChild(after, c, p)
    {
      assert ChildOf(tokens, c, p);
    }
    OpenKeepsSuccessors(tokens, sessions, next, root, session);
    OpenKeepsForks(tokens, sessions, next, root);
  }

  lemma OpenKeepsCount(tokens: map<Id, Token>, sessions: map<Id, Session>, issues: map<Id, Issue>, next: Id,
                       now: Time, session: Session)
    requires Forest(tokens, sessions, next, now) && Conserved(tokens, sessions, issues, next)
    ensures Conserved(tokens[next + 1 := Token(next, None, None, None, now)], sessions[next := session],
                      issues[next + 1 := Issue(next, Root, now)], next + 2)
  {
    var after := tokens[next + 1 := Token(next, None, None, None, now)];
    var issues' := issues[next + 1 := Issue(next, Root, now)];
    var withNew := sessions[next := session];
    forall s | s in withNew
      ensures FreshCount(after, s, next + 2) <= 1 + GraceCount(issues', s, next + 2)
    {
      if s == next {
        FreshNone(after, s, next + 1);
      } else {
        FreshShrinks(tokens, after, s, next + 2);
        FreshExtends(tokens, s, next, next + 2);
        GraceKept(issues, issues', s, next);
        GraceGrows(issues', s, next, next + 2);
      }
    }
  }
}
