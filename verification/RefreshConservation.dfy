/** How many fresh tokens a session can have when refreshes run concurrently. */
module RefreshConservation {
  import opened Base
  import opened Tables
  import opened RefreshStatements
  import opened RefreshRecords

  /** Not superseded, and nothing unsuperseded came from it: where a line of tokens ends. */
  ghost predicate IsEnd(tokens: map<Id, Token>, t: Id) {
    t in tokens && tokens[t].supersededAt.None? && forall c :: Child(tokens, c, t) ==> tokens[c].supersededAt.Some?
  }

  ghost function Ends(tokens: map<Id, Token>, session: Id): set<Id> {
    set t | t in tokens && tokens[t].session == session && IsEnd(tokens, t)
  }

  /** Neither rotated nor superseded. */
  function FreshTokens(tokens: map<Id, Token>, session: Id): set<Id> {
    set t | t in tokens && tokens[t].session == session && Unused(tokens[t])
  }

  /** The tokens of `session` issued for an in-grace reuse. */
  function Graces(s: State, session: Id): set<Id> {
    set n | n in s.tokens && n in s.issues && s.tokens[n].session == session && s.issues[n].kind.GraceReuse?
  }

  /** The children of `session` that escaped, each with the token whose late retry they escaped. */
  function Escapes(s: State, session: Id): set<(Id, Id)> {
    set n, c | n in s.tokens && n in s.issues && s.tokens[n].session == session && c in s.issues[n].escaped :: (n, c)
  }

  ghost predicate Conserved(s: State, session: Id) {
    |Ends(s.tokens, session)| <= 1 + |Graces(s, session)| + |Escapes(s, session)|
  }

  ghost predicate AllConserved(s: State) {
    forall session :: Conserved(s, session)
  }

  /** While the session is not revoked, a rotated token has an unsuperseded child. */
  ghost predicate Succeeded(s: State, p: Id) {
    exists c :: Child(s.tokens, c, p) && s.tokens[c].supersededAt.None?
  }

  predicate RotatedLive(s: State, p: Id) {
    p in s.tokens && s.tokens[p].rotatedAt.Some? && s.tokens[p].session !in s.revoked
  }

  ghost predicate AllSucceeded(s: State) {
    forall p :: RotatedLive(s, p) ==> Succeeded(s, p)
  }

  // ---- Sets ----

  lemma FewerOf<T>(a: set<T>, b: set<T>)
    requires a <= b
    ensures |a| <= |b|
  {
    assert b == a + (b - a);
  }

  lemma Swapped(after: set<Id>, before: set<Id>, lost: Id, gained: Id)
    requires lost in before && after <= before - {lost} + {gained}
    ensures |after| <= |before|
  {
    FewerOf(after, before - {lost} + {gained});
  }

  lemma OneMore(after: set<Id>, before: set<Id>, gained: Id)
    requires after <= before + {gained}
    ensures |after| <= |before| + 1
  {
    FewerOf(after, before + {gained});
  }

  // ---- Rows of one commit ----

  /** A commit makes no other token the end of a line. */
  lemma OtherEnds(s: State, x: Tx, after: map<Id, Token>, r: Id)
    requires CommittedAll(s, x, after) && r in s.tokens && r != x.token && IsEnd(after, r)
    ensures IsEnd(s.tokens, r) && after[r].session == s.tokens[r].session
  {
    assert CommittedRow(s, x, after, r);
    forall c | Child(s.tokens, c, r)
      ensures s.tokens[c].supersededAt.Some?
    {
      assert CommittedRow(s, x, after, c);
      assert Child(after, c, r);
    }
  }

  lemma EndsWithin(s: State, x: Tx, after: map<Id, Token>, session: Id, n: Id)
    requires CommittedAll(s, x, after) && (forall r :: r in after && r !in s.tokens ==> r == n)
    ensures Ends(after, session) <= Ends(s.tokens, session) + {x.token, n}
  {
    forall r | r in Ends(after, session) && r != x.token && r != n
      ensures r in Ends(s.tokens, session)
    {
      OtherEnds(s, x, after, r);
    }
  }

  /** In other sessions nothing changes. */
  lemma OtherSession(s: State, x: Tx, after: map<Id, Token>, session: Id)
    requires CommittedAll(s, x, after) && x.token in s.tokens && s.tokens[x.token].session != session
    ensures Ends(after, session) <= Ends(s.tokens, session)
  {
    forall r | r in Ends(after, session)
      ensures r in Ends(s.tokens, session)
    {
      assert CommittedRow(s, x, after, r);
      if r in s.tokens { OtherEnds(s, x, after, r); }
    }
  }

  /** An unused token has no children, so it ends its line. */
  lemma UnusedIsEnd(s: State, t: Id)
    requires Tree(s) && t in s.tokens && Unused(s.tokens[t])
    ensures IsEnd(s.tokens, t)
  {
    assert forall c :: Child(s.tokens, c, t) ==> GoodChild(s, c, t);
  }

  // ---- A commit that issues a token ----

  /** The line that ended in `t` now ends in `n`. */
  lemma MovesOn(s: State, x: Tx, after: map<Id, Token>, n: Id, session: Id)
    requires CommittedAll(s, x, after) && n in after && n !in s.tokens && x.token in s.tokens
    ensures Ends(after, session) <= Ends(s.tokens, session) - {x.token} + {n}
  {
    assert CommittedRow(s, x, after, n) && CommittedRow(s, x, after, x.token);
    assert forall r :: r in after && r !in s.tokens ==> r == n;
    EndsWithin(s, x, after, session, n);
    assert Child(after, n, x.token) && !IsEnd(after, x.token);
  }

  /** The record only grows. */
  lemma RecordsStay(s: State, x: Tx, v: State, session: Id)
    requires CommittedAll(s, x, v.tokens) && s.issues.Keys == s.tokens.Keys && v.issues == Recorded(s, x, v.tokens)
    ensures Graces(s, session) <= Graces(v, session) && Escapes(s, session) <= Escapes(v, session)
  {
    forall n | n in s.tokens
      ensures n in v.tokens && v.tokens[n].session == s.tokens[n].session && v.issues[n] == s.issues[n]
    {
      assert CommittedRow(s, x, v.tokens, n);
    }
  }

  lemma NewGrace(s: State, x: Tx, v: State, n: Id)
    requires CommittedAll(s, x, v.tokens) && s.issues.Keys == s.tokens.Keys && v.issues == Recorded(s, x, v.tokens)
    requires n in v.tokens && n !in s.tokens && KindOf(x.seen, x.began).GraceReuse?
    ensures |Graces(s, v.tokens[n].session)| + 1 <= |Graces(v, v.tokens[n].session)|
  {
    var session := v.tokens[n].session;
    RecordsStay(s, x, v, session);
    FewerOf(Graces(s, session) + {n}, Graces(v, session));
  }

  lemma NewEscape(s: State, x: Tx, v: State, n: Id, c: Id)
    requires CommittedAll(s, x, v.tokens) && s.issues.Keys == s.tokens.Keys && v.issues == Recorded(s, x, v.tokens)
    requires n in v.tokens && n !in s.tokens && c in x.escaped
    ensures |Escapes(s, v.tokens[n].session)| + 1 <= |Escapes(v, v.tokens[n].session)|
  {
    var session := v.tokens[n].session;
    RecordsStay(s, x, v, session);
    FewerOf(Escapes(s, session) + {(n, c)}, Escapes(v, session));
  }

  // ---- The cases of a commit ----

  /** A child that was unused and is superseded gives up its end. */
  lemma ChildGivesUp(s: State, x: Tx, after: map<Id, Token>, c: Id, session: Id, gained: Id)
    requires Tree(s) && CommittedAll(s, x, after) && c in s.tokens && s.tokens[c].session == session
    requires Unused(s.tokens[c]) && after[c].supersededAt.Some?
    requires Ends(after, session) <= Ends(s.tokens, session) + {gained} && c != gained
    ensures |Ends(after, session)| <= |Ends(s.tokens, session)|
  {
    UnusedIsEnd(s, c);
    assert c !in Ends(after, session);
    Swapped(Ends(after, session), Ends(s.tokens, session), c, gained);
  }

  /** Nothing is issued: the token may be rotated, or its children superseded, for a disabled account. */
  lemma NothingIssued(s: State, x: Tx, after: map<Id, Token>, session: Id)
    requires Tree(s) && CommittedAll(s, x, after) && x.token in s.tokens && after.Keys == s.tokens.Keys
    ensures |Ends(after, session)| <= |Ends(s.tokens, session)|
  {
    hide Tree; hide CommittedAll; hide Ends;
    if c :| Child(s.tokens, c, x.token) && c in after && s.tokens[c].supersededAt.None? && after[c].supersededAt.Some? {
      if s.tokens[x.token].session == session {
        assert Unused(s.tokens[c]) && s.tokens[c].session == session && c != x.token by { GaveUp(s, x, after, c); }
        OnlyToken(s, x, after, session);
        ChildGivesUp(s, x, after, c, session, x.token);
      } else {
        OtherSession(s, x, after, session);
        FewerOf(Ends(after, session), Ends(s.tokens, session));
      }
    } else {
      SameEnds(s, x, after, session);
      FewerOf(Ends(after, session), Ends(s.tokens, session));
    }
  }

  lemma GaveUp(s: State, x: Tx, after: map<Id, Token>, c: Id)
    requires Tree(s) && CommittedAll(s, x, after) && Child(s.tokens, c, x.token) && c in after
    requires s.tokens[c].supersededAt.None? && after[c].supersededAt.Some?
    ensures Unused(s.tokens[c]) && s.tokens[c].session == s.tokens[x.token].session && c != x.token
  {
    assert GoodChild(s, c, x.token) && CommittedRow(s, x, after, c);
  }

  lemma OnlyToken(s: State, x: Tx, after: map<Id, Token>, session: Id)
    requires CommittedAll(s, x, after) && after.Keys == s.tokens.Keys
    ensures Ends(after, session) <= Ends(s.tokens, session) + {x.token}
  {
    EndsWithin(s, x, after, session, x.token);
  }

  lemma SameEnds(s: State, x: Tx, after: map<Id, Token>, session: Id)
    requires CommittedAll(s, x, after) && x.token in s.tokens && after.Keys == s.tokens.Keys
    requires !exists c ::
               Child(s.tokens, c, x.token) && c in after && s.tokens[c].supersededAt.None? &&
               after[c].supersededAt.Some?
    ensures Ends(after, session) <= Ends(s.tokens, session)
  {
    forall r | r in Ends(after, session)
      ensures r in Ends(s.tokens, session)
    {
      assert CommittedRow(s, x, after, r);
      if r != x.token { OtherEnds(s, x, after, r); }
      else {
        forall c | Child(s.tokens, c, r)
          ensures s.tokens[c].supersededAt.Some?
        {
          assert CommittedRow(s, x, after, c) && Child(after, c, r);
        }
      }
    }
  }

  /** A late retry: an unsuperseded child of its token escaped it, or gives up its end for the new token. */
  lemma LateIssued(s: State, tx: Txn, v: State, n: Id)
    requires Tree(s) && tx in s.txs && GoodTx(s, tx) && GoodRecord(s, tx) && s.txs[tx].phase.Committing? && Kept(s)
    requires CommittedAll(s, s.txs[tx], v.tokens) && v.tokens == Merged(s.tokens, s.txs[tx].writes)
    requires v.issues == Recorded(s, s.txs[tx], v.tokens) && n in v.tokens && n !in s.tokens
    requires s.txs[tx].token in s.tokens
    requires KindOf(s.txs[tx].seen, s.txs[tx].began).LateRetry? && !IsEnd(s.tokens, s.txs[tx].token)
    ensures var session := s.tokens[s.txs[tx].token].session;
      |Ends(v.tokens, session)| <= |Ends(s.tokens, session)| ||
      (|Ends(v.tokens, session)| <= |Ends(s.tokens, session)| + 1 && |Escapes(s, session)| + 1 <= |Escapes(v, session)|)
  {
    hide Ends; hide Escapes; hide Tree; hide CommittedAll; hide IsEnd; hide GoodRecord; hide RotationsRight;
    var x := s.txs[tx];
    var session := s.tokens[x.token].session;
    MovesOn(s, x, v.tokens, n, session);
    assert Ends(v.tokens, session) <= Ends(s.tokens, session) + {n};
    var c := LateChild(s, tx);
    if c in x.escaped {
      assert v.tokens[n].session == session by { NewSession(s, x, v.tokens, n); }
      NewEscape(s, x, v, n, c);
      OneMore(Ends(v.tokens, session), Ends(s.tokens, session), n);
    } else {
      ChildGivesUp(s, x, v.tokens, c, session, n);
    }
  }

  lemma NewSession(s: State, x: Tx, after: map<Id, Token>, n: Id)
    requires CommittedAll(s, x, after) && n in after && n !in s.tokens && x.token in s.tokens
    ensures after[n].session == s.tokens[x.token].session
  {
    assert CommittedRow(s, x, after, n);
  }

  lemma LateChild(s: State, tx: Txn) returns (c: Id)
    requires Tree(s) && tx in s.txs && GoodTx(s, tx) && GoodRecord(s, tx) && s.txs[tx].phase.Committing? && Kept(s)
    requires s.txs[tx].token in s.tokens && KindOf(s.txs[tx].seen, s.txs[tx].began).LateRetry?
    requires !IsEnd(s.tokens, s.txs[tx].token)
    ensures c in s.tokens && s.tokens[c].session == s.tokens[s.txs[tx].token].session
    ensures c in s.txs[tx].escaped ||
            (Unused(s.tokens[c]) && c in s.txs[tx].writes && s.txs[tx].writes[c].supersededAt.Some?)
  {
    var x := s.txs[tx];
    assert s.tokens[x.token].supersededAt.None? && x.token !in x.writes by { LateToken(s, tx); }
    c :| Child(s.tokens, c, x.token) && s.tokens[c].supersededAt.None?;
    assert GoodChild(s, c, x.token);
    assert PassedRight(s.rotations, x.checkedAt, x.passed, x.escaped, c);
    assert Settled(View(s, x, c));
    if c in x.writes { assert GoodWrite(s, tx, c); }
  }

  lemma LateToken(s: State, tx: Txn)
    requires tx in s.txs && GoodTx(s, tx) && GoodRecord(s, tx) && s.txs[tx].phase.Committing?
    requires KindOf(s.txs[tx].seen, s.txs[tx].began).LateRetry?
    ensures s.txs[tx].token in s.tokens && s.tokens[s.txs[tx].token].supersededAt.None?
    ensures s.txs[tx].token !in s.txs[tx].writes
  {
    var x := s.txs[tx];
    assert forall r :: r in x.writes && r in s.tokens && r == x.token ==> GoodWrite(s, tx, r);
  }

  /** A first use moves the end of its line; a grace reuse may add one. */
  lemma EarlyIssued(s: State, tx: Txn, v: State, n: Id)
    requires Tree(s) && tx in s.txs && GoodTx(s, tx) && GoodRecord(s, tx) && s.txs[tx].phase.Committing? && Kept(s)
    requires CommittedAll(s, s.txs[tx], v.tokens) && v.issues == Recorded(s, s.txs[tx], v.tokens)
    requires n in v.tokens && n !in s.tokens && s.txs[tx].token in s.tokens
    requires !KindOf(s.txs[tx].seen, s.txs[tx].began).LateRetry?
    ensures var session := s.tokens[s.txs[tx].token].session;
      |Ends(v.tokens, session)| <= |Ends(s.tokens, session)| ||
      (|Ends(v.tokens, session)| <= |Ends(s.tokens, session)| + 1 && |Graces(s, session)| + 1 <= |Graces(v, session)|)
  {
    hide Ends; hide Graces; hide Tree; hide CommittedAll; hide IsEnd; hide GoodTx; hide RotationsRight;
    var x := s.txs[tx];
    var session := s.tokens[x.token].session;
    MovesOn(s, x, v.tokens, n, session);
    if x.seen.None? {
      assert x.token in Ends(s.tokens, session) by { FirstUseEnds(s, tx); }
      Swapped(Ends(v.tokens, session), Ends(s.tokens, session), x.token, n);
    } else {
      assert v.tokens[n].session == session by { NewSession(s, x, v.tokens, n); }
      NewGrace(s, x, v, n);
      assert Ends(v.tokens, session) <= Ends(s.tokens, session) + {n};
      OneMore(Ends(v.tokens, session), Ends(s.tokens, session), n);
    }
  }

  lemma FirstUseEnds(s: State, tx: Txn)
    requires Tree(s) && tx in s.txs && GoodTx(s, tx) && GoodRecord(s, tx) && s.txs[tx].phase.Committing?
    requires s.txs[tx].seen.None? && s.txs[tx].token in s.tokens
    ensures s.txs[tx].token in Ends(s.tokens, s.tokens[s.txs[tx].token].session)
  {
    hide Tree;
    var x := s.txs[tx];
    assert GoodWrite(s, tx, x.token);
    UnusedIsEnd(s, x.token);
  }

  lemma CommitConserves(s: State, tx: Txn, session: Id)
    requires Inv(s) && Documented(s) && DoCommit(s, tx) != s && Conserved(s, session)
    ensures Conserved(DoCommit(s, tx), session)
  {
    hide Tree; hide LateSettled; hide OneWriter; hide GoodTx; hide GoodRecord; hide AllSeenRight; hide AllEscapesRight;
    hide CommittedAll; hide Ends; hide Graces; hide Escapes; hide IsEnd; hide RotationsRight;
    var v, x := DoCommit(s, tx), s.txs[tx];
    assert GoodTx(s, tx) && GoodRecord(s, tx);
    CommitRows(s, tx);
    HoldsItsToken(s, tx);
    RecordsStay(s, x, v, session);
    FewerOf(Graces(s, session), Graces(v, session));
    FewerOf(Escapes(s, session), Escapes(v, session));
    if s.tokens[x.token].session != session {
      OtherSession(s, x, v.tokens, session);
      FewerOf(Ends(v.tokens, session), Ends(s.tokens, session));
    } else if n :| n in v.tokens && n !in s.tokens {
      CommitAdds(s, tx, n);
      if !KindOf(x.seen, x.began).LateRetry? { EarlyIssued(s, tx, v, n); }
      else if IsEnd(s.tokens, x.token) {
        MovesOn(s, x, v.tokens, n, session);
        assert x.token in Ends(s.tokens, session) by { EndIn(s.tokens, x.token); }
        Swapped(Ends(v.tokens, session), Ends(s.tokens, session), x.token, n);
      }
      else { LateIssued(s, tx, v, n); }
    } else {
      assert v.tokens.Keys == s.tokens.Keys;
      NothingIssued(s, x, v.tokens, session);
    }
  }

  lemma EndIn(tokens: map<Id, Token>, t: Id)
    requires IsEnd(tokens, t)
    ensures t in Ends(tokens, tokens[t].session)
  {
  }

  lemma OpenConserves(s: State, session: Id)
    requires Tree(s) && s.issues.Keys == s.tokens.Keys && Conserved(s, session)
    ensures Conserved(DoOpen(s), session)
  {
    hide Tree; hide Ends; hide Graces; hide Escapes; hide DoOpen;
    var v := DoOpen(s);
    OpenRecords(s, session);
    FewerOf(Graces(s, session), Graces(v, session));
    FewerOf(Escapes(s, session), Escapes(v, session));
    if session == s.next {
      OwnSessionOnly(s);
      FewerOf(Ends(v.tokens, session), {s.next});
    } else {
      OpenEnds(s, session);
      FewerOf(Ends(v.tokens, session), Ends(s.tokens, session));
    }
  }

  lemma OpenRecords(s: State, session: Id)
    requires Tree(s) && s.issues.Keys == s.tokens.Keys
    ensures Graces(s, session) <= Graces(DoOpen(s), session) && Escapes(s, session) <= Escapes(DoOpen(s), session)
  {
    NextIsFresh(s);
    hide Tree;
  }

  lemma OwnSessionOnly(s: State)
    requires Tree(s)
    ensures Ends(DoOpen(s).tokens, s.next) <= {s.next}
  {
    hide GoodChild;
  }

  lemma OpenEnds(s: State, session: Id)
    requires Tree(s) && session != s.next
    ensures Ends(DoOpen(s).tokens, session) <= Ends(s.tokens, session)
  {
    var v := DoOpen(s);
    forall r | r in Ends(v.tokens, session)
      ensures r in Ends(s.tokens, session)
    {
      assert forall c :: Child(s.tokens, c, r) ==> Child(v.tokens, c, r) && v.tokens[c] == s.tokens[c] by {
        NextIsFresh(s);
      }
    }
  }

  lemma SameRowsConserve(s: State, v: State)
    requires AllConserved(s) && v.tokens == s.tokens && v.issues == s.issues
    ensures AllConserved(v)
  {
    forall session
      ensures Conserved(v, session)
    {
      assert Conserved(s, session);
    }
  }

  lemma StepConserves(s: State, step: Step)
    requires Inv(s) && Documented(s) && AllConserved(s)
    ensures AllConserved(Next(s, step))
  {
    hide Inv; hide Documented; hide Conserved; hide DoOpen; hide DoCommit;
    var v := Next(s, step);
    if v != s {
      if step.OpenSession? {
        forall session
          ensures Conserved(v, session)
        {
          assert Conserved(s, session);
          assert Tree(s) && s.issues.Keys == s.tokens.Keys by { TreeOf(s); KeysOf(s); }
          OpenConserves(s, session);
        }
      } else if step.Commit? {
        forall session
          ensures Conserved(v, session)
        {
          assert Conserved(s, session);
          CommitConserves(s, step.tx, session);
        }
      } else {
        hide Next;
        TablesStay(s, step);
        SameRowsConserve(s, v);
      }
    }
  }

  lemma KeysOf(s: State)
    requires Documented(s)
    ensures s.issues.Keys == s.tokens.Keys
  {
  }

  lemma TablesStay(s: State, step: Step)
    requires !step.OpenSession? && !step.Commit?
    ensures Next(s, step).tokens == s.tokens && Next(s, step).issues == s.issues
    ensures !step.Logout? ==> Next(s, step).revoked == s.revoked
  {
    hide DoBegin; hide DoAsk; hide DoLock; hide DoRotate; hide DoCheck; hide DoScan; hide DoSupersede; hide DoJudge;
    hide DoInsert; hide DoRevoke; hide DoLogout; hide Close;
  }

  // ---- A live session always has a fresh token ----

  lemma CommitSucceeds(s: State, tx: Txn, p: Id)
    requires Inv(s) && Documented(s) && DoCommit(s, tx) != s && AllSucceeded(s) && RotatedLive(DoCommit(s, tx), p)
    ensures Succeeded(DoCommit(s, tx), p)
  {
    hide LateSettled; hide OneWriter; hide AllSeenRight; hide AllEscapesRight; hide Kept; hide Tree; hide GoodTx;
    hide GoodRecord;
    var v, x := DoCommit(s, tx), s.txs[tx];
    assert GoodTx(s, tx) && GoodRecord(s, tx);
    CommitRows(s, tx);
    HoldsItsToken(s, tx);
    assert CommittedRow(s, x, v.tokens, p);
    if p == x.token {
      var n := CommittingAdds(s, tx);
      assert CommittedRow(s, x, v.tokens, n);
      assert Child(v.tokens, n, p);
    } else {
      assert RotatedLive(s, p);
      var c :| Child(s.tokens, c, p) && s.tokens[c].supersededAt.None?;
      assert CommittedRow(s, x, v.tokens, c);
      assert Child(v.tokens, c, p);
    }
  }

  /** A commit that does not revoke has a new token. */
  lemma CommittingAdds(s: State, tx: Txn) returns (n: Id)
    requires tx in s.txs && GoodRecord(s, tx) && DoCommit(s, tx) != s && s.txs[tx].token in s.tokens
    requires s.tokens[s.txs[tx].token].session !in DoCommit(s, tx).revoked
    ensures n in DoCommit(s, tx).tokens && n !in s.tokens
  {
    hide UpdateRight; hide ScanRight; hide AskedRight;
    n :| n in s.txs[tx].writes && n !in s.tokens;
  }

  lemma StepSucceeds(s: State, step: Step)
    requires Inv(s) && Documented(s) && AllSucceeded(s)
    ensures AllSucceeded(Next(s, step))
  {
    hide Inv; hide Documented; hide Succeeded; hide DoOpen; hide DoCommit; hide DoLogout; hide RotatedLive;
    var v := Next(s, step);
    if v != s {
      forall p | RotatedLive(v, p)
        ensures Succeeded(v, p)
      {
        if step.Commit? { CommitSucceeds(s, step.tx, p); }
        else if step.OpenSession? { TreeOf(s); OpenSucceeds(s, p); }
        else {
          hide Next;
          TablesStay(s, step);
          if step.Logout? { LogoutSucceeds(s, step.session, p); } else { SameSucceeds(s, v, p); }
        }
      }
    }
  }

  lemma OpenSucceeds(s: State, p: Id)
    requires Tree(s) && AllSucceeded(s) && RotatedLive(DoOpen(s), p)
    ensures Succeeded(DoOpen(s), p)
  {
    NextIsFresh(s);
    hide Tree;
    assert RotatedLive(s, p);
    var c :| Child(s.tokens, c, p) && s.tokens[c].supersededAt.None?;
    assert Child(DoOpen(s).tokens, c, p);
  }

  lemma SameSucceeds(s: State, v: State, p: Id)
    requires AllSucceeded(s) && v.tokens == s.tokens && v.revoked == s.revoked && RotatedLive(v, p)
    ensures Succeeded(v, p)
  {
    assert RotatedLive(s, p) && Succeeded(s, p);
  }

  lemma LogoutSucceeds(s: State, session: Id, p: Id)
    requires AllSucceeded(s) && RotatedLive(Next(s, Logout(session)), p)
    ensures Succeeded(Next(s, Logout(session)), p)
  {
    assert RotatedLive(s, p) && Succeeded(s, p);
  }

  /** From an unsuperseded token of a live session, unsuperseded children lead to a fresh one. */
  lemma {:induction false} LeadsToFresh(s: State, t: Id) returns (found: Id)
    requires Tree(s) && AllSucceeded(s) && t in s.tokens && s.tokens[t].supersededAt.None?
    requires s.tokens[t].session !in s.revoked
    ensures found in FreshTokens(s.tokens, s.tokens[t].session)
    decreases s.next - t
  {
    if s.tokens[t].rotatedAt.None? {
      found := t;
    } else {
      assert RotatedLive(s, t);
      var c :| Child(s.tokens, c, t) && s.tokens[c].supersededAt.None?;
      assert GoodChild(s, c, t);
      found := LeadsToFresh(s, c);
    }
  }

  lemma FreshAreEnds(s: State, session: Id)
    requires Tree(s)
    ensures FreshTokens(s.tokens, session) <= Ends(s.tokens, session)
  {
    hide Tree;
    forall t | t in FreshTokens(s.tokens, session)
      ensures t in Ends(s.tokens, session)
    {
      UnusedIsEnd(s, t);
    }
  }

  // ---- Every run ----

  ghost predicate Whole(s: State) {
    Inv(s) && Documented(s) && AllConserved(s) && AllSucceeded(s)
  }

  lemma {:induction false} RunKeepsWhole(s: State, steps: seq<Step>)
    requires Whole(s)
    ensures Whole(Run(s, steps))
    decreases |steps|
  {
    hide Inv; hide Documented; hide AllConserved; hide AllSucceeded; hide Next;
    if steps != [] {
      StepKeeps(s, steps[0]);
      StepDocuments(s, steps[0]);
      StepConserves(s, steps[0]);
      StepSucceeds(s, steps[0]);
      RunKeepsWhole(Next(s, steps[0]), steps[1..]);
    }
  }

  lemma WholeAlways(start: Time, steps: seq<Step>)
    ensures Whole(Run(Start(start), steps))
  {
    hide Run;
    assert Whole(Start(start));
    RunKeepsWhole(Start(start), steps);
  }
}
