/** Three runs of statements that show what concurrency costs, each written down step by step. */
module RefreshRuns {
  import opened Base
  import opened Tables
  import opened RefreshStatements
  import opened RefreshConservation
  import opened RefreshRaces

  /** The tables and transactions of a state, without the record of how they came about. */
  ghost predicate Shows(s: State, tokens: map<Id, Token>, locks: map<Id, Txn>, txs: map<Txn, Tx>, revoked: set<Id>,
                        next: Id, now: Time) {
    s.tokens == tokens && s.locks == locks && s.sessionLocks == map[] && s.txs == txs && s.revoked.Keys == revoked &&
    s.next == next && s.now == now && s.issues.Keys == tokens.Keys
  }

  /** Not an in-grace reuse, and nothing escaped it. */
  predicate Plain(i: Issued) {
    !i.kind.GraceReuse? && i.escaped == {}
  }

  predicate AllPlain(s: State) {
    forall t :: t in s.issues ==> Plain(s.issues[t])
  }

  // ---- A refresh of an unused token, alone ----

  ghost predicate CanRefresh(s: State, tx: Txn, t: Id) {
    && t in s.tokens && Unused(s.tokens[t]) && t !in s.locks && tx !in s.txs
    && (forall r :: r in s.locks ==> s.locks[r] != tx)
    && (forall r :: r in s.sessionLocks ==> s.sessionLocks[r] != tx)
    && s.issues.Keys == s.tokens.Keys && s.next !in s.tokens && Alive(s, t, s.now)
  }

  function NewRow(s: State, t: Id): Token
    requires t in s.tokens
  {
    Token(s.tokens[t].session, Some(t), None, None, s.now)
  }

  /** Everything but the record is as before, except for the rotated row and the new one. */
  ghost predicate Refreshed(s: State, v: State, t: Id)
    requires t in s.tokens
  {
    && v.tokens == s.tokens[t := s.tokens[t].(rotatedAt := Some(s.now))][s.next := NewRow(s, t)]
    && v.locks == s.locks && v.sessionLocks == s.sessionLocks && v.txs == s.txs && v.revoked == s.revoked
    && v.next == s.next + 1 && v.now == s.now && s.next in v.issues && Plain(v.issues[s.next])
    && v.issues == s.issues[s.next := v.issues[s.next]]
  }

  function Mid(s: State, tx: Txn, x: Tx, locks: map<Id, Txn>, next: Id, count: nat): State {
    s.(txs := s.txs[tx := x], locks := locks, next := next, count := count)
  }

  lemma RefreshLocks(s: State, tx: Txn, t: Id)
    requires CanRefresh(s, tx, t)
    ensures DoLock(DoAsk(DoBegin(s, tx, t), tx), tx) ==
            Mid(s, tx, Tx(t, s.now, Rotating, map[], None, s.count + 1, 0, map[], {}), s.locks[t := tx], s.next,
                s.count + 3)
  {
    var s1 := DoBegin(s, tx, t);
    assert s1 == Mid(s, tx, Tx(t, s.now, Begun, map[], None, 0, 0, map[], {}), s.locks, s.next, s.count + 1);
    var s2 := DoAsk(s1, tx);
    assert s2 == Mid(s, tx, Tx(t, s.now, Locking(true), map[], None, s.count + 1, 0, map[], {}), s.locks, s.next,
                     s.count + 2) by {
      assert Alive(s1, t, s.now);
      hide Alive;
      assert s1.txs[tx := s2.txs[tx]] == s.txs[tx := s2.txs[tx]];
    }
    hide Alive;
    var s3 := DoLock(s2, tx);
    assert s2.txs[tx := s3.txs[tx]] == s.txs[tx := s3.txs[tx]];
  }

  lemma RotateMid(s: State, tx: Txn, t: Id, asked: nat, locks: map<Id, Txn>, count: nat)
    requires t in s.tokens
    ensures var row := s.tokens[t].(rotatedAt := Some(s.now));
      DoRotate(Mid(s, tx, Tx(t, s.now, Rotating, map[], None, asked, 0, map[], {}), locks, s.next, count), tx) ==
      Mid(s, tx, Tx(t, s.now, Judging, map[t := row], None, asked, 0, map[], {}), locks, s.next, count + 1)
  {
    var m := Mid(s, tx, Tx(t, s.now, Rotating, map[], None, asked, 0, map[], {}), locks, s.next, count);
    var v := DoRotate(m, tx);
    assert v.txs == s.txs[tx := v.txs[tx]];
  }

  lemma JudgeMid(s: State, tx: Txn, x: Tx, locks: map<Id, Txn>, count: nat)
    requires x.phase.Judging?
    ensures DoJudge(Mid(s, tx, x, locks, s.next, count), tx, true) ==
            Mid(s, tx, x.(phase := Inserting), locks, s.next, count + 1)
  {
    var v := DoJudge(Mid(s, tx, x, locks, s.next, count), tx, true);
    assert v.txs == s.txs[tx := v.txs[tx]];
  }

  lemma InsertMid(s: State, tx: Txn, x: Tx, locks: map<Id, Txn>, count: nat)
    requires x.phase.Inserting? && x.token in s.tokens && x.began == s.now
    ensures DoInsert(Mid(s, tx, x, locks, s.next, count), tx) ==
            Mid(s, tx, x.(phase := Committing, writes := x.writes[s.next := NewRow(s, x.token)]), locks, s.next + 1,
                count + 1)
  {
    var v := DoInsert(Mid(s, tx, x, locks, s.next, count), tx);
    assert v.txs == s.txs[tx := v.txs[tx]];
  }

  lemma RefreshWrites(s: State, tx: Txn, t: Id, asked: nat, locks: map<Id, Txn>, count: nat)
    requires t in s.tokens
    ensures var m := Mid(s, tx, Tx(t, s.now, Rotating, map[], None, asked, 0, map[], {}), locks, s.next, count);
      var writes := map[t := s.tokens[t].(rotatedAt := Some(s.now))][s.next := NewRow(s, t)];
      DoInsert(DoJudge(DoRotate(m, tx), tx, true), tx) ==
      Mid(s, tx, Tx(t, s.now, Committing, writes, None, asked, 0, map[], {}), locks, s.next + 1, count + 3)
  {
    hide DoRotate; hide DoJudge; hide DoInsert; hide Mid;
    var x := Tx(t, s.now, Judging, map[t := s.tokens[t].(rotatedAt := Some(s.now))], None, asked, 0, map[], {});
    RotateMid(s, tx, t, asked, locks, count);
    JudgeMid(s, tx, x, locks, count + 1);
    InsertMid(s, tx, x.(phase := Inserting), locks, count + 2);
  }

  function Finished(s: State, tx: Txn, t: Id, asked: nat, count: nat): State
    requires t in s.tokens
  {
    var writes := map[t := s.tokens[t].(rotatedAt := Some(s.now))][s.next := NewRow(s, t)];
    Mid(s, tx, Tx(t, s.now, Committing, writes, None, asked, 0, map[], {}), s.locks[t := tx], s.next + 1, count)
  }

  lemma RefreshEnds(s: State, tx: Txn, t: Id, asked: nat, count: nat)
    requires CanRefresh(s, tx, t)
    ensures var writes := map[t := s.tokens[t].(rotatedAt := Some(s.now))][s.next := NewRow(s, t)];
      var m := Mid(s, tx, Tx(t, s.now, Committing, writes, None, asked, 0, map[], {}), s.locks[t := tx], s.next + 1,
                   count);
      Refreshed(s, DoCommit(m, tx), t)
  {
    EndsRows(s, tx, t, asked, count);
    EndsLocks(s, tx, t, asked, count);
    hide DoCommit;
  }

  lemma EndsRows(s: State, tx: Txn, t: Id, asked: nat, count: nat)
    requires CanRefresh(s, tx, t)
    ensures var v := DoCommit(Finished(s, tx, t, asked, count), tx);
      && v.tokens == s.tokens[t := s.tokens[t].(rotatedAt := Some(s.now))][s.next := NewRow(s, t)]
      && s.next in v.issues && Plain(v.issues[s.next]) && v.issues == s.issues[s.next := v.issues[s.next]]
  {
    hide Merged; hide Release; hide Dated; hide Rotated; hide Alive;
    var m := Finished(s, tx, t, asked, count);
    MergesTo(s, t);
    assert DoCommit(m, tx).issues == s.issues[s.next := Record(m.txs[tx])];
  }

  lemma EndsLocks(s: State, tx: Txn, t: Id, asked: nat, count: nat)
    requires CanRefresh(s, tx, t)
    ensures var v := DoCommit(Finished(s, tx, t, asked, count), tx);
      && v.locks == s.locks && v.sessionLocks == s.sessionLocks && v.txs == s.txs && v.revoked == s.revoked
      && v.next == s.next + 1 && v.now == s.now
  {
    hide Merged; hide Release; hide Dated; hide Rotated; hide Recorded; hide Alive;
    ReleasesTo(s.locks, t, tx);
    NothingToRelease(s.sessionLocks, tx);
    var m := Finished(s, tx, t, asked, count);
    assert m.txs - {tx} == s.txs;
  }

  lemma MergesTo(s: State, t: Id)
    requires t in s.tokens
    ensures var row := s.tokens[t].(rotatedAt := Some(s.now));
      Merged(s.tokens, map[t := row][s.next := NewRow(s, t)]) == s.tokens[t := row][s.next := NewRow(s, t)]
  {
  }

  lemma ReleasesTo(locks: map<Id, Txn>, t: Id, tx: Txn)
    requires t !in locks && forall r :: r in locks ==> locks[r] != tx
    ensures Release(locks[t := tx], tx) == locks
  {
  }

  lemma NothingToRelease(locks: map<Id, Txn>, tx: Txn)
    requires forall r :: r in locks ==> locks[r] != tx
    ensures Release(locks, tx) == locks
  {
  }

  lemma WholeRefresh(s0: State, steps: seq<Step>, tx: Txn, t: Id) returns (all: seq<Step>)
    requires CanRefresh(Run(s0, steps), tx, t)
    ensures Refreshed(Run(s0, steps), Run(s0, all), t)
  {
    hide Run; hide Next; hide Refreshed; hide CanRefresh; hide DoBegin; hide DoAsk; hide DoLock; hide DoRotate;
    hide DoJudge; hide DoInsert;
    hide DoCommit; hide Mid;
    var s := Run(s0, steps);
    assert t in s.tokens by { Refreshable(s, tx, t); }
    RefreshLocks(s, tx, t);
    RefreshWrites(s, tx, t, s.count + 1, s.locks[t := tx], s.count + 3);
    RefreshEnds(s, tx, t, s.count + 1, s.count + 6);
    all := steps;
    Does(Run(s0, all), tx, t); Extend(s0, all, Begin(tx, t)); all := all + [Begin(tx, t)];
    Does(Run(s0, all), tx, t); Extend(s0, all, Ask(tx)); all := all + [Ask(tx)];
    Does(Run(s0, all), tx, t); Extend(s0, all, Lock(tx)); all := all + [Lock(tx)];
    Does(Run(s0, all), tx, t); Extend(s0, all, Rotate(tx)); all := all + [Rotate(tx)];
    Does(Run(s0, all), tx, t); Extend(s0, all, Judge(tx, true)); all := all + [Judge(tx, true)];
    Does(Run(s0, all), tx, t); Extend(s0, all, Insert(tx)); all := all + [Insert(tx)];
    Does(Run(s0, all), tx, t); Extend(s0, all, Commit(tx)); all := all + [Commit(tx)];
  }

  lemma Refreshable(s: State, tx: Txn, t: Id)
    requires CanRefresh(s, tx, t)
    ensures t in s.tokens
  {
  }

  // ---- The fork bound and conservation ----

  const LATER: Time := 31 * SECOND

  function Root(rotated: Option<Time>): Token { Token(0, None, rotated, None, 0) }
  function Successor(parent: Id, rotated: Option<Time>, at: Time): Token { Token(0, Some(parent), rotated, None, at) }

  lemma Empty(s: State)
    ensures Run(s, []) == s
  {
  }

  /** One session and its root. */
  lemma SessionOpens() returns (steps: seq<Step>)
    ensures var s := Run(Start(0), steps);
      Shows(s, map[0 := Root(None)], map[], map[], {}, 1, 0) && AllPlain(s)
  {
    hide Run;
    steps := [OpenSession];
    assert Run(Start(0), steps) == Next(Start(0), OpenSession) by {
      Extend(Start(0), [], OpenSession);
      Empty(Start(0));
      assert [] + steps == steps;
    }
  }

  /** Token 0 was refreshed into token 1; 31 seconds later a retry of it has found no used successor. */
  lemma RetryStarts() returns (steps: seq<Step>, x: Tx)
    ensures var s := Run(Start(0), steps);
      && Shows(s, map[0 := Root(Some(0)), 1 := Successor(0, None, 0)], map[0 := 2], map[2 := x], {}, 2, LATER)
      && x.phase.Scanning? && x.token == 0 && x.began == LATER && x.seen == Some(0) && x.writes == map[]
      && AllPlain(s)
  {
    hide Run; hide DoBegin; hide DoAsk; hide DoLock; hide DoCheck; hide Refreshed;
    var s0 := Start(0);
    steps := SessionOpens();
    var s1 := Run(s0, steps);
    steps := WholeRefresh(s0, steps, 1, 0);
    var s2 := Run(s0, steps);
    AfterFirst(s1, s2);
    Extend(s0, steps, Tick(LATER)); steps := steps + [Tick(LATER)];
    var s3 := Run(s0, steps);
    hide Next;
    x := RetryChecks(s3);
    Does(Run(s0, steps), 2, 0); Extend(s0, steps, Begin(2, 0)); steps := steps + [Begin(2, 0)];
    Does(Run(s0, steps), 2, 0); Extend(s0, steps, Ask(2)); steps := steps + [Ask(2)];
    Does(Run(s0, steps), 2, 0); Extend(s0, steps, Lock(2)); steps := steps + [Lock(2)];
    Does(Run(s0, steps), 2, 0); Extend(s0, steps, Check(2)); steps := steps + [Check(2)];
  }

  lemma AfterFirst(s: State, v: State)
    requires Shows(s, map[0 := Root(None)], map[], map[], {}, 1, 0) && AllPlain(s) && Refreshed(s, v, 0)
    ensures Shows(v, map[0 := Root(Some(0)), 1 := Successor(0, None, 0)], map[], map[], {}, 2, 0)
    ensures AllPlain(v)
  {
  }

  lemma RetryChecks(s: State) returns (x: Tx)
    requires Shows(s, map[0 := Root(Some(0)), 1 := Successor(0, None, 0)], map[], map[], {}, 2, LATER)
    ensures var v := DoCheck(DoLock(DoAsk(DoBegin(s, 2, 0), 2), 2), 2);
      && Shows(v, s.tokens, map[0 := 2], map[2 := x], {}, 2, LATER) && v.issues == s.issues
      && x.phase.Scanning? && x.token == 0 && x.began == LATER && x.seen == Some(0) && x.writes == map[]
  {
    hide Shows;
    assert Shows(s, s.tokens, map[], map[], {}, 2, LATER) &&
           s.tokens == map[0 := Root(Some(0)), 1 := Successor(0, None, 0)] by {
      ShowsTokens(s);
    }
    RetryLocks(s);
    var u := DoLock(DoAsk(DoBegin(s, 2, 0), 2), 2);
    var v := DoCheck(u, 2);
    CheckPasses(s, u);
    x := v.txs[2];
  }

  lemma ShowsTokens(s: State)
    requires Shows(s, map[0 := Root(Some(0)), 1 := Successor(0, None, 0)], map[], map[], {}, 2, LATER)
    ensures s.tokens == map[0 := Root(Some(0)), 1 := Successor(0, None, 0)]
  {
  }

  lemma RetryLocks(s: State)
    requires Shows(s, map[0 := Root(Some(0)), 1 := Successor(0, None, 0)], map[], map[], {}, 2, LATER)
    ensures var u := DoLock(DoAsk(DoBegin(s, 2, 0), 2), 2);
      u == s.(locks := map[0 := 2], count := s.count + 3,
              txs := map[2 := Tx(0, LATER, Checking, map[], Some(0), s.count + 1, 0, map[], {})])
  {
    var s1 := DoBegin(s, 2, 0);
    assert s1.txs == map[2 := Tx(0, LATER, Begun, map[], None, 0, 0, map[], {})];
    var s2 := DoAsk(s1, 2);
    assert s2.txs == map[2 := Tx(0, LATER, Locking(true), map[], None, s.count + 1, 0, map[], {})];
    var s3 := DoLock(s2, 2);
    assert s3.txs == map[2 := Tx(0, LATER, Checking, map[], Some(0), s.count + 1, 0, map[], {})];
    assert s3.locks == map[0 := 2];
  }

  lemma CheckPasses(s: State, u: State)
    requires Shows(s, map[0 := Root(Some(0)), 1 := Successor(0, None, 0)], map[], map[], {}, 2, LATER)
    requires u == s.(locks := map[0 := 2], count := s.count + 3,
                     txs := map[2 := Tx(0, LATER, Checking, map[], Some(0), s.count + 1, 0, map[], {})])
    ensures var v := DoCheck(u, 2);
      && 2 in v.txs && Shows(v, s.tokens, map[0 := 2], map[2 := v.txs[2]], {}, 2, LATER) && v.issues == s.issues
      && v.txs[2] == u.txs[2].(phase := Scanning, checkedAt := u.count)
  {
    var v := DoCheck(u, 2);
    assert !HasUsedChild(u.tokens, 0);
    assert v.txs == map[2 := v.txs[2]];
  }

  /** After token 1 was refreshed into token 2, the retry supersedes nothing and issues token 3. */
  lemma RetryEnds(s: State, x: Tx)
    requires Shows(s, map[0 := Root(Some(0)), 1 := Successor(0, Some(LATER), 0), 2 := Successor(1, None, LATER)],
                   map[0 := 2],
                   map[2 := x], {}, 3, LATER)
    requires x.phase.Scanning? && x.token == 0 && x.began == LATER && x.seen == Some(0) && x.writes == map[]
    ensures var v := DoCommit(DoInsert(DoJudge(DoScan(s, 2), 2, true), 2), 2);
      && v.tokens == s.tokens[3 := Successor(0, None, LATER)] && v.revoked == s.revoked
      && 3 in v.issues && v.issues == s.issues[3 := v.issues[3]] && v.issues[3].kind == LateRetry
      && v.issues[3].escaped == {1}
  {
    hide Shows;
    var y := Tx(0, LATER, Judging, map[], Some(0), x.askedAt, x.checkedAt, PassedBy(s, 0), {1});
    assert DoScan(s, 2) == s.(txs := map[2 := y], count := s.count + 1) by { RetryScans(s, x); }
    var s1 := DoScan(s, 2);
    RetryInserts(s, s1, x, y);
  }

  lemma RetryScans(s: State, x: Tx)
    requires Shows(s, map[0 := Root(Some(0)), 1 := Successor(0, Some(LATER), 0), 2 := Successor(1, None, LATER)],
                   map[0 := 2],
                   map[2 := x], {}, 3, LATER)
    requires x.phase.Scanning? && x.token == 0 && x.began == LATER && x.seen == Some(0) && x.writes == map[]
    ensures DoScan(s, 2) ==
            s.(txs := map[2 := Tx(0, LATER, Judging, map[], Some(0), x.askedAt, x.checkedAt, PassedBy(s, 0), {1})],
               count := s.count + 1)
  {
    assert UnusedChildren(s.tokens, 0) == {};
    assert UsedChildren(s.tokens, 0) == {1};
    assert DoScan(s, 2).txs == map[2 := DoScan(s, 2).txs[2]];
  }

  lemma RetryInserts(s: State, s1: State, x: Tx, y: Tx)
    requires Shows(s, map[0 := Root(Some(0)), 1 := Successor(0, Some(LATER), 0), 2 := Successor(1, None, LATER)],
                   map[0 := 2],
                   map[2 := x], {}, 3, LATER)
    requires s1 == s.(txs := map[2 := y], count := s.count + 1)
    requires y == Tx(0, LATER, Judging, map[], Some(0), y.askedAt, y.checkedAt, y.passed, {1})
    ensures var v := DoCommit(DoInsert(DoJudge(s1, 2, true), 2), 2);
      && v.tokens == s.tokens[3 := Successor(0, None, LATER)] && v.revoked == s.revoked
      && 3 in v.issues && v.issues == s.issues[3 := v.issues[3]] && v.issues[3].kind == LateRetry
      && v.issues[3].escaped == {1}
  {
    var s2 := DoJudge(s1, 2, true);
    assert s2.txs == map[2 := y.(phase := Inserting)];
    var s3 := DoInsert(s2, 2);
    assert s3.txs == map[2 := y.(phase := Committing, writes := map[3 := Successor(0, None, LATER)])];
    hide DoCommit; hide DoInsert; hide DoJudge;
    RetryCommits(s, s3, x);
  }

  lemma RetryCommits(s: State, s3: State, x: Tx)
    requires Shows(s, map[0 := Root(Some(0)), 1 := Successor(0, Some(LATER), 0), 2 := Successor(1, None, LATER)],
                   map[0 := 2],
                   map[2 := x], {}, 3, LATER)
    requires s3.tokens == s.tokens && s3.issues == s.issues && s3.revoked == s.revoked && 2 in s3.txs
    requires s3.txs[2] == Tx(0, LATER, Committing, map[3 := Successor(0, None, LATER)], Some(0), s3.txs[2].askedAt,
                             s3.txs[2].checkedAt, s3.txs[2].passed, {1})
    ensures var v := DoCommit(s3, 2);
      && v.tokens == s.tokens[3 := Successor(0, None, LATER)] && v.revoked == s.revoked
      && 3 in v.issues && v.issues == s.issues[3 := v.issues[3]] && v.issues[3].kind == LateRetry
      && v.issues[3].escaped == {1}
  {
    hide Dated; hide Rotated; hide Release;
    assert Merged(s3.tokens, s3.txs[2].writes) == s.tokens[3 := Successor(0, None, LATER)];
    assert DoCommit(s3, 2).issues == s.issues[3 := Record(s3.txs[2])];
  }

  /** The fork bound and conservation of whole transactions do not survive: a child refreshed between a
      late retry's look for used successors and its superseding update escapes. Tokens 1 and 3 are children
      of token 0; 3 was issued 31 seconds after its rotation and 1 is not superseded. The session is not
      revoked and has the two fresh tokens 2 and 3, although nothing was reused within a grace period. */
  lemma ForkEscapes() returns (steps: seq<Step>)
    ensures var s := Run(Start(0), steps);
      && 0 in s.tokens && Child(s.tokens, 1, 0) && Child(s.tokens, 3, 0) && Late(s.tokens[3].createdAt, s.tokens[0])
      && s.tokens[1].supersededAt.None? && s.tokens[1].rotatedAt.Some?
      && 0 !in s.revoked && FreshTokens(s.tokens, 0) == {2, 3} && Graces(s, 0) == {} && Escapes(s, 0) == {(3, 1)}
  {
    hide Run; hide Next; hide DoScan; hide DoJudge; hide DoInsert; hide DoCommit; hide Refreshed; hide Shows;
    var s0 := Start(0);
    var x: Tx;
    steps, x := RetryStarts();
    var s1 := Run(s0, steps);
    assert CanRefresh(s1, 3, 1) by { RetryLeavesTheChild(s1, x); }
    steps := WholeRefresh(s0, steps, 3, 1);
    var s2 := Run(s0, steps);
    AfterSecond(s1, s2, x);
    RetryEnds(s2, x);
    Does(Run(s0, steps), 2, 0); Extend(s0, steps, Scan(2)); steps := steps + [Scan(2)];
    Does(Run(s0, steps), 2, 0); Extend(s0, steps, Judge(2, true)); steps := steps + [Judge(2, true)];
    Does(Run(s0, steps), 2, 0); Extend(s0, steps, Insert(2)); steps := steps + [Insert(2)];
    Does(Run(s0, steps), 2, 0); Extend(s0, steps, Commit(2)); steps := steps + [Commit(2)];
    EscapedState(s2, Run(s0, steps), x);
  }

  lemma RetryLeavesTheChild(s: State, x: Tx)
    requires Shows(s, map[0 := Root(Some(0)), 1 := Successor(0, None, 0)], map[0 := 2], map[2 := x], {}, 2, LATER)
    ensures CanRefresh(s, 3, 1)
  {
  }

  lemma AfterSecond(s: State, v: State, x: Tx)
    requires Shows(s, map[0 := Root(Some(0)), 1 := Successor(0, None, 0)], map[0 := 2], map[2 := x], {}, 2, LATER)
    requires AllPlain(s) && Refreshed(s, v, 1)
    ensures Shows(v, map[0 := Root(Some(0)), 1 := Successor(0, Some(LATER), 0), 2 := Successor(1, None, LATER)],
                  map[0 := 2],
                  map[2 := x], {}, 3, LATER)
    ensures AllPlain(v)
  {
  }

  lemma EscapedState(s: State, v: State, x: Tx)
    requires Shows(s, map[0 := Root(Some(0)), 1 := Successor(0, Some(LATER), 0), 2 := Successor(1, None, LATER)],
                   map[0 := 2],
                   map[2 := x], {}, 3, LATER)
    requires AllPlain(s) && v.tokens == s.tokens[3 := Successor(0, None, LATER)] && v.revoked == s.revoked
    requires 3 in v.issues
    requires v.issues == s.issues[3 := v.issues[3]] && v.issues[3].kind == LateRetry && v.issues[3].escaped == {1}
    ensures && 0 in v.tokens && Child(v.tokens, 1, 0) && Child(v.tokens, 3, 0)
    ensures Late(v.tokens[3].createdAt, v.tokens[0])
            && v.tokens[1].supersededAt.None? && v.tokens[1].rotatedAt.Some?
            && 0 !in v.revoked && FreshTokens(v.tokens, 0) == {2, 3} && Graces(v, 0) == {} && Escapes(v, 0) == {(3, 1)}
  {
    assert FreshTokens(v.tokens, 0) == {2, 3};
    assert Graces(v, 0) == {};
    assert forall n, c :: n in v.issues && c in v.issues[n].escaped ==> n == 3 && c == 1;
    assert Escapes(v, 0) == {(3, 1)};
  }

  // ---- Dates ----

  /** `now()` is when the transaction began, so a child can be dated before its parent's rotation: the
      second of two concurrent refreshes of token 0 began first and waited for the lock. */
  lemma ChildDatedBeforeRotation() returns (steps: seq<Step>)
    ensures var s := Run(Start(0), steps);
      && 0 in s.tokens && Child(s.tokens, 2, 0) && s.tokens[0].rotatedAt.Some?
      && s.tokens[2].createdAt < s.tokens[0].rotatedAt.value
  {
    hide Run; hide Refreshed;
    var s0 := Start(0);
    steps := SessionOpens();
    Extend(s0, steps, Begin(2, 0)); steps := steps + [Begin(2, 0)];
    Extend(s0, steps, Tick(5)); steps := steps + [Tick(5)];
    var s1 := Run(s0, steps);
    var x := Tx(0, 0, Begun, map[], None, 0, 0, map[], {});
    assert Shows(s1, map[0 := Root(None)], map[], map[2 := x], {}, 1, 5);
    hide Next; hide DoAsk; hide DoLock; hide DoJudge; hide DoInsert; hide DoCommit;
    steps := WholeRefresh(s0, steps, 1, 0);
    var s2 := Run(s0, steps);
    assert Shows(s2, map[0 := Root(Some(5)), 1 := Successor(0, None, 5)], map[], map[2 := x], {}, 2, 5) by {
      AfterWaiting(s1, s2);
    }
    hide Shows;
    LateComer(s2);
    Does(Run(s0, steps), 2, 0); Extend(s0, steps, Ask(2)); steps := steps + [Ask(2)];
    Does(Run(s0, steps), 2, 0); Extend(s0, steps, Lock(2)); steps := steps + [Lock(2)];
    Does(Run(s0, steps), 2, 0); Extend(s0, steps, Judge(2, true)); steps := steps + [Judge(2, true)];
    Does(Run(s0, steps), 2, 0); Extend(s0, steps, Insert(2)); steps := steps + [Insert(2)];
    Does(Run(s0, steps), 2, 0); Extend(s0, steps, Commit(2)); steps := steps + [Commit(2)];
  }

  lemma AfterWaiting(s: State, v: State)
    requires Shows(s, map[0 := Root(None)], map[], s.txs, {}, 1, 5) && Refreshed(s, v, 0)
    ensures Shows(v, map[0 := Root(Some(5)), 1 := Successor(0, None, 5)], map[], s.txs, {}, 2, 5)
  {
  }

  lemma LateComer(s: State)
    requires Shows(s, map[0 := Root(Some(5)), 1 := Successor(0, None, 5)], map[],
                   map[2 := Tx(0, 0, Begun, map[], None, 0, 0, map[], {})],
                   {}, 2, 5)
    ensures var v := DoCommit(DoInsert(DoJudge(DoLock(DoAsk(s, 2), 2), 2, true), 2), 2);
      && 0 in v.tokens && Child(v.tokens, 2, 0) && v.tokens[0].rotatedAt.Some?
      && v.tokens[2].createdAt < v.tokens[0].rotatedAt.value
  {
    var s1 := DoAsk(s, 2);
    assert s1.txs == map[2 := Tx(0, 0, Locking(true), map[], None, s.count, 0, map[], {})];
    var s2 := DoLock(s1, 2);
    assert s2.txs == map[2 := Tx(0, 0, Judging, map[], Some(5), s.count, 0, map[], {})];
    var s3 := DoJudge(s2, 2, true);
    assert s3.txs == map[2 := Tx(0, 0, Inserting, map[], Some(5), s.count, 0, map[], {})];
    hide DoAsk; hide DoLock; hide DoJudge;
    LateCommit(s3, s.count);
  }

  lemma LateCommit(s: State, asked: nat)
    requires s.tokens == map[0 := Root(Some(5)), 1 := Successor(0, None, 5)] && s.next == 2
    requires s.txs == map[2 := Tx(0, 0, Inserting, map[], Some(5), asked, 0, map[], {})]
    ensures var v := DoCommit(DoInsert(s, 2), 2);
      && 0 in v.tokens && Child(v.tokens, 2, 0) && v.tokens[0].rotatedAt.Some?
      && v.tokens[2].createdAt < v.tokens[0].rotatedAt.value
  {
    hide Dated; hide Rotated; hide Release; hide Recorded;
    var s1 := DoInsert(s, 2);
    assert s1.txs == map[2 := Tx(0, 0, Committing, map[2 := Successor(0, None, 0)], Some(5), asked, 0, map[], {})];
  }

  // ---- Revocation ----

  /** The locking read takes the session from its snapshot, so a refresh that had started can still issue a
      token after the session was revoked: here a logout is committed while the refresh waits to lock. */
  lemma IssuedAfterRevocation() returns (before: seq<Step>, steps: seq<Step>)
    ensures var s := Run(Start(0), before); 0 in s.revoked && 1 !in s.tokens
    ensures var s := Run(Start(0), steps); 0 in s.revoked && Child(s.tokens, 1, 0) && Unused(s.tokens[1])
    ensures |before| < |steps| && steps[..|before|] == before
  {
    hide Run; hide Next; hide DoLock; hide DoRotate; hide DoJudge; hide DoInsert; hide DoCommit; hide Shows;
    var s0 := Start(0);
    before := LogoutWhileWaiting();
    var s1 := Run(s0, before);
    assert 0 in s1.revoked && 1 !in s1.tokens by { RevokedRoot(s1); }
    RefreshGoesOn(s1);
    steps := OwnSteps(s0, before);
  }

  /** Transaction 1 takes its five statements in a row. */
  lemma OwnSteps(s0: State, before: seq<Step>) returns (steps: seq<Step>)
    ensures Run(s0, steps) ==
            DoCommit(DoInsert(DoJudge(DoRotate(DoLock(Run(s0, before), 1), 1), 1, true), 1), 1)
    ensures |before| < |steps| && steps[..|before|] == before
  {
    hide Run; hide Next; hide DoLock; hide DoRotate; hide DoJudge; hide DoInsert; hide DoCommit;
    var a := before + [Lock(1)];
    OwnStep(s0, before, Lock(1));
    var b := a + [Rotate(1)];
    OwnStep(s0, a, Rotate(1));
    var c := b + [Judge(1, true)];
    OwnStep(s0, b, Judge(1, true));
    var d := c + [Insert(1)];
    OwnStep(s0, c, Insert(1));
    steps := d + [Commit(1)];
    OwnStep(s0, d, Commit(1));
    assert steps == before + [Lock(1), Rotate(1), Judge(1, true), Insert(1), Commit(1)];
  }

  lemma OwnStep(s0: State, steps: seq<Step>, step: Step)
    ensures step.Lock? ==> Run(s0, steps + [step]) == DoLock(Run(s0, steps), step.tx)
    ensures step.Rotate? ==> Run(s0, steps + [step]) == DoRotate(Run(s0, steps), step.tx)
    ensures step.Judge? ==> Run(s0, steps + [step]) == DoJudge(Run(s0, steps), step.tx, step.enabled)
    ensures step.Insert? ==> Run(s0, steps + [step]) == DoInsert(Run(s0, steps), step.tx)
    ensures step.Commit? ==> Run(s0, steps + [step]) == DoCommit(Run(s0, steps), step.tx)
  {
    hide Run; hide DoLock; hide DoRotate; hide DoJudge; hide DoInsert; hide DoCommit; hide DoBegin; hide DoAsk;
    hide DoCheck; hide DoScan; hide DoSupersede; hide DoRevoke; hide DoLogout; hide Close;
    Extend(s0, steps, step);
  }

  lemma RevokedRoot(s: State)
    requires Shows(s, map[0 := Root(None)], map[], s.txs, {0}, 1, 0)
    ensures 0 in s.revoked && 1 !in s.tokens
  {
  }

  lemma LogoutWhileWaiting() returns (steps: seq<Step>)
    ensures var s := Run(Start(0), steps);
      1 in s.txs && Shows(s, map[0 := Root(None)], map[], s.txs, {0}, 1, 0) && s.txs == map[1 := s.txs[1]] &&
      s.txs[1].phase == Locking(true) && s.txs[1].token == 0 && s.txs[1].writes == map[]
  {
    hide Run; hide Next; hide DoBegin; hide DoAsk; hide DoLogout; hide Shows;
    var s0 := Start(0);
    steps := SessionOpens();
    LogoutOvertakes(Run(s0, steps));
    Does(Run(s0, steps), 1, 0); Extend(s0, steps, Begin(1, 0)); steps := steps + [Begin(1, 0)];
    Does(Run(s0, steps), 1, 0); Extend(s0, steps, Ask(1)); steps := steps + [Ask(1)];
    Does(Run(s0, steps), 1, 0); Extend(s0, steps, Logout(0)); steps := steps + [Logout(0)];
  }

  lemma LogoutOvertakes(s: State)
    requires Shows(s, map[0 := Root(None)], map[], map[], {}, 1, 0)
    ensures var v := DoLogout(DoAsk(DoBegin(s, 1, 0), 1), 0);
      1 in v.txs && Shows(v, map[0 := Root(None)], map[], v.txs, {0}, 1, 0) && v.txs == map[1 := v.txs[1]] &&
      v.txs[1].phase == Locking(true) && v.txs[1].token == 0 && v.txs[1].writes == map[]
  {
    var s1 := DoBegin(s, 1, 0);
    assert s1.txs == map[1 := Tx(0, 0, Begun, map[], None, 0, 0, map[], {})];
    var s2 := DoAsk(s1, 1);
    assert s2.txs == map[1 := Tx(0, 0, Locking(true), map[], None, s.count + 1, 0, map[], {})];
  }

  lemma RefreshGoesOn(s: State)
    requires 1 in s.txs && Shows(s, map[0 := Root(None)], map[], s.txs, {0}, 1, 0) && s.txs == map[1 := s.txs[1]]
    requires s.txs[1].phase == Locking(true) && s.txs[1].token == 0 && s.txs[1].writes == map[]
    ensures var v := DoCommit(DoInsert(DoJudge(DoRotate(DoLock(s, 1), 1), 1, true), 1), 1);
      0 in v.revoked && Child(v.tokens, 1, 0) && Unused(v.tokens[1])
  {
    var x := s.txs[1];
    var s1 := DoLock(s, 1);
    assert s1.txs == map[1 := x.(phase := Rotating, seen := None)];
    var s2 := DoRotate(s1, 1);
    assert s2.txs == map[1 := x.(phase := Judging, seen := None, writes := map[0 := Root(Some(x.began))])];
    var s3 := DoJudge(s2, 1, true);
    assert s3.txs == map[1 := x.(phase := Inserting, seen := None, writes := map[0 := Root(Some(x.began))])];
    hide DoLock; hide DoRotate; hide DoJudge;
    IssueCommits(s3);
  }

  lemma IssueCommits(s: State)
    requires 1 in s.txs && s.txs[1].phase.Inserting? && s.txs[1].token == 0 && s.tokens == map[0 := Root(None)]
    requires s.next == 1
    requires 0 in s.revoked && s.txs[1].writes == map[0 := Root(Some(s.txs[1].began))]
    ensures var v := DoCommit(DoInsert(s, 1), 1); 0 in v.revoked && Child(v.tokens, 1, 0) && Unused(v.tokens[1])
  {
    hide Dated; hide Rotated; hide Release; hide Recorded;
    var s1 := DoInsert(s, 1);
    assert s1.txs[1].writes == map[0 := Root(Some(s.txs[1].began)), 1 := Successor(0, None, s.txs[1].began)];
  }
}
