/** What a revocation does to refreshes in flight: whether the session is alive is decided when the locking read
    starts, and by nothing that happens later. */
module RefreshRevocation {
  import opened Base
  import opened Tables
  import opened RefreshStatements
  import opened RefreshRecords
  import opened RefreshRaces

  // ---- Waiting for the row ----

  lemma LockWaits(s: State, step: Step, tx: Txn)
    requires tx in s.txs && s.txs[tx].phase.Locking? && tx in Next(s, step).txs
    ensures var y := Next(s, step).txs[tx]; if y.phase.Locking? then y == s.txs[tx] else !Waiting(y.phase)
  {
    if step.Lock? {
      LocksOnly(s, step.tx, tx);
    } else if step.SupersedeRow? {
      SupersedesOnly(s, step.tx, step.row, tx);
    } else if step.Begin? || step.Ask? || step.Rotate? || step.Check? || step.Scan? || step.Judge? || step.Insert? {
      OthersGoOn(s, step, tx);
    } else {
      OthersEnd(s, step, tx);
    }
  }

  lemma OthersGoOn(s: State, step: Step, tx: Txn)
    requires tx in s.txs && s.txs[tx].phase.Locking?
    requires step.Begin? || step.Ask? || step.Rotate? || step.Check? || step.Scan? || step.Judge? || step.Insert?
    ensures tx in Next(s, step).txs && Next(s, step).txs[tx] == s.txs[tx]
  {
    hide Alive; hide Release; hide AfterPassing; hide HasUsedChild;
  }

  lemma OthersEnd(s: State, step: Step, tx: Txn)
    requires tx in s.txs && s.txs[tx].phase.Locking? && tx in Next(s, step).txs
    requires step.OpenSession? || step.RevokeOwn? || step.Commit? || step.Abort? || step.Logout? || step.Tick?
    ensures Next(s, step).txs[tx] == s.txs[tx]
  {
    hide Merged; hide Dated; hide Recorded; hide Rotated; hide Revoked; hide Release;
  }

  lemma LocksOnly(s: State, y: Txn, tx: Txn)
    requires tx in s.txs && s.txs[tx].phase.Locking? && tx in DoLock(s, y).txs
    ensures var z := DoLock(s, y).txs[tx]; if z.phase.Locking? then z == s.txs[tx] else !Waiting(z.phase)
  {
  }

  lemma SupersedesOnly(s: State, y: Txn, row: Id, tx: Txn)
    requires tx in s.txs && s.txs[tx].phase.Locking?
    ensures tx in DoSupersede(s, y, row).txs && DoSupersede(s, y, row).txs[tx] == s.txs[tx]
  {
  }

  lemma {:induction false} LockWaitsOverRun(s: State, steps: seq<Step>, tx: Txn)
    requires StaysOpen(s, steps, tx) && s.txs[tx].phase.Locking?
    requires tx in Run(s, steps).txs && Run(s, steps).txs[tx].phase.Locking?
    ensures Run(s, steps).txs[tx] == s.txs[tx]
    decreases |steps|
  {
    hide Next;
    if steps != [] {
      var v := Next(s, steps[0]);
      LockWaits(s, steps[0], tx);
      if v.txs[tx].phase.Locking? { LockWaitsOverRun(v, steps[1..], tx); } else { StaysPast(v, steps[1..], tx); }
    }
  }

  lemma {:induction false} StaysPast(s: State, steps: seq<Step>, tx: Txn)
    requires StaysOpen(s, steps, tx) && !Waiting(s.txs[tx].phase)
    ensures tx in Run(s, steps).txs && !Waiting(Run(s, steps).txs[tx].phase)
    decreases |steps|
  {
    hide Next;
    if steps != [] {
      SeenIsKept(s, steps[0], tx);
      StaysPast(Next(s, steps[0]), steps[1..], tx);
    }
  }

  lemma TokensKept(s: State, step: Step)
    ensures s.tokens.Keys <= Next(s, step).tokens.Keys
  {
    hide DoBegin; hide DoAsk; hide DoLock; hide DoRotate; hide DoCheck; hide DoScan; hide DoSupersede; hide DoJudge;
    hide DoInsert; hide DoRevoke; hide DoLogout;
  }

  lemma {:induction false} TokensStay(s: State, steps: seq<Step>)
    ensures s.tokens.Keys <= Run(s, steps).tokens.Keys
    decreases |steps|
  {
    hide Next;
    if steps != [] {
      TokensKept(s, steps[0]);
      TokensStay(Next(s, steps[0]), steps[1..]);
    }
  }

  lemma {:induction false} RootIsThere(s: State, t: Id)
    requires Tree(s) && t in s.tokens
    ensures s.tokens[t].session in s.tokens
    decreases t
  {
    if s.tokens[t].parent.Some? {
      assert GoodChild(s, t, s.tokens[t].parent.value);
      RootIsThere(s, s.tokens[t].parent.value);
    }
  }

  /** Take any run, a locking read of a known token that starts there, anything after it, and the moment the
      read gets the row. It goes on exactly if, when the read started, its session was neither revoked nor over
      for a request of that time; otherwise it ends there and nothing is written. */
  lemma DecidedAtTheRead(start: Time, before: seq<Step>, tx: Txn, meanwhile: seq<Step>)
    requires var w := Run(Start(start), before);
      tx in w.txs && w.txs[tx].phase.Begun? && w.txs[tx].token in w.tokens && StaysOpen(DoAsk(w, tx), meanwhile, tx)
    requires var v := Run(DoAsk(Run(Start(start), before), tx), meanwhile);
      tx in v.txs && v.txs[tx].phase.Locking? && Free(v, v.txs[tx].token, tx)
    ensures var w := Run(Start(start), before);
      var v := Run(DoAsk(w, tx), meanwhile);
      var session := w.tokens[w.txs[tx].token].session;
      && session in w.tokens
      && (tx in DoLock(v, tx).txs <==>
            session !in w.revoked && w.txs[tx].began < w.tokens[session].createdAt + SESSION_TTL)
      && (tx in DoLock(v, tx).txs ==> !Waiting(DoLock(v, tx).txs[tx].phase))
      && DoLock(v, tx).tokens == v.tokens && DoLock(v, tx).revoked == v.revoked
  {
    hide Run; hide StaysOpen; hide LateSettled; hide OneWriter; hide GoodTx;
    StartsWell(start);
    RunKeeps(Start(start), before);
    var w := Run(Start(start), before);
    RootIsThere(w, w.txs[tx].token);
    var u := DoAsk(w, tx);
    LockWaitsOverRun(u, meanwhile, tx);
    TokensStay(u, meanwhile);
    LockGoesOnIff(Run(u, meanwhile), tx);
  }

  lemma LockGoesOnIff(s: State, tx: Txn)
    requires tx in s.txs && s.txs[tx].phase.Locking? && s.txs[tx].token in s.tokens && Free(s, s.txs[tx].token, tx)
    ensures tx in DoLock(s, tx).txs <==> s.txs[tx].phase.live
    ensures tx in DoLock(s, tx).txs ==> !Waiting(DoLock(s, tx).txs[tx].phase)
  {
  }

  // ---- A revocation that comes later ----

  predicate SameWork(x: Tx, y: Tx) {
    x.token == y.token && x.began == y.began && x.phase == y.phase && x.writes == y.writes
  }

  ghost predicate AlikeWork(a: map<Txn, Tx>, b: map<Txn, Tx>) {
    && (forall y :: y in a <==> y in b)
    && (forall y :: y in a && y in b ==> SameWork(a[y], b[y]))
  }

  ghost predicate AlikeRevoked(a: map<Id, nat>, b: map<Id, nat>, session: Id) {
    forall x :: x in a && x != session ==> x in b
  }

  /** The same rows, locks and work in hand; at most the revocation of `session` differs. */
  ghost predicate Alike(s: State, v: State, session: Id) {
    && v.tokens == s.tokens && v.committedAt == s.committedAt && v.locks == s.locks
    && v.sessionLocks == s.sessionLocks && v.next == s.next && v.now == s.now && AlikeWork(s.txs, v.txs)
    && AlikeRevoked(s.revoked, v.revoked, session) && AlikeRevoked(v.revoked, s.revoked, session)
  }

  /** A locking read of a token of the session starts. */
  predicate Reads(s: State, step: Step, session: Id) {
    step.Ask? && step.tx in s.txs && s.txs[step.tx].token in s.tokens &&
    s.tokens[s.txs[step.tx].token].session == session
  }

  predicate NobodyReads(s: State, steps: seq<Step>, session: Id)
    decreases |steps|
  {
    steps == [] || (!Reads(s, steps[0], session) && NobodyReads(Next(s, steps[0]), steps[1..], session))
  }

  lemma StepAlike(s: State, v: State, step: Step, session: Id)
    requires Alike(s, v, session) && !Reads(s, step, session)
    ensures Alike(Next(s, step), Next(v, step), session)
  {
    hide DoBegin; hide DoAsk; hide DoLock; hide DoRotate; hide DoCheck; hide DoScan; hide DoSupersede; hide DoJudge;
    hide DoInsert; hide DoRevoke; hide DoCommit; hide DoLogout; hide Close; hide SameWork;
    hide Alike; hide Reads; hide DoOpen;
    match step
    case Begin(tx, token) => StartsAlike(s, v, tx, token, session);
    case Ask(tx) => StartsAlike(s, v, tx, 0, session);
    case Lock(tx) => LocksAlike(s, v, tx, session);
    case Rotate(tx) => LocksAlike(s, v, tx, session);
    case Check(tx) => ChecksAlike(s, v, tx, session);
    case Scan(tx) => ChecksAlike(s, v, tx, session);
    case SupersedeRow(tx, row) => SupersedeAlike(s, v, tx, row, session);
    case Judge(tx, enabled) => JudgesAlike(s, v, tx, enabled, session);
    case Insert(tx) => JudgesAlike(s, v, tx, true, session);
    case RevokeOwn(tx) => JudgesAlike(s, v, tx, true, session);
    case Commit(tx) => CommitAlike(s, v, tx, session);
    case Abort(tx) => AtHand(s, v, tx, session); CloseAlike(s, v, tx, session);
    case Logout(other) => LogoutAlike(s, v, other, session);
    case OpenSession => OpensAlike(s, v, session, 0);
    case Tick(elapsed) => OpensAlike(s, v, session, elapsed);
  }

  /** What `Alike` says about one transaction. */
  lemma AtHand(s: State, v: State, tx: Txn, session: Id)
    requires Alike(s, v, session)
    ensures v.tokens == s.tokens && v.locks == s.locks && v.sessionLocks == s.sessionLocks && v.next == s.next
    ensures v.now == s.now && v.committedAt == s.committedAt && (tx in v.txs <==> tx in s.txs)
    ensures tx in s.txs ==> SameWork(s.txs[tx], v.txs[tx])
  {
  }

  lemma PutAlike(s: State, v: State, tx: Txn, x: Tx, y: Tx, locks: map<Id, Txn>, sessionLocks: map<Id, Txn>, next: Id,
                 session: Id)
    requires Alike(s, v, session) && SameWork(x, y)
    ensures Alike(Put(s.(locks := locks, sessionLocks := sessionLocks, next := next), tx, x),
                  Put(v.(locks := locks, sessionLocks := sessionLocks, next := next), tx, y), session)
  {
  }

  lemma CloseAlike(s: State, v: State, tx: Txn, session: Id)
    requires Alike(s, v, session)
    ensures Alike(Close(s, tx), Close(v, tx), session)
  {
    hide Release; hide SameWork;
  }

  lemma OpensAlike(s: State, v: State, session: Id, elapsed: nat)
    requires Alike(s, v, session)
    ensures Alike(DoOpen(s), DoOpen(v), session) && Alike(Next(s, Tick(elapsed)), Next(v, Tick(elapsed)), session)
  {
    hide AlikeWork; hide AlikeRevoked;
  }

  lemma StartsAlike(s: State, v: State, tx: Txn, token: Id, session: Id)
    requires Alike(s, v, session)
    ensures Alike(DoBegin(s, tx, token), DoBegin(v, tx, token), session)
    ensures !Reads(s, Ask(tx), session) ==> Alike(DoAsk(s, tx), DoAsk(v, tx), session)
  {
    AtHand(s, v, tx, session);
    CloseAlike(s, v, tx, session);
    if tx !in s.txs {
      var x := Tx(token, s.now, Begun, map[], None, 0, 0, map[], {});
      PutAlike(s, v, tx, x, x, s.locks, s.sessionLocks, s.next, session);
    } else if s.txs[tx].phase.Begun? && s.txs[tx].token in s.tokens && !Reads(s, Ask(tx), session) {
      assert Alive(v, s.txs[tx].token, s.txs[tx].began) == Alive(s, s.txs[tx].token, s.txs[tx].began);
      var phase := Locking(Alive(s, s.txs[tx].token, s.txs[tx].began));
      PutAlike(s, v, tx, s.txs[tx].(phase := phase, askedAt := s.count),
               v.txs[tx].(phase := phase, askedAt := v.count), s.locks, s.sessionLocks, s.next, session);
    }
    hide Alike; hide Close; hide Alive;
  }

  lemma LocksAlike(s: State, v: State, tx: Txn, session: Id)
    requires Alike(s, v, session)
    ensures Alike(DoLock(s, tx), DoLock(v, tx), session) && Alike(DoRotate(s, tx), DoRotate(v, tx), session)
  {
    hide Alike; hide Close; hide Decide;
    AtHand(s, v, tx, session);
    CloseAlike(s, v, tx, session);
    if tx in s.txs && s.txs[tx].token in s.tokens {
      var x, y := s.txs[tx], v.txs[tx];
      var row := s.tokens[x.token];
      PutAlike(s, v, tx, x.(phase := Decide(row, x.began), seen := row.rotatedAt),
               y.(phase := Decide(row, x.began), seen := row.rotatedAt), s.locks[x.token := tx], s.sessionLocks, s.next,
               session);
      var writes := x.writes[x.token := row.(rotatedAt := Some(x.began))];
      PutAlike(s, v, tx, x.(phase := Judging, writes := writes), y.(phase := Judging, writes := writes), s.locks,
               s.sessionLocks, s.next, session);
    }
  }

  lemma ChecksAlike(s: State, v: State, tx: Txn, session: Id)
    requires Alike(s, v, session)
    ensures Alike(DoCheck(s, tx), DoCheck(v, tx), session) && Alike(DoScan(s, tx), DoScan(v, tx), session)
  {
    hide HasUsedChild; hide UnusedChildren; hide AfterPassing; hide PassedBy; hide UsedChildren;
  }

  lemma SupersedeAlike(s: State, v: State, tx: Txn, row: Id, session: Id)
    requires Alike(s, v, session)
    ensures Alike(DoSupersede(s, tx, row), DoSupersede(v, tx, row), session)
  {
    hide Alike; hide Passing;
    AtHand(s, v, tx, session);
    if tx in s.txs && s.txs[tx].phase.Superseding? && row in s.tokens {
      PassesAlike(s, v, s.txs[tx], v.txs[tx], row);
      PutAlike(s, v, tx, Passing(s, s.txs[tx], row), Passing(v, v.txs[tx], row), s.locks[row := tx], s.sessionLocks,
               s.next, session);
    }
  }

  lemma PassesAlike(s: State, v: State, x: Tx, y: Tx, row: Id)
    requires v.tokens == s.tokens && row in s.tokens && SameWork(x, y) && x.phase.Superseding?
    ensures SameWork(Passing(s, x, row), Passing(v, y, row))
  {
    hide AfterPassing; hide Unused;
  }

  lemma JudgesAlike(s: State, v: State, tx: Txn, enabled: bool, session: Id)
    requires Alike(s, v, session)
    ensures Alike(DoJudge(s, tx, enabled), DoJudge(v, tx, enabled), session)
    ensures Alike(DoInsert(s, tx), DoInsert(v, tx), session) && Alike(DoRevoke(s, tx), DoRevoke(v, tx), session)
  {
    hide Alike;
    AtHand(s, v, tx, session);
    if tx in s.txs {
      var x, y := s.txs[tx], v.txs[tx];
      var phase := if enabled then Inserting else Refusing;
      PutAlike(s, v, tx, x.(phase := phase), y.(phase := phase), s.locks, s.sessionLocks, s.next, session);
      if x.token in s.tokens {
        var own := s.tokens[x.token].session;
        var writes := x.writes[s.next := Token(own, Some(x.token), None, None, x.began)];
        PutAlike(s, v, tx, x.(phase := Committing, writes := writes), y.(phase := Committing, writes := writes),
                 s.locks, s.sessionLocks, s.next + 1, session);
        PutAlike(s, v, tx, x.(phase := Ending), y.(phase := Ending), s.locks, s.sessionLocks[own := tx], s.next,
                 session);
      }
    }
  }

  lemma RevokedAlike(a: map<Id, nat>, b: map<Id, nat>, x: Id, m: nat, n: nat, session: Id)
    requires AlikeRevoked(a, b, session)
    ensures AlikeRevoked(if x in a then a else a[x := m], if x in b then b else b[x := n], session)
    ensures x == session ==> AlikeRevoked(if x in a then a else a[x := m], b, session)
    ensures x == session ==> AlikeRevoked(a, if x in b then b else b[x := n], session)
  {
  }

  lemma CommitAlike(s: State, v: State, tx: Txn, session: Id)
    requires Alike(s, v, session)
    ensures Alike(DoCommit(s, tx), DoCommit(v, tx), session)
  {
    AtHand(s, v, tx, session);
    if tx in s.txs {
      WritesAlike(s, v, s.txs[tx], v.txs[tx], session);
      hide Alike; hide Close; hide Committed;
      CloseAlike(Committed(s, s.txs[tx]), Committed(v, v.txs[tx]), tx, session);
    }
  }

  lemma WritesAlike(s: State, v: State, x: Tx, y: Tx, session: Id)
    requires Alike(s, v, session) && SameWork(x, y)
    ensures Alike(Committed(s, x), Committed(v, y), session)
  {
    hide Merged; hide Recorded; hide Rotated; hide AlikeWork; hide AlikeRevoked;
    assert Dated(s, Merged(s.tokens, x.writes)) == Dated(v, Merged(s.tokens, x.writes));
    hide Dated;
    if x.token in s.tokens {
      var own := s.tokens[x.token].session;
      RevokedAlike(s.revoked, v.revoked, own, s.count, v.count, session);
      RevokedAlike(v.revoked, s.revoked, own, v.count, s.count, session);
    }
  }

  lemma LogoutAlike(s: State, v: State, other: Id, session: Id)
    requires Alike(s, v, session)
    ensures Alike(DoLogout(s, other), DoLogout(v, other), session)
  {
    hide AlikeWork; hide AlikeRevoked;
    if other in s.sessionLocks || other !in s.tokens {
      assert DoLogout(s, other) == s && DoLogout(v, other) == v;
    } else {
      LogoutIs(s, other);
      LogoutIs(v, other);
      hide DoLogout;
      RevokedAlike(s.revoked, v.revoked, other, s.count, v.count, session);
      RevokedAlike(v.revoked, s.revoked, other, v.count, s.count, session);
    }
  }

  lemma LogoutIs(s: State, other: Id)
    requires other !in s.sessionLocks && other in s.tokens
    ensures DoLogout(s, other) == s.(revoked := DoLogout(s, other).revoked, count := DoLogout(s, other).count)
    ensures DoLogout(s, other).revoked == if other in s.revoked then s.revoked else s.revoked[other := s.count]
  {
  }

  lemma {:induction false} RunAlike(s: State, v: State, steps: seq<Step>, session: Id)
    requires Alike(s, v, session) && NobodyReads(s, steps, session)
    ensures Alike(Run(s, steps), Run(v, steps), session)
    decreases |steps|
  {
    hide Alike; hide Next; hide Reads;
    if steps != [] {
      StepAlike(s, v, steps[0], session);
      RunAlike(Next(s, steps[0]), Next(v, steps[0]), steps[1..], session);
    }
  }

  /** A revocation changes nothing for the refreshes that have started to read: for any schedule in which no new
      one of its session does, the same tokens are committed, rotated and superseded with it and without. */
  lemma RevocationComesTooLate(s: State, session: Id, steps: seq<Step>)
    requires NobodyReads(s, steps, session)
    ensures var with := Run(DoLogout(s, session), steps);
      with.tokens == Run(s, steps).tokens && with.committedAt == Run(s, steps).committedAt
  {
    hide Run; hide NobodyReads; hide Next;
    assert Alike(s, DoLogout(s, session), session);
    RunAlike(s, DoLogout(s, session), steps, session);
  }

  /** In any run, a refresh past its lock that comes to an enabled account commits its token with three statements
      of its own, whether or not its session was revoked meanwhile. */
  lemma PastTheLockItCommits(start: Time, steps: seq<Step>, tx: Txn)
    requires var s := Run(Start(start), steps); tx in s.txs && s.txs[tx].phase.Judging?
    ensures var s := Run(Start(start), steps);
      var end := DoCommit(DoInsert(DoJudge(s, tx, true), tx), tx);
      var t := s.txs[tx].token;
      && t in s.tokens && s.next !in s.tokens
      && s.next in end.tokens && end.tokens[s.next] == Token(s.tokens[t].session, Some(t), None, None, s.txs[tx].began)
      && end.revoked == s.revoked
  {
    hide Run; hide Tree; hide LateSettled; hide OneWriter;
    StartsWell(start);
    RunKeeps(Start(start), steps);
    var s := Run(Start(start), steps);
    assert GoodTx(s, tx);
    NextIsFresh(s);
    hide Inv; hide GoodTx; hide Dated; hide Recorded; hide Rotated; hide Release;
  }

  /** And one whose account is disabled, or whose token is refused as reused, ends its session with the rows it has
      written so far, once nobody else is ending it. */
  lemma RefusedItRevokes(start: Time, steps: seq<Step>, tx: Txn)
    requires var s := Run(Start(start), steps);
      tx in s.txs && (s.txs[tx].phase.Judging? || s.txs[tx].phase.Refusing?) && s.txs[tx].token in s.tokens &&
      s.tokens[s.txs[tx].token].session !in s.sessionLocks
    ensures var s := Run(Start(start), steps);
      var refused := if s.txs[tx].phase.Judging? then DoJudge(s, tx, false) else s;
      var end := DoCommit(DoRevoke(refused, tx), tx);
      && s.tokens[s.txs[tx].token].session in end.revoked && tx !in end.txs
      && end.tokens == Merged(s.tokens, s.txs[tx].writes)
  {
    hide Run; hide Merged; hide Dated; hide Recorded; hide Rotated; hide Release;
  }
}
