/** What concurrency leaves of the token tree, and exactly what it costs. */
module RefreshRaces {
  import opened Base
  import opened Tables
  import opened RefreshStatements
  import opened RefreshRecords
  import opened RefreshConservation

  /** Under any interleaving of any number of refreshes and logouts: one root per session, a child in its
      parent's session, the parent rotated before the child was committed, a superseded token never rotated
      and never a parent. An older sibling of a token issued late is superseded exactly if it was not used. */
  lemma ForestUnderConcurrency(start: Time, steps: seq<Step>)
    ensures var s := Run(Start(start), steps);
      && (forall t :: t in s.tokens ==> (s.tokens[t].parent.None? <==> s.tokens[t].session == t))
      && (forall c, p :: Child(s.tokens, c, p) ==>
            p in s.tokens && s.tokens[p].session == s.tokens[c].session && s.tokens[p].rotatedAt.Some? &&
            c in s.committedAt && s.tokens[p].rotatedAt.value <= s.committedAt[c])
      && (forall t, c :: t in s.tokens && s.tokens[t].supersededAt.Some? ==>
            s.tokens[t].rotatedAt.None? && !Child(s.tokens, c, t))
      && (forall older, newer, p |
          Child(s.tokens, older, p) && Child(s.tokens, newer, p) && older < newer && p in s.tokens ::
            Late(s.tokens[newer].createdAt, s.tokens[p]) ==>
              (s.tokens[older].supersededAt.Some? <==> s.tokens[older].rotatedAt.None?))
  {
    hide Run; hide GoodTx; hide OneWriter;
    StartsWell(start);
    RunKeeps(Start(start), steps);
    var s := Run(Start(start), steps);
    assert forall c, p :: Child(s.tokens, c, p) ==> GoodChild(s, c, p);
  }

  /** Fresh tokens are at most one, and one more for each in-grace reuse and each child that escaped a late
      retry; a session that is not revoked has at least one. */
  lemma FreshUnderConcurrency(start: Time, steps: seq<Step>, session: Id)
    ensures var s := Run(Start(start), steps);
      && |FreshTokens(s.tokens, session)| <= 1 + |Graces(s, session)| + |Escapes(s, session)|
      && (session in s.tokens && s.tokens[session].parent.None? && session !in s.revoked ==>
            FreshTokens(s.tokens, session) != {})
  {
    hide Run; hide GoodTx; hide OneWriter; hide LateSettled; hide Documented; hide FreshTokens; hide Ends; hide Graces;
    hide Escapes; hide AllSucceeded;
    WholeAlways(start, steps);
    var s := Run(Start(start), steps);
    assert Conserved(s, session);
    FreshAreEnds(s, session);
    FewerOf(FreshTokens(s.tokens, session), Ends(s.tokens, session));
    if session in s.tokens && s.tokens[session].parent.None? && session !in s.revoked {
      var found := LeadsToFresh(s, session);
    }
  }

  /** A child escapes a late retry of its parent exactly if it was rotated after the retry looked for used
      successors and before its superseding update came to it. */
  lemma EscapesAreRaces(start: Time, steps: seq<Step>, n: Id, c: Id, p: Id)
    requires var s := Run(Start(start), steps);
      Child(s.tokens, n, p) && Child(s.tokens, c, p) && c < n && n in s.issues && s.issues[n].kind.LateRetry?
    ensures var s := Run(Start(start), steps); var i := s.issues[n];
      && c in i.passed
      && (c in i.escaped <==> c in s.rotations && i.checkedAt < s.rotations[c] < i.passed[c])
      && (c !in i.escaped ==> s.tokens[c].supersededAt.Some?)
  {
    hide Run; hide Inv; hide AllConserved; hide AllSucceeded; hide GoodRecord; hide AllSeenRight;
    WholeAlways(start, steps);
    var s := Run(Start(start), steps);
    assert EscapesRight(s, n, p) && PassedRight(s.rotations, s.issues[n].checkedAt, s.issues[n].passed,
                                                s.issues[n].escaped, c);
    ForestUnderConcurrency(start, steps);
    assert Late(s.tokens[n].createdAt, s.tokens[p]) by { RetryIsLate(s, n, p); }
  }

  lemma RetryIsLate(s: State, n: Id, p: Id)
    requires AllSeenRight(s) && Child(s.tokens, n, p) && n in s.issues && s.issues[n].kind.LateRetry? && p in s.tokens
    ensures Late(s.tokens[n].createdAt, s.tokens[p])
  {
    assert SeenRight(s, n, p);
  }

  // ---- Dates ----

  /** A child is dated before its parent's rotation exactly if the rotation its transaction saw when it got
      the row lock is later than the transaction's own start. */
  lemma DatedBeforeRotationIff(start: Time, steps: seq<Step>, c: Id, p: Id)
    requires Child(Run(Start(start), steps).tokens, c, p)
    ensures var s := Run(Start(start), steps);
      && c in s.issues && p in s.tokens && s.tokens[p].rotatedAt.Some?
      && (s.tokens[c].createdAt < s.tokens[p].rotatedAt.value <==>
            s.issues[c].seen.Some? && s.tokens[c].createdAt < s.issues[c].seen.value)
  {
    hide Run; hide Inv; hide AllConserved; hide AllSucceeded; hide GoodRecord; hide AllEscapesRight;
    WholeAlways(start, steps);
    assert SeenRight(Run(Start(start), steps), c, p);
  }

  /** What a transaction saw is the row it locked, it stays what it was to the end, and a committed token is
      dated by its start and remembers it. */
  lemma SeenAtTheLock(s: State, tx: Txn)
    requires tx in s.txs && tx in DoLock(s, tx).txs && DoLock(s, tx) != s
    ensures var x := DoLock(s, tx).txs[tx];
      && x.token == s.txs[tx].token && x.token in s.tokens && x.seen == s.tokens[x.token].rotatedAt
      && x.began == s.txs[tx].began && !Waiting(x.phase)
  {
    hide DoLock;
    LockEffect(s, tx);
    CloseRemoves(s, tx);
  }

  lemma CloseRemoves(s: State, tx: Txn)
    ensures tx !in Close(s, tx).txs
  {
  }

  ghost predicate SeesTheSame(s: State, v: State, tx: Txn) {
    tx in s.txs && tx in v.txs && v.txs[tx].seen == s.txs[tx].seen && v.txs[tx].began == s.txs[tx].began &&
    v.txs[tx].token == s.txs[tx].token && !Waiting(v.txs[tx].phase)
  }

  lemma SeenIsKept(s: State, step: Step, tx: Txn)
    requires tx in s.txs && !Waiting(s.txs[tx].phase) && tx in Next(s, step).txs
    ensures SeesTheSame(s, Next(s, step), tx)
  {
    hide DoBegin; hide DoAsk; hide DoLock; hide DoRotate; hide DoCheck; hide DoScan; hide DoSupersede; hide DoJudge;
    hide DoInsert; hide DoRevoke; hide DoCommit; hide DoLogout; hide SeesTheSame; hide Waiting;
    match step
    case OpenSession => SeenAnyway(s, tx, 0);
    case Begin(y, token) => SeenAtStart(s, tx, y, token);
    case Ask(y) => SeenAtStart(s, tx, y, 0);
    case Lock(y) => SeenAtLock(s, tx, y);
    case Rotate(y) => SeenAtRotate(s, tx, y);
    case Check(y) => SeenAtCheck(s, tx, y);
    case Scan(y) => SeenAtScan(s, tx, y);
    case SupersedeRow(y, row) => SeenAtRow(s, tx, y, row);
    case Judge(y, enabled) => SeenAtJudge(s, tx, y, enabled);
    case Insert(y) => SeenAtInsert(s, tx, y);
    case RevokeOwn(y) => SeenAtRevoke(s, tx, y);
    case Commit(y) => SeenAtEnd(s, tx, y);
    case Abort(y) => SeenAtEnd(s, tx, y); SeenAnyway(s, tx, 0);
    case Logout(session) => SeenAnyway(s, tx, session);
    case Tick(_) => SeenAnyway(s, tx, 0);
  }

  /** Nothing of `tx` changes. */
  lemma SeenAnyway(s: State, tx: Txn, session: Id)
    requires tx in s.txs && !Waiting(s.txs[tx].phase)
    ensures forall v: State :: v.txs == s.txs ==> SeesTheSame(s, v, tx)
    ensures DoLogout(s, session).txs == s.txs
  {
  }

  lemma SeenAtStart(s: State, tx: Txn, y: Txn, token: Id)
    requires tx in s.txs && !Waiting(s.txs[tx].phase)
    ensures SeesTheSame(s, DoBegin(s, y, token), tx)
    ensures tx in DoAsk(s, y).txs ==> SeesTheSame(s, DoAsk(s, y), tx)
  {
    hide Release; hide Alive;
  }

  lemma SeenAtLock(s: State, tx: Txn, y: Txn)
    requires tx in s.txs && !Waiting(s.txs[tx].phase) && tx in DoLock(s, y).txs
    ensures SeesTheSame(s, DoLock(s, y), tx)
  {
    hide Release; hide Decide; hide Free;
  }

  lemma SeenAtRotate(s: State, tx: Txn, y: Txn)
    requires tx in s.txs && !Waiting(s.txs[tx].phase)
    ensures SeesTheSame(s, DoRotate(s, y), tx)
  {
  }

  lemma SeenAtCheck(s: State, tx: Txn, y: Txn)
    requires tx in s.txs && !Waiting(s.txs[tx].phase)
    ensures SeesTheSame(s, DoCheck(s, y), tx)
  {
  }

  lemma SeenAtScan(s: State, tx: Txn, y: Txn)
    requires tx in s.txs && !Waiting(s.txs[tx].phase)
    ensures SeesTheSame(s, DoScan(s, y), tx)
  {
  }

  lemma SeenAtRow(s: State, tx: Txn, y: Txn, row: Id)
    requires tx in s.txs && !Waiting(s.txs[tx].phase)
    ensures SeesTheSame(s, DoSupersede(s, y, row), tx)
  {
    hide Free; hide Unused;
  }

  lemma SeenAtJudge(s: State, tx: Txn, y: Txn, enabled: bool)
    requires tx in s.txs && !Waiting(s.txs[tx].phase)
    ensures SeesTheSame(s, DoJudge(s, y, enabled), tx)
  {
  }

  lemma SeenAtInsert(s: State, tx: Txn, y: Txn)
    requires tx in s.txs && !Waiting(s.txs[tx].phase)
    ensures SeesTheSame(s, DoInsert(s, y), tx)
  {
  }

  lemma SeenAtRevoke(s: State, tx: Txn, y: Txn)
    requires tx in s.txs && !Waiting(s.txs[tx].phase)
    ensures SeesTheSame(s, DoRevoke(s, y), tx)
  {
  }

  lemma SeenAtEnd(s: State, tx: Txn, y: Txn)
    requires tx in s.txs && !Waiting(s.txs[tx].phase)
    ensures tx in DoCommit(s, y).txs ==> SeesTheSame(s, DoCommit(s, y), tx)
    ensures tx in Close(s, y).txs ==> SeesTheSame(s, Close(s, y), tx)
  {
    hide Release; hide Merged; hide Dated; hide Recorded; hide Rotated; hide Revoked;
  }

  lemma SeenIsRecorded(s: State, tx: Txn, n: Id)
    requires Inv(s) && Documented(s) && tx in s.txs && DoCommit(s, tx) != s && n in DoCommit(s, tx).tokens
    requires n !in s.tokens
    ensures var v := DoCommit(s, tx);
      n in v.issues && v.issues[n].seen == s.txs[tx].seen && v.tokens[n].createdAt == s.txs[tx].began &&
      v.tokens[n].parent == Some(s.txs[tx].token)
  {
    hide Tree; hide LateSettled; hide OneWriter; hide GoodTx; hide AllSeenRight; hide AllEscapesRight; hide GoodRecord;
    assert GoodTx(s, tx);
    CommitRows(s, tx);
    assert CommittedRow(s, s.txs[tx], DoCommit(s, tx).tokens, n);
  }

  predicate StaysOpen(s: State, steps: seq<Step>, tx: Txn)
    decreases |steps|
  {
    tx in s.txs && (steps == [] || StaysOpen(Next(s, steps[0]), steps[1..], tx))
  }

  lemma {:induction false} SeenOverRun(s: State, steps: seq<Step>, tx: Txn)
    requires StaysOpen(s, steps, tx) && !Waiting(s.txs[tx].phase)
    ensures var v := Run(s, steps);
      tx in v.txs && v.txs[tx].seen == s.txs[tx].seen && v.txs[tx].began == s.txs[tx].began &&
      v.txs[tx].token == s.txs[tx].token
    decreases |steps|
  {
    hide Next;
    if steps != [] {
      SeenIsKept(s, steps[0], tx);
      SeenOverRun(Next(s, steps[0]), steps[1..], tx);
    }
  }

  /** Take any run in which `tx` gets its row lock, anything after it, and its commit. The token it commits
      is dated before the rotation of its parent exactly if, at the lock, the row showed a rotation later
      than the start of `tx`. */
  lemma DateIsDecidedAtTheLock(start: Time, before: seq<Step>, tx: Txn, meanwhile: seq<Step>, n: Id)
    requires var w := Run(Start(start), before);
      tx in w.txs && DoLock(w, tx) != w && tx in DoLock(w, tx).txs && StaysOpen(DoLock(w, tx), meanwhile, tx)
    requires var u := Run(DoLock(Run(Start(start), before), tx), meanwhile);
      n in DoCommit(u, tx).tokens && n !in u.tokens
    ensures var w := Run(Start(start), before);
      var end := DoCommit(Run(DoLock(w, tx), meanwhile), tx);
      var p := w.txs[tx].token;
      && p in w.tokens && p in end.tokens && Child(end.tokens, n, p) && end.tokens[p].rotatedAt.Some?
      && (end.tokens[n].createdAt < end.tokens[p].rotatedAt.value <==>
            w.tokens[p].rotatedAt.Some? && w.txs[tx].began < w.tokens[p].rotatedAt.value)
  {
    hide Run; hide Inv; hide AllConserved; hide AllSucceeded; hide GoodRecord; hide AllEscapesRight; hide DoLock;
    hide DoCommit;
    hide StaysOpen; hide Kept;
    WholeAlways(start, before);
    var w := Run(Start(start), before);
    var v := DoLock(w, tx);
    WholeNext(w, Lock(tx));
    SeenAtTheLock(w, tx);
    RunKeepsWhole(v, meanwhile);
    SeenOverRun(v, meanwhile, tx);
    var u := Run(v, meanwhile);
    WholeNext(u, Commit(tx));
    SeenIsRecorded(u, tx, n);
    assert SeenRight(DoCommit(u, tx), n, w.txs[tx].token);
  }

  lemma WholeNext(s: State, step: Step)
    requires Whole(s)
    ensures Whole(Next(s, step))
  {
    hide Inv; hide Documented; hide AllConserved; hide AllSucceeded; hide Next;
    StepKeeps(s, step);
    StepDocuments(s, step);
    StepConserves(s, step);
    StepSucceeds(s, step);
  }

  // ---- Revocation ----

  /** A token in a revoked session was issued to a refresh whose locking read had started before the
      revocation was committed: no refresh that starts later gets one. */
  lemma RevocationIsSeen(start: Time, steps: seq<Step>, c: Id, p: Id)
    requires var s := Run(Start(start), steps); Child(s.tokens, c, p) && s.tokens[c].session in s.revoked
    ensures var s := Run(Start(start), steps);
      c in s.issues && s.issues[c].askedAt < s.revoked[s.tokens[c].session]
  {
    hide Run; hide Inv; hide AllConserved; hide AllSucceeded; hide GoodRecord; hide AllEscapesRight;
    WholeAlways(start, steps);
    assert SeenRight(Run(Start(start), steps), c, p);
  }

  // ---- Runs written down ----

  lemma {:induction false} Extend(s: State, steps: seq<Step>, step: Step)
    ensures Run(s, steps + [step]) == Next(Run(s, steps), step)
    decreases |steps|
  {
    if steps == [] {
      assert steps + [step] == [step];
      assert Run(s, [step]) == Run(Next(s, step), []);
    } else {
      assert (steps + [step])[1..] == steps[1..] + [step];
      Extend(Next(s, steps[0]), steps[1..], step);
    }
  }

  /** Each step is its statement. */
  lemma Does(s: State, tx: Txn, t: Id)
    ensures Next(s, Begin(tx, t)) == DoBegin(s, tx, t) && Next(s, Ask(tx)) == DoAsk(s, tx)
    ensures Next(s, Lock(tx)) == DoLock(s, tx)
    ensures Next(s, Rotate(tx)) == DoRotate(s, tx) && Next(s, Check(tx)) == DoCheck(s, tx)
    ensures Next(s, Scan(tx)) == DoScan(s, tx)
    ensures Next(s, Judge(tx, true)) == DoJudge(s, tx, true) && Next(s, Insert(tx)) == DoInsert(s, tx)
    ensures Next(s, Commit(tx)) == DoCommit(s, tx) && Next(s, Logout(t)) == DoLogout(s, t)
  {
    hide Next;
    DoesFirst(s, tx, t);
    DoesNext(s, tx);
    DoesLast(s, tx, t);
  }

  lemma DoesFirst(s: State, tx: Txn, t: Id)
    ensures Next(s, Begin(tx, t)) == DoBegin(s, tx, t) && Next(s, Ask(tx)) == DoAsk(s, tx)
    ensures Next(s, Lock(tx)) == DoLock(s, tx)
  {
    hide DoBegin; hide DoAsk; hide DoLock;
  }

  lemma DoesNext(s: State, tx: Txn)
    ensures Next(s, Rotate(tx)) == DoRotate(s, tx) && Next(s, Check(tx)) == DoCheck(s, tx)
    ensures Next(s, Scan(tx)) == DoScan(s, tx)
  {
    hide DoRotate; hide DoCheck; hide DoScan;
  }

  lemma DoesLast(s: State, tx: Txn, t: Id)
    ensures Next(s, Judge(tx, true)) == DoJudge(s, tx, true) && Next(s, Insert(tx)) == DoInsert(s, tx)
    ensures Next(s, Commit(tx)) == DoCommit(s, tx) && Next(s, Logout(t)) == DoLogout(s, t)
  {
    hide DoJudge; hide DoInsert; hide DoCommit; hide DoLogout;
  }
}
