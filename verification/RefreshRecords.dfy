/** What the record of concurrent refreshes says: which rotation each transaction saw, whose session it saw
    live, and which children its superseding update found used. */
module RefreshRecords {
  import opened Base
  import opened Tables
  import opened RefreshStatements

  ghost predicate RotationsRight(rotations: map<Id, nat>, tokens: map<Id, Token>, count: nat) {
    && (forall t :: t in rotations <==> t in tokens && tokens[t].rotatedAt.Some?)
    && (forall t :: t in rotations ==> rotations[t] < count)
  }

  ghost predicate IssuesRight(issues: map<Id, Issued>, tokens: map<Id, Token>, count: nat) {
    issues.Keys == tokens.Keys && forall t :: t in issues ==> issues[t].askedAt < count
  }

  ghost predicate RevokedRight(revoked: map<Id, nat>, count: nat) {
    forall x :: x in revoked ==> revoked[x] < count
  }

  ghost predicate Kept(s: State) {
    RotationsRight(s.rotations, s.tokens, s.count) && IssuesRight(s.issues, s.tokens, s.count) &&
    RevokedRight(s.revoked, s.count)
  }

  /** The transaction that issued `c` saw its parent as it is now, or rotated it itself. */
  ghost predicate SeenRight(s: State, c: Id, p: Id) {
    && c in s.tokens && c in s.issues && p in s.tokens
    && s.tokens[p].rotatedAt == (if s.issues[c].seen.Some? then s.issues[c].seen else Some(s.tokens[c].createdAt))
    && s.issues[c].kind == KindOf(s.issues[c].seen, s.tokens[c].createdAt)
    && (s.tokens[c].session in s.revoked ==> s.issues[c].askedAt < s.revoked[s.tokens[c].session])
    && (!s.issues[c].kind.LateRetry? ==> s.issues[c].escaped == {})
  }

  ghost predicate AllSeenRight(s: State) {
    forall c, p :: Child(s.tokens, c, p) ==> SeenRight(s, c, p)
  }

  /** `c` was passed by an update, and found used there exactly if it was rotated after the check and
      before the update came to it; after that it is never rotated. */
  predicate PassedRight(rotations: map<Id, nat>, checkedAt: nat, passed: map<Id, nat>, escaped: set<Id>, c: Id) {
    c in passed && (c in escaped <==> c in rotations) && (c in rotations ==> checkedAt < rotations[c] < passed[c])
  }

  ghost predicate EscapesRight(s: State, n: Id, p: Id) {
    && n in s.issues
    && (forall c :: c in s.issues[n].escaped ==> Child(s.tokens, c, p) && c < n)
    && (forall c: Id :: Child(s.tokens, c, p) && c < n ==>
          PassedRight(s.rotations, s.issues[n].checkedAt, s.issues[n].passed, s.issues[n].escaped, c))
  }

  ghost predicate AllEscapesRight(s: State) {
    forall n, p :: Child(s.tokens, n, p) && n in s.issues && s.issues[n].kind.LateRetry? ==> EscapesRight(s, n, p)
  }

  // ---- Open transactions ----

  predicate AfterScan(p: Phase) {
    p.Superseding? || p.Judging? || p.Inserting? || p.Committing?
  }

  function Todo(p: Phase): set<Id> {
    if p.Superseding? then p.todo else {}
  }

  ghost predicate UpdateRight(s: State, x: Tx) {
    && (forall c :: c in x.escaped ==> Child(s.tokens, c, x.token))
    && (forall c :: Child(s.tokens, c, x.token) && c !in Todo(x.phase) ==>
          PassedRight(s.rotations, x.checkedAt, x.passed, x.escaped, c))
    && (forall c :: Child(s.tokens, c, x.token) && c in Todo(x.phase) ==>
          c !in x.escaped && s.tokens[c].supersededAt.None? && (c in s.rotations ==> x.checkedAt < s.rotations[c]))
  }

  /** It saw its session live before any revocation of it. */
  ghost predicate AskedRight(s: State, x: Tx) {
    x.token in s.tokens && x.askedAt < s.count &&
    (s.tokens[x.token].session in s.revoked ==> x.askedAt < s.revoked[s.tokens[x.token].session])
  }

  ghost predicate HasNewRow(s: State, x: Tx) {
    exists n :: n in x.writes && n !in s.tokens
  }

  /** What was rotated since the check, was rotated after it. */
  ghost predicate ScanRight(s: State, x: Tx) {
    x.checkedAt < s.count &&
    forall c :: Child(s.tokens, c, x.token) && c in s.rotations ==> x.checkedAt < s.rotations[c]
  }

  ghost predicate GoodRecord(s: State, tx: Txn)
    requires tx in s.txs
  {
    var x := s.txs[tx];
    && (x.phase.Locking? && x.phase.live ==> AskedRight(s, x))
    && (!Waiting(x.phase) ==> AskedRight(s, x) && x.seen == s.tokens[x.token].rotatedAt)
    && (x.phase.Rotating? ==> KindOf(x.seen, x.began).Rotation?)
    && (x.phase.Checking? || x.phase.Scanning? || x.phase.Superseding? ==> KindOf(x.seen, x.began).LateRetry?)
    && (!AfterScan(x.phase) && !x.phase.Refusing? && !x.phase.Ending? ==> x.escaped == {})
    && (x.phase.Scanning? ==> ScanRight(s, x))
    && (x.phase.Committing? ==> HasNewRow(s, x))
    && (AfterScan(x.phase) ==>
          if KindOf(x.seen, x.began).LateRetry? then x.checkedAt < s.count && UpdateRight(s, x) else x.escaped == {})
  }

  ghost predicate Documented(s: State) {
    Kept(s) && AllSeenRight(s) && AllEscapesRight(s) && forall tx :: tx in s.txs ==> GoodRecord(s, tx)
  }

  // ---- What others do ----

  /** Rotations and revocations are only added, as of now. */
  ghost predicate RecordGrows(s: State, v: State) {
    s.count <= v.count && RotationsGrow(s, v.rotations) && RevokedGrows(s, v.revoked)
  }

  ghost predicate RotationsGrow(s: State, after: map<Id, nat>) {
    && (forall c :: c in s.rotations ==> c in after && after[c] == s.rotations[c])
    && (forall c :: c in after && c !in s.rotations ==>
          after[c] == s.count && (c in s.tokens ==> Unused(s.tokens[c])))
  }

  ghost predicate RevokedGrows(s: State, after: map<Id, nat>) {
    && (forall x :: x in s.revoked ==> x in after && after[x] == s.revoked[x])
    && (forall x :: x in after && x !in s.revoked ==> after[x] == s.count)
  }

  /** Only the holder of a token supersedes its children. */
  ghost predicate LeavesChildren(s: State, v: State, y: Txn)
    requires y in s.txs
  {
    forall c | !Waiting(s.txs[y].phase) && Child(s.tokens, c, s.txs[y].token) && c in v.tokens ::
      s.tokens[c].supersededAt.None? ==> v.tokens[c].supersededAt.None?
  }

  /** A child the update of `y` has passed without finding it used is superseded, for `y` at least, and
      so is not rotated by others. */
  lemma PassedStays(s: State, v: State, y: Txn, c: Id)
    requires Respected(s, v, y) && RecordGrows(s, v) && GoodTx(s, y) && GoodRecord(s, y) && AfterScan(s.txs[y].phase)
    requires KindOf(s.txs[y].seen, s.txs[y].began).LateRetry?
    requires Child(s.tokens, c, s.txs[y].token) && c !in Todo(s.txs[y].phase) && c !in s.rotations && Kept(s) && Kept(v)
    ensures c !in v.rotations
  {
    var x := s.txs[y];
    assert Settled(View(s, x, c));
    if c in x.writes { assert GoodWrite(s, y, c); }
  }

  lemma RespectedRecord(s: State, v: State, y: Txn)
    requires Respected(s, v, y) && RecordGrows(s, v) && GoodTx(s, y) && GoodRecord(s, y) && Kept(s) && Kept(v)
    requires LeavesChildren(s, v, y)
    ensures GoodRecord(v, y)
  {
    hide GoodTx; hide HasNewRow; hide ScanRight; hide UpdateRight;
    var x := s.txs[y];
    assert !Waiting(x.phase) ==> InHand(s, y) by { HoldsItsToken(s, y); }
    if x.phase.Scanning? { RespectedScan(s, v, y); }
    if HasNewRow(s, x) { NewRowStays(s, v, y); }
    if AfterScan(x.phase) && KindOf(x.seen, x.began).LateRetry? {
      RespectedUpdate(s, v, y);
    }
  }

  lemma RespectedScan(s: State, v: State, y: Txn)
    requires Respected(s, v, y) && RecordGrows(s, v) && ScanRight(s, s.txs[y]) && !Waiting(s.txs[y].phase)
    ensures ScanRight(v, v.txs[y])
  {
    var x := s.txs[y];
    forall c | Child(v.tokens, c, x.token)
      ensures Child(s.tokens, c, x.token)
    {
      assert GoesOn(s.tokens[c], v.tokens[c]);
    }
  }

  lemma NewRowStays(s: State, v: State, y: Txn)
    requires Respected(s, v, y) && HasNewRow(s, s.txs[y])
    ensures HasNewRow(v, v.txs[y])
  {
    var n :| n in s.txs[y].writes && n !in s.tokens;
    assert n in v.txs[y].writes && n !in v.tokens;
  }

  lemma RespectedUpdate(s: State, v: State, y: Txn)
    requires Respected(s, v, y) && RecordGrows(s, v) && GoodTx(s, y) && GoodRecord(s, y) && Kept(s) && Kept(v)
    requires LeavesChildren(s, v, y)
    requires AfterScan(s.txs[y].phase) && KindOf(s.txs[y].seen, s.txs[y].began).LateRetry?
    ensures UpdateRight(v, v.txs[y])
  {
    hide GoodTx;
    var x := s.txs[y];
    forall c | Child(v.tokens, c, x.token)
      ensures Child(s.tokens, c, x.token)
    {
      assert GoesOn(s.tokens[c], v.tokens[c]);
    }
    forall c | Child(v.tokens, c, x.token) && c !in Todo(x.phase)
      ensures PassedRight(v.rotations, x.checkedAt, x.passed, x.escaped, c)
    {
      assert PassedRight(s.rotations, x.checkedAt, x.passed, x.escaped, c);
      if c !in s.rotations { PassedStays(s, v, y, c); }
    }
  }

  // ---- Steps that commit nothing ----

  ghost predicate SameRows(s: State, v: State) {
    v.tokens == s.tokens && v.issues == s.issues && v.rotations == s.rotations && v.revoked == s.revoked &&
    s.count <= v.count
  }

  lemma RowsStay(s: State, v: State)
    requires SameRows(s, v) && Kept(s) && AllSeenRight(s) && AllEscapesRight(s)
    ensures Kept(v) && AllSeenRight(v) && AllEscapesRight(v) && RecordGrows(s, v)
  {
    forall c, p | Child(v.tokens, c, p)
      ensures SeenRight(v, c, p)
    {
      assert SeenRight(s, c, p);
    }
    forall n, p | Child(v.tokens, n, p) && n in v.issues && v.issues[n].kind.LateRetry?
      ensures EscapesRight(v, n, p)
    {
      assert EscapesRight(s, n, p);
    }
  }

  lemma QuietRecord(s: State, v: State, tx: Txn)
    requires Inv(s) && Documented(s) && Undisturbed(s, v, tx) && SameRows(s, v)
    requires tx in v.txs ==> GoodRecord(v, tx)
    ensures Documented(v)
  {
    hide GoodRecord; hide GoodTx; hide Respected; hide Kept; hide AllSeenRight; hide AllEscapesRight; hide RecordGrows;
    RowsStay(s, v);
    forall y | y in v.txs
      ensures GoodRecord(v, y)
    {
      if y != tx {
        assert GoodTx(s, y) && GoodRecord(s, y);
        UndisturbedRespects(s, v, tx, y);
        RespectedRecord(s, v, y);
      }
    }
  }

  lemma UndisturbedRespects(s: State, v: State, tx: Txn, y: Txn)
    requires Undisturbed(s, v, tx) && y in v.txs && y != tx
    ensures Respected(s, v, y)
  {
  }

  /** A statement of `tx` that leaves the tables alone, and how it changed the transaction. */
  lemma StepRecord(s: State, v: State, tx: Txn)
    requires Inv(s) && Documented(s) && StepOf(s, v, tx) && GoodRecord(v, tx)
    ensures Documented(v)
  {
    hide Inv; hide Documented; hide GoodRecord; hide Undisturbed;
    StepOfFrame(s, v, tx);
    QuietRecord(s, v, tx);
  }

  lemma BeginRecord(s: State, tx: Txn, token: Id)
    requires Inv(s) && Documented(s)
    ensures Documented(DoBegin(s, tx, token))
  {
    hide Inv; hide Documented;
    var v := DoBegin(s, tx, token);
    if v != s { QuietRecord(s, v, tx); }
  }

  lemma CloseRecord(s: State, tx: Txn)
    requires Inv(s) && Documented(s)
    ensures Documented(Close(s, tx))
  {
    hide Inv; hide Documented; hide Undisturbed;
    CloseFrame(s, tx);
    QuietRecord(s, Close(s, tx), tx);
  }

  lemma AskRecord(s: State, tx: Txn)
    requires Inv(s) && Documented(s)
    ensures Documented(DoAsk(s, tx))
  {
    hide DoAsk; hide Inv; hide Kept; hide AllSeenRight; hide AllEscapesRight; hide Close;
    var v := DoAsk(s, tx);
    if v != s {
      AskEffect(s, tx);
      if s.txs[tx].token in s.tokens {
        assert GoodRecord(s, tx);
        StepRecord(s, v, tx);
      } else {
        CloseRecord(s, tx);
      }
    }
  }

  lemma LockRecord(s: State, tx: Txn)
    requires Inv(s) && Documented(s)
    ensures Documented(DoLock(s, tx))
  {
    hide DoLock; hide Inv; hide Kept; hide AllSeenRight; hide AllEscapesRight; hide Close; hide UpdateRight;
    var v := DoLock(s, tx);
    if v != s {
      LockEffect(s, tx);
      if s.txs[tx].phase.live {
        assert GoodRecord(s, tx);
        LockedRecord(s, v, tx);
        StepRecord(s, v, tx);
      } else {
        CloseRecord(s, tx);
      }
    }
  }

  lemma LockedRecord(s: State, v: State, tx: Txn)
    requires tx in s.txs && GoodRecord(s, tx) && s.txs[tx].phase.Locking? && s.txs[tx].phase.live && StepOf(s, v, tx)
    requires s.txs[tx].token in s.tokens
    requires var row := s.tokens[s.txs[tx].token];
      v.txs[tx] == s.txs[tx].(phase := Decide(row, s.txs[tx].began), seen := row.rotatedAt)
    ensures GoodRecord(v, tx)
  {
    hide UpdateRight;
  }

  lemma RotateRecord(s: State, tx: Txn)
    requires Inv(s) && Documented(s)
    ensures Documented(DoRotate(s, tx))
  {
    hide Inv; hide Kept; hide AllSeenRight; hide AllEscapesRight; hide UpdateRight; hide ScanRight;
    var v := DoRotate(s, tx);
    if v != s {
      assert GoodRecord(s, tx);
      StepRecord(s, v, tx);
    }
  }

  lemma CheckRecord(s: State, tx: Txn)
    requires Inv(s) && Documented(s)
    ensures Documented(DoCheck(s, tx))
  {
    hide Inv; hide AllSeenRight; hide AllEscapesRight; hide UpdateRight;
    var v := DoCheck(s, tx);
    if v != s {
      assert GoodRecord(s, tx);
      assert forall c :: Child(s.tokens, c, s.txs[tx].token) && c in s.rotations ==>
          HasUsedChild(s.tokens, s.txs[tx].token);
      StepRecord(s, v, tx);
    }
  }

  lemma ScanRecord(s: State, tx: Txn)
    requires Inv(s) && Documented(s)
    ensures Documented(DoScan(s, tx))
  {
    hide Inv; hide AllSeenRight; hide AllEscapesRight;
    var v := DoScan(s, tx);
    if v != s {
      assert GoodRecord(s, tx);
      ScannedUpdate(s, v, tx);
      hide UpdateRight; hide ScanRight;
      StepRecord(s, v, tx);
    }
  }

  lemma ScannedUpdate(s: State, v: State, tx: Txn)
    requires Kept(s) && tx in s.txs && tx in v.txs && ScanRight(s, s.txs[tx])
    requires v.tokens == s.tokens && v.rotations == s.rotations
    requires v.txs[tx] == s.txs[tx].(phase := AfterPassing(UnusedChildren(s.tokens, s.txs[tx].token)),
                                     passed := PassedBy(s, s.txs[tx].token),
                                     escaped := UsedChildren(s.tokens, s.txs[tx].token))
    ensures UpdateRight(v, v.txs[tx])
  {
    var x := s.txs[tx];
    assert Todo(v.txs[tx].phase) == UnusedChildren(s.tokens, x.token);
  }

  lemma SupersedeRecord(s: State, tx: Txn, row: Id)
    requires Inv(s) && Documented(s)
    ensures Documented(DoSupersede(s, tx, row))
  {
    hide Inv; hide AllSeenRight; hide AllEscapesRight; hide DoSupersede; hide Passing; hide Kept; hide GoodRecord;
    var v := DoSupersede(s, tx, row);
    if v != s {
      SupersedeEffect(s, tx, row);
      assert GoodRecord(s, tx);
      UsedIsRotated(s, tx, row);
      SupersededRecord(s, v, tx, row);
      StepRecord(s, v, tx);
    }
  }

  /** A child still to pass that is no longer unused was rotated: only its parent's holder supersedes it. */
  lemma UsedIsRotated(s: State, tx: Txn, row: Id)
    requires Inv(s) && Kept(s) && tx in s.txs && GoodRecord(s, tx) && s.txs[tx].phase.Superseding?
    requires row in s.txs[tx].phase.todo && row in s.tokens
    ensures Child(s.tokens, row, s.txs[tx].token) && (Unused(s.tokens[row]) <==> row !in s.rotations)
  {
    hide Tree; hide LateSettled; hide OneWriter; hide GoodTx;
    assert GoodTx(s, tx);
    assert GoodPhase(s, tx) by { PhaseOf(s, tx); }
    TodoAreChildren(s, tx, row);
  }

  lemma PhaseOf(s: State, tx: Txn)
    requires tx in s.txs && GoodTx(s, tx)
    ensures GoodPhase(s, tx)
  {
  }

  lemma SupersededRecord(s: State, v: State, tx: Txn, row: Id)
    requires Kept(s) && StepOf(s, v, tx) && GoodRecord(s, tx) && s.txs[tx].phase.Superseding? && row in s.tokens
    requires row in s.txs[tx].phase.todo && v.txs[tx] == Passing(s, s.txs[tx], row)
    requires Child(s.tokens, row, s.txs[tx].token) && (Unused(s.tokens[row]) <==> row !in s.rotations)
    ensures GoodRecord(v, tx)
  {
    var x, y := s.txs[tx], v.txs[tx];
    assert Todo(y.phase) == x.phase.todo - {row};
    forall c | Child(s.tokens, c, x.token) && c !in Todo(y.phase)
      ensures PassedRight(v.rotations, y.checkedAt, y.passed, y.escaped, c)
    {
      if c != row { assert PassedRight(s.rotations, x.checkedAt, x.passed, x.escaped, c); }
    }
  }

  lemma JudgeRecord(s: State, tx: Txn, enabled: bool)
    requires Inv(s) && Documented(s)
    ensures Documented(DoJudge(s, tx, enabled))
  {
    hide Inv; hide Kept; hide AllSeenRight; hide AllEscapesRight; hide ScanRight;
    var v := DoJudge(s, tx, enabled);
    if v != s {
      assert GoodRecord(s, tx);
      SameUpdate(s, v, tx);
      hide UpdateRight;
      StepRecord(s, v, tx);
    }
  }

  lemma SameUpdate(s: State, v: State, tx: Txn)
    requires tx in s.txs && tx in v.txs && v.tokens == s.tokens && v.rotations == s.rotations
    requires v.txs[tx] == s.txs[tx].(phase := v.txs[tx].phase, writes := v.txs[tx].writes)
    requires Todo(v.txs[tx].phase) == Todo(s.txs[tx].phase)
    ensures UpdateRight(s, s.txs[tx]) ==> UpdateRight(v, v.txs[tx])
  {
  }

  lemma InsertRecord(s: State, tx: Txn)
    requires Inv(s) && Documented(s)
    ensures Documented(DoInsert(s, tx))
  {
    hide Inv; hide Kept; hide AllSeenRight; hide AllEscapesRight; hide ScanRight;
    var v := DoInsert(s, tx);
    if v != s {
      assert GoodRecord(s, tx);
      assert s.next in v.txs[tx].writes && s.next !in v.tokens by { TreeOf(s); NextIsFresh(s); }
      SameUpdate(s, v, tx);
      hide UpdateRight;
      StepRecord(s, v, tx);
    }
  }

  lemma RevokeRecord(s: State, tx: Txn)
    requires Inv(s) && Documented(s)
    ensures Documented(DoRevoke(s, tx))
  {
    hide Inv; hide Kept; hide AllSeenRight; hide AllEscapesRight; hide ScanRight; hide UpdateRight;
    var v := DoRevoke(s, tx);
    if v != s {
      assert GoodRecord(s, tx);
      StepRecord(s, v, tx);
    }
  }

  lemma TickRecord(s: State, elapsed: nat)
    requires Inv(s) && Documented(s)
    ensures Documented(Next(s, Tick(elapsed)))
  {
    hide GoodTx; hide GoodRecord; hide Kept; hide AllSeenRight; hide AllEscapesRight; hide RecordGrows; hide Respected;
    var v := Next(s, Tick(elapsed));
    RowsStay(s, v);
    forall y | y in v.txs
      ensures GoodRecord(v, y)
    {
      assert GoodTx(s, y) && GoodRecord(s, y);
      UndisturbedRespects(s, v, y + 1, y);
      RespectedRecord(s, v, y);
    }
  }

  // ---- Revocations and commits ----

  /** A session revoked now was seen live earlier. */
  lemma LogoutRecord(s: State, session: Id)
    requires Inv(s) && Documented(s)
    ensures Documented(DoLogout(s, session))
  {
    hide GoodTx; hide GoodRecord; hide Respected; hide Kept; hide AllSeenRight; hide AllEscapesRight; hide RecordGrows;
    hide Tree; hide LateSettled; hide OneWriter;
    var v := DoLogout(s, session);
    if v != s {
      LogoutRows(s, session);
      forall y | y in v.txs
        ensures GoodRecord(v, y)
      {
        assert GoodTx(s, y) && GoodRecord(s, y);
        UndisturbedRespects(s, v, y + 1, y);
        RespectedRecord(s, v, y);
      }
    }
  }

  lemma LogoutRows(s: State, session: Id)
    requires Kept(s) && AllSeenRight(s) && AllEscapesRight(s) && DoLogout(s, session) != s
    ensures var v := DoLogout(s, session); Kept(v) && AllSeenRight(v) && AllEscapesRight(v) && RecordGrows(s, v)
  {
    hide EscapesRight;
    var v := DoLogout(s, session);
    forall c, p | Child(v.tokens, c, p)
      ensures SeenRight(v, c, p)
    {
      assert SeenRight(s, c, p);
      SeenStays(s, v, c, p);
    }
    forall n, p | Child(v.tokens, n, p) && n in v.issues && v.issues[n].kind.LateRetry?
      ensures EscapesRight(v, n, p)
    {
      assert EscapesRight(s, n, p);
      EscapesStay(s, v, n, p);
    }
  }

  lemma SeenStays(s: State, v: State, c: Id, p: Id)
    requires SeenRight(s, c, p) && RecordGrows(s, v) && Kept(s) && c in v.tokens && c in v.issues && p in v.tokens
    requires v.tokens[p].rotatedAt == s.tokens[p].rotatedAt && v.issues[c] == s.issues[c]
    requires v.tokens[c].session == s.tokens[c].session && v.tokens[c].createdAt == s.tokens[c].createdAt
    ensures SeenRight(v, c, p)
  {
  }

  lemma EscapesStay(s: State, v: State, n: Id, p: Id)
    requires EscapesRight(s, n, p) && n in v.issues && v.issues[n] == s.issues[n] && RecordGrows(s, v)
    requires forall c :: c in s.tokens ==> c in v.tokens && GoesOn(s.tokens[c], v.tokens[c])
    requires forall c: Id :: Child(v.tokens, c, p) && c < n ==>
               c in s.tokens && (c !in s.rotations ==> c !in v.rotations)
    ensures EscapesRight(v, n, p)
  {
    var i := s.issues[n];
    forall c: Id | Child(v.tokens, c, p) && c < n
      ensures PassedRight(v.rotations, i.checkedAt, i.passed, i.escaped, c)
    {
      assert GoesOn(s.tokens[c], v.tokens[c]);
      assert PassedRight(s.rotations, i.checkedAt, i.passed, i.escaped, c);
    }
    forall c | c in i.escaped
      ensures Child(v.tokens, c, p)
    {
      assert Child(s.tokens, c, p) && GoesOn(s.tokens[c], v.tokens[c]);
    }
  }

  lemma OpenRecord(s: State)
    requires Inv(s) && Documented(s)
    ensures Documented(DoOpen(s))
  {
    hide GoodTx; hide GoodRecord; hide Respected; hide Kept; hide AllSeenRight; hide AllEscapesRight; hide RecordGrows;
    hide LateSettled; hide OneWriter; hide Tree;
    var v := DoOpen(s);
    OpenRows(s);
    forall y | y in v.txs
      ensures GoodRecord(v, y)
    {
      assert GoodTx(s, y) && GoodRecord(s, y);
      OpenRespects(s, y);
      OpenLeaves(s, y);
      RespectedRecord(s, v, y);
    }
  }

  lemma OpenLeaves(s: State, y: Txn)
    requires Tree(s) && y in s.txs
    ensures LeavesChildren(s, DoOpen(s), y)
  {
  }

  lemma OpenRows(s: State)
    requires Tree(s) && Kept(s) && AllSeenRight(s) && AllEscapesRight(s)
    ensures var v := DoOpen(s); Kept(v) && AllSeenRight(v) && AllEscapesRight(v) && RecordGrows(s, v)
  {
    hide EscapesRight; hide SeenRight; hide Tree; hide Kept; hide RecordGrows; hide DoOpen;
    var v := DoOpen(s);
    OpenKept(s);
    forall c, p | Child(v.tokens, c, p)
      ensures SeenRight(v, c, p)
    {
      OldChild(s, c, p);
      assert SeenRight(s, c, p);
      OpenSeen(s, c, p);
    }
    forall n, p | Child(v.tokens, n, p) && n in v.issues && v.issues[n].kind.LateRetry?
      ensures EscapesRight(v, n, p)
    {
      OldChild(s, n, p);
      OpenEscapes(s, n, p);
    }
  }

  lemma OpenKept(s: State)
    requires Tree(s) && Kept(s)
    ensures Kept(DoOpen(s)) && RecordGrows(s, DoOpen(s))
  {
    hide Tree; hide RotationsRight; hide IssuesRight;
    assert s.next !in s.tokens by { NextIsFresh(s); }
    assert RotationsRight(s.rotations, DoOpen(s).tokens, s.count + 1) by { OpenRotations(s); }
    assert IssuesRight(DoOpen(s).issues, DoOpen(s).tokens, s.count + 1) by { OpenIssues(s); }
  }

  lemma OpenRotations(s: State)
    requires s.next !in s.tokens && RotationsRight(s.rotations, s.tokens, s.count)
    ensures RotationsRight(s.rotations, DoOpen(s).tokens, s.count + 1)
  {
  }

  lemma OpenIssues(s: State)
    requires s.next !in s.tokens && IssuesRight(s.issues, s.tokens, s.count)
    ensures IssuesRight(DoOpen(s).issues, DoOpen(s).tokens, s.count + 1)
  {
  }

  lemma TreeOf(s: State)
    requires Inv(s)
    ensures Tree(s)
  {
  }

  lemma NextIsFresh(s: State)
    requires Tree(s)
    ensures s.next !in s.tokens
  {
    hide GoodChild;
  }

  /** The new root is nobody's child. */
  lemma OldChild(s: State, c: Id, p: Id)
    requires Tree(s) && Kept(s) && Child(DoOpen(s).tokens, c, p)
    ensures Child(s.tokens, c, p) && c in s.issues && DoOpen(s).issues[c] == s.issues[c]
  {
    hide GoodChild;
  }

  lemma OpenSeen(s: State, c: Id, p: Id)
    requires Tree(s) && Kept(s) && Child(s.tokens, c, p) && SeenRight(s, c, p) && RecordGrows(s, DoOpen(s))
    ensures SeenRight(DoOpen(s), c, p)
  {
    hide RecordGrows; hide SeenRight;
    assert GoodChild(s, c, p);
    SeenStays(s, DoOpen(s), c, p);
  }

  lemma OpenEscapes(s: State, n: Id, p: Id)
    requires Tree(s) && Kept(s) && AllEscapesRight(s) && RecordGrows(s, DoOpen(s))
    requires Child(s.tokens, n, p) && n in s.issues && s.issues[n].kind.LateRetry?
    ensures EscapesRight(DoOpen(s), n, p)
  {
    hide RecordGrows; hide EscapesRight; hide GoodChild;
    assert EscapesRight(s, n, p);
    EscapesStay(s, DoOpen(s), n, p);
  }

  // ---- A transaction commits ----

  /** Rows gain a rotation only if they were unused, and keep it. */
  ghost predicate RotationsKept(tokens: map<Id, Token>, after: map<Id, Token>) {
    && tokens.Keys <= after.Keys
    && (forall c :: c in tokens && tokens[c].rotatedAt.Some? ==> after[c].rotatedAt.Some?)
    && (forall c :: c in tokens && tokens[c].rotatedAt.None? && after[c].rotatedAt.Some? ==> Unused(tokens[c]))
  }

  lemma CommitRotations(s: State, x: Tx, after: map<Id, Token>)
    requires CommittedAll(s, x, after)
    ensures RotationsKept(s.tokens, after)
  {
    forall c | c in s.tokens
      ensures s.tokens[c].rotatedAt.Some? ==> after[c].rotatedAt.Some?
      ensures s.tokens[c].rotatedAt.None? && after[c].rotatedAt.Some? ==> Unused(s.tokens[c])
    {
      assert CommittedRow(s, x, after, c);
    }
  }

  lemma CommitKept(s: State, x: Tx, v: State)
    requires Kept(s) && RotationsKept(s.tokens, v.tokens) && x.askedAt < s.count && v.count == s.count + 1
    requires v.issues == Recorded(s, x, v.tokens) && v.rotations == Rotated(s, v.tokens)
    requires v.revoked == s.revoked || exists session :: v.revoked == Revoked(s, session)
    ensures Kept(v) && RecordGrows(s, v)
  {
    hide RotationsRight; hide IssuesRight; hide RotationsGrow; hide Recorded; hide Rotated;
    CommitKeptRotations(s, v.tokens);
    CommitKeptIssues(s, x, v.tokens);
  }

  lemma CommitKeptRotations(s: State, after: map<Id, Token>)
    requires RotationsRight(s.rotations, s.tokens, s.count) && RotationsKept(s.tokens, after)
    ensures RotationsRight(Rotated(s, after), after, s.count + 1) && RotationsGrow(s, Rotated(s, after))
  {
  }

  lemma CommitKeptIssues(s: State, x: Tx, after: map<Id, Token>)
    requires IssuesRight(s.issues, s.tokens, s.count) && s.tokens.Keys <= after.Keys && x.askedAt < s.count
    ensures IssuesRight(Recorded(s, x, after), after, s.count + 1)
  {
  }

  lemma CommitSeen(s: State, x: Tx, v: State, c: Id, p: Id)
    requires Tree(s) && Kept(s) && AllSeenRight(s) && CommittedAll(s, x, v.tokens) && RecordGrows(s, v)
    requires v.issues == Recorded(s, x, v.tokens) && Child(v.tokens, c, p)
    requires c !in s.tokens ==>
               Rotates(x, v.tokens) && x.token in s.tokens && x.seen == s.tokens[x.token].rotatedAt &&
               AskedRight(s, x) &&
               v.revoked == s.revoked && (!KindOf(x.seen, x.began).LateRetry? ==> x.escaped == {})
    ensures SeenRight(v, c, p)
  {
    assert CommittedRow(s, x, v.tokens, c);
    if c in s.tokens {
      assert Child(s.tokens, c, p) && SeenRight(s, c, p);
      ParentsStay(s, x, v.tokens, c, p);
      SeenStays(s, v, c, p);
    } else {
      assert CommittedRow(s, x, v.tokens, p);
    }
  }

  /** A passed sibling of a late token stays as it was: it is superseded, or it was found used. */
  lemma CommitEscapesOld(s: State, x: Tx, v: State, n: Id, p: Id)
    requires Tree(s) && LateSettled(s.tokens) && Kept(s) && AllSeenRight(s) && AllEscapesRight(s)
    requires CommittedAll(s, x, v.tokens) && RecordGrows(s, v) && Kept(v)
    requires v.issues == Recorded(s, x, v.tokens)
    requires Child(s.tokens, n, p) && n in s.issues && s.issues[n].kind.LateRetry?
    ensures EscapesRight(v, n, p)
  {
    hide Tree; hide LateSettled; hide CommittedAll; hide Kept; hide RecordGrows; hide AllSeenRight;
    hide AllEscapesRight;
    hide EscapesRight; hide SeenRight; hide CommittedRow;
    assert EscapesRight(s, n, p) by { EscapesOf(s, n, p); }
    assert v.issues[n] == s.issues[n] by { CommitKeys(s, x, v.tokens); }
    CommitGoesOn(s, x, v.tokens);
    forall c: Id | Child(v.tokens, c, p) && c < n
      ensures c in s.tokens && (c !in s.rotations ==> c !in v.rotations)
    {
      SiblingStays(s, x, v, n, p, c);
    }
    EscapesStay(s, v, n, p);
  }

  lemma EscapesOf(s: State, n: Id, p: Id)
    requires AllEscapesRight(s) && Child(s.tokens, n, p) && n in s.issues && s.issues[n].kind.LateRetry?
    ensures EscapesRight(s, n, p)
  {
  }

  lemma CommitKeys(s: State, x: Tx, after: map<Id, Token>)
    requires CommittedAll(s, x, after)
    ensures s.tokens.Keys <= after.Keys
  {
  }

  lemma SiblingStays(s: State, x: Tx, v: State, n: Id, p: Id, c: Id)
    requires Tree(s) && LateSettled(s.tokens) && Kept(s) && AllSeenRight(s) && CommittedAll(s, x, v.tokens) && Kept(v)
    requires Child(s.tokens, n, p) && n in s.issues && s.issues[n].kind.LateRetry? && Child(v.tokens, c, p) && c < n
    ensures c in s.tokens && (c !in s.rotations ==> c !in v.rotations)
  {
    hide LateSettled;
    assert CommittedRow(s, x, v.tokens, c) && CommittedRow(s, x, v.tokens, n);
    assert SeenRight(s, n, p) && GoodChild(s, n, p);
    if c in s.tokens {
      assert Child(s.tokens, c, p);
      LateSibling(s.tokens, c, n, p);
    }
  }

  lemma CommitEscapesNew(s: State, tx: Txn, v: State, n: Id, p: Id)
    requires tx in s.txs && Tree(s) && GoodRecord(s, tx) && Kept(s) && Kept(v) && RecordGrows(s, v)
    requires CommittedAll(s, s.txs[tx], v.tokens) && s.txs[tx].phase.Committing?
    requires v.issues == Recorded(s, s.txs[tx], v.tokens) && n !in s.tokens && n !in s.issues && Child(v.tokens, n, p)
    requires v.issues[n].kind.LateRetry?
    ensures EscapesRight(v, n, p)
  {
    hide Tree; hide Kept; hide RecordGrows; hide GoodRecord;
    var x := s.txs[tx];
    assert CommittedRow(s, x, v.tokens, n) && UpdateRight(s, x) by { UpdateOf(s, tx); }
    forall c: Id | Child(v.tokens, c, p) && c < n
      ensures PassedRight(v.rotations, x.checkedAt, x.passed, x.escaped, c)
    {
      assert CommittedRow(s, x, v.tokens, c);
      assert PassedRight(s.rotations, x.checkedAt, x.passed, x.escaped, c);
      assert x.token < c by { ParentIsOlder(s, c, x.token); }
      OwnChildStays(s, tx, v, c);
    }
    forall c | c in x.escaped
      ensures Child(v.tokens, c, p) && c < n
    {
      assert Child(s.tokens, c, x.token) && CommittedRow(s, x, v.tokens, c);
    }
  }

  lemma ParentIsOlder(s: State, c: Id, p: Id)
    requires Tree(s) && Child(s.tokens, c, p)
    ensures p < c && p in s.tokens
  {
    assert GoodChild(s, c, p);
  }

  lemma UpdateOf(s: State, tx: Txn)
    requires tx in s.txs && GoodRecord(s, tx) && AfterScan(s.txs[tx].phase)
    requires KindOf(s.txs[tx].seen, s.txs[tx].began).LateRetry?
    ensures UpdateRight(s, s.txs[tx])
  {
  }

  /** A commit rotates no child of its own token. */
  lemma OwnChildStays(s: State, tx: Txn, v: State, c: Id)
    requires tx in s.txs && CommittedAll(s, s.txs[tx], v.tokens) && Kept(s) && Kept(v) && RecordGrows(s, v)
    requires Child(s.tokens, c, s.txs[tx].token) && c != s.txs[tx].token
    ensures c in v.rotations <==> c in s.rotations
    ensures c in s.rotations ==> v.rotations[c] == s.rotations[c]
  {
    assert CommittedRow(s, s.txs[tx], v.tokens, c);
  }

  lemma CommitLeaves(s: State, tx: Txn, y: Txn, after: map<Id, Token>)
    requires tx in s.txs && y in s.txs && y != tx && CommittedAll(s, s.txs[tx], after)
    requires !Waiting(s.txs[tx].phase) && InHand(s, tx) && (!Waiting(s.txs[y].phase) ==> InHand(s, y))
    ensures forall c | !Waiting(s.txs[y].phase) && Child(s.tokens, c, s.txs[y].token) && c in after ::
              s.tokens[c].supersededAt.None? ==> after[c].supersededAt.None?
  {
    forall c | !Waiting(s.txs[y].phase) && Child(s.tokens, c, s.txs[y].token) && c in after
      ensures s.tokens[c].supersededAt.None? ==> after[c].supersededAt.None?
    {
      assert CommittedRow(s, s.txs[tx], after, c);
    }
  }

  lemma CommitTx(s: State, tx: Txn, y: Txn)
    requires Inv(s) && Documented(s) && tx in s.txs && y in s.txs && y != tx && DoCommit(s, tx) != s
    requires Kept(DoCommit(s, tx)) && RecordGrows(s, DoCommit(s, tx))
    ensures y in DoCommit(s, tx).txs && GoodRecord(DoCommit(s, tx), y)
  {
    hide Tree; hide LateSettled; hide OneWriter; hide GoodTx; hide GoodRecord; hide Kept; hide RecordGrows;
    hide Respected;
    hide AllSeenRight; hide AllEscapesRight; hide CommittedAll;
    var v := DoCommit(s, tx);
    assert GoodTx(s, tx) && GoodTx(s, y) && GoodRecord(s, y);
    CommitRespects(s, tx, y);
    HoldsItsToken(s, tx);
    HoldsItsToken(s, y);
    CommitRows(s, tx);
    CommitLeaves(s, tx, y, v.tokens);
    RespectedRecord(s, v, y);
  }

  lemma CommitTables(s: State, tx: Txn)
    requires Inv(s) && Documented(s) && tx in s.txs && DoCommit(s, tx) != s
    ensures var v := DoCommit(s, tx); Kept(v) && RecordGrows(s, v)
  {
    hide Tree; hide LateSettled; hide OneWriter; hide GoodTx; hide Kept; hide RecordGrows; hide AllSeenRight;
    hide AllEscapesRight; hide CommittedAll; hide UpdateRight; hide RotationsKept;
    assert GoodTx(s, tx) && GoodRecord(s, tx);
    CommitRows(s, tx);
    var v := DoCommit(s, tx);
    CommitRotations(s, s.txs[tx], v.tokens);
    CommitKept(s, s.txs[tx], v);
  }

  lemma CommitRecord(s: State, tx: Txn)
    requires Inv(s) && Documented(s)
    ensures Documented(DoCommit(s, tx))
  {
    hide Tree; hide LateSettled; hide OneWriter; hide GoodTx; hide GoodRecord; hide Kept; hide RecordGrows;
    hide CommittedAll; hide SeenRight; hide EscapesRight; hide DoCommit; hide Inv;
    var v := DoCommit(s, tx);
    if v != s {
      CommitOpen(s, tx);
      CommitTables(s, tx);
      forall c, p | Child(v.tokens, c, p)
        ensures SeenRight(v, c, p)
      {
        CommitSeenTx(s, tx, c, p);
      }
      forall n, p | Child(v.tokens, n, p) && n in v.issues && v.issues[n].kind.LateRetry?
        ensures EscapesRight(v, n, p)
      {
        CommitEscapesTx(s, tx, n, p);
      }
      forall y | y in v.txs
        ensures GoodRecord(v, y)
      {
        CommitTx(s, tx, y);
      }
    }
  }

  lemma CommitOpen(s: State, tx: Txn)
    requires DoCommit(s, tx) != s
    ensures tx in s.txs && (s.txs[tx].phase.Committing? || s.txs[tx].phase.Ending?)
    ensures DoCommit(s, tx).txs == s.txs - {tx}
  {
  }

  /** Only a committing transaction has a new row. */
  lemma CommitAdds(s: State, tx: Txn, c: Id)
    requires Inv(s) && tx in s.txs && DoCommit(s, tx) != s && c in DoCommit(s, tx).tokens && c !in s.tokens
    ensures s.txs[tx].phase.Committing? && Rotates(s.txs[tx], DoCommit(s, tx).tokens)
  {
    hide LateSettled; hide OneWriter; hide NewIsLateSettled; hide Tree;
    assert GoodTx(s, tx) && GoodWrite(s, tx, c);
    CommitNew(s, tx);
  }

  lemma CommitSeenTx(s: State, tx: Txn, c: Id, p: Id)
    requires Inv(s) && Documented(s) && tx in s.txs && DoCommit(s, tx) != s && Child(DoCommit(s, tx).tokens, c, p)
    requires RecordGrows(s, DoCommit(s, tx))
    ensures SeenRight(DoCommit(s, tx), c, p)
  {
    hide Tree; hide LateSettled; hide OneWriter; hide GoodTx; hide Kept; hide RecordGrows; hide AllSeenRight;
    hide AllEscapesRight; hide CommittedAll; hide UpdateRight; hide SeenRight;
    assert GoodTx(s, tx) && GoodRecord(s, tx);
    CommitRows(s, tx);
    if c !in s.tokens { CommitAdds(s, tx, c); }
    CommitSeen(s, s.txs[tx], DoCommit(s, tx), c, p);
  }

  lemma CommitEscapesTx(s: State, tx: Txn, n: Id, p: Id)
    requires Inv(s) && Documented(s) && tx in s.txs && DoCommit(s, tx) != s && Child(DoCommit(s, tx).tokens, n, p)
    requires var v := DoCommit(s, tx); RecordGrows(s, v) && Kept(v) && n in v.issues && v.issues[n].kind.LateRetry?
    ensures EscapesRight(DoCommit(s, tx), n, p)
  {
    hide Tree; hide LateSettled; hide OneWriter; hide GoodTx; hide RecordGrows; hide AllSeenRight;
    hide AllEscapesRight; hide CommittedAll; hide GoodRecord; hide EscapesRight; hide RotationsRight; hide RevokedRight;
    assert GoodTx(s, tx) && GoodRecord(s, tx);
    CommitRows(s, tx);
    var v := DoCommit(s, tx);
    if n in s.tokens {
      assert Child(s.tokens, n, p) by { ParentsKept(s, s.txs[tx], v.tokens, n); }
      CommitEscapesOld(s, s.txs[tx], v, n, p);
    } else {
      CommitAdds(s, tx, n);
      CommitEscapesNew(s, tx, v, n, p);
    }
  }

  lemma ParentsKept(s: State, x: Tx, after: map<Id, Token>, c: Id)
    requires CommittedAll(s, x, after) && c in s.tokens
    ensures c in after && after[c].parent == s.tokens[c].parent
  {
    assert CommittedRow(s, x, after, c);
  }

  // ---- Every step ----

  lemma StepDocuments(s: State, step: Step)
    requires Inv(s) && Documented(s)
    ensures Documented(Next(s, step))
  {
    hide Inv; hide Documented; hide DoOpen; hide DoBegin; hide DoAsk; hide DoLock; hide DoRotate; hide DoCheck;
    hide DoScan;
    hide DoSupersede; hide DoJudge; hide DoInsert; hide DoRevoke; hide DoCommit; hide DoLogout; hide Close;
    match step
    case OpenSession => OpenRecord(s);
    case Begin(tx, token) => BeginRecord(s, tx, token);
    case Ask(tx) => AskRecord(s, tx);
    case Lock(tx) => LockRecord(s, tx);
    case Rotate(tx) => RotateRecord(s, tx);
    case Check(tx) => CheckRecord(s, tx);
    case Scan(tx) => ScanRecord(s, tx);
    case SupersedeRow(tx, row) => SupersedeRecord(s, tx, row);
    case Judge(tx, enabled) => JudgeRecord(s, tx, enabled);
    case Insert(tx) => InsertRecord(s, tx);
    case RevokeOwn(tx) => RevokeRecord(s, tx);
    case Commit(tx) => CommitRecord(s, tx);
    case Abort(tx) => if tx in s.txs { CloseRecord(s, tx); }
    case Logout(session) => LogoutRecord(s, session);
    case Tick(elapsed) => TickRecord(s, elapsed);
  }
}
