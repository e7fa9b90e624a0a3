/** The refresh grant one SQL statement at a time: concurrent transactions at READ COMMITTED, row locks
    held until the end, and updates that check their WHERE clause again once they have the lock. `now()`
    is the start of the transaction. A locking read waits for the latest version of the row it locks, but
    reads the joined session as its snapshot had it when the statement started. */
module RefreshStatements {
  import opened Base
  import opened Tables

  type Txn = nat

  /** What a transaction does next. `Locking` has started the locking read and saw its session live or
      not; `Scanning` starts the superseding update and `Superseding` has the rows that update found still
      to lock; `Judging` looks the account up; `Refusing` has the session to revoke. */
  datatype Phase =
    | Begun | Locking(live: bool) | Rotating | Checking | Scanning | Superseding(todo: set<Id>)
    | Judging | Inserting | Committing | Refusing | Ending

  /** `seen`: the rotation of its token when it got the lock. The rest is for the record: the steps at
      which it started its locking read and looked for used successors, the step at which its superseding
      update passed each child, and the children it found rotated there. */
  datatype Tx = Tx(token: Id, began: Time, phase: Phase, writes: map<Id, Token>, seen: Option<Time>, askedAt: nat,
                   checkedAt: nat, passed: map<Id, nat>, escaped: set<Id>)

  /** What is remembered of the transaction that issued a token. */
  datatype Issued = Issued(kind: IssueKind, seen: Option<Time>, askedAt: nat, checkedAt: nat, passed: map<Id, nat>,
                           escaped: set<Id>)

  /** Committed rows, who locks what, and open transactions. `count` numbers the steps; `committedAt`,
      `issues`, `rotations` and `revoked` remember when and how rows were committed. */
  datatype State = State(tokens: map<Id, Token>, committedAt: map<Id, Time>, issues: map<Id, Issued>,
                         rotations: map<Id, nat>, revoked: map<Id, nat>, locks: map<Id, Txn>,
                         sessionLocks: map<Id, Txn>, txs: map<Txn, Tx>, next: Id, now: Time, count: nat)

  datatype Step =
    | OpenSession
    | Begin(tx: Txn, token: Id)
    | Ask(tx: Txn)
    | Lock(tx: Txn)
    | Rotate(tx: Txn)
    | Check(tx: Txn)
    | Scan(tx: Txn)
    | SupersedeRow(tx: Txn, row: Id)
    | Judge(tx: Txn, enabled: bool)
    | Insert(tx: Txn)
    | RevokeOwn(tx: Txn)
    | Commit(tx: Txn)
    | Abort(tx: Txn)
    | Logout(session: Id)
    | Tick(elapsed: nat)

  function Start(now: Time): State {
    State(map[], map[], map[], map[], map[], map[], map[], map[], 0, now, 0)
  }

  predicate Free(s: State, row: Id, tx: Txn) {
    row in s.locks ==> s.locks[row] == tx
  }

  predicate Child(tokens: map<Id, Token>, c: Id, p: Id) {
    c in tokens && tokens[c].parent == Some(p)
  }

  predicate Unused(t: Token) {
    t.rotatedAt.None? && t.supersededAt.None?
  }

  predicate HasUsedChild(tokens: map<Id, Token>, t: Id) {
    exists c | c in tokens :: Child(tokens, c, t) && tokens[c].rotatedAt.Some?
  }

  function Decide(row: Token, now: Time): Phase {
    if row.supersededAt.Some? then Refusing
    else if row.rotatedAt.None? then Rotating
    else if now - row.rotatedAt.value <= REFRESH_REUSE_GRACE then Judging
    else Checking
  }

  function KindOf(seen: Option<Time>, now: Time): IssueKind {
    if seen.None? then Rotation else if now - seen.value <= REFRESH_REUSE_GRACE then GraceReuse else LateRetry
  }

  function Record(x: Tx): Issued {
    Issued(KindOf(x.seen, x.began), x.seen, x.askedAt, x.checkedAt, x.passed, x.escaped)
  }

  function Put(s: State, tx: Txn, x: Tx): State {
    s.(txs := s.txs[tx := x], count := s.count + 1)
  }

  function Release(locks: map<Id, Txn>, tx: Txn): map<Id, Txn> {
    map r | r in locks && locks[r] != tx :: locks[r]
  }

  /** The end of a transaction, whatever it wrote. */
  function Close(s: State, tx: Txn): (r: State)
    ensures r.tokens == s.tokens && r.issues == s.issues && r.revoked == s.revoked
  {
    s.(locks := Release(s.locks, tx), sessionLocks := Release(s.sessionLocks, tx), txs := s.txs - {tx},
       count := s.count + 1)
  }

  /** The committed rows once the writes of `tx` are visible. */
  function Merged(tokens: map<Id, Token>, writes: map<Id, Token>): map<Id, Token> {
    tokens + writes
  }

  function Dated(s: State, after: map<Id, Token>): map<Id, Time> {
    map t | t in after :: if t in s.committedAt then s.committedAt[t] else s.now
  }

  function Recorded(s: State, x: Tx, after: map<Id, Token>): map<Id, Issued> {
    map t | t in after :: if t in s.issues then s.issues[t] else Record(x)
  }

  function Rotated(s: State, after: map<Id, Token>): map<Id, nat> {
    map t | t in after && after[t].rotatedAt.Some? :: if t in s.rotations then s.rotations[t] else s.count
  }

  function Revoked(s: State, session: Id): map<Id, nat> {
    if session in s.revoked then s.revoked else s.revoked[session := s.count]
  }

  function Committed(s: State, x: Tx): State {
    var after := Merged(s.tokens, x.writes);
    s.(tokens := after, committedAt := Dated(s, after), issues := Recorded(s, x, after), rotations := Rotated(s, after),
       revoked := if x.phase.Ending? && x.token in s.tokens then Revoked(s, s.tokens[x.token].session) else s.revoked)
  }

  function UnusedChildren(tokens: map<Id, Token>, t: Id): set<Id> {
    set c | c in tokens && Child(tokens, c, t) && Unused(tokens[c])
  }

  function UsedChildren(tokens: map<Id, Token>, t: Id): set<Id> {
    set c | c in tokens && Child(tokens, c, t) && tokens[c].rotatedAt.Some?
  }

  function PassedBy(s: State, t: Id): map<Id, nat> {
    map c | c in s.tokens && Child(s.tokens, c, t) && !Unused(s.tokens[c]) :: s.count
  }

  function AfterPassing(todo: set<Id>): Phase {
    if todo == {} then Judging else Superseding(todo)
  }

  // ---- One function for each statement. One that cannot run yet, because a lock is held or the
  // ---- transaction is elsewhere, changes nothing.

  function DoOpen(s: State): State {
    s.(tokens := s.tokens[s.next := Token(s.next, None, None, None, s.now)],
       committedAt := s.committedAt[s.next := s.now],
       issues := s.issues[s.next := Issued(Root, None, s.count, 0, map[], {})],
       next := s.next + 1, count := s.count + 1)
  }

  function DoBegin(s: State, tx: Txn, token: Id): (r: State)
    ensures r.tokens == s.tokens && r.issues == s.issues && r.revoked == s.revoked
  {
    if tx in s.txs then s else Put(s, tx, Tx(token, s.now, Begun, map[], None, 0, 0, map[], {}))
  }

  /** The session of the token is not revoked, and has not run out for a request that came at `now`. The
      identifier of a session is that of its root. */
  predicate Alive(s: State, t: Id, now: Time)
    requires t in s.tokens
  {
    var session := s.tokens[t].session;
    session !in s.revoked && session in s.tokens && now < s.tokens[session].createdAt + SESSION_TTL
  }

  /** The locking read starts; an unknown token ends the transaction. */
  function DoAsk(s: State, tx: Txn): (r: State)
    ensures r.tokens == s.tokens && r.issues == s.issues && r.revoked == s.revoked
  {
    if tx !in s.txs || !s.txs[tx].phase.Begun? then s
    else if s.txs[tx].token !in s.tokens then Close(s, tx)
    else
      var x := s.txs[tx];
      Put(s, tx, x.(phase := Locking(Alive(s, x.token, x.began)), askedAt := s.count))
  }

  function DoLock(s: State, tx: Txn): (r: State)
    ensures r.tokens == s.tokens && r.issues == s.issues && r.revoked == s.revoked
  {
    if tx !in s.txs || !s.txs[tx].phase.Locking? || !Free(s, s.txs[tx].token, tx) || s.txs[tx].token !in s.tokens then s
    else if !s.txs[tx].phase.live then Close(s, tx)
    else
      var x := s.txs[tx];
      var row := s.tokens[x.token];
      Put(s.(locks := s.locks[x.token := tx]), tx, x.(phase := Decide(row, x.began), seen := row.rotatedAt))
  }

  function DoRotate(s: State, tx: Txn): (r: State)
    ensures r.tokens == s.tokens && r.issues == s.issues && r.revoked == s.revoked
  {
    if tx !in s.txs || !s.txs[tx].phase.Rotating? || s.txs[tx].token !in s.tokens then s
    else
      var x := s.txs[tx];
      var row := s.tokens[x.token].(rotatedAt := Some(x.began));
      Put(s, tx, x.(phase := Judging, writes := x.writes[x.token := row]))
  }

  function DoCheck(s: State, tx: Txn): (r: State)
    ensures r.tokens == s.tokens && r.issues == s.issues && r.revoked == s.revoked
  {
    if tx !in s.txs || !s.txs[tx].phase.Checking? then s
    else
      var x := s.txs[tx];
      Put(s, tx, x.(phase := if HasUsedChild(s.tokens, x.token) then Refusing else Scanning, checkedAt := s.count))
  }

  function DoScan(s: State, tx: Txn): (r: State)
    ensures r.tokens == s.tokens && r.issues == s.issues && r.revoked == s.revoked
  {
    if tx !in s.txs || !s.txs[tx].phase.Scanning? then s
    else
      var x := s.txs[tx];
      Put(s, tx, x.(phase := AfterPassing(UnusedChildren(s.tokens, x.token)), passed := PassedBy(s, x.token),
                    escaped := UsedChildren(s.tokens, x.token)))
  }

  function DoSupersede(s: State, tx: Txn, row: Id): (r: State)
    ensures r.tokens == s.tokens && r.issues == s.issues && r.revoked == s.revoked
  {
    if tx !in s.txs || !s.txs[tx].phase.Superseding? || row !in s.txs[tx].phase.todo || row !in s.tokens ||
       !Free(s, row, tx)
    then s
    else Put(s.(locks := s.locks[row := tx]), tx, Passing(s, s.txs[tx], row))
  }

  /** The update has the row: it supersedes it, or finds that it was used meanwhile. */
  function Passing(s: State, x: Tx, row: Id): Tx
    requires row in s.tokens && x.phase.Superseding?
  {
    var y := x.(phase := AfterPassing(x.phase.todo - {row}), passed := x.passed[row := s.count]);
    if Unused(s.tokens[row]) then y.(writes := x.writes[row := s.tokens[row].(supersededAt := Some(x.began))])
    else y.(escaped := x.escaped + {row})
  }

  function DoJudge(s: State, tx: Txn, enabled: bool): (r: State)
    ensures r.tokens == s.tokens && r.issues == s.issues && r.revoked == s.revoked
  {
    if tx !in s.txs || !s.txs[tx].phase.Judging? then s
    else Put(s, tx, s.txs[tx].(phase := if enabled then Inserting else Refusing))
  }

  function DoInsert(s: State, tx: Txn): (r: State)
    ensures r.tokens == s.tokens && r.issues == s.issues && r.revoked == s.revoked
  {
    if tx !in s.txs || !s.txs[tx].phase.Inserting? || s.txs[tx].token !in s.tokens then s
    else
      var x := s.txs[tx];
      var row := Token(s.tokens[x.token].session, Some(x.token), None, None, x.began);
      Put(s.(next := s.next + 1), tx, x.(phase := Committing, writes := x.writes[s.next := row]))
  }

  function DoRevoke(s: State, tx: Txn): (r: State)
    ensures r.tokens == s.tokens && r.issues == s.issues && r.revoked == s.revoked
  {
    if tx !in s.txs || !s.txs[tx].phase.Refusing? || s.txs[tx].token !in s.tokens then s
    else
      var session := s.tokens[s.txs[tx].token].session;
      if session in s.sessionLocks && s.sessionLocks[session] != tx then s
      else Put(s.(sessionLocks := s.sessionLocks[session := tx]), tx, s.txs[tx].(phase := Ending))
  }

  function DoCommit(s: State, tx: Txn): State {
    if tx !in s.txs || !(s.txs[tx].phase.Committing? || s.txs[tx].phase.Ending?) then s
    else Close(Committed(s, s.txs[tx]), tx)
  }

  function DoLogout(s: State, session: Id): (r: State)
    ensures r.tokens == s.tokens && r.issues == s.issues
  {
    if session in s.sessionLocks || session !in s.tokens || session in s.revoked then s
    else s.(revoked := Revoked(s, session), count := s.count + 1)
  }

  function Next(s: State, step: Step): State {
    match step
    case Tick(elapsed) => s.(now := s.now + elapsed, count := s.count + 1)
    case OpenSession => DoOpen(s)
    case Begin(tx, token) => DoBegin(s, tx, token)
    case Ask(tx) => DoAsk(s, tx)
    case Lock(tx) => DoLock(s, tx)
    case Rotate(tx) => DoRotate(s, tx)
    case Check(tx) => DoCheck(s, tx)
    case Scan(tx) => DoScan(s, tx)
    case SupersedeRow(tx, row) => DoSupersede(s, tx, row)
    case Judge(tx, enabled) => DoJudge(s, tx, enabled)
    case Insert(tx) => DoInsert(s, tx)
    case RevokeOwn(tx) => DoRevoke(s, tx)
    case Commit(tx) => DoCommit(s, tx)
    case Abort(tx) => if tx in s.txs then Close(s, tx) else s
    case Logout(session) => DoLogout(s, session)
  }

  function Run(s: State, steps: seq<Step>): State
    decreases |steps|
  {
    if steps == [] then s else Run(Next(s, steps[0]), steps[1..])
  }

  // ---- What holds of the committed rows ----

  predicate GoodChild(s: State, c: Id, p: Id) {
    && c in s.tokens && p in s.tokens && p < c && c in s.committedAt
    && s.tokens[p].session == s.tokens[c].session && s.tokens[p].rotatedAt.Some?
    && s.tokens[p].rotatedAt.value <= s.committedAt[c]
  }

  ghost predicate Tree(s: State) {
    && (forall t | t in s.tokens ::
          && t < s.next && t in s.committedAt && s.tokens[t].session <= t
          && (s.tokens[t].parent.None? <==> s.tokens[t].session == t)
          && (s.tokens[t].rotatedAt.Some? ==> s.tokens[t].rotatedAt.value <= s.now)
          && (s.tokens[t].supersededAt.Some? ==> s.tokens[t].rotatedAt.None? && s.tokens[t].parent.Some?))
    && (forall t :: t in s.committedAt ==> t in s.tokens)
    && (forall c, p :: Child(s.tokens, c, p) ==> GoodChild(s, c, p))
  }

  predicate Late(created: Time, parent: Token) {
    parent.rotatedAt.Some? && REFRESH_REUSE_GRACE < created - parent.rotatedAt.value
  }

  predicate Settled(t: Token) {
    t.rotatedAt.Some? || t.supersededAt.Some?
  }

  /** The older siblings of a token issued late were used or superseded. */
  ghost predicate LateSettled(tokens: map<Id, Token>) {
    forall older, newer, p | Child(tokens, older, p) && Child(tokens, newer, p) && older < newer && p in tokens ::
      Late(tokens[newer].createdAt, tokens[p]) ==> Settled(tokens[older])
  }

  // ---- What holds of an open transaction ----

  /** A write is to a row the transaction locks, or is its new row. */
  ghost predicate GoodWrite(s: State, tx: Txn, r: Id)
    requires tx in s.txs && r in s.txs[tx].writes
  {
    var x := s.txs[tx];
    if r in s.tokens then
      r in s.locks && s.locks[r] == tx && Unused(s.tokens[r]) &&
      (if r == x.token then x.writes[r] == s.tokens[r].(rotatedAt := Some(x.began))
       else Child(s.tokens, r, x.token) && x.writes[r] == s.tokens[r].(supersededAt := Some(x.began)))
    else
      x.token < r < s.next && x.phase.Committing? && x.token in s.tokens &&
      x.writes[r] == Token(s.tokens[x.token].session, Some(x.token), None, None, x.began) &&
      (forall c :: c in s.tokens && Child(s.tokens, c, x.token) ==> c < r)
  }

  ghost predicate InHand(s: State, tx: Txn)
    requires tx in s.txs
  {
    var x := s.txs[tx];
    x.token in s.tokens && x.token in s.locks && s.locks[x.token] == tx
  }

  function View(s: State, x: Tx, r: Id): Token
    requires r in s.tokens
  {
    if r in x.writes then x.writes[r] else s.tokens[r]
  }

  ghost predicate ChildrenSettled(s: State, x: Tx, todo: set<Id>) {
    forall c :: c in s.tokens && Child(s.tokens, c, x.token) && c !in todo ==> Settled(View(s, x, c))
  }

  /** Nothing is locked yet. */
  predicate Waiting(p: Phase) {
    p.Begun? || p.Locking?
  }

  ghost predicate GoodPhase(s: State, tx: Txn)
    requires tx in s.txs
  {
    var x := s.txs[tx];
    && (Waiting(x.phase) ==> x.writes == map[])
    && (!Waiting(x.phase) ==> InHand(s, tx))
    && (x.phase.Rotating? ==> Unused(s.tokens[x.token]) && x.writes == map[])
    && (x.phase.Checking? || x.phase.Scanning? || x.phase.Superseding? ==>
          s.tokens[x.token].rotatedAt.Some? && s.tokens[x.token].supersededAt.None? && x.token !in x.writes)
    && (x.phase.Checking? || x.phase.Scanning? ==> x.writes == map[])
    && (x.phase.Superseding? ==>
          ChildrenSettled(s, x, x.phase.todo) && forall c :: c in x.phase.todo ==> Child(s.tokens, c, x.token))
    && (x.phase.Judging? || x.phase.Inserting? || x.phase.Committing? ==>
          View(s, x, x.token).rotatedAt.Some? && View(s, x, x.token).supersededAt.None? &&
          (Late(x.began, View(s, x, x.token)) ==> ChildrenSettled(s, x, {})))
  }

  /** The new row is written once. */
  ghost predicate OneNewRow(s: State, tx: Txn)
    requires tx in s.txs
  {
    forall r, q :: r in s.txs[tx].writes && r !in s.tokens && q in s.txs[tx].writes && q !in s.tokens ==> r == q
  }

  ghost predicate GoodTx(s: State, tx: Txn)
    requires tx in s.txs
  {
    s.txs[tx].began <= s.now && GoodPhase(s, tx) && OneNewRow(s, tx) &&
    forall r :: r in s.txs[tx].writes ==> GoodWrite(s, tx, r)
  }

  ghost predicate OneWriter(s: State) {
    forall x, y, r :: x in s.txs && y in s.txs && r in s.txs[x].writes && r in s.txs[y].writes ==> x == y
  }

  ghost predicate Inv(s: State) {
    Tree(s) && LateSettled(s.tokens) && OneWriter(s) && forall tx :: tx in s.txs ==> GoodTx(s, tx)
  }

  // ---- Steps that commit nothing ----

  /** Nothing `y` relies on moves: the committed rows, and the locks and state of `y`. */
  ghost predicate Undisturbed(s: State, v: State, tx: Txn) {
    && v.tokens == s.tokens && v.committedAt == s.committedAt && s.next <= v.next && s.now <= v.now
    && (forall r :: r in s.locks && s.locks[r] != tx ==> r in v.locks && v.locks[r] == s.locks[r])
    && (forall y :: y in v.txs && y != tx ==> y in s.txs && v.txs[y] == s.txs[y])
  }

  /** What `y` relies on is the same in `v`, whatever else was committed. */
  ghost predicate Respected(s: State, v: State, y: Txn) {
    && y in s.txs && y in v.txs && v.txs[y] == s.txs[y] && s.next <= v.next && s.now <= v.now
    && (forall r :: r in s.locks && s.locks[r] == y ==>
          r in v.locks && v.locks[r] == y && (r in s.tokens ==> r in v.tokens && v.tokens[r] == s.tokens[r]))
    && (forall c :: c in s.tokens ==> c in v.tokens && GoesOn(s.tokens[c], v.tokens[c]))
    && (forall c :: !Waiting(s.txs[y].phase) && Child(v.tokens, c, s.txs[y].token) ==> c in s.tokens)
    && (forall r :: r in s.txs[y].writes && r !in s.tokens ==> r !in v.tokens)
  }

  predicate GoesOn(x: Token, y: Token) {
    y.session == x.session && y.parent == x.parent && (Settled(x) ==> Settled(y))
  }

  lemma RespectedKeeps(s: State, v: State, y: Txn)
    requires Respected(s, v, y) && GoodTx(s, y)
    ensures GoodTx(v, y)
  {
    hide GoodPhase; hide GoodWrite;
    RespectedPhase(s, v, y);
    forall r | r in v.txs[y].writes
      ensures GoodWrite(v, y, r)
    {
      assert GoodWrite(s, y, r);
      RespectedWrite(s, v, y, r);
    }
  }

  lemma RespectedPhase(s: State, v: State, y: Txn)
    requires Respected(s, v, y) && GoodPhase(s, y) && forall r :: r in s.txs[y].writes ==> GoodWrite(s, y, r)
    ensures GoodPhase(v, y)
  {
    var x := s.txs[y];
    forall c | c in v.tokens && Child(v.tokens, c, x.token) && !Waiting(x.phase)
      ensures c in s.tokens && Child(s.tokens, c, x.token) && (Settled(View(s, x, c)) ==> Settled(View(v, x, c)))
    {
      assert GoesOn(s.tokens[c], v.tokens[c]);
    }
  }

  lemma RespectedWrite(s: State, v: State, y: Txn, r: Id)
    requires Respected(s, v, y) && r in s.txs[y].writes && GoodWrite(s, y, r) && GoodPhase(s, y)
    ensures GoodWrite(v, y, r)
  {
    hide ChildrenSettled; hide Late;
  }

  lemma OthersKeep(s: State, v: State, tx: Txn, y: Txn)
    requires Inv(s) && Undisturbed(s, v, tx) && y in v.txs && y != tx
    ensures GoodTx(v, y)
  {
    hide GoodTx;
    assert GoodTx(s, y);
    RespectedKeeps(s, v, y);
  }

  lemma QuietKeeps(s: State, v: State, tx: Txn)
    requires Inv(s) && Undisturbed(s, v, tx) && (tx in v.txs ==> GoodTx(v, tx))
    requires forall y, r :: tx in v.txs && y in v.txs && y != tx && r in v.txs[tx].writes ==> r !in v.txs[y].writes
    ensures Inv(v)
  {
    hide GoodTx; hide LateSettled;
    forall y | y in v.txs
      ensures GoodTx(v, y)
    {
      if y != tx { OthersKeep(s, v, tx, y); }
    }
    assert Tree(v) by { TreeStays(s, v); }
    OneWriterStays(s, v, tx);
  }

  lemma TreeStays(s: State, v: State)
    requires Tree(s) && v.tokens == s.tokens && v.committedAt == s.committedAt && s.next <= v.next && s.now <= v.now
    ensures Tree(v)
  {
    forall c, p | Child(v.tokens, c, p)
      ensures GoodChild(v, c, p)
    {
      assert GoodChild(s, c, p);
    }
  }

  lemma OneWriterStays(s: State, v: State, tx: Txn)
    requires OneWriter(s) && Undisturbed(s, v, tx)
    requires forall y, r :: tx in v.txs && y in v.txs && y != tx && r in v.txs[tx].writes ==> r !in v.txs[y].writes
    ensures OneWriter(v)
  {
  }

  lemma BeginKeeps(s: State, tx: Txn, token: Id)
    requires Inv(s)
    ensures Inv(DoBegin(s, tx, token))
  {
    hide Tree; hide LateSettled; hide OneWriter; hide GoodTx;
    if tx !in s.txs {
      var v := DoBegin(s, tx, token);
      assert GoodTx(v, tx) by { NewTx(v, tx); }
      QuietKeeps(s, v, tx);
    }
  }

  lemma NewTx(v: State, tx: Txn)
    requires tx in v.txs && v.txs[tx].phase.Begun? && v.txs[tx].writes == map[] && v.txs[tx].began <= v.now
    ensures GoodTx(v, tx)
  {
  }

  lemma LockKeeps(s: State, tx: Txn)
    requires Inv(s)
    ensures Inv(DoLock(s, tx))
  {
    hide Tree; hide LateSettled; hide OneWriter; hide GoodTx; hide Undisturbed; hide DoLock;
    var v := DoLock(s, tx);
    if v != s {
      LockEffect(s, tx);
      if s.txs[tx].phase.live {
        assert GoodTx(s, tx);
        StepOfFrame(s, v, tx);
        LockOwn(s, v, tx);
      } else {
        CloseFrame(s, tx);
      }
      QuietKeeps(s, v, tx);
    }
  }

  lemma LockOwn(s: State, v: State, tx: Txn)
    requires tx in s.txs && GoodTx(s, tx) && Waiting(s.txs[tx].phase) && StepOf(s, v, tx) && s.txs[tx].token in s.tokens
    requires v.locks == s.locks[s.txs[tx].token := tx] && v.txs[tx].writes == s.txs[tx].writes
    requires v.txs[tx].phase == Decide(s.tokens[s.txs[tx].token], s.txs[tx].began)
    ensures GoodTx(v, tx) && v.txs[tx].writes == map[]
  {
    hide ChildrenSettled;
  }

  /** What any statement of `tx` that ends nothing leaves alone. */
  ghost predicate StepOf(s: State, v: State, tx: Txn) {
    && tx in s.txs && tx in v.txs && v.txs == s.txs[tx := v.txs[tx]]
    && v == s.(txs := v.txs, locks := v.locks, sessionLocks := v.sessionLocks, next := v.next, count := s.count + 1)
    && s.next <= v.next && v.txs[tx].token == s.txs[tx].token && v.txs[tx].began == s.txs[tx].began
    && (forall r :: r in s.locks && s.locks[r] != tx ==> r in v.locks && v.locks[r] == s.locks[r])
  }

  lemma StepOfFrame(s: State, v: State, tx: Txn)
    requires StepOf(s, v, tx)
    ensures Undisturbed(s, v, tx)
  {
  }

  lemma CloseFrame(s: State, tx: Txn)
    ensures Undisturbed(s, Close(s, tx), tx)
  {
  }

  lemma AskEffect(s: State, tx: Txn)
    requires DoAsk(s, tx) != s
    ensures var v := DoAsk(s, tx);
      && tx in s.txs && s.txs[tx].phase.Begun?
      && if s.txs[tx].token in s.tokens then
           StepOf(s, v, tx) && v.locks == s.locks &&
           v.txs[tx] == s.txs[tx].(phase := Locking(Alive(s, s.txs[tx].token, s.txs[tx].began)),
                                   askedAt := s.count)
         else v == Close(s, tx)
  {
    hide Close;
  }

  lemma LockEffect(s: State, tx: Txn)
    requires DoLock(s, tx) != s
    ensures var v := DoLock(s, tx);
      && tx in s.txs && s.txs[tx].phase.Locking? && s.txs[tx].token in s.tokens
      && if s.txs[tx].phase.live then
           var row := s.tokens[s.txs[tx].token];
           StepOf(s, v, tx) && v.locks == s.locks[s.txs[tx].token := tx] &&
           v.txs[tx] == s.txs[tx].(phase := Decide(row, s.txs[tx].began), seen := row.rotatedAt)
         else v == Close(s, tx)
  {
    hide Close;
  }

  lemma SupersedeEffect(s: State, tx: Txn, row: Id)
    requires DoSupersede(s, tx, row) != s
    ensures var v := DoSupersede(s, tx, row);
      && tx in s.txs && s.txs[tx].phase.Superseding? && row in s.txs[tx].phase.todo
      && row in s.tokens && Free(s, row, tx)
      && StepOf(s, v, tx) && v.locks == s.locks[row := tx] && v.next == s.next
      && v.txs[tx] == Passing(s, s.txs[tx], row)
  {
    hide Passing;
    assert Passing(s, s.txs[tx], row).token == s.txs[tx].token &&
           Passing(s, s.txs[tx], row).began == s.txs[tx].began by {
      PassingKeeps(s, s.txs[tx], row);
    }
  }

  lemma PassingKeeps(s: State, x: Tx, row: Id)
    requires row in s.tokens && x.phase.Superseding?
    ensures Passing(s, x, row).token == x.token && Passing(s, x, row).began == x.began
  {
  }

  lemma AskKeeps(s: State, tx: Txn)
    requires Inv(s)
    ensures Inv(DoAsk(s, tx))
  {
    hide Tree; hide LateSettled; hide OneWriter; hide GoodTx; hide Undisturbed; hide DoAsk;
    var v := DoAsk(s, tx);
    if v != s {
      AskEffect(s, tx);
      if s.txs[tx].token in s.tokens {
        assert GoodTx(s, tx);
        StepOfFrame(s, v, tx);
        WaitingOwn(s, v, tx);
      } else {
        CloseFrame(s, tx);
      }
      QuietKeeps(s, v, tx);
    }
  }

  lemma WaitingOwn(s: State, v: State, tx: Txn)
    requires tx in s.txs && GoodTx(s, tx) && Waiting(s.txs[tx].phase) && StepOf(s, v, tx)
    requires Waiting(v.txs[tx].phase) && v.txs[tx].writes == s.txs[tx].writes
    ensures GoodTx(v, tx) && v.txs[tx].writes == map[]
  {
    hide ChildrenSettled;
  }

  lemma JudgeKeeps(s: State, tx: Txn, enabled: bool)
    requires Inv(s)
    ensures Inv(DoJudge(s, tx, enabled))
  {
    hide Tree; hide LateSettled; hide OneWriter; hide GoodTx;
    var v := DoJudge(s, tx, enabled);
    if v != s {
      assert GoodTx(s, tx);
      PhaseOwn(s, v, tx);
      WritesApart(s, tx);
      QuietKeeps(s, v, tx);
    }
  }

  lemma RevokeKeeps(s: State, tx: Txn)
    requires Inv(s)
    ensures Inv(DoRevoke(s, tx))
  {
    hide Tree; hide LateSettled; hide OneWriter; hide GoodTx;
    var v := DoRevoke(s, tx);
    if v != s {
      assert GoodTx(s, tx);
      PhaseOwn(s, v, tx);
      WritesApart(s, tx);
      QuietKeeps(s, v, tx);
    }
  }

  /** Moving on from judging or refusing writes nothing. */
  lemma PhaseOwn(s: State, v: State, tx: Txn)
    requires tx in s.txs && GoodTx(s, tx) && tx in v.txs && v.txs[tx] == s.txs[tx].(phase := v.txs[tx].phase)
    requires v.tokens == s.tokens && v.locks == s.locks && v.next == s.next && v.now == s.now
    requires s.txs[tx].phase.Judging? || s.txs[tx].phase.Refusing?
    requires v.txs[tx].phase.Ending? || v.txs[tx].phase.Refusing? ||
             (v.txs[tx].phase.Inserting? && s.txs[tx].phase.Judging?)
    ensures GoodTx(v, tx)
  {
    forall r | r in v.txs[tx].writes
      ensures GoodWrite(v, tx, r)
    {
      assert GoodWrite(s, tx, r);
    }
  }

  lemma LogoutKeeps(s: State, session: Id)
    requires Inv(s)
    ensures Inv(DoLogout(s, session))
  {
    hide LateSettled; hide GoodTx; hide Tree;
    var v := DoLogout(s, session);
    forall y | y in v.txs
      ensures GoodTx(v, y)
    {
      OthersKeep(s, v, y + 1, y);
    }
    TreeStays(s, v);
  }

  /** Only the holder of a row's lock has written it. */
  lemma LockedAlone(s: State, tx: Txn, r: Id)
    requires Inv(s) && r in s.tokens && Free(s, r, tx)
    ensures forall y :: y in s.txs && y != tx ==> r !in s.txs[y].writes
  {
    forall y | y in s.txs && r in s.txs[y].writes
      ensures y == tx
    {
      assert GoodTx(s, y) && GoodWrite(s, y, r);
    }
  }

  lemma RotateKeeps(s: State, tx: Txn)
    requires Inv(s)
    ensures Inv(DoRotate(s, tx))
  {
    hide Tree; hide LateSettled; hide OneWriter;
    var v := DoRotate(s, tx);
    if v != s {
      assert GoodTx(s, tx);
      LockedAlone(s, tx, s.txs[tx].token);
      assert GoodTx(v, tx);
      hide GoodTx;
      QuietKeeps(s, v, tx);
    }
  }

  lemma CheckKeeps(s: State, tx: Txn)
    requires Inv(s)
    ensures Inv(DoCheck(s, tx))
  {
    hide Tree; hide LateSettled; hide OneWriter;
    var v := DoCheck(s, tx);
    if v != s {
      assert GoodTx(s, tx);
      QuietKeeps(s, v, tx);
    }
  }

  lemma ScanKeeps(s: State, tx: Txn)
    requires Inv(s)
    ensures Inv(DoScan(s, tx))
  {
    hide Tree; hide LateSettled; hide OneWriter;
    var v := DoScan(s, tx);
    if v != s {
      assert GoodTx(s, tx);
      QuietKeeps(s, v, tx);
    }
  }

  lemma SupersedeKeeps(s: State, tx: Txn, row: Id)
    requires Inv(s)
    ensures Inv(DoSupersede(s, tx, row))
  {
    hide LateSettled; hide OneWriter; hide GoodTx; hide Tree; hide Undisturbed; hide DoSupersede;
    var v := DoSupersede(s, tx, row);
    if v != s {
      SupersedeEffect(s, tx, row);
      assert GoodTx(s, tx);
      LockedAlone(s, tx, row);
      StepOfFrame(s, v, tx);
      SupersedeOwn(s, tx, row);
      WritesApart(s, tx);
      SupersedeApart(s, tx, row);
      QuietKeeps(s, v, tx);
    }
  }

  lemma SupersedeApart(s: State, tx: Txn, row: Id)
    requires tx in s.txs && forall y :: y in s.txs && y != tx ==> row !in s.txs[y].writes
    requires forall y, r :: y in s.txs && y != tx && r in s.txs[tx].writes ==> r !in s.txs[y].writes
    ensures var v := DoSupersede(s, tx, row);
      forall y, r :: tx in v.txs && y in v.txs && y != tx && r in v.txs[tx].writes ==> r !in v.txs[y].writes
  {
    hide DoSupersede;
    if DoSupersede(s, tx, row) != s { SupersedeEffect(s, tx, row); }
  }

  lemma WritesApart(s: State, tx: Txn)
    requires OneWriter(s) && tx in s.txs
    ensures forall y, r :: y in s.txs && y != tx && r in s.txs[tx].writes ==> r !in s.txs[y].writes
  {
  }

  lemma SupersedeOwn(s: State, tx: Txn, row: Id)
    requires Tree(s) && tx in s.txs && GoodTx(s, tx) && DoSupersede(s, tx, row) != s
    ensures var v := DoSupersede(s, tx, row); tx in v.txs && GoodTx(v, tx)
  {
    hide DoSupersede;
    SupersedeEffect(s, tx, row);
    hide GoodWrite; hide GoodPhase; hide OneNewRow;
    var v := DoSupersede(s, tx, row);
    assert Child(s.tokens, row, s.txs[tx].token) && GoodChild(s, row, s.txs[tx].token) by {
      TodoAreChildren(s, tx, row);
    }
    SupersedePhase(s, tx, row);
    SupersedeNewRow(s, tx, row);
    forall r | r in v.txs[tx].writes
      ensures GoodWrite(v, tx, r)
    {
      assert r in s.txs[tx].writes ==> GoodWrite(s, tx, r);
      SupersedeWrite(s, tx, row, r);
    }
  }

  lemma TodoAreChildren(s: State, tx: Txn, row: Id)
    requires tx in s.txs && GoodPhase(s, tx) && s.txs[tx].phase.Superseding? && row in s.txs[tx].phase.todo
    ensures Child(s.tokens, row, s.txs[tx].token)
  {
  }

  lemma SupersedeNewRow(s: State, tx: Txn, row: Id)
    requires tx in s.txs && OneNewRow(s, tx) && DoSupersede(s, tx, row) != s
    ensures OneNewRow(DoSupersede(s, tx, row), tx)
  {
    hide DoSupersede;
    SupersedeEffect(s, tx, row);
  }

  lemma SupersedePhase(s: State, tx: Txn, row: Id)
    requires tx in s.txs && GoodPhase(s, tx) && DoSupersede(s, tx, row) != s && s.txs[tx].token < row
    requires row in s.txs[tx].writes ==> GoodWrite(s, tx, row)
    ensures GoodPhase(DoSupersede(s, tx, row), tx)
  {
    hide DoSupersede;
    SupersedeEffect(s, tx, row);
  }

  lemma SupersedeWrite(s: State, tx: Txn, row: Id, r: Id)
    requires tx in s.txs && s.txs[tx].token < row && Child(s.tokens, row, s.txs[tx].token)
    requires DoSupersede(s, tx, row) != s && r in DoSupersede(s, tx, row).txs[tx].writes
    requires r in s.txs[tx].writes ==> GoodWrite(s, tx, r)
    ensures GoodWrite(DoSupersede(s, tx, row), tx, r)
  {
    hide DoSupersede;
    SupersedeEffect(s, tx, row);
  }

  lemma InsertKeeps(s: State, tx: Txn)
    requires Inv(s)
    ensures Inv(DoInsert(s, tx))
  {
    hide LateSettled; hide OneWriter; hide GoodTx; hide Tree;
    var v := DoInsert(s, tx);
    if v != s {
      assert GoodTx(s, tx);
      InsertOwn(s, tx);
      WritesApart(s, tx);
      FreshAlone(s);
      QuietKeeps(s, v, tx);
    }
  }

  lemma FreshAlone(s: State)
    requires Inv(s)
    ensures forall y, r :: y in s.txs && r in s.txs[y].writes ==> r < s.next
  {
    forall y, r | y in s.txs && r in s.txs[y].writes
      ensures r < s.next
    {
      assert GoodTx(s, y) && GoodWrite(s, y, r);
    }
  }

  lemma InsertOwn(s: State, tx: Txn)
    requires Tree(s) && tx in s.txs && GoodTx(s, tx) && DoInsert(s, tx) != s
    ensures GoodTx(DoInsert(s, tx), tx)
  {
    var v := DoInsert(s, tx);
    forall r | r in v.txs[tx].writes
      ensures GoodWrite(v, tx, r)
    {
      if r != s.next { assert GoodWrite(s, tx, r); }
    }
  }

  lemma AbortKeeps(s: State, tx: Txn)
    requires Inv(s)
    ensures Inv(Close(s, tx))
  {
    hide LateSettled; hide OneWriter; hide GoodTx; hide Tree;
    QuietKeeps(s, Close(s, tx), tx);
  }

  lemma TickKeeps(s: State, elapsed: nat)
    requires Inv(s)
    ensures Inv(Next(s, Tick(elapsed)))
  {
    hide LateSettled; hide GoodTx; hide Tree;
    var v := Next(s, Tick(elapsed));
    forall y | y in v.txs
      ensures GoodTx(v, y)
    {
      OthersKeep(s, v, y + 1, y);
    }
    TreeStays(s, v);
  }

  // ---- Rows become visible ----

  lemma OpenKeeps(s: State)
    requires Inv(s)
    ensures Inv(DoOpen(s))
  {
    hide GoodTx; hide Tree; hide LateSettled; hide Respected;
    var v := DoOpen(s);
    OpenKeepsTree(s);
    OpenKeepsLate(s);
    forall y | y in v.txs
      ensures GoodTx(v, y)
    {
      OpenRespects(s, y);
      RespectedKeeps(s, v, y);
    }
  }

  lemma OpenRespects(s: State, y: Txn)
    requires Inv(s) && y in s.txs
    ensures Respected(s, DoOpen(s), y)
  {
    hide GoodTx; hide LateSettled; hide OneWriter;
    FreshAlone(s);
  }

  lemma OpenKeepsTree(s: State)
    requires Tree(s)
    ensures Tree(DoOpen(s))
  {
    var v := DoOpen(s);
    forall c, p | Child(v.tokens, c, p)
      ensures GoodChild(v, c, p)
    {
      assert Child(s.tokens, c, p) && GoodChild(s, c, p);
    }
  }

  lemma OpenKeepsLate(s: State)
    requires Tree(s) && LateSettled(s.tokens)
    ensures LateSettled(DoOpen(s).tokens)
  {
    var v := DoOpen(s);
    forall c, p | Child(v.tokens, c, p)
      ensures Child(s.tokens, c, p) && GoodChild(s, c, p)
    {
      assert Child(s.tokens, c, p);
    }
  }

  /** How a commit of `x` changes the row `r`. */
  predicate CommittedRow(s: State, x: Tx, after: map<Id, Token>, r: Id)
    requires r in after
  {
    if r !in s.tokens then
      x.token in s.tokens && x.token < r && after[r] == Token(s.tokens[x.token].session, Some(x.token), None, None,
                                                              x.began)
    else
      after[r] == s.tokens[r] ||
      (Unused(s.tokens[r]) && r == x.token && after[r] == s.tokens[r].(rotatedAt := Some(x.began))) ||
      (Unused(s.tokens[r]) && Child(s.tokens, r, x.token) && after[r] == s.tokens[r].(supersededAt := Some(x.began)))
  }

  ghost predicate CommittedAll(s: State, x: Tx, after: map<Id, Token>) {
    && s.tokens.Keys <= after.Keys
    && (forall r :: r in after ==> CommittedRow(s, x, after, r))
    && (forall r: Id, c: Id :: r in after && r !in s.tokens && Child(s.tokens, c, x.token) ==> c < r)
    && (forall r :: r in after && r !in s.tokens ==> r < s.next)
    && (forall r, q :: r in after && r !in s.tokens && q in after && q !in s.tokens ==> r == q)
  }

  lemma CommitRows(s: State, tx: Txn)
    requires Tree(s) && tx in s.txs && GoodTx(s, tx)
    ensures CommittedAll(s, s.txs[tx], Merged(s.tokens, s.txs[tx].writes))
  {
    hide GoodPhase;
    var x := s.txs[tx];
    forall r | r in x.writes
      ensures CommittedRow(s, x, Merged(s.tokens, x.writes), r)
    {
      assert GoodWrite(s, tx, r);
    }
    forall r, c: Id | r in x.writes && r !in s.tokens && Child(s.tokens, c, x.token)
      ensures c < r
    {
      assert GoodWrite(s, tx, r);
    }
  }

  /** A token with children is rotated, so a commit leaves its row alone. */
  lemma ParentsStay(s: State, x: Tx, after: map<Id, Token>, c: Id, p: Id)
    requires Tree(s) && CommittedAll(s, x, after) && Child(s.tokens, c, p)
    ensures p in after && after[p] == s.tokens[p]
  {
    assert GoodChild(s, c, p);
    assert CommittedRow(s, x, after, p);
  }

  ghost predicate Adds(s: State, after: map<Id, Token>) {
    exists r :: r in after && r !in s.tokens
  }

  ghost predicate Rotates(x: Tx, after: map<Id, Token>) {
    x.token in after && after[x.token].rotatedAt.Some? && after[x.token].supersededAt.None?
  }

  ghost predicate NewIsLateSettled(s: State, x: Tx, after: map<Id, Token>) {
    x.token in after && Late(x.began, after[x.token]) ==>
      forall c :: Child(s.tokens, c, x.token) && c in after ==> Settled(after[c])
  }

  lemma CommitKeepsTree(s: State, x: Tx, v: State)
    requires Tree(s) && CommittedAll(s, x, v.tokens) && x.began <= s.now && v.next == s.next && v.now == s.now
    requires v.committedAt == Dated(s, v.tokens)
    requires Adds(s, v.tokens) ==> Rotates(x, v.tokens)
    ensures Tree(v)
  {
    forall t | t in v.tokens
      ensures && t < v.next && t in v.committedAt && v.tokens[t].session <= t
              && (v.tokens[t].parent.None? <==> v.tokens[t].session == t)
              && (v.tokens[t].rotatedAt.Some? ==> v.tokens[t].rotatedAt.value <= v.now)
              && (v.tokens[t].supersededAt.Some? ==> v.tokens[t].rotatedAt.None? && v.tokens[t].parent.Some?)
    {
      assert CommittedRow(s, x, v.tokens, t);
    }
    forall c, p | Child(v.tokens, c, p)
      ensures GoodChild(v, c, p)
    {
      assert CommittedRow(s, x, v.tokens, c);
      if c in s.tokens {
        assert Child(s.tokens, c, p) && GoodChild(s, c, p);
        ParentsStay(s, x, v.tokens, c, p);
      } else {
        assert CommittedRow(s, x, v.tokens, p);
      }
    }
  }

  lemma CommitKeepsLate(s: State, x: Tx, after: map<Id, Token>)
    requires Tree(s) && LateSettled(s.tokens) && CommittedAll(s, x, after)
    requires Adds(s, after) ==> NewIsLateSettled(s, x, after)
    ensures LateSettled(after)
  {
    hide Tree; hide CommittedAll; hide Late; hide Settled; hide NewIsLateSettled;
    forall older: Id, newer: Id, p | Child(after, older, p) && Child(after, newer, p) && older < newer && p in after &&
                                     Late(after[newer].createdAt, after[p])
      ensures Settled(after[older])
    {
      LateCase(s, x, after, older, newer, p);
    }
  }

  lemma LateCase(s: State, x: Tx, after: map<Id, Token>, older: Id, newer: Id, p: Id)
    requires Tree(s) && LateSettled(s.tokens) && CommittedAll(s, x, after)
    requires Adds(s, after) ==> NewIsLateSettled(s, x, after)
    requires Child(after, older, p) && Child(after, newer, p) && older < newer && p in after
    requires Late(after[newer].createdAt, after[p])
    ensures Settled(after[older])
  {
    hide Tree; hide LateSettled;
    assert CommittedRow(s, x, after, older) && CommittedRow(s, x, after, newer);
    if newer in s.tokens {
      assert Child(s.tokens, newer, p);
      ParentsStay(s, x, after, newer, p);
      assert older in s.tokens && Child(s.tokens, older, p);
      assert Settled(s.tokens[older]) by { LateSibling(s.tokens, older, newer, p); }
    }
  }

  lemma LateSibling(tokens: map<Id, Token>, older: Id, newer: Id, p: Id)
    requires LateSettled(tokens) && Child(tokens, older, p) && Child(tokens, newer, p) && older < newer && p in tokens
    requires Late(tokens[newer].createdAt, tokens[p])
    ensures Settled(tokens[older])
  {
  }

  lemma CommitGoesOn(s: State, x: Tx, after: map<Id, Token>)
    requires CommittedAll(s, x, after)
    ensures forall c :: c in s.tokens ==> c in after && GoesOn(s.tokens[c], after[c])
  {
    forall c | c in s.tokens
      ensures c in after && GoesOn(s.tokens[c], after[c])
    {
      assert CommittedRow(s, x, after, c);
    }
  }

  lemma CommitSparesLocked(s: State, tx: Txn, y: Txn)
    requires tx in s.txs && GoodTx(s, tx) && y != tx
    ensures forall r :: r in s.locks && s.locks[r] == y && r in s.tokens ==> r !in s.txs[tx].writes
  {
    forall r | r in s.tokens && r in s.txs[tx].writes
      ensures r in s.locks && s.locks[r] == tx
    {
      assert GoodWrite(s, tx, r);
    }
  }

  lemma CommitSparesChildren(s: State, tx: Txn, y: Txn, after: map<Id, Token>)
    requires tx in s.txs && y in s.txs && y != tx && InHand(s, tx) && InHand(s, y)
    requires CommittedAll(s, s.txs[tx], after)
    ensures forall c :: Child(after, c, s.txs[y].token) ==> c in s.tokens
  {
    forall c | Child(after, c, s.txs[y].token)
      ensures c in s.tokens
    {
      assert CommittedRow(s, s.txs[tx], after, c);
    }
  }

  lemma HoldsItsToken(s: State, tx: Txn)
    requires tx in s.txs && GoodTx(s, tx)
    ensures !Waiting(s.txs[tx].phase) ==> InHand(s, tx)
  {
  }

  lemma CommitRespects(s: State, tx: Txn, y: Txn)
    requires Inv(s) && tx in s.txs && y in s.txs && y != tx && DoCommit(s, tx) != s
    ensures Respected(s, DoCommit(s, tx), y)
  {
    hide LateSettled; hide CommittedAll; hide Tree; hide GoodTx;
    var v := DoCommit(s, tx);
    assert GoodTx(s, tx) && GoodTx(s, y);
    HoldsItsToken(s, tx);
    HoldsItsToken(s, y);
    CommitRows(s, tx);
    CommitGoesOn(s, s.txs[tx], v.tokens);
    CommitSparesLocked(s, tx, y);
    if !Waiting(s.txs[y].phase) { CommitSparesChildren(s, tx, y, v.tokens); }
    WritesApart(s, tx);
  }

  lemma CommitKeeps(s: State, tx: Txn)
    requires Inv(s)
    ensures Inv(DoCommit(s, tx))
  {
    hide GoodTx; hide Tree; hide LateSettled; hide Respected; hide CommittedAll;
    var v := DoCommit(s, tx);
    if v != s {
      var x := s.txs[tx];
      assert GoodTx(s, tx);
      CommitRows(s, tx);
      CommitNew(s, tx);
      CommitKeepsTree(s, x, v);
      CommitKeepsLate(s, x, v.tokens);
      forall y | y in v.txs
        ensures GoodTx(v, y)
      {
        assert GoodTx(s, y);
        CommitRespects(s, tx, y);
        RespectedKeeps(s, v, y);
      }
    }
  }

  lemma CommitNew(s: State, tx: Txn)
    requires Inv(s) && tx in s.txs && DoCommit(s, tx) != s
    ensures var after := Merged(s.tokens, s.txs[tx].writes); var x := s.txs[tx];
      && x.began <= s.now
      && (Adds(s, after) ==> Rotates(x, after) && NewIsLateSettled(s, x, after))
  {
    hide LateSettled; hide Tree; hide OneWriter; hide OneNewRow;
    assert GoodTx(s, tx);
    var x := s.txs[tx];
    if r :| r in x.writes && r !in s.tokens { assert GoodWrite(s, tx, r); }
  }

  lemma StepKeeps(s: State, step: Step)
    requires Inv(s)
    ensures Inv(Next(s, step))
  {
    hide Inv; hide DoOpen; hide DoBegin; hide DoAsk; hide DoLock; hide DoRotate; hide DoCheck; hide DoScan;
    hide DoSupersede; hide DoJudge; hide DoInsert; hide DoRevoke; hide DoCommit; hide DoLogout; hide Close;
    match step
    case OpenSession => OpenKeeps(s);
    case Begin(tx, token) => BeginKeeps(s, tx, token);
    case Ask(tx) => AskKeeps(s, tx);
    case Lock(tx) => LockKeeps(s, tx);
    case Rotate(tx) => RotateKeeps(s, tx);
    case Check(tx) => CheckKeeps(s, tx);
    case Scan(tx) => ScanKeeps(s, tx);
    case SupersedeRow(tx, row) => SupersedeKeeps(s, tx, row);
    case Judge(tx, enabled) => JudgeKeeps(s, tx, enabled);
    case Insert(tx) => InsertKeeps(s, tx);
    case RevokeOwn(tx) => RevokeKeeps(s, tx);
    case Commit(tx) => CommitKeeps(s, tx);
    case Abort(tx) => if tx in s.txs { AbortKeeps(s, tx); }
    case Logout(session) => LogoutKeeps(s, session);
    case Tick(elapsed) => TickKeeps(s, elapsed);
  }

  lemma StartsWell(now: Time)
    ensures Inv(Start(now))
  {
  }

  lemma {:induction false} RunKeeps(s: State, steps: seq<Step>)
    requires Inv(s)
    ensures Inv(Run(s, steps))
    decreases |steps|
  {
    hide Inv; hide Next;
    if steps != [] {
      StepKeeps(s, steps[0]);
      RunKeeps(Next(s, steps[0]), steps[1..]);
    }
  }
}
