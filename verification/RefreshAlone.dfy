/** With nobody else around, whatever order its statements come in, a refresh does what the transaction is
    modelled to do in one step. */
module RefreshAlone {
  import opened Base
  import opened Tables
  import R = Refresh
  import opened RefreshStatements

  ghost predicate Quiet(s: State) {
    s.locks == map[] && s.sessionLocks == map[] && s.txs == map[] && s.next !in s.tokens
  }

  /** The statements of `tx` between its start and its commit, with the account enabled or not, and time. */
  predicate SoloStep(step: Step, tx: Txn, enabled: bool) {
    match step
    case Tick(_) => true
    case Ask(x) => x == tx
    case Lock(x) => x == tx
    case Rotate(x) => x == tx
    case Check(x) => x == tx
    case Scan(x) => x == tx
    case SupersedeRow(x, _) => x == tx
    case Judge(x, e) => x == tx && e == enabled
    case Insert(x) => x == tx
    case RevokeOwn(x) => x == tx
    case _ => false
  }

  predicate Solo(steps: seq<Step>, tx: Txn, enabled: bool) {
    forall i :: 0 <= i < |steps| ==> SoloStep(steps[i], tx, enabled)
  }

  function NewRow(s: State, t: Id): Token
    requires t in s.tokens
  {
    Token(s.tokens[t].session, Some(t), None, None, s.now)
  }

  function Replaced(tokens: map<Id, Token>, rows: set<Id>, now: Time): map<Id, Token>
    requires rows <= tokens.Keys
  {
    map c | c in rows :: tokens[c].(supersededAt := Some(now))
  }

  /** What a presentation that is not refused writes before the new token. */
  function Presented(s: State, t: Id): map<Id, Token>
    requires t in s.tokens
  {
    match R.Classify(s.tokens, t, s.now)
    case FirstUse => map[t := s.tokens[t].(rotatedAt := Some(s.now))]
    case Retry => Replaced(s.tokens, UnusedChildren(s.tokens, t), s.now)
    case _ => map[]
  }

  /** Where `tx` can be, and what it has written there. */
  ghost predicate Midway(s: State, x: Tx, t: Id, enabled: bool)
    requires t in s.tokens
  {
    var how := R.Classify(s.tokens, t, s.now);
    && x.token == t && x.began == s.now
    && match x.phase
       case Begun => x.writes == map[]
       case Locking(live) => x.writes == map[] && live
       case Rotating => how.FirstUse? && x.writes == map[]
       case Checking => (how.Retry? || (how.Stolen? && s.tokens[t].supersededAt.None?)) && x.writes == map[]
       case Scanning => how.Retry? && x.writes == map[]
       case Superseding(todo) =>
         how.Retry? && todo != {} && todo <= UnusedChildren(s.tokens, t) &&
         x.writes == Replaced(s.tokens, UnusedChildren(s.tokens, t) - todo, s.now)
       case Judging => !how.Stolen? && x.writes == Presented(s, t)
       case Inserting => !how.Stolen? && enabled && x.writes == Presented(s, t)
       case Committing => !how.Stolen? && enabled && x.writes == Presented(s, t)[s.next := NewRow(s, t)]
       case Refusing => if how.Stolen? then x.writes == map[] else !enabled && x.writes == Presented(s, t)
       case Ending => if how.Stolen? then x.writes == map[] else !enabled && x.writes == Presented(s, t)
  }

  ghost predicate Alone(s: State, v: State, tx: Txn, t: Id, enabled: bool)
    requires t in s.tokens
  {
    && v.tokens == s.tokens && v.revoked == s.revoked && tx in v.txs && v.txs == map[tx := v.txs[tx]]
    && (forall r :: r in v.locks ==> v.locks[r] == tx) && (forall r :: r in v.sessionLocks ==> v.sessionLocks[r] == tx)
    && Midway(s, v.txs[tx], t, enabled)
    && (!v.txs[tx].phase.Committing? ==> v.next == s.next)
  }

  // ---- Each statement ----

  lemma BeginAlone(s: State, tx: Txn, t: Id, enabled: bool)
    requires Quiet(s) && t in s.tokens
    ensures Alone(s, DoBegin(s, tx, t), tx, t, enabled)
  {
  }

  lemma AskAlone(s: State, v: State, tx: Txn, t: Id, enabled: bool)
    requires t in s.tokens && Alive(s, t, s.now) && Alone(s, v, tx, t, enabled)
    ensures Alone(s, DoAsk(v, tx), tx, t, enabled)
  {
    hide Presented; hide Replaced; hide R.Classify;
    var u := DoAsk(v, tx);
    if u != v { assert u.txs == map[tx := u.txs[tx]]; }
  }

  lemma LockAlone(s: State, v: State, tx: Txn, t: Id, enabled: bool)
    requires t in s.tokens && Alone(s, v, tx, t, enabled)
    ensures Alone(s, DoLock(v, tx), tx, t, enabled)
  {
    hide Replaced; hide UnusedChildren; hide R.HasUsedSuccessor;
    var u := DoLock(v, tx);
    if u != v { assert u.txs == map[tx := u.txs[tx]]; }
  }

  lemma RotateAlone(s: State, v: State, tx: Txn, t: Id, enabled: bool)
    requires t in s.tokens && Alone(s, v, tx, t, enabled)
    ensures Alone(s, DoRotate(v, tx), tx, t, enabled)
  {
    hide Replaced; hide UnusedChildren; hide R.Classify;
    var u := DoRotate(v, tx);
    if u != v { assert u.txs == map[tx := u.txs[tx]]; }
  }

  lemma CheckAlone(s: State, v: State, tx: Txn, t: Id, enabled: bool)
    requires t in s.tokens && Alone(s, v, tx, t, enabled)
    ensures Alone(s, DoCheck(v, tx), tx, t, enabled)
  {
    hide Replaced; hide UnusedChildren; hide Presented; hide R.HasUsedSuccessor; hide HasUsedChild;
    var u := DoCheck(v, tx);
    SameQuestion(s.tokens, t);
    if u != v { assert u.txs == map[tx := u.txs[tx]]; }
  }

  lemma SameQuestion(tokens: map<Id, Token>, t: Id)
    ensures HasUsedChild(tokens, t) <==> R.HasUsedSuccessor(tokens, t)
  {
    if c :| c in tokens && Child(tokens, c, t) && tokens[c].rotatedAt.Some? { assert R.ChildOf(tokens, c, t); }
    if c :| c in tokens && R.ChildOf(tokens, c, t) && tokens[c].rotatedAt.Some? { assert Child(tokens, c, t); }
  }

  lemma ScanAlone(s: State, v: State, tx: Txn, t: Id, enabled: bool)
    requires t in s.tokens && Alone(s, v, tx, t, enabled)
    ensures Alone(s, DoScan(v, tx), tx, t, enabled)
  {
    hide R.Classify; hide UnusedChildren; hide UsedChildren; hide PassedBy;
    var u := DoScan(v, tx);
    if u != v {
      assert u.txs == map[tx := u.txs[tx]];
      var all := UnusedChildren(s.tokens, t);
      UnusedAreRows(s.tokens, t);
      assert all - all == {} && Replaced(s.tokens, {}, s.now) == map[];
    }
  }

  lemma UnusedAreRows(tokens: map<Id, Token>, t: Id)
    ensures UnusedChildren(tokens, t) <= tokens.Keys
    ensures forall c :: c in UnusedChildren(tokens, t) ==> Unused(tokens[c])
  {
  }

  /** Whichever row the update takes next. */
  lemma SupersedeAlone(s: State, v: State, tx: Txn, row: Id, t: Id, enabled: bool)
    requires t in s.tokens && Alone(s, v, tx, t, enabled)
    ensures Alone(s, DoSupersede(v, tx, row), tx, t, enabled)
  {
    hide Midway; hide Passing; hide DoSupersede;
    var u := DoSupersede(v, tx, row);
    if u != v {
      SupersedeEffect(v, tx, row);
      assert u.txs == map[tx := u.txs[tx]];
      assert u.sessionLocks == v.sessionLocks by { SessionsUntouched(v, tx, row); }
      SupersedeMidway(s, v, v.txs[tx], row, t, enabled);
    }
  }

  lemma SupersedeMidway(s: State, v: State, x: Tx, row: Id, t: Id, enabled: bool)
    requires t in s.tokens && v.tokens == s.tokens && Midway(s, x, t, enabled) && x.phase.Superseding?
    requires row in x.phase.todo
    requires row in v.tokens
    ensures Midway(s, Passing(v, x, row), t, enabled) && !Passing(v, x, row).phase.Committing?
  {
    hide R.Classify; hide UnusedChildren; hide Replaced;
    var all, todo := UnusedChildren(s.tokens, t), x.phase.todo;
    UnusedAreRows(s.tokens, t);
    assert all - (todo - {row}) == all - todo + {row};
    ReplacedMore(s.tokens, all - todo, row, s.now);
    if todo - {row} == {} { assert all - (todo - {row}) == all; }
  }

  lemma SessionsUntouched(v: State, tx: Txn, row: Id)
    ensures DoSupersede(v, tx, row).sessionLocks == v.sessionLocks
  {
    hide Passing;
  }

  lemma ReplacedMore(tokens: map<Id, Token>, done: set<Id>, row: Id, now: Time)
    requires done <= tokens.Keys && row in tokens
    ensures Replaced(tokens, done + {row}, now) ==
            Replaced(tokens, done, now)[row := tokens[row].(supersededAt := Some(now))]
  {
  }

  lemma JudgeAlone(s: State, v: State, tx: Txn, t: Id, enabled: bool)
    requires t in s.tokens && Alone(s, v, tx, t, enabled)
    ensures Alone(s, DoJudge(v, tx, enabled), tx, t, enabled)
  {
    hide R.Classify; hide Presented; hide Replaced; hide UnusedChildren;
    var u := DoJudge(v, tx, enabled);
    if u != v { assert u.txs == map[tx := u.txs[tx]]; }
  }

  lemma InsertAlone(s: State, v: State, tx: Txn, t: Id, enabled: bool)
    requires t in s.tokens && Alone(s, v, tx, t, enabled)
    ensures Alone(s, DoInsert(v, tx), tx, t, enabled)
  {
    hide R.Classify; hide Presented; hide Replaced; hide UnusedChildren;
    var u := DoInsert(v, tx);
    if u != v { assert u.txs == map[tx := u.txs[tx]]; }
  }

  lemma RevokeAlone(s: State, v: State, tx: Txn, t: Id, enabled: bool)
    requires t in s.tokens && Alone(s, v, tx, t, enabled)
    ensures Alone(s, DoRevoke(v, tx), tx, t, enabled)
  {
    hide R.Classify; hide Presented; hide Replaced; hide UnusedChildren;
    var u := DoRevoke(v, tx);
    if u != v { assert u.txs == map[tx := u.txs[tx]]; }
  }

  lemma StepAlone(s: State, v: State, step: Step, tx: Txn, t: Id, enabled: bool)
    requires t in s.tokens && Alive(s, t, s.now) && Alone(s, v, tx, t, enabled)
    requires SoloStep(step, tx, enabled)
    ensures Alone(s, Next(v, step), tx, t, enabled)
  {
    hide Midway; hide DoAsk; hide DoLock; hide DoRotate; hide DoCheck; hide DoScan; hide DoSupersede; hide DoJudge;
    hide DoInsert;
    hide DoRevoke;
    match step
    case Tick(_) =>
    case Ask(_) => AskAlone(s, v, tx, t, enabled);
    case Lock(_) => LockAlone(s, v, tx, t, enabled);
    case Rotate(_) => RotateAlone(s, v, tx, t, enabled);
    case Check(_) => CheckAlone(s, v, tx, t, enabled);
    case Scan(_) => ScanAlone(s, v, tx, t, enabled);
    case SupersedeRow(_, row) => SupersedeAlone(s, v, tx, row, t, enabled);
    case Judge(_, _) => JudgeAlone(s, v, tx, t, enabled);
    case Insert(_) => InsertAlone(s, v, tx, t, enabled);
    case RevokeOwn(_) => RevokeAlone(s, v, tx, t, enabled);
  }

  lemma {:induction false} RunAlone(s: State, v: State, steps: seq<Step>, tx: Txn, t: Id, enabled: bool)
    requires t in s.tokens && Alive(s, t, s.now) && Alone(s, v, tx, t, enabled)
    requires Solo(steps, tx, enabled)
    ensures Alone(s, Run(v, steps), tx, t, enabled)
    decreases |steps|
  {
    hide Alone; hide Next; hide SoloStep;
    if steps != [] {
      StepAlone(s, v, steps[0], tx, t, enabled);
      RunAlone(s, Next(v, steps[0]), steps[1..], tx, t, enabled);
    }
  }

  // ---- The commit ----

  lemma PresentIsMerged(s: State, t: Id)
    requires t in s.tokens && !R.Classify(s.tokens, t, s.now).Stolen?
    ensures Merged(s.tokens, Presented(s, t)) == R.Present(s.tokens, t, s.now)
  {
    if R.Classify(s.tokens, t, s.now).Retry? { RetryIsMerged(s.tokens, t, s.now); }
  }

  lemma RetryIsMerged(tokens: map<Id, Token>, t: Id, now: Time)
    ensures UnusedChildren(tokens, t) <= tokens.Keys
    ensures Merged(tokens, Replaced(tokens, UnusedChildren(tokens, t), now)) == R.SupersedeUnused(tokens, t, now)
  {
    var x := Merged(tokens, Replaced(tokens, UnusedChildren(tokens, t), now));
    var y := R.SupersedeUnused(tokens, t, now);
    assert x.Keys == y.Keys;
    forall c | c in x
      ensures x[c] == y[c]
    {
      assert c in UnusedChildren(tokens, t) <==> R.UnusedSuccessor(tokens, c, t);
    }
  }

  // ---- A session that is over ----

  ghost predicate TurnedAway(s: State, v: State, tx: Txn, t: Id) {
    && v.tokens == s.tokens && v.revoked == s.revoked
    && (tx in v.txs ==>
          v.txs[tx].token == t && v.txs[tx].began == s.now &&
          (v.txs[tx].phase.Begun? || v.txs[tx].phase == Locking(false)))
  }

  lemma StepTurnedAway(s: State, v: State, step: Step, tx: Txn, t: Id, enabled: bool)
    requires t in s.tokens && !Alive(s, t, s.now) && TurnedAway(s, v, tx, t) && SoloStep(step, tx, enabled)
    ensures TurnedAway(s, Next(v, step), tx, t)
  {
  }

  /** For every such schedule on a session that is revoked or has run out when the request comes: nothing is
      ever committed. */
  lemma {:induction false} OverAlone(s: State, v: State, steps: seq<Step>, tx: Txn, t: Id, enabled: bool)
    requires t in s.tokens && !Alive(s, t, s.now) && TurnedAway(s, v, tx, t) && Solo(steps, tx, enabled)
    ensures TurnedAway(s, Run(v, steps), tx, t) && DoCommit(Run(v, steps), tx) == Run(v, steps)
    decreases |steps|
  {
    hide TurnedAway; hide Next; hide SoloStep; hide DoCommit; hide Alive;
    if steps == [] {
      StaysAway(s, v, tx, t);
    } else {
      StepTurnedAway(s, v, steps[0], tx, t, enabled);
      OverAlone(s, Next(v, steps[0]), steps[1..], tx, t, enabled);
    }
  }

  lemma StaysAway(s: State, v: State, tx: Txn, t: Id)
    requires TurnedAway(s, v, tx, t)
    ensures DoCommit(v, tx) == v
  {
  }

  /** From a quiet state on, for every schedule of the statements of one transaction, any of them tried any
      number of times and time passing, that ends in its commit: the session is alive; a token that is refused
      as stolen leaves the rows as they were and revokes the session; an enabled account gets the rows of
      `Present` and one new token; a disabled one gets those rows and a revoked session. */
  lemma AloneIsAtomic(s: State, steps: seq<Step>, tx: Txn, t: Id, enabled: bool)
    requires Quiet(s) && t in s.tokens && Solo(steps, tx, enabled)
    requires var v := Run(DoBegin(s, tx, t), steps); DoCommit(v, tx) != v
    ensures var end := DoCommit(Run(DoBegin(s, tx, t), steps), tx);
      var session := s.tokens[t].session;
      && Alive(s, t, s.now)
      && if R.Classify(s.tokens, t, s.now).Stolen? then
           end.tokens == s.tokens && session in end.revoked
         else if enabled then
           end.tokens == R.Present(s.tokens, t, s.now)[s.next := NewRow(s, t)] && end.revoked == s.revoked
         else
           end.tokens == R.Present(s.tokens, t, s.now) && session in end.revoked
  {
    hide Run; hide Solo; hide R.Classify; hide R.Present; hide Alone; hide DoCommit; hide Alive;
    BeginAlone(s, tx, t, enabled);
    if !Alive(s, t, s.now) { OverAlone(s, DoBegin(s, tx, t), steps, tx, t, enabled); }
    RunAlone(s, DoBegin(s, tx, t), steps, tx, t, enabled);
    CommitAlone(s, Run(DoBegin(s, tx, t), steps), tx, t, enabled);
  }

  lemma CommitAlone(s: State, v: State, tx: Txn, t: Id, enabled: bool)
    requires t in s.tokens && Alone(s, v, tx, t, enabled) && DoCommit(v, tx) != v
    ensures var end := DoCommit(v, tx);
      var session := s.tokens[t].session;
      if R.Classify(s.tokens, t, s.now).Stolen? then
        end.tokens == s.tokens && session in end.revoked
      else if enabled then
        end.tokens == R.Present(s.tokens, t, s.now)[s.next := NewRow(s, t)] && end.revoked == s.revoked
      else
        end.tokens == R.Present(s.tokens, t, s.now) && session in end.revoked
  {
    hide R.Classify; hide R.Present; hide Presented; hide Merged; hide Release; hide Dated; hide Recorded; hide Rotated;
    hide Replaced; hide UnusedChildren;
    if !R.Classify(s.tokens, t, s.now).Stolen? { PresentIsMerged(s, t); }
    MergeLast(s.tokens, Presented(s, t), s.next, NewRow(s, t));
  }

  lemma MergeLast(tokens: map<Id, Token>, writes: map<Id, Token>, n: Id, row: Token)
    ensures Merged(tokens, writes[n := row]) == Merged(tokens, writes)[n := row] && Merged(tokens, map[]) == tokens
  {
  }

  /** The superseding update in any order: once no row is left to it, every unused child is superseded and
      nothing else is written. */
  lemma SupersedesInAnyOrder(s: State, steps: seq<Step>, tx: Txn, t: Id, enabled: bool)
    requires Quiet(s) && t in s.tokens && Solo(steps, tx, enabled)
    requires R.Classify(s.tokens, t, s.now).Retry?
    requires var v := Run(DoBegin(s, tx, t), steps); tx in v.txs && v.txs[tx].phase.Judging?
    ensures UnusedChildren(s.tokens, t) <= s.tokens.Keys
    ensures Run(DoBegin(s, tx, t), steps).txs[tx].writes == Replaced(s.tokens, UnusedChildren(s.tokens, t), s.now)
  {
    hide Run; hide Solo; hide Alive;
    BeginAlone(s, tx, t, enabled);
    if !Alive(s, t, s.now) { OverAlone(s, DoBegin(s, tx, t), steps, tx, t, enabled); }
    RunAlone(s, DoBegin(s, tx, t), steps, tx, t, enabled);
  }
}
