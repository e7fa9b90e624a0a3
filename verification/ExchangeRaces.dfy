/** The authorization code grant one SQL statement at a time, on top of the statements that complete logins:
    any number of exchanges, replays, logouts and confirmations interleaved. The guarded consume waits for
    the row lock and checks the code again; a mismatch rolls back; a code that could not be consumed is
    looked up again, and its session revoked, in statements of their own. */
module ExchangeRaces {
  import opened Base
  import Tables
  import Login
  import L = LoginRaces

  type Txn = nat

  datatype Request = Request(client: ClientId, redirectUri: string, verifier: string)
  datatype Terms = Terms(client: ClientId, redirectUri: string, challenge: Tables.Challenge)

  /** `Presenting` has not consumed yet; `inTime`: the code had not expired when the transaction began.
      `Holding` has the row lock and its mark uncommitted, `Opening` passed the checks, `Committing` inserted
      the session. `Rejecting` rolled back; `saw`: it found the code used. `Revoking` found it again. */
  datatype Phase =
    | Presenting(inTime: bool) | Holding | Opening | Committing(session: Id) | Rejecting(saw: bool) | Revoking

  /** A code is its place among the codes of the login statements. */
  datatype Tx = Tx(code: nat, request: Request, phase: Phase)

  datatype Outcome = Failed | Refused | Opened(session: Id) | Missing(saw: bool) | Replayed(code: nat)

  datatype SessionRow = SessionRow(code: nat, request: Request, opener: Txn, revoked: bool)

  datatype State = State(login: L.State, terms: map<Id, Terms>, consumed: set<nat>, expired: set<nat>,
                         sessions: map<Id, SessionRow>, locks: map<nat, Txn>, txs: map<Txn, Tx>,
                         ended: map<Txn, Outcome>, next: Id)

  datatype Step =
    | LoginStep(step: L.Step)
    | Expire(code: nat)
    | Present(tx: Txn, code: nat, request: Request)
    | Consume(tx: Txn)
    | Judge(tx: Txn, enabled: bool)
    | Insert(tx: Txn)
    | Commit(tx: Txn)
    | Abort(tx: Txn)
    | LookUp(tx: Txn)
    | Revoke(tx: Txn)
    | Logout(session: Id)

  function Start(terms: map<Id, Terms>): State {
    State(L.Start(), terms, {}, {}, map[], map[], map[], map[], 0)
  }

  predicate Fits(terms: Terms, r: Request) {
    terms.client == r.client && terms.redirectUri == r.redirectUri && Login.PkceMatches(r.verifier, terms.challenge)
  }

  /** The row exists, with its flow. */
  predicate Known(s: State, code: nat) {
    code < |s.login.codes| && s.login.codes[code] in s.terms
  }

  function Release(locks: map<nat, Txn>, tx: Txn): map<nat, Txn> {
    map c | c in locks && locks[c] != tx :: locks[c]
  }

  function Go(s: State, tx: Txn, phase: Phase): State
    requires tx in s.txs
  {
    s.(txs := s.txs[tx := s.txs[tx].(phase := phase)])
  }

  function End(s: State, tx: Txn, outcome: Outcome): State {
    s.(locks := Release(s.locks, tx), txs := s.txs - {tx}, ended := s.ended[tx := outcome])
  }

  function DoConsume(s: State, tx: Txn): State {
    if tx !in s.txs || !s.txs[tx].phase.Presenting? then s
    else
      var code := s.txs[tx].code;
      if !Known(s, code) || !s.txs[tx].phase.inTime || code in s.consumed
      then Go(s, tx, Rejecting(code in s.consumed))
      else if code in s.locks then s
      else Go(s.(locks := s.locks[code := tx]), tx, Holding)
  }

  function DoJudge(s: State, tx: Txn, enabled: bool): State {
    if tx !in s.txs || !s.txs[tx].phase.Holding? || !Known(s, s.txs[tx].code) then s
    else if enabled && Fits(s.terms[s.login.codes[s.txs[tx].code]], s.txs[tx].request) then Go(s, tx, Opening)
    else End(s, tx, Refused)
  }

  function DoInsert(s: State, tx: Txn): State {
    if tx !in s.txs || !s.txs[tx].phase.Opening? then s
    else Go(s.(next := s.next + 1), tx, Committing(s.next))
  }

  function DoCommit(s: State, tx: Txn): State {
    if tx !in s.txs || !s.txs[tx].phase.Committing? then s
    else
      var x := s.txs[tx];
      End(s.(consumed := s.consumed + {x.code},
             sessions := s.sessions[x.phase.session := SessionRow(x.code, x.request, tx, false)]),
          tx, Opened(x.phase.session))
  }

  function DoLookUp(s: State, tx: Txn): State {
    if tx !in s.txs || !s.txs[tx].phase.Rejecting? then s
    else if s.txs[tx].code in s.consumed then Go(s, tx, Revoking)
    else End(s, tx, Missing(s.txs[tx].phase.saw))
  }

  function RevokedBy(sessions: map<Id, SessionRow>, code: nat): map<Id, SessionRow> {
    map s | s in sessions :: if sessions[s].code == code then sessions[s].(revoked := true) else sessions[s]
  }

  function DoRevoke(s: State, tx: Txn): State {
    if tx !in s.txs || !s.txs[tx].phase.Revoking? then s
    else End(s.(sessions := RevokedBy(s.sessions, s.txs[tx].code)), tx, Replayed(s.txs[tx].code))
  }

  function DoLogout(s: State, session: Id): State {
    if session in s.sessions then s.(sessions := s.sessions[session := s.sessions[session].(revoked := true)]) else s
  }

  /** A step that has to wait, or whose transaction is elsewhere, changes nothing. */
  function Next(s: State, step: Step): State {
    match step
    case LoginStep(l) => s.(login := L.Next(s.login, l))
    case Expire(code) => s.(expired := s.expired + {code})
    case Present(tx, code, request) =>
      if tx in s.txs || tx in s.ended then s
      else s.(txs := s.txs[tx := Tx(code, request, Presenting(code !in s.expired))])
    case Consume(tx) => DoConsume(s, tx)
    case Judge(tx, enabled) => DoJudge(s, tx, enabled)
    case Insert(tx) => DoInsert(s, tx)
    case Commit(tx) => DoCommit(s, tx)
    case Abort(tx) => if tx in s.txs then End(s, tx, Failed) else s
    case LookUp(tx) => DoLookUp(s, tx)
    case Revoke(tx) => DoRevoke(s, tx)
    case Logout(session) => DoLogout(s, session)
  }

  function Run(s: State, steps: seq<Step>): State
    decreases |steps|
  {
    if steps == [] then s else Run(Next(s, steps[0]), steps[1..])
  }

  // ---- The invariant ----

  /** A code row is consumed exactly if its session was committed, and it has one. */
  predicate OpenedBy(sessions: map<Id, SessionRow>, session: Id, code: nat) {
    session in sessions && sessions[session].code == code
  }

  ghost predicate Spent(s: State) {
    && (forall c :: c in s.consumed <==> exists x :: OpenedBy(s.sessions, x, c))
    && (forall x, y, c :: OpenedBy(s.sessions, x, c) && OpenedBy(s.sessions, y, c) ==> x == y)
  }

  ghost predicate Rows(s: State) {
    forall x :: x in s.sessions ==>
      x < s.next && Known(s, s.sessions[x].code) &&
      Fits(s.terms[s.login.codes[s.sessions[x].code]], s.sessions[x].request) &&
      s.sessions[x].opener in s.ended && s.ended[s.sessions[x].opener] == Opened(x)
  }

  predicate Holds(p: Phase) {
    p.Holding? || p.Opening? || p.Committing?
  }

  ghost predicate GoodTx(s: State, tx: Txn)
    requires tx in s.txs
  {
    var x := s.txs[tx];
    && tx !in s.ended
    && (Holds(x.phase) ==> x.code in s.locks && s.locks[x.code] == tx && x.code !in s.consumed && Known(s, x.code))
    && (x.phase.Opening? || x.phase.Committing? ==> Known(s, x.code) && Fits(s.terms[s.login.codes[x.code]], x.request))
    && (x.phase.Committing? ==> x.phase.session < s.next && x.phase.session !in s.sessions)
    && (x.phase.Rejecting? && x.phase.saw ==> x.code in s.consumed)
    && (x.phase.Revoking? ==> x.code in s.consumed)
  }

  ghost predicate FreshSessions(s: State) {
    forall x, y | x in s.txs && y in s.txs && s.txs[x].phase.Committing? && s.txs[y].phase.Committing? ::
      s.txs[x].phase.session == s.txs[y].phase.session ==> x == y
  }

  /** Every session a replay was caught on is revoked, and whoever saw the code used does not miss it. */
  ghost predicate Caught(s: State) {
    && (forall tx, x :: tx in s.ended && s.ended[tx].Replayed? && OpenedBy(s.sessions, x, s.ended[tx].code) ==>
          s.sessions[x].revoked)
    && (forall tx :: tx in s.ended && s.ended[tx].Replayed? ==> s.ended[tx].code in s.consumed)
    && (forall tx :: tx in s.ended && s.ended[tx].Missing? ==> !s.ended[tx].saw)
  }

  ghost predicate Inv(s: State) {
    L.Inv(s.login) && Spent(s) && Rows(s) && FreshSessions(s) && Caught(s) && forall tx :: tx in s.txs ==> GoodTx(s, tx)
  }

  // ---- Logins go on ----

  /** Statements that complete logins only ever add codes. */
  lemma CodesGrow(s: L.State, step: L.Step)
    ensures s.codes <= L.Next(s, step).codes
  {
  }

  lemma LoginKeeps(s: State, step: L.Step)
    requires Inv(s)
    ensures Inv(Next(s, LoginStep(step)))
  {
    hide L.Next; hide L.Inv; hide Fits;
    L.StepKeeps(s.login, step);
    CodesGrow(s.login, step);
    var v := Next(s, LoginStep(step));
    assert forall c: nat :: Known(s, c) ==> Known(v, c) && v.login.codes[c] == s.login.codes[c];
    forall tx | tx in v.txs
      ensures GoodTx(v, tx)
    {
      assert GoodTx(s, tx);
    }
  }

  // ---- Steps of one transaction that commit nothing ----

  /** The tables and every other transaction are as they were. */
  ghost predicate Undisturbed(s: State, v: State, tx: Txn) {
    && v == s.(locks := v.locks, txs := v.txs, ended := v.ended, next := v.next) && s.next <= v.next
    && (forall y :: y in v.txs && y != tx ==> y in s.txs && v.txs[y] == s.txs[y])
    && (forall c :: c in s.locks && s.locks[c] != tx ==> c in v.locks && v.locks[c] == s.locks[c])
    && (forall y :: y in s.ended ==> y in v.ended && v.ended[y] == s.ended[y])
    && (forall y :: y in v.ended && y !in s.ended ==> y == tx)
  }

  lemma QuietKeeps(s: State, v: State, tx: Txn)
    requires Inv(s) && Undisturbed(s, v, tx) && (tx in v.txs ==> GoodTx(v, tx) && tx !in v.ended)
    requires tx in v.ended && tx !in s.ended ==>
               v.ended[tx].Refused? || v.ended[tx].Failed? || v.ended[tx] == Missing(false)
    requires tx in v.txs && v.txs[tx].phase.Committing? ==>
               forall y :: y in v.txs && y != tx && v.txs[y].phase.Committing? ==>
                 v.txs[tx].phase.session != v.txs[y].phase.session
    ensures Inv(v)
  {
    hide L.Inv; hide Fits; hide Spent; hide Rows; hide Caught; hide FreshSessions;
    forall y | y in v.txs
      ensures GoodTx(v, y)
    {
      if y != tx { assert GoodTx(s, y); }
    }
    QuietRows(s, v, tx);
  }

  lemma QuietRows(s: State, v: State, tx: Txn)
    requires Spent(s) && Rows(s) && Caught(s) && FreshSessions(s) && Undisturbed(s, v, tx)
    requires tx in v.ended && tx !in s.ended ==>
               v.ended[tx].Refused? || v.ended[tx].Failed? || v.ended[tx] == Missing(false)
    requires tx in v.txs && v.txs[tx].phase.Committing? ==>
               forall y :: y in v.txs && y != tx && v.txs[y].phase.Committing? ==>
                 v.txs[tx].phase.session != v.txs[y].phase.session
    ensures Spent(v) && Rows(v) && Caught(v) && FreshSessions(v)
  {
    hide Fits; hide OpenedBy;
    assert Spent(v) && Rows(v) by { hide Caught; hide FreshSessions; }
    assert FreshSessions(v) by { hide Spent; hide Rows; hide Caught; }
    assert Caught(v) by { hide Spent; hide Rows; hide FreshSessions; }
  }

  lemma PresentKeeps(s: State, tx: Txn, code: nat, request: Request)
    requires Inv(s)
    ensures Inv(Next(s, Present(tx, code, request)))
  {
    hide L.Inv; hide Spent; hide Rows; hide FreshSessions; hide Caught;
    var v := Next(s, Present(tx, code, request));
    if v != s { QuietKeeps(s, v, tx); }
  }

  lemma ConsumeKeeps(s: State, tx: Txn)
    requires Inv(s)
    ensures Inv(DoConsume(s, tx))
  {
    hide L.Inv; hide Spent; hide Rows; hide FreshSessions; hide Caught; hide Inv; hide Fits; hide Undisturbed;
    var v := DoConsume(s, tx);
    if v != s {
      TxOf(s, tx);
      ConsumeFrame(s, tx);
      QuietKeeps(s, v, tx);
    }
  }

  lemma TxOf(s: State, tx: Txn)
    requires Inv(s) && tx in s.txs
    ensures GoodTx(s, tx)
  {
  }

  lemma ConsumeFrame(s: State, tx: Txn)
    ensures Undisturbed(s, DoConsume(s, tx), tx)
  {
  }

  lemma JudgeKeeps(s: State, tx: Txn, enabled: bool)
    requires Inv(s)
    ensures Inv(DoJudge(s, tx, enabled))
  {
    hide L.Inv; hide Spent; hide Rows; hide FreshSessions; hide Caught; hide Fits;
    var v := DoJudge(s, tx, enabled);
    if v != s {
      assert GoodTx(s, tx);
      QuietKeeps(s, v, tx);
    }
  }

  lemma InsertKeeps(s: State, tx: Txn)
    requires Inv(s)
    ensures Inv(DoInsert(s, tx))
  {
    hide L.Inv; hide Spent; hide FreshSessions; hide Caught; hide Fits;
    var v := DoInsert(s, tx);
    if v != s {
      assert GoodTx(s, tx);
      assert forall y :: y in s.txs ==> GoodTx(s, y);
      QuietKeeps(s, v, tx);
    }
  }

  lemma AbortKeeps(s: State, tx: Txn)
    requires Inv(s) && tx in s.txs
    ensures Inv(End(s, tx, Failed))
  {
    hide L.Inv; hide Spent; hide Rows; hide FreshSessions; hide Caught;
    assert GoodTx(s, tx);
    QuietKeeps(s, End(s, tx, Failed), tx);
  }

  lemma LookUpKeeps(s: State, tx: Txn)
    requires Inv(s)
    ensures Inv(DoLookUp(s, tx))
  {
    hide L.Inv; hide Spent; hide Rows; hide FreshSessions; hide Caught;
    var v := DoLookUp(s, tx);
    if v != s {
      assert GoodTx(s, tx);
      QuietKeeps(s, v, tx);
    }
  }

  // ---- Tables change ----

  lemma OnlyHolder(s: State, tx: Txn, y: Txn)
    requires Inv(s) && tx in s.txs && y in s.txs && y != tx && Holds(s.txs[tx].phase) && Holds(s.txs[y].phase)
    ensures s.txs[y].code != s.txs[tx].code
  {
    assert GoodTx(s, tx) && GoodTx(s, y);
  }

  lemma CommitKeeps(s: State, tx: Txn)
    requires Inv(s)
    ensures Inv(DoCommit(s, tx))
  {
    hide L.Inv; hide Fits; hide Spent; hide Caught; hide Rows;
    var v := DoCommit(s, tx);
    if v != s {
      var x := s.txs[tx];
      assert GoodTx(s, tx);
      CommitSpends(s, v, tx);
      CommitRows(s, v, tx);
      CommitCatches(s, v, tx);
      forall y | y in v.txs
        ensures GoodTx(v, y)
      {
        assert GoodTx(s, y);
        if Holds(s.txs[y].phase) { OnlyHolder(s, tx, y); }
      }
    }
  }

  /** One session more, and its code with it. */
  ghost predicate Adds(s: State, v: State, tx: Txn) {
    && tx in s.txs && s.txs[tx].phase.Committing? && s.txs[tx].phase.session !in s.sessions
    && s.txs[tx].code !in s.consumed && v.consumed == s.consumed + {s.txs[tx].code}
    && v.sessions == s.sessions[s.txs[tx].phase.session := SessionRow(s.txs[tx].code, s.txs[tx].request, tx, false)]
    && v.ended == s.ended[tx := Opened(s.txs[tx].phase.session)] && tx !in s.ended
    && v.login == s.login && v.terms == s.terms && v.next == s.next
  }

  lemma CommitSpends(s: State, v: State, tx: Txn)
    requires Spent(s) && Adds(s, v, tx)
    ensures Spent(v)
  {
    var code, session := s.txs[tx].code, s.txs[tx].phase.session;
    assert OpenedBy(v.sessions, session, code);
    forall c
      ensures c in v.consumed <==> exists x :: OpenedBy(v.sessions, x, c)
    {
      if x :| OpenedBy(s.sessions, x, c) { assert OpenedBy(v.sessions, x, c); }
      if x :| OpenedBy(v.sessions, x, c) && x != session { assert OpenedBy(s.sessions, x, c); }
    }
    forall x, y, c | OpenedBy(v.sessions, x, c) && OpenedBy(v.sessions, y, c)
      ensures x == y
    {
      assert x != session ==> OpenedBy(s.sessions, x, c);
      assert y != session ==> OpenedBy(s.sessions, y, c);
    }
  }

  lemma CommitRows(s: State, v: State, tx: Txn)
    requires Rows(s) && Adds(s, v, tx) && GoodTx(s, tx)
    ensures Rows(v)
  {
    hide Fits;
  }

  lemma CommitCatches(s: State, v: State, tx: Txn)
    requires Caught(s) && Adds(s, v, tx)
    ensures Caught(v)
  {
    forall y, x | y in v.ended && v.ended[y].Replayed? && OpenedBy(v.sessions, x, v.ended[y].code)
      ensures v.sessions[x].revoked
    {
      assert OpenedBy(s.sessions, x, s.ended[y].code);
    }
  }

  /** Sessions are only revoked: everything else about them stays. */
  ghost predicate OnlyRevoked(before: map<Id, SessionRow>, after: map<Id, SessionRow>) {
    after.Keys == before.Keys &&
    forall x :: x in before ==> after[x] == before[x] || after[x] == before[x].(revoked := true)
  }

  lemma RevokedKeeps(s: State, v: State)
    requires Spent(s) && Rows(s) && OnlyRevoked(s.sessions, v.sessions)
    requires v.consumed == s.consumed && v.login == s.login && v.terms == s.terms && v.next == s.next
    requires forall y :: y in s.ended ==> y in v.ended && v.ended[y] == s.ended[y]
    ensures Spent(v) && Rows(v)
  {
    hide Fits;
    assert forall x, c :: OpenedBy(v.sessions, x, c) <==> OpenedBy(s.sessions, x, c);
  }

  lemma RevokeKeeps(s: State, tx: Txn)
    requires Inv(s)
    ensures Inv(DoRevoke(s, tx))
  {
    hide L.Inv; hide Fits; hide Spent; hide Rows; hide Caught;
    var v := DoRevoke(s, tx);
    if v != s {
      assert GoodTx(s, tx);
      RevokedKeeps(s, v);
      RevokeCatches(s, v, tx);
      forall y | y in v.txs
        ensures GoodTx(v, y)
      {
        assert GoodTx(s, y);
      }
    }
  }

  lemma RevokeCatches(s: State, v: State, tx: Txn)
    requires Caught(s) && tx in s.txs && tx !in s.ended && s.txs[tx].code in s.consumed && v.consumed == s.consumed
    requires v.sessions == RevokedBy(s.sessions, s.txs[tx].code) && v.ended == s.ended[tx := Replayed(s.txs[tx].code)]
    ensures Caught(v)
  {
    forall y, x | y in v.ended && v.ended[y].Replayed? && OpenedBy(v.sessions, x, v.ended[y].code)
      ensures v.sessions[x].revoked
    {
      if y != tx { assert OpenedBy(s.sessions, x, s.ended[y].code); }
    }
  }

  lemma LogoutKeeps(s: State, session: Id)
    requires Inv(s)
    ensures Inv(DoLogout(s, session))
  {
    hide L.Inv; hide Fits; hide Spent; hide Rows;
    var v := DoLogout(s, session);
    if v != s {
      RevokedKeeps(s, v);
      assert forall x, c :: OpenedBy(v.sessions, x, c) ==> OpenedBy(s.sessions, x, c);
      assert Caught(v);
      hide Caught;
      forall y | y in v.txs
        ensures GoodTx(v, y)
      {
        assert GoodTx(s, y);
      }
    }
  }

  lemma ExpireKeeps(s: State, code: nat)
    requires Inv(s)
    ensures Inv(Next(s, Expire(code)))
  {
    hide L.Inv; hide Fits;
    var v := Next(s, Expire(code));
    forall y | y in v.txs
      ensures GoodTx(v, y)
    {
      assert GoodTx(s, y);
    }
  }

  lemma StepKeeps(s: State, step: Step)
    requires Inv(s)
    ensures Inv(Next(s, step))
  {
    hide Inv; hide DoConsume; hide DoJudge; hide DoInsert; hide DoCommit; hide DoLookUp; hide DoRevoke; hide DoLogout;
    hide End;
    match step
    case LoginStep(l) => LoginKeeps(s, l);
    case Expire(code) => ExpireKeeps(s, code);
    case Present(tx, code, request) => PresentKeeps(s, tx, code, request);
    case Consume(tx) => ConsumeKeeps(s, tx);
    case Judge(tx, enabled) => JudgeKeeps(s, tx, enabled);
    case Insert(tx) => InsertKeeps(s, tx);
    case Commit(tx) => CommitKeeps(s, tx);
    case Abort(tx) => if tx in s.txs { AbortKeeps(s, tx); }
    case LookUp(tx) => LookUpKeeps(s, tx);
    case Revoke(tx) => RevokeKeeps(s, tx);
    case Logout(session) => LogoutKeeps(s, session);
  }

  lemma {:induction false} RunKeeps(s: State, steps: seq<Step>)
    requires Inv(s)
    ensures Inv(Run(s, steps))
    decreases |steps|
  {
    hide Inv; hide Next;
    if steps != [] {
      StepKeeps(s, steps[0]);
      RunKeeps(Next(s, steps[0]), steps[1..]);
    }
  }

  // ---- Every interleaving ----

  /** A code has at most one committed session, and so has a flow, since it has at most one code; a code row
      is consumed exactly if its session was committed; every session was opened with its flow's client,
      redirect and verifier, by an exchange that ended that way; and a replay that was caught left the
      session of its code revoked, which no exchange that saw its code used fails to find. */
  lemma OneSessionUnderConcurrency(terms: map<Id, Terms>, steps: seq<Step>)
    ensures var s := Run(Start(terms), steps); var codes := s.login.codes;
      && (forall x, y, c :: OpenedBy(s.sessions, x, c) && OpenedBy(s.sessions, y, c) ==> x == y)
      && (forall c :: c in s.consumed <==> exists x :: OpenedBy(s.sessions, x, c))
      && (forall x :: x in s.sessions ==>
            s.sessions[x].code < |codes| && codes[s.sessions[x].code] in s.terms &&
            Fits(s.terms[codes[s.sessions[x].code]], s.sessions[x].request) &&
            s.sessions[x].opener in s.ended && s.ended[s.sessions[x].opener] == Opened(x))
      && (forall x, y | x in s.sessions && y in s.sessions ::
            codes[s.sessions[x].code] == codes[s.sessions[y].code] ==> x == y)
      && (forall tx, x :: tx in s.ended && s.ended[tx].Replayed? && OpenedBy(s.sessions, x, s.ended[tx].code) ==>
            s.sessions[x].revoked)
      && (forall tx :: tx in s.ended && s.ended[tx].Missing? ==> !s.ended[tx].saw)
  {
    hide Run; hide Fits; hide FreshSessions; hide GoodTx;
    StartsWell(terms);
    RunKeeps(Start(terms), steps);
    var s := Run(Start(terms), steps);
    forall x, y | x in s.sessions && y in s.sessions &&
                  s.login.codes[s.sessions[x].code] == s.login.codes[s.sessions[y].code]
      ensures x == y
    {
      OneCode(s.login, s.sessions[x].code, s.sessions[y].code);
      assert OpenedBy(s.sessions, x, s.sessions[x].code) && OpenedBy(s.sessions, y, s.sessions[x].code);
    }
  }

  lemma StartsWell(terms: map<Id, Terms>)
    ensures Inv(Start(terms))
  {
  }

  lemma OneCode(s: L.State, c: nat, d: nat)
    requires L.Inv(s) && c < |s.codes| && d < |s.codes| && s.codes[c] == s.codes[d]
    ensures c == d
  {
    hide L.GoodTx; hide L.GoodRows;
  }

  /** Only a commit, a revocation or a logout changes a session, and only a commit a code: whatever else an
      exchange does, rolled back for a mismatch, a failure or a used code, leaves every row as it was. */
  lemma RollbackLeavesNoTrace(s: State, step: Step)
    ensures !step.Commit? ==> Next(s, step).consumed == s.consumed
    ensures !step.Commit? && !step.Revoke? && !step.Logout? ==> Next(s, step).sessions == s.sessions
  {
  }

  /** However an exchange ended without a session, no row is its work: every session was opened by another
      exchange, and so was every code used up. */
  lemma RefusedLeavesNoTrace(terms: map<Id, Terms>, steps: seq<Step>, tx: Txn)
    requires var s := Run(Start(terms), steps); tx in s.ended && !s.ended[tx].Opened?
    ensures var s := Run(Start(terms), steps);
      && (forall x :: x in s.sessions ==> s.sessions[x].opener != tx)
      && (forall c :: c in s.consumed ==> exists x :: OpenedBy(s.sessions, x, c) && s.sessions[x].opener != tx)
  {
    hide Run;
    OneSessionUnderConcurrency(terms, steps);
    var s := Run(Start(terms), steps);
    forall c | c in s.consumed
      ensures exists x :: OpenedBy(s.sessions, x, c) && s.sessions[x].opener != tx
    {
      var x :| OpenedBy(s.sessions, x, c);
      assert s.sessions[x].opener != tx;
    }
  }

  /** A mismatch frees the row at once: the next one to consume it gets it, unless it has expired. */
  lemma MismatchFreesTheCode(s: State, tx: Txn, enabled: bool, next: Txn)
    requires Inv(s) && tx in s.txs && s.txs[tx].phase.Holding?
    requires !enabled || !Fits(s.terms[s.login.codes[s.txs[tx].code]], s.txs[tx].request)
    requires next in s.txs && next != tx && s.txs[next].code == s.txs[tx].code && s.txs[next].phase == Presenting(true)
    ensures var v := DoJudge(s, tx, enabled);
      && v.consumed == s.consumed && v.sessions == s.sessions && tx !in v.txs && v.ended[tx] == Refused
      && next in DoConsume(v, next).txs && DoConsume(v, next).txs[next].phase.Holding?
  {
    hide L.Inv; hide Fits; hide Rows; hide Caught; hide FreshSessions; hide Spent;
    assert GoodTx(s, tx) && GoodTx(s, next);
  }

  /** What can become of an exchange that waited for the lock and then found its code used. */
  ghost predicate OnItsWay(s: State, tx: Txn, code: nat) {
    || (tx in s.txs && s.txs[tx].code == code && (s.txs[tx].phase == Rejecting(true) || s.txs[tx].phase.Revoking?))
    || (tx in s.ended && s.ended[tx].Failed?)
    || (tx in s.ended && s.ended[tx] == Replayed(code))
  }

  lemma StaysOnItsWay(s: State, step: Step, tx: Txn, code: nat)
    requires Inv(s) && OnItsWay(s, tx, code)
    ensures OnItsWay(Next(s, step), tx, code)
  {
    hide L.Inv; hide Fits; hide Rows; hide Caught; hide FreshSessions; hide Spent; hide L.Next;
    if tx in s.txs { assert GoodTx(s, tx); }
    hide Inv;
  }

  lemma {:induction false} RunsItsWay(s: State, steps: seq<Step>, tx: Txn, code: nat)
    requires Inv(s) && OnItsWay(s, tx, code)
    ensures Inv(Run(s, steps)) && OnItsWay(Run(s, steps), tx, code)
    decreases |steps|
  {
    hide Inv; hide OnItsWay; hide Next;
    if steps != [] {
      StaysOnItsWay(s, steps[0], tx, code);
      StepKeeps(s, steps[0]);
      RunsItsWay(Next(s, steps[0]), steps[1..], tx, code);
    }
  }

  /** A duplicate exchange: it presented a code in time, waited while another held the row, and came to it
      once the other had committed. Whatever happens afterwards, it is still on its way, or it crashed, or it
      ended as a replay, and then the session of its code is revoked and stays so. */
  lemma DuplicateEndsTheSession(terms: map<Id, Terms>, before: seq<Step>, tx: Txn, afterwards: seq<Step>)
    requires var s := Run(Start(terms), before);
      tx in s.txs && s.txs[tx].phase.Presenting? && s.txs[tx].code in s.consumed
    ensures var s := Run(Start(terms), before); var code := s.txs[tx].code;
      var v := Run(DoConsume(s, tx), afterwards);
      && OnItsWay(v, tx, code)
      && (tx in v.ended && !v.ended[tx].Failed? ==>
            forall x :: OpenedBy(v.sessions, x, code) ==> v.sessions[x].revoked)
      && exists x :: OpenedBy(v.sessions, x, code)
  {
    hide Run; hide DoConsume; hide Rows; hide FreshSessions; hide GoodTx; hide L.Inv;
    StartsWell(terms);
    RunKeeps(Start(terms), before);
    var s := Run(Start(terms), before);
    var code := s.txs[tx].code;
    ConsumeKeeps(s, tx);
    assert OnItsWay(DoConsume(s, tx), tx, code) && code in DoConsume(s, tx).consumed by { FindsItUsed(s, tx); }
    RunsItsWay(DoConsume(s, tx), afterwards, tx, code);
    StaysConsumed(DoConsume(s, tx), afterwards, code);
    var v := Run(DoConsume(s, tx), afterwards);
    if tx in v.txs { NotEnded(v, tx); }
  }

  lemma NotEnded(s: State, tx: Txn)
    requires Inv(s) && tx in s.txs
    ensures tx !in s.ended
  {
    assert GoodTx(s, tx);
  }

  lemma FindsItUsed(s: State, tx: Txn)
    requires tx in s.txs && s.txs[tx].phase.Presenting? && s.txs[tx].code in s.consumed
    ensures OnItsWay(DoConsume(s, tx), tx, s.txs[tx].code) && DoConsume(s, tx).consumed == s.consumed
  {
  }

  lemma {:induction false} StaysConsumed(s: State, steps: seq<Step>, code: nat)
    requires code in s.consumed
    ensures code in Run(s, steps).consumed
    decreases |steps|
  {
    if steps != [] {
      ConsumedStays(s, steps[0], code);
      hide Next;
      StaysConsumed(Next(s, steps[0]), steps[1..], code);
    }
  }

  lemma ConsumedStays(s: State, step: Step, code: nat)
    requires code in s.consumed
    ensures code in Next(s, step).consumed
  {
  }

  // ---- An exchange nobody is in the way of ----

  /** On a code nobody has locked, an exchange opens its session exactly if it came in time, the account is enabled
      and client, redirect and verifier fit; otherwise every row is as it was. */
  lemma FreeExchangeOpensIff(s: State, tx: Txn, code: nat, request: Request, enabled: bool)
    requires Known(s, code) && code !in s.consumed && code !in s.locks && tx !in s.txs && tx !in s.ended
    ensures var held := DoConsume(Next(s, Present(tx, code, request)), tx);
      var v := DoCommit(DoInsert(DoJudge(held, tx, enabled), tx), tx);
      var terms := s.terms[s.login.codes[code]];
      if code !in s.expired && enabled && terms.client == request.client && terms.redirectUri == request.redirectUri &&
         Login.PkceMatches(request.verifier, terms.challenge)
      then
        && v.sessions == s.sessions[s.next := SessionRow(code, request, tx, false)]
        && v.consumed == s.consumed + {code} && v.ended == s.ended[tx := Opened(s.next)]
      else v.sessions == s.sessions && v.consumed == s.consumed
  {
    hide Next; hide DoConsume; hide Release;
    HoldsIfInTime(s, tx, code, request);
  }

  lemma HoldsIfInTime(s: State, tx: Txn, code: nat, request: Request)
    requires Known(s, code) && code !in s.consumed && code !in s.locks && tx !in s.txs && tx !in s.ended
    ensures var held := DoConsume(Next(s, Present(tx, code, request)), tx);
      && tx in held.txs && held.txs[tx] == Tx(code, request, if code in s.expired then Rejecting(false) else Holding)
      && held.sessions == s.sessions && held.consumed == s.consumed && held.next == s.next && held.ended == s.ended
      && held.terms == s.terms && held.login == s.login
  {
    hide Release;
  }

  /** A replay that nobody is in the way of ends every session of its code, and no other. */
  lemma FreeReplayRevokes(s: State, tx: Txn, code: nat, request: Request)
    requires Known(s, code) && code in s.consumed && tx !in s.txs && tx !in s.ended
    ensures var v := DoRevoke(DoLookUp(DoConsume(Next(s, Present(tx, code, request)), tx), tx), tx);
      && v.ended == s.ended[tx := Replayed(code)] && v.sessions.Keys == s.sessions.Keys && v.consumed == s.consumed
      && forall x :: x in s.sessions ==>
           v.sessions[x] == s.sessions[x].(revoked := s.sessions[x].revoked || s.sessions[x].code == code)
  {
    hide Next; hide DoConsume; hide DoLookUp; hide Release;
    SeesItUsed(s, tx, code, request);
  }

  lemma SeesItUsed(s: State, tx: Txn, code: nat, request: Request)
    requires Known(s, code) && code in s.consumed && tx !in s.txs && tx !in s.ended
    ensures var v := DoLookUp(DoConsume(Next(s, Present(tx, code, request)), tx), tx);
      && tx in v.txs && v.txs[tx] == Tx(code, request, Revoking)
      && v.sessions == s.sessions && v.consumed == s.consumed && v.ended == s.ended
  {
    hide Release; hide Fits;
    var a := Next(s, Present(tx, code, request));
    assert a == s.(txs := a.txs) && a.txs[tx] == Tx(code, request, Presenting(code !in s.expired));
    var b := DoConsume(a, tx);
    assert b == s.(txs := b.txs) && b.txs[tx] == Tx(code, request, Rejecting(true));
  }
}
