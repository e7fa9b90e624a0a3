/** Logins and email changes one SQL statement at a time. `log_in` reads the account its mail was for, or for a
    sign-up inserts one, or finds the one that took the address meanwhile; it reads without a lock, checks the
    address, and then marks it verified with a guarded update whose row count it does not look at. An email
    change moves the account with a guarded update of its own. The unique index makes whoever wants an address
    wait for an open transaction that takes it or leaves it. */
module AddressRaces {
  import opened Base

  type Txn = nat

  datatype Account = Account(email: Email, verified: bool)

  /** A committed move of an account. */
  datatype Move = Moved(user: Id, to: Email)

  /** Where a login or a change is. `Reading` has an account to read by identifier, `Creating` inserts one,
      `Finding` came too late for that. `Checked` has read the account at the mailed address, `Created` has
      inserted it. `Marked` has run the update that verifies the address, found at `at`; `matched` is whether
      it had a row. `Moving` waits to lock the account, `Grabbed` for the address it wants, `Held` has both.
      `read` and `updated` are how many moves were committed by then. */
  datatype Phase =
    | Reading(user: Id) | Creating | Finding | Checked(user: Id, read: nat) | Created(user: Id, read: nat)
    | Marked(user: Id, created: bool, matched: bool, at: Email, read: nat, updated: nat)
    | Moving(user: Id, target: Email) | Grabbed(user: Id, target: Email) | Held(user: Id, target: Email)

  /** `email`: the address the login mail went to, or the one a change starts from. */
  datatype Tx = Tx(email: Email, phase: Phase)

  /** A committed login: where its mail went, where the account was at its update and when it committed, and how
      many moves were committed when it read the account, at its update and at its commit. */
  datatype Done = Done(user: Id, mailed: Email, matched: bool, at: Email, found: Email, read: nat, updated: nat,
                       committed: nat)

  /** `proofs`: addresses shown by a committed mail. */
  datatype State = State(users: map<Id, Account>, moves: seq<Move>, proofs: set<(Id, Email)>, locks: map<Id, Txn>,
                         txs: map<Txn, Tx>, logins: seq<Done>, next: Id)

  datatype Step =
    | Import(email: Email)
    | BeginLogin(tx: Txn, mailedUser: Option<Id>, mailed: Email)
    | BeginChange(tx: Txn, movedUser: Id, from: Email, to: Email)
    | Read(tx: Txn)
    | Create(tx: Txn)
    | Find(tx: Txn, found: Id)
    | Mark(tx: Txn)
    | Grab(tx: Txn)
    | Take(tx: Txn)
    | Commit(tx: Txn)
    | Abort(tx: Txn)

  function Start(): State {
    State(map[], [], {}, map[], map[], [], 0)
  }

  function Put(s: State, tx: Txn, x: Tx): State {
    s.(txs := s.txs[tx := x])
  }

  function Close(s: State, tx: Txn): State {
    s.(locks := map u | u in s.locks && s.locks[u] != tx :: s.locks[u], txs := s.txs - {tx})
  }

  predicate At(s: State, user: Id, email: Email) {
    user in s.users && s.users[user].email == email
  }

  predicate Inserted(p: Phase) {
    p.Created? || (p.Marked? && p.created)
  }

  /** The address an open transaction has put into the unique index. */
  function Claim(x: Tx): Option<Email> {
    if x.phase.Held? then Some(x.phase.target) else if Inserted(x.phase) then Some(x.email) else None
  }

  /** Somebody else's open transaction takes the address, or has an update of the account that uses it. */
  predicate Contested(s: State, tx: Txn, email: Email) {
    (exists y | y in s.txs :: y != tx && Claim(s.txs[y]) == Some(email)) ||
    (exists u | u in s.users :: s.users[u].email == email && u in s.locks && s.locks[u] != tx)
  }

  predicate Taken(s: State, user: Id, email: Email) {
    exists u | u in s.users :: u != user && s.users[u].email == email
  }

  function DoRead(s: State, tx: Txn): State {
    if tx !in s.txs || !s.txs[tx].phase.Reading? then s
    else
      var x := s.txs[tx];
      if !At(s, x.phase.user, x.email) then Close(s, tx)
      else Put(s, tx, x.(phase := Checked(x.phase.user, |s.moves|)))
  }

  /** `INSERT ... ON CONFLICT (email) DO NOTHING`. */
  function DoCreate(s: State, tx: Txn): State {
    if tx !in s.txs || !s.txs[tx].phase.Creating? || Contested(s, tx, s.txs[tx].email) then s
    else if Taken(s, s.next, s.txs[tx].email) then Put(s, tx, s.txs[tx].(phase := Finding))
    else Put(s.(next := s.next + 1), tx, s.txs[tx].(phase := Created(s.next, |s.moves|)))
  }

  /** `find_by_email`: whoever has the address by now, if anybody still has. */
  function DoFind(s: State, tx: Txn, found: Id): State {
    if tx !in s.txs || !s.txs[tx].phase.Finding? then s
    else if At(s, found, s.txs[tx].email) then Put(s, tx, s.txs[tx].(phase := Checked(found, |s.moves|)))
    else if exists u | u in s.users :: s.users[u].email == s.txs[tx].email then s
    else Close(s, tx)
  }

  /** `UPDATE users SET email_verified_at WHERE id AND email`: waits for the row, and may match nothing. */
  function DoMark(s: State, tx: Txn): State {
    if tx !in s.txs then s
    else
      var x := s.txs[tx];
      match x.phase
      case Created(u, read) => Put(s, tx, x.(phase := Marked(u, true, true, x.email, read, |s.moves|)))
      case Checked(u, read) =>
        if u in s.locks || u !in s.users then s
        else if s.users[u].email == x.email
        then Put(s.(locks := s.locks[u := tx]), tx, x.(phase := Marked(u, false, true, x.email, read, |s.moves|)))
        else Put(s, tx, x.(phase := Marked(u, false, false, s.users[u].email, read, |s.moves|)))
      case _ => s
  }

  /** `UPDATE users SET email WHERE id AND email`: waits for the row, and ends if the account has moved. */
  function DoGrab(s: State, tx: Txn): State {
    if tx !in s.txs || !s.txs[tx].phase.Moving? || s.txs[tx].phase.user in s.locks then s
    else
      var x := s.txs[tx];
      if !At(s, x.phase.user, x.email) then Close(s, tx)
      else Put(s.(locks := s.locks[x.phase.user := tx]), tx, x.(phase := Grabbed(x.phase.user, x.phase.target)))
  }

  /** The same update comes to the index, and fails if the new address is taken. */
  function DoTake(s: State, tx: Txn): State {
    if tx !in s.txs || !s.txs[tx].phase.Grabbed? || Contested(s, tx, s.txs[tx].phase.target) then s
    else
      var x := s.txs[tx];
      if Taken(s, x.phase.user, x.phase.target) then Close(s, tx)
      else Put(s, tx, x.(phase := Held(x.phase.user, x.phase.target)))
  }

  function Finished(s: State, x: Tx): Done
    requires x.phase.Marked? && (x.phase.created || x.phase.user in s.users)
  {
    var found := if x.phase.created then x.email else s.users[x.phase.user].email;
    Done(x.phase.user, x.email, x.phase.matched, x.phase.at, found, x.phase.read, x.phase.updated, |s.moves|)
  }

  function DoCommit(s: State, tx: Txn): State {
    if tx !in s.txs then s
    else
      var x := s.txs[tx];
      match x.phase
      case Marked(u, created, matched, _, _, _) =>
        if !created && u !in s.users then s
        else
          Close(s.(users := if matched then s.users[u := Account(x.email, true)] else s.users,
                   proofs := if matched then s.proofs + {(u, x.email)} else s.proofs,
                   logins := s.logins + [Finished(s, x)]), tx)
      case Held(u, target) =>
        Close(s.(users := s.users[u := Account(target, true)], moves := s.moves + [Moved(u, target)],
                 proofs := s.proofs + {(u, target)}), tx)
      case _ => s
  }

  function DoImport(s: State, email: Email): State {
    if (exists y | y in s.txs :: Claim(s.txs[y]) == Some(email)) || Taken(s, s.next, email) then s
    else s.(users := s.users[s.next := Account(email, false)], next := s.next + 1)
  }

  /** A step that has to wait, or whose transaction is elsewhere, changes nothing. */
  function Next(s: State, step: Step): State {
    match step
    case Import(email) => DoImport(s, email)
    case BeginLogin(tx, user, email) =>
      if tx in s.txs then s
      else Put(s, tx, Tx(email, if user.Some? then Reading(user.value) else Creating))
    case BeginChange(tx, user, from, to) => if tx in s.txs then s else Put(s, tx, Tx(from, Moving(user, to)))
    case Read(tx) => DoRead(s, tx)
    case Create(tx) => DoCreate(s, tx)
    case Find(tx, found) => DoFind(s, tx, found)
    case Mark(tx) => DoMark(s, tx)
    case Grab(tx) => DoGrab(s, tx)
    case Take(tx) => DoTake(s, tx)
    case Commit(tx) => DoCommit(s, tx)
    case Abort(tx) => if tx in s.txs then Close(s, tx) else s
  }

  function Run(s: State, steps: seq<Step>): State
    decreases |steps|
  {
    if steps == [] then s else Run(Next(s, steps[0]), steps[1..])
  }

  // ---- Where moves lead ----

  /** The address of an account after the moves, if it was `email` before. */
  function After(moves: seq<Move>, user: Id, email: Email): Email {
    if moves == [] then email
    else if moves[|moves| - 1].user == user then moves[|moves| - 1].to
    else After(moves[..|moves| - 1], user, email)
  }

  /** The last of the moves of the account, if there is one, went elsewhere. */
  ghost predicate WentElsewhere(moves: seq<Move>, user: Id, email: Email) {
    exists i :: 0 <= i < |moves| && moves[i].user == user && moves[i].to != email &&
      forall j :: i < j < |moves| ==> moves[j].user != user
  }

  lemma OthersDoNotMatter(moves: seq<Move>, m: Move, user: Id, email: Email)
    requires m.user != user
    ensures WentElsewhere(moves + [m], user, email) <==> WentElsewhere(moves, user, email)
  {
    var more := moves + [m];
    if i :| 0 <= i < |moves| && moves[i].user == user && moves[i].to != email &&
            forall j :: i < j < |moves| ==> moves[j].user != user {
      assert more[i].user == user && forall j :: i < j < |more| ==> more[j].user != user;
    }
    if i :| 0 <= i < |more| && more[i].user == user && more[i].to != email &&
            forall j :: i < j < |more| ==> more[j].user != user {
      assert moves[i] == more[i] && forall j :: i < j < |moves| ==> moves[j] == more[j];
    }
  }

  lemma {:induction false} AfterIs(moves: seq<Move>, user: Id, email: Email)
    ensures After(moves, user, email) != email <==> WentElsewhere(moves, user, email)
  {
    if moves != [] {
      var n, rest := |moves| - 1, moves[..|moves| - 1];
      if moves[n].user == user {
        if moves[n].to != email { assert WentElsewhere(moves, user, email); }
      } else {
        AfterIs(rest, user, email);
        OthersDoNotMatter(rest, moves[n], user, email);
        assert rest + [moves[n]] == moves;
      }
    }
  }

  lemma {:induction false} NeverMoved(moves: seq<Move>, user: Id, email: Email)
    requires forall i :: 0 <= i < |moves| ==> moves[i].user != user
    ensures After(moves, user, email) == email
  {
    if moves != [] { NeverMoved(moves[..|moves| - 1], user, email); }
  }

  lemma OneMore(moves: seq<Move>, m: Move, from: nat, user: Id, email: Email)
    requires from <= |moves|
    ensures After((moves + [m])[from..], user, email) ==
            if m.user == user then m.to else After(moves[from..], user, email)
    ensures forall to: nat :: from <= to <= |moves| ==> (moves + [m])[from..to] == moves[from..to]
  {
    var more := (moves + [m])[from..];
    assert more == moves[from..] + [m];
    assert more[..|more| - 1] == moves[from..];
  }

  // ---- The invariant ----

  ghost predicate UniqueEmails(users: map<Id, Account>) {
    forall u, v :: u in users && v in users && users[u].email == users[v].email ==> u == v
  }

  ghost predicate Proven(s: State) {
    forall u :: u in s.users && s.users[u].verified ==> (u, s.users[u].email) in s.proofs
  }

  /** An address somebody is about to take is nobody else's. */
  ghost predicate Claims(s: State) {
    && (forall y, u :: y in s.txs && u in s.users && Claim(s.txs[y]) == Some(s.users[u].email) ==>
          s.txs[y].phase.Held? && u == s.txs[y].phase.user)
    && (forall y, z :: y in s.txs && z in s.txs && Claim(s.txs[y]).Some? && Claim(s.txs[y]) == Claim(s.txs[z]) ==>
          y == z)
  }

  ghost predicate Numbered(s: State) {
    && (forall u :: u in s.users ==> u < s.next)
    && (forall i :: 0 <= i < |s.moves| ==> s.moves[i].user in s.users)
    && (forall y, z | y in s.txs && z in s.txs && Inserted(s.txs[y].phase) && Inserted(s.txs[z].phase) ::
          s.txs[y].phase.user == s.txs[z].phase.user ==> y == z)
  }

  predicate Holds(s: State, tx: Txn, user: Id) {
    user in s.users && user in s.locks && s.locks[user] == tx
  }

  predicate Follows(s: State, user: Id, email: Email, read: nat) {
    user in s.users && read <= |s.moves| && s.users[user].email == After(s.moves[read..], user, email)
  }

  ghost predicate GoodTx(s: State, tx: Txn)
    requires tx in s.txs
  {
    var x := s.txs[tx];
    match x.phase
    case Checked(u, read) => Follows(s, u, x.email, read)
    case Created(u, read) => u !in s.users && u < s.next && read <= |s.moves|
    case Marked(u, created, matched, at, read, updated) =>
      && read <= updated <= |s.moves| && at == After(s.moves[read..updated], u, x.email)
      && (matched <==> at == x.email)
      && (if created then matched && u !in s.users && u < s.next
          else Follows(s, u, x.email, read) && (matched ==> Holds(s, tx, u) && s.users[u].email == x.email))
    case Grabbed(u, _) => Holds(s, tx, u)
    case Held(u, _) => Holds(s, tx, u)
    case _ => true
  }

  /** Where the account was at the update and at the commit follows from the moves committed by then. */
  ghost predicate Explained(moves: seq<Move>, d: Done) {
    && d.read <= d.updated <= d.committed <= |moves|
    && d.at == After(moves[d.read..d.updated], d.user, d.mailed)
    && d.found == After(moves[d.read..d.committed], d.user, d.mailed)
    && (d.matched <==> d.at == d.mailed)
    && (d.matched ==> d.found == d.mailed)
  }

  ghost predicate Inv(s: State) {
    && UniqueEmails(s.users) && Proven(s) && Claims(s) && Numbered(s)
    && (forall i :: 0 <= i < |s.logins| ==> Explained(s.moves, s.logins[i]))
    && (forall tx :: tx in s.txs ==> GoodTx(s, tx))
  }

  // ---- Steps that commit nothing ----

  /** Only `tx` goes on: rows and other transactions are as they were, and no lock of theirs is gone. */
  ghost predicate Undisturbed(s: State, v: State, tx: Txn) {
    && v == s.(txs := v.txs, locks := v.locks, next := v.next) && s.next <= v.next
    && (forall y :: y in v.txs && y != tx ==> y in s.txs && v.txs[y] == s.txs[y])
    && (forall u :: u in s.locks && s.locks[u] != tx ==> u in v.locks && v.locks[u] == s.locks[u])
  }

  /** What `tx` puts into the index is new there. */
  ghost predicate GoodClaim(s: State, v: State, tx: Txn) {
    tx in v.txs && Claim(v.txs[tx]).Some? ==>
      var x := v.txs[tx];
      || (tx in s.txs && Claim(s.txs[tx]) == Claim(x) && Inserted(x.phase) && Inserted(s.txs[tx].phase) &&
          s.txs[tx].phase.user == x.phase.user)
      || (&& !Contested(s, tx, Claim(x).value) && !Taken(s, x.phase.user, Claim(x).value)
          && (Inserted(x.phase) ==> x.phase.user == s.next))
  }

  lemma QuietKeeps(s: State, v: State, tx: Txn)
    requires Inv(s) && Undisturbed(s, v, tx) && (tx in v.txs ==> GoodTx(v, tx)) && GoodClaim(s, v, tx)
    ensures Inv(v)
  {
    hide Explained; hide UniqueEmails;
    forall y | y in v.txs
      ensures GoodTx(v, y)
    {
      if y != tx { assert GoodTx(s, y); }
    }
    QuietClaims(s, v, tx);
  }

  lemma QuietClaims(s: State, v: State, tx: Txn)
    requires Claims(s) && Numbered(s) && Undisturbed(s, v, tx) && GoodClaim(s, v, tx)
    requires forall y :: y in s.txs ==> GoodTx(s, y)
    ensures Claims(v) && Numbered(v)
  {
  }

  lemma ReadsKeep(s: State, step: Step)
    requires Inv(s) && (step.BeginLogin? || step.BeginChange? || step.Read? || step.Find? || step.Abort?)
    ensures Inv(Next(s, step))
  {
    hide Proven; hide UniqueEmails; hide Claims; hide Contested; hide Taken; hide Explained; hide Numbered;
    var v := Next(s, step);
    if v != s { QuietKeeps(s, v, step.tx); }
  }

  lemma CreateKeeps(s: State, tx: Txn)
    requires Inv(s)
    ensures Inv(DoCreate(s, tx))
  {
    hide Proven; hide UniqueEmails; hide Claims; hide Contested; hide Taken; hide Explained;
    var v := DoCreate(s, tx);
    if v != s { QuietKeeps(s, v, tx); }
  }

  lemma MarkKeeps(s: State, tx: Txn)
    requires Inv(s)
    ensures Inv(DoMark(s, tx))
  {
    hide Proven; hide UniqueEmails; hide Claims; hide Contested; hide Taken; hide Explained;
    var v := DoMark(s, tx);
    if v != s {
      assert GoodTx(s, tx);
      MarkFinds(s, tx);
      hide GoodTx; hide Numbered;
      QuietKeeps(s, v, tx);
    }
  }

  lemma MarkFinds(s: State, tx: Txn)
    requires Numbered(s) && tx in s.txs && GoodTx(s, tx) && DoMark(s, tx) != s
    ensures tx in DoMark(s, tx).txs && GoodTx(DoMark(s, tx), tx) && GoodClaim(s, DoMark(s, tx), tx)
  {
    hide Contested; hide Taken;
    var x := s.txs[tx];
    assert s.moves[x.phase.read..] == s.moves[x.phase.read..|s.moves|];
    if x.phase.Created? { NeverMoved(s.moves[x.phase.read..], x.phase.user, x.email); }
  }

  lemma ChangeKeeps(s: State, tx: Txn)
    requires Inv(s)
    ensures Inv(DoGrab(s, tx)) && Inv(DoTake(s, tx))
  {
    hide Proven; hide UniqueEmails; hide Claims; hide Contested; hide Taken; hide Explained; hide Numbered;
    if tx in s.txs { assert GoodTx(s, tx); }
    if DoGrab(s, tx) != s { QuietKeeps(s, DoGrab(s, tx), tx); }
    if DoTake(s, tx) != s { QuietKeeps(s, DoTake(s, tx), tx); }
  }

  lemma ImportKeeps(s: State, email: Email)
    requires Inv(s)
    ensures Inv(DoImport(s, email))
  {
    hide Explained; hide UniqueEmails; hide Proven; hide Claims; hide Taken;
    var v := DoImport(s, email);
    ImportRows(s, email);
    forall y | y in v.txs
      ensures GoodTx(v, y)
    {
      assert GoodTx(s, y);
    }
  }

  lemma ImportRows(s: State, email: Email)
    requires UniqueEmails(s.users) && Proven(s) && Claims(s) && Numbered(s)
    ensures var v := DoImport(s, email); UniqueEmails(v.users) && Proven(v) && Claims(v) && Numbered(v)
  {
    var v := DoImport(s, email);
    assert Claims(v) by { hide UniqueEmails; hide Proven; }
    assert UniqueEmails(v.users) && Proven(v) && Numbered(v) by { hide Claims; }
  }

  // ---- Commits ----

  lemma LoginKeeps(s: State, tx: Txn)
    requires Inv(s) && tx in s.txs && s.txs[tx].phase.Marked?
    ensures Inv(DoCommit(s, tx))
  {
    hide UniqueEmails; hide Proven; hide Claims; hide Numbered;
    var v := DoCommit(s, tx);
    assert GoodTx(s, tx);
    var x := s.txs[tx];
    LoginExplained(s, tx);
    LoginRows(s, tx);
    forall y | y in v.txs
      ensures GoodTx(v, y)
    {
      assert GoodTx(s, y);
      LoginLeaves(s, tx, y);
    }
  }

  lemma LoginExplained(s: State, tx: Txn)
    requires Inv(s) && tx in s.txs && s.txs[tx].phase.Marked?
    ensures s.txs[tx].phase.created || s.txs[tx].phase.user in s.users
    ensures Explained(s.moves, Finished(s, s.txs[tx]))
  {
    hide UniqueEmails; hide Proven; hide Claims;
    assert GoodTx(s, tx);
    var x := s.txs[tx];
    assert s.moves[x.phase.read..] == s.moves[x.phase.read..|s.moves|];
    if x.phase.created { NeverMoved(s.moves[x.phase.read..], x.phase.user, x.email); }
  }

  lemma LoginRows(s: State, tx: Txn)
    requires Inv(s) && tx in s.txs && s.txs[tx].phase.Marked?
    ensures var v := DoCommit(s, tx); Claims(v) && UniqueEmails(v.users) && Proven(v) && Numbered(v)
  {
    hide Explained;
    assert GoodTx(s, tx);
    hide GoodTx;
  }

  /** A committed login moves nobody, and only the accounts that were not there are new. */
  lemma LoginLeaves(s: State, tx: Txn, y: Txn)
    requires Inv(s) && tx in s.txs && s.txs[tx].phase.Marked? && y in DoCommit(s, tx).txs
    ensures y != tx && y in s.txs && GoodTx(DoCommit(s, tx), y)
  {
    hide UniqueEmails; hide Proven; hide Claims; hide Explained;
    assert GoodTx(s, tx) && GoodTx(s, y);
  }

  lemma MoveKeeps(s: State, tx: Txn)
    requires Inv(s) && tx in s.txs && s.txs[tx].phase.Held?
    ensures Inv(DoCommit(s, tx))
  {
    hide UniqueEmails; hide Proven; hide Claims; hide Numbered; hide Explained; hide GoodTx;
    var v := DoCommit(s, tx);
    MoveRows(s, tx);
    forall i | 0 <= i < |s.logins|
      ensures Explained(v.moves, s.logins[i])
    {
      ExplainedStays(s.moves, Moved(s.txs[tx].phase.user, s.txs[tx].phase.target), s.logins[i]);
    }
    forall y | y in v.txs
      ensures GoodTx(v, y)
    {
      MoveLeaves(s, tx, y);
    }
  }

  lemma MoveRows(s: State, tx: Txn)
    requires Inv(s) && tx in s.txs && s.txs[tx].phase.Held?
    ensures var v := DoCommit(s, tx); Claims(v) && UniqueEmails(v.users) && Proven(v) && Numbered(v)
  {
    hide Explained;
    assert GoodTx(s, tx);
    hide GoodTx;
  }

  lemma ExplainedStays(moves: seq<Move>, m: Move, d: Done)
    requires Explained(moves, d)
    ensures Explained(moves + [m], d)
  {
    OneMore(moves, m, d.read, d.user, d.mailed);
  }

  lemma MoveLeaves(s: State, tx: Txn, y: Txn)
    requires Inv(s) && tx in s.txs && s.txs[tx].phase.Held? && y in DoCommit(s, tx).txs
    ensures y != tx && y in s.txs && GoodTx(DoCommit(s, tx), y)
  {
    hide UniqueEmails; hide Proven; hide Claims; hide Explained;
    assert GoodTx(s, tx) && GoodTx(s, y);
    var x, p := s.txs[y], s.txs[tx].phase;
    if x.phase.Checked? || x.phase.Marked? {
      OneMore(s.moves, Moved(p.user, p.target), x.phase.read, x.phase.user, x.email);
    }
  }

  lemma StepKeeps(s: State, step: Step)
    requires Inv(s)
    ensures Inv(Next(s, step))
  {
    hide Inv; hide DoCreate; hide DoMark; hide DoGrab; hide DoTake; hide DoImport;
    match step
    case Import(email) => ImportKeeps(s, email);
    case Create(tx) => CreateKeeps(s, tx);
    case Mark(tx) => MarkKeeps(s, tx);
    case Grab(tx) => ChangeKeeps(s, tx);
    case Take(tx) => ChangeKeeps(s, tx);
    case Commit(tx) =>
      if tx in s.txs && s.txs[tx].phase.Marked? { LoginKeeps(s, tx); }
      else if tx in s.txs && s.txs[tx].phase.Held? { MoveKeeps(s, tx); }
    case _ => ReadsKeep(s, step);
  }

  lemma {:induction false} RunKeeps(s: State, steps: seq<Step>)
    requires Inv(s)
    ensures Inv(Run(s, steps))
    decreases |steps|
  {
    hide Inv; hide Next;
    if steps != [] {
      StepKeeps(s, steps[0]);
      RunKeeps(Next(s, steps[0]), steps[1..]);
    }
  }

  lemma StartsWell()
    ensures Inv(Start())
  {
  }

  /** Under any interleaving of logins, sign-ups and email changes: addresses are unique and a verified one was
      shown by a committed mail. A login's guarded update has no row exactly if the last move of its account
      committed between its read and that update went elsewhere; and when it commits its account is off the
      mailed address exactly if the last one committed between its read and its commit did, which is never so
      if the update had its row. */
  lemma OwnershipUnderConcurrency(steps: seq<Step>)
    ensures var s := Run(Start(), steps);
      && (forall u, v :: u in s.users && v in s.users && s.users[u].email == s.users[v].email ==> u == v)
      && (forall u :: u in s.users && s.users[u].verified ==> (u, s.users[u].email) in s.proofs)
    ensures var s := Run(Start(), steps);
      forall i :: 0 <= i < |s.logins| ==>
        var d := s.logins[i];
        && d.read <= d.updated <= d.committed <= |s.moves|
        && d.at == After(s.moves[d.read..d.updated], d.user, d.mailed)
        && d.found == After(s.moves[d.read..d.committed], d.user, d.mailed)
        && (d.matched <==> d.at == d.mailed)
        && (!d.matched <==> WentElsewhere(s.moves[d.read..d.updated], d.user, d.mailed))
        && (d.found != d.mailed <==> WentElsewhere(s.moves[d.read..d.committed], d.user, d.mailed))
        && (d.matched ==> d.found == d.mailed)
  {
    hide Run; hide GoodTx; hide Claims; hide Numbered; hide WentElsewhere;
    StartsWell();
    RunKeeps(Start(), steps);
    var s := Run(Start(), steps);
    forall i | 0 <= i < |s.logins|
      ensures Explained(s.moves, s.logins[i])
      ensures var d := s.logins[i];
        && (!d.matched <==> WentElsewhere(s.moves[d.read..d.updated], d.user, d.mailed))
        && (d.found != d.mailed <==> WentElsewhere(s.moves[d.read..d.committed], d.user, d.mailed))
    {
      var d := s.logins[i];
      assert Explained(s.moves, d);
      AfterIs(s.moves[d.read..d.updated], d.user, d.mailed);
      AfterIs(s.moves[d.read..d.committed], d.user, d.mailed);
    }
  }

  // ---- A run written down ----

  lemma {:induction false} Extend(s: State, steps: seq<Step>, step: Step)
    ensures Run(s, steps + [step]) == Next(Run(s, steps), step)
    decreases |steps|
  {
    if steps == [] {
      assert steps + [step] == [step];
      assert Run(s, [step]) == Run(Next(s, step), []);
    } else {
      assert (steps + [step])[1..] == steps[1..] + [step];
      Extend(Next(s, steps[0]), steps[1..], step);
    }
  }

  /** Account 0 at "a", read there by a login; an email change to "b" is open. */
  function BothOpen(): State {
    State(map[0 := Account("a", false)], [], {}, map[],
          map[1 := Tx("a", Checked(0, 0)), 2 := Tx("a", Moving(0, "b"))], [], 1)
  }

  lemma BothStart() returns (steps: seq<Step>)
    ensures Run(Start(), steps) == BothOpen()
  {
    hide Run;
    steps := [];
    assert Run(Start(), []) == Start() by { Nothing(Start()); }
    Extend(Start(), steps, Import("a")); steps := steps + [Import("a")];
    Extend(Start(), steps, BeginLogin(1, Some(0), "a")); steps := steps + [BeginLogin(1, Some(0), "a")];
    Extend(Start(), steps, Read(1)); steps := steps + [Read(1)];
    Extend(Start(), steps, BeginChange(2, 0, "a", "b")); steps := steps + [BeginChange(2, 0, "a", "b")];
    assert Run(Start(), steps).txs == BothOpen().txs;
  }

  lemma Nothing(s: State)
    ensures Run(s, []) == s
  {
  }

  /** The change goes through while the login waits. */
  lemma ChangeOvertakes()
    ensures var v := DoCommit(DoTake(DoGrab(BothOpen(), 2), 2), 2);
      v.users == map[0 := Account("b", true)] && v.txs == map[1 := Tx("a", Checked(0, 0))] && v.locks == map[] &&
      v.moves == [Moved(0, "b")] && v.logins == []
  {
    assert "a"[0] != "b"[0];
    var u := DoGrab(BothOpen(), 2);
    assert u == BothOpen().(locks := map[0 := 2],
                            txs := map[1 := Tx("a", Checked(0, 0)), 2 := Tx("a", Grabbed(0, "b"))]);
    var t := DoTake(u, 2);
    assert t == u.(txs := map[1 := Tx("a", Checked(0, 0)), 2 := Tx("a", Held(0, "b"))]);
    assert DoCommit(t, 2).txs == map[1 := Tx("a", Checked(0, 0))];
  }

  lemma LoginGoesOn(s: State)
    requires s.users == map[0 := Account("b", true)] && s.txs == map[1 := Tx("a", Checked(0, 0))] && s.locks == map[]
    requires s.moves == [Moved(0, "b")] && s.logins == []
    ensures DoCommit(DoMark(s, 1), 1).logins == [Done(0, "a", false, "b", "b", 0, 1, 1)]
  {
    assert "a"[0] != "b"[0];
    assert DoMark(s, 1).txs == map[1 := Tx("a", Marked(0, false, false, "b", 0, 1))];
  }

  /** A login whose mail went to "a" commits on an account that has moved to "b" by then. */
  lemma LoginAfterTheMove() returns (steps: seq<Step>)
    ensures var s := Run(Start(), steps); s.logins == [Done(0, "a", false, "b", "b", 0, 1, 1)]
  {
    hide Run; hide DoMark; hide DoGrab; hide DoTake; hide DoCommit; hide BothOpen;
    steps := BothStart();
    ChangeOvertakes();
    LoginGoesOn(DoCommit(DoTake(DoGrab(BothOpen(), 2), 2), 2));
    Extend(Start(), steps, Grab(2)); steps := steps + [Grab(2)];
    Extend(Start(), steps, Take(2)); steps := steps + [Take(2)];
    Extend(Start(), steps, Commit(2)); steps := steps + [Commit(2)];
    Extend(Start(), steps, Mark(1)); steps := steps + [Mark(1)];
    Extend(Start(), steps, Commit(1)); steps := steps + [Commit(1)];
  }

  // ---- Nobody in the way ----

  /** A change nobody is in the way of moves its account exactly if that is still where it was and nobody else has
      the new address. */
  lemma FreeChangeMovesIff(s: State, tx: Txn, user: Id, from: Email, to: Email)
    requires user !in s.locks && tx !in s.txs
    requires forall u :: u in s.users && s.users[u].email == to ==> u !in s.locks
    requires forall y :: y in s.txs ==> Claim(s.txs[y]) != Some(to)
    ensures var v := DoCommit(DoTake(DoGrab(Next(s, BeginChange(tx, user, from, to)), tx), tx), tx);
      if user in s.users && s.users[user].email == from &&
         forall u :: u in s.users && s.users[u].email == to ==> u == user
      then v.users == s.users[user := Account(to, true)] && v.moves == s.moves + [Moved(user, to)]
      else v.users == s.users && v.moves == s.moves
  {
    var a := Next(s, BeginChange(tx, user, from, to));
    var b := DoGrab(a, tx);
    if user in s.users && s.users[user].email == from {
      assert b.txs[tx] == Tx(from, Grabbed(user, to)) && b.locks == s.locks[user := tx];
      assert !Contested(b, tx, to);
    } else {
      assert tx !in b.txs;
    }
  }

  /** A login nobody is in the way of verifies its account exactly if that is there at the mailed address. */
  lemma FreeLoginVerifiesIff(s: State, tx: Txn, user: Id, email: Email)
    requires user !in s.locks && tx !in s.txs
    ensures var v := DoCommit(DoMark(DoRead(Next(s, BeginLogin(tx, Some(user), email)), tx), tx), tx);
      if user in s.users && s.users[user].email == email
      then v.users == s.users[user := Account(email, true)] && |v.logins| == |s.logins| + 1
      else v.users == s.users && v.logins == s.logins
  {
    var a := Next(s, BeginLogin(tx, Some(user), email));
    var b := DoRead(a, tx);
    if user in s.users && s.users[user].email == email {
      assert b.txs[tx] == Tx(email, Checked(user, |s.moves|));
    } else {
      assert tx !in b.txs;
    }
  }

  /** A sign-up nobody is in the way of creates a verified account exactly if nobody has the address. */
  lemma FreeSignUpCreatesIff(s: State, tx: Txn, email: Email)
    requires tx !in s.txs && (forall u :: u in s.users ==> u < s.next)
    requires forall u :: u in s.users && s.users[u].email == email ==> u !in s.locks
    requires forall y :: y in s.txs ==> Claim(s.txs[y]) != Some(email)
    ensures var v := DoCommit(DoMark(DoCreate(Next(s, BeginLogin(tx, None, email)), tx), tx), tx);
      if forall u :: u in s.users ==> s.users[u].email != email
      then v.users == s.users[s.next := Account(email, true)]
      else v.users == s.users
  {
    var a := Next(s, BeginLogin(tx, None, email));
    assert !Contested(a, tx, email);
    var b := DoCreate(a, tx);
    assert b.txs[tx].phase == Finding || b.txs[tx] == Tx(email, Created(s.next, |s.moves|));
  }

  /** One that came too late logs in the account that took the address, if that still has it, and otherwise ends. */
  lemma FreeSignUpFinds(s: State, tx: Txn, email: Email, user: Id)
    requires tx !in s.txs && UniqueEmails(s.users) && user in s.users && s.users[user].email == email
    requires user !in s.locks && user != s.next && forall y :: y in s.txs ==> Claim(s.txs[y]) != Some(email)
    ensures var asked := DoCreate(Next(s, BeginLogin(tx, None, email)), tx);
      var v := DoCommit(DoMark(DoFind(asked, tx, user), tx), tx);
      v.users == s.users[user := Account(email, true)] && |v.logins| == |s.logins| + 1
    ensures var asked := DoCreate(Next(s, BeginLogin(tx, None, email)), tx);
      forall gone: State, u: Id ::
        gone == asked.(users := gone.users) && (forall v :: v in gone.users ==> gone.users[v].email != email) ==>
        tx !in DoFind(gone, tx, u).txs
  {
    var a := Next(s, BeginLogin(tx, None, email));
    assert !Contested(a, tx, email) && Taken(a, s.next, email);
    var b := DoCreate(a, tx);
    assert b.txs[tx] == Tx(email, Finding);
    var c := DoFind(b, tx, user);
    assert c.txs[tx] == Tx(email, Checked(user, |s.moves|));
  }
}
