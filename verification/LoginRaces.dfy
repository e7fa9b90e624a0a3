/** Completing a login one SQL statement at a time, with links and typed codes of any flows confirmed
    concurrently. Row locks last until the transaction ends, a guarded update checks its WHERE clause again
    once it has the lock, code attempts on one address queue on an advisory lock, and links do not. */
module LoginRaces {
  import opened Base

  type Txn = nat

  datatype LinkRow = LinkRow(flow: Id, email: Email, failures: nat, consumed: bool, createdAt: Time)

  /** `Seeking` waits for the address, `Found` has read its candidate, `Used` has marked the link,
      `Counted` has counted a wrong code, `Done` has completed the flow and inserted its code. */
  datatype Phase = Opening(link: Id) | Seeking(flow: Id, email: Email) | Reading(flow: Id, email: Email)
    | Found(link: Id) | Used(link: Id) | Counted(link: Id) | Done(flow: Id)

  /** `began` is `now()` to its statements; `writes`: the link row as the transaction left it. */
  datatype Tx = Tx(phase: Phase, began: Time, writes: map<Id, LinkRow>)

  datatype State = State(links: map<Id, LinkRow>, completed: set<Id>, codes: seq<Id>, linkLocks: map<Id, Txn>,
                         flowLocks: map<Id, Txn>, addressLocks: map<Email, Txn>, txs: map<Txn, Tx>, next: Id,
                         now: Time)

  datatype Step =
    | Tick(elapsed: nat)
    | Mail(flow: Id, email: Email)
    | OpenLink(tx: Txn, link: Id)
    | TypeCode(tx: Txn, flow: Id, email: Email)
    | LockAddress(tx: Txn)
    | ReadCandidate(tx: Txn, link: Id)
    | ConsumeOpened(tx: Txn)
    | ConsumeFound(tx: Txn)
    | CountWrong(tx: Txn)
    | Complete(tx: Txn)
    | Commit(tx: Txn)
    | Abort(tx: Txn)

  function Start(): State {
    State(map[], {}, [], map[], map[], map[], map[], 0, 0)
  }

  predicate Free<K>(locks: map<K, Txn>, k: K, tx: Txn) {
    k in locks ==> locks[k] == tx
  }

  function Release<K>(locks: map<K, Txn>, tx: Txn): map<K, Txn> {
    map k | k in locks && locks[k] != tx :: locks[k]
  }

  function Go(s: State, tx: Txn, phase: Phase): State
    requires tx in s.txs
  {
    s.(txs := s.txs[tx := s.txs[tx].(phase := phase)])
  }

  function Update(s: State, tx: Txn, link: Id, row: LinkRow, phase: Phase): State
    requires tx in s.txs
  {
    s.(linkLocks := s.linkLocks[link := tx], txs := s.txs[tx := s.txs[tx].(phase := phase, writes := map[link := row])])
  }

  function Counting(row: LinkRow): LinkRow {
    row.(failures := row.failures + 1, consumed := row.failures + 1 >= MAX_FAILURES_PER_CODE)
  }

  /** The failures of the links to an address created after `since`, those below `n`. */
  function FailuresSince(links: map<Id, LinkRow>, email: Email, since: Time, n: Id): nat {
    if n == 0 then 0
    else
      var rest := FailuresSince(links, email, since, n - 1);
      if n - 1 in links && links[n - 1].email == email && since < links[n - 1].createdAt
      then rest + links[n - 1].failures else rest
  }

  predicate Newest(links: map<Id, LinkRow>, link: Id, flow: Id) {
    link in links && links[link].flow == flow && forall l | l in links :: links[l].flow == flow ==> l <= link
  }

  /** What the query for a candidate selects. */
  predicate Selected(s: State, x: Tx, link: Id)
    requires x.phase.Reading?
  {
    && Newest(s.links, link, x.phase.flow) && s.links[link].email == x.phase.email && Pending(s.links[link], x.began)
    && s.links[link].failures < MAX_FAILURES_PER_CODE
    && FailuresSince(s.links, x.phase.email, x.began - DAY, s.next) < MAX_FAILURES_PER_DAY
  }

  predicate Pending(row: LinkRow, now: Time) {
    !row.consumed && now < row.createdAt + CODE_TTL
  }

  /** A step that has to wait, or whose transaction is elsewhere, changes nothing. */
  function Next(s: State, step: Step): State {
    match step
    case Tick(elapsed) => s.(now := s.now + elapsed)
    case Mail(flow, email) =>
      s.(links := s.links[s.next := LinkRow(flow, email, 0, false, s.now)], next := s.next + 1)
    case OpenLink(tx, link) => if tx in s.txs then s else s.(txs := s.txs[tx := Tx(Opening(link), s.now, map[])])
    case TypeCode(tx, flow, email) =>
      if tx in s.txs then s else s.(txs := s.txs[tx := Tx(Seeking(flow, email), s.now, map[])])
    case LockAddress(tx) =>
      if tx in s.txs && s.txs[tx].phase.Seeking? && Free(s.addressLocks, s.txs[tx].phase.email, tx)
      then Go(s.(addressLocks := s.addressLocks[s.txs[tx].phase.email := tx]), tx,
              Reading(s.txs[tx].phase.flow, s.txs[tx].phase.email))
      else s
    case ReadCandidate(tx, link) =>
      if tx in s.txs && s.txs[tx].phase.Reading? && Selected(s, s.txs[tx], link) then Go(s, tx, Found(link)) else s
    case ConsumeOpened(tx) =>
      if tx in s.txs && s.txs[tx].phase.Opening? && s.txs[tx].phase.link in s.links &&
         Free(s.linkLocks, s.txs[tx].phase.link, tx) && Pending(s.links[s.txs[tx].phase.link], s.txs[tx].began)
      then Update(s, tx, s.txs[tx].phase.link, s.links[s.txs[tx].phase.link].(consumed := true),
                  Used(s.txs[tx].phase.link))
      else s
    case ConsumeFound(tx) =>
      if tx in s.txs && s.txs[tx].phase.Found? && s.txs[tx].phase.link in s.links &&
         Free(s.linkLocks, s.txs[tx].phase.link, tx)
      then Update(s, tx, s.txs[tx].phase.link, s.links[s.txs[tx].phase.link].(consumed := true),
                  Used(s.txs[tx].phase.link))
      else s
    case CountWrong(tx) =>
      if tx in s.txs && s.txs[tx].phase.Found? && s.txs[tx].phase.link in s.links &&
         Free(s.linkLocks, s.txs[tx].phase.link, tx)
      then Update(s, tx, s.txs[tx].phase.link, Counting(s.links[s.txs[tx].phase.link]), Counted(s.txs[tx].phase.link))
      else s
    case Complete(tx) =>
      if tx in s.txs && s.txs[tx].phase.Used? && s.txs[tx].phase.link in s.links &&
         Free(s.flowLocks, s.links[s.txs[tx].phase.link].flow, tx) && s.links[s.txs[tx].phase.link].flow !in s.completed
      then
        var flow := s.links[s.txs[tx].phase.link].flow;
        Go(s.(flowLocks := s.flowLocks[flow := tx]), tx, Done(flow))
      else s
    case Commit(tx) =>
      if tx in s.txs && (s.txs[tx].phase.Done? || s.txs[tx].phase.Counted?)
      then
        var x := s.txs[tx];
        Ended(s.(links := s.links + x.writes,
                 completed := if x.phase.Done? then s.completed + {x.phase.flow} else s.completed,
                 codes := if x.phase.Done? then s.codes + [x.phase.flow] else s.codes), tx)
      else s
    case Abort(tx) => if tx in s.txs then Ended(s, tx) else s
  }

  function Ended(s: State, tx: Txn): State {
    s.(linkLocks := Release(s.linkLocks, tx), flowLocks := Release(s.flowLocks, tx),
       addressLocks := Release(s.addressLocks, tx), txs := s.txs - {tx})
  }

  function Run(s: State, steps: seq<Step>): State
    decreases |steps|
  {
    if steps == [] then s else Run(Next(s, steps[0]), steps[1..])
  }

  // ---- The invariant ----

  /** Each code comes from a completed flow, and no flow gave two. */
  ghost predicate OneCodePerFlow(codes: seq<Id>, completed: set<Id>) {
    && (forall i, j :: 0 <= i < j < |codes| ==> codes[i] != codes[j])
    && (forall i :: 0 <= i < |codes| ==> codes[i] in completed)
  }

  predicate GoodRow(row: LinkRow) {
    row.failures <= MAX_FAILURES_PER_CODE && (row.failures == MAX_FAILURES_PER_CODE ==> row.consumed)
  }

  ghost predicate GoodRows(links: map<Id, LinkRow>, next: Id) {
    forall l :: l in links ==> l < next && GoodRow(links[l])
  }

  function Today(s: State, email: Email): nat {
    FailuresSince(s.links, email, s.now - DAY, s.next)
  }

  ghost predicate Budgets(s: State) {
    forall e :: Today(s, e) <= MAX_FAILURES_PER_DAY
  }

  ghost predicate HoldsAddress(s: State, tx: Txn, link: Id) {
    link in s.links && s.links[link].email in s.addressLocks && s.addressLocks[s.links[link].email] == tx
  }

  /** A transaction writes the row it locked, from that row as committed. */
  ghost predicate GoodWrite(s: State, tx: Txn, l: Id)
    requires tx in s.txs && l in s.txs[tx].writes
  {
    && l in s.links && l in s.linkLocks && s.linkLocks[l] == tx
    && (s.txs[tx].writes[l] == s.links[l].(consumed := true) ||
        (s.txs[tx].phase.Counted? && s.txs[tx].phase.link == l && s.txs[tx].writes[l] == Counting(s.links[l])))
  }

  /** What the query saw still holds: the address is locked, so nobody counts a failure on it. */
  predicate HasRoom(s: State, x: Tx, link: Id)
    requires link in s.links
  {
    s.links[link].failures < MAX_FAILURES_PER_CODE &&
    FailuresSince(s.links, s.links[link].email, x.began - DAY, s.next) < MAX_FAILURES_PER_DAY
  }

  ghost predicate GoodTx(s: State, tx: Txn)
    requires tx in s.txs
  {
    var p := s.txs[tx].phase;
    && s.txs[tx].began <= s.now
    && (p.Reading? ==> p.email in s.addressLocks && s.addressLocks[p.email] == tx)
    && (p.Found? || p.Counted? ==> HoldsAddress(s, tx, p.link) && HasRoom(s, s.txs[tx], p.link))
    && (p.Done? ==> p.flow in s.flowLocks && s.flowLocks[p.flow] == tx && p.flow !in s.completed)
    && (forall l :: l in s.txs[tx].writes ==> GoodWrite(s, tx, l))
  }

  ghost predicate Inv(s: State) {
    OneCodePerFlow(s.codes, s.completed) && GoodRows(s.links, s.next) && Budgets(s) &&
    forall tx :: tx in s.txs ==> GoodTx(s, tx)
  }

  // ---- Sums ----

  /** The links to an address have the failures they had, and new ones have none. */
  ghost predicate RowsAgree(a: map<Id, LinkRow>, b: map<Id, LinkRow>, email: Email) {
    && (forall l :: l in a && a[l].email == email ==>
          l in b && b[l].email == email && b[l].createdAt == a[l].createdAt && b[l].failures == a[l].failures)
    && (forall l :: l in b && b[l].email == email ==> if l in a then a[l].email == email else b[l].failures == 0)
  }

  lemma {:induction false} SameSum(a: map<Id, LinkRow>, b: map<Id, LinkRow>, email: Email, since: Time, n: Id)
    requires RowsAgree(a, b, email)
    ensures FailuresSince(b, email, since, n) == FailuresSince(a, email, since, n)
  {
    if n > 0 { SameSum(a, b, email, since, n - 1); }
  }

  lemma SameRowsAgree(a: map<Id, LinkRow>)
    ensures forall e :: RowsAgree(a, a, e)
  {
  }

  lemma {:induction false} SumReaches(a: map<Id, LinkRow>, email: Email, since: Time, n: Id, m: Id)
    requires n <= m && forall l :: l in a ==> l < n
    ensures FailuresSince(a, email, since, m) == FailuresSince(a, email, since, n)
  {
    if n < m { SumReaches(a, email, since, n, m - 1); }
  }

  lemma {:induction false} LaterSum(a: map<Id, LinkRow>, email: Email, since: Time, later: Time, n: Id)
    requires since <= later
    ensures FailuresSince(a, email, later, n) <= FailuresSince(a, email, since, n)
  {
    if n > 0 { LaterSum(a, email, since, later, n - 1); }
  }

  lemma {:induction false} OneMoreFailure(a: map<Id, LinkRow>, link: Id, row: LinkRow, email: Email, since: Time, n: Id)
    requires link in a && row.email == a[link].email && row.createdAt == a[link].createdAt
    requires row.failures <= a[link].failures + 1
    ensures FailuresSince(a[link := row], email, since, n) <= FailuresSince(a, email, since, n) + 1
    ensures n <= link ==> FailuresSince(a[link := row], email, since, n) == FailuresSince(a, email, since, n)
  {
    if n > 0 { OneMoreFailure(a, link, row, email, since, n - 1); }
  }

  lemma AgreeingSums(a: map<Id, LinkRow>, b: map<Id, LinkRow>, email: Email, since: Time, n: Id, m: Id)
    requires RowsAgree(a, b, email) && n <= m && forall l :: l in a ==> l < n
    ensures FailuresSince(b, email, since, m) == FailuresSince(a, email, since, n)
  {
    SameSum(a, b, email, since, m);
    SumReaches(a, email, since, n, m);
  }

  // ---- Steps ----

  /** What `y` relies on is unchanged from `s` to `v`. */
  ghost predicate Respected(s: State, v: State, y: Txn) {
    && y in s.txs && y in v.txs && v.txs[y] == s.txs[y] && s.next <= v.next && s.now <= v.now
    && (forall l :: l in s.linkLocks && s.linkLocks[l] == y ==>
          l in v.linkLocks && v.linkLocks[l] == y && (l in s.links ==> l in v.links && v.links[l] == s.links[l]))
    && (forall f :: f in s.flowLocks && s.flowLocks[f] == y ==>
          f in v.flowLocks && v.flowLocks[f] == y && (f in v.completed ==> f in s.completed))
    && (forall e :: e in s.addressLocks && s.addressLocks[e] == y ==>
          e in v.addressLocks && v.addressLocks[e] == y && RowsAgree(s.links, v.links, e))
  }

  lemma RespectedKeeps(s: State, v: State, y: Txn)
    requires Respected(s, v, y) && GoodTx(s, y) && GoodRows(s.links, s.next)
    ensures GoodTx(v, y)
  {
    hide FailuresSince; hide GoodRow;
    forall l | l in v.txs[y].writes
      ensures GoodWrite(v, y, l)
    {
      assert GoodWrite(s, y, l);
    }
    var x := s.txs[y];
    if x.phase.Found? || x.phase.Counted? {
      var e := s.links[x.phase.link].email;
      assert RowsAgree(s.links, v.links, e);
      AgreeingSums(s.links, v.links, e, x.began - DAY, s.next, v.next);
    }
  }

  /** A step of `tx` that commits nothing. */
  lemma QuietKeeps(s: State, v: State, tx: Txn)
    requires Inv(s) && OneCodePerFlow(v.codes, v.completed) && GoodRows(v.links, v.next) && Budgets(v)
    requires forall y :: y in v.txs && y != tx ==> Respected(s, v, y)
    requires tx in v.txs ==> GoodTx(v, tx)
    ensures Inv(v)
  {
    hide OneCodePerFlow; hide GoodRows; hide GoodTx; hide Respected; hide Budgets;
    forall y | y in v.txs
      ensures GoodTx(v, y)
    {
      if y != tx {
        assert Respected(s, v, y);
        assert y in s.txs by { RespectedThere(s, v, y); }
        RespectedKeeps(s, v, y);
      }
    }
  }

  lemma RespectedThere(s: State, v: State, y: Txn)
    requires Respected(s, v, y)
    ensures y in s.txs
  {
  }

  lemma SameBudgets(s: State, v: State)
    requires Budgets(s) && v.links == s.links && v.now == s.now && v.next == s.next
    ensures Budgets(v)
  {
    hide FailuresSince;
    forall e ensures Today(v, e) <= MAX_FAILURES_PER_DAY { assert Today(v, e) == Today(s, e); }
  }

  lemma TickKeeps(s: State, elapsed: nat)
    requires Inv(s)
    ensures Inv(Next(s, Tick(elapsed)))
  {
    hide OneCodePerFlow; hide GoodRows; hide FailuresSince; hide GoodWrite;
    var v := Next(s, Tick(elapsed));
    forall e
      ensures Today(v, e) <= MAX_FAILURES_PER_DAY
    {
      LaterSum(s.links, e, s.now - DAY, v.now - DAY, s.next);
      assert Today(s, e) <= MAX_FAILURES_PER_DAY;
    }
    forall y | y in v.txs
      ensures GoodTx(v, y)
    {
      assert GoodTx(s, y);
      TickLeaves(s, elapsed, y);
    }
  }

  lemma TickLeaves(s: State, elapsed: nat, y: Txn)
    requires y in s.txs && GoodTx(s, y)
    ensures GoodTx(Next(s, Tick(elapsed)), y)
  {
    hide FailuresSince;
    forall l | l in s.txs[y].writes
      ensures GoodWrite(Next(s, Tick(elapsed)), y, l)
    {
      assert GoodWrite(s, y, l);
    }
  }

  lemma MailKeeps(s: State, flow: Id, email: Email)
    requires Inv(s)
    ensures Inv(Next(s, Mail(flow, email)))
  {
    hide GoodTx; hide FailuresSince;
    var v := Next(s, Mail(flow, email));
    forall e
      ensures RowsAgree(s.links, v.links, e) && Today(v, e) <= MAX_FAILURES_PER_DAY
    {
      AgreeingSums(s.links, v.links, e, s.now - DAY, s.next, v.next);
      assert Today(s, e) <= MAX_FAILURES_PER_DAY;
    }
    forall y | y in v.txs
      ensures GoodTx(v, y)
    {
      assert GoodTx(s, y);
      RespectedKeeps(s, v, y);
    }
  }

  /** Steps by which a transaction starts, waits or reads. */
  lemma ReadsKeep(s: State, step: Step)
    requires Inv(s) && (step.OpenLink? || step.TypeCode? || step.LockAddress? || step.ReadCandidate?)
    ensures Inv(Next(s, step))
  {
    hide OneCodePerFlow; hide GoodRows; hide GoodTx; hide Respected; hide Budgets; hide FailuresSince;
    var v := Next(s, step);
    if v != s {
      ReadsOwn(s, step);
      forall y | y in v.txs && y != step.tx
        ensures Respected(s, v, y)
      {
        if step.LockAddress? { LockRespects(s, step.tx, y); } else { ReadsRespect(s, step, y); }
      }
      SameBudgets(s, v);
      QuietKeeps(s, v, step.tx);
    }
  }

  lemma ReadsOwn(s: State, step: Step)
    requires Inv(s) && (step.OpenLink? || step.TypeCode? || step.LockAddress? || step.ReadCandidate?)
    requires Next(s, step) != s
    ensures var v := Next(s, step); step.tx in v.txs && GoodTx(v, step.tx)
  {
    hide OneCodePerFlow; hide GoodRows;
    var v := Next(s, step);
    if step.tx in s.txs {
      assert GoodTx(s, step.tx);
      forall l | l in v.txs[step.tx].writes
        ensures GoodWrite(v, step.tx, l)
      {
        assert GoodWrite(s, step.tx, l);
      }
    }
  }

  lemma LockRespects(s: State, tx: Txn, y: Txn)
    requires y in s.txs && y != tx
    ensures Respected(s, Next(s, LockAddress(tx)), y)
  {
  }

  lemma ReadsRespect(s: State, step: Step, y: Txn)
    requires step.OpenLink? || step.TypeCode? || step.ReadCandidate?
    requires y in s.txs && y != step.tx
    ensures Respected(s, Next(s, step), y)
  {
    hide FailuresSince; hide Selected;
    SameRowsAgree(s.links);
    hide RowsAgree;
  }

  lemma UpdatesKeep(s: State, step: Step)
    requires Inv(s) && (step.ConsumeOpened? || step.ConsumeFound? || step.CountWrong?)
    ensures Inv(Next(s, step))
  {
    hide OneCodePerFlow; hide GoodRows; hide GoodTx; hide Respected; hide Budgets; hide FailuresSince;
    var v := Next(s, step);
    if v != s {
      UpdatesOwn(s, step);
      forall y | y in v.txs && y != step.tx
        ensures Respected(s, v, y)
      {
        UpdatesRespect(s, step, y);
      }
      SameBudgets(s, v);
      QuietKeeps(s, v, step.tx);
    }
  }

  lemma UpdatesOwn(s: State, step: Step)
    requires Inv(s) && (step.ConsumeOpened? || step.ConsumeFound? || step.CountWrong?) && Next(s, step) != s
    ensures var v := Next(s, step); step.tx in v.txs && GoodTx(v, step.tx)
  {
    hide OneCodePerFlow; hide GoodRows;
    assert GoodTx(s, step.tx);
  }

  lemma UpdatesRespect(s: State, step: Step, y: Txn)
    requires step.ConsumeOpened? || step.ConsumeFound? || step.CountWrong?
    requires y in s.txs && y != step.tx
    ensures Respected(s, Next(s, step), y)
  {
  }

  lemma CompleteKeeps(s: State, tx: Txn)
    requires Inv(s)
    ensures Inv(Next(s, Complete(tx)))
  {
    hide OneCodePerFlow; hide GoodRows;
    var v := Next(s, Complete(tx));
    if v != s {
      assert GoodTx(s, tx);
      forall l | l in v.txs[tx].writes
        ensures GoodWrite(v, tx, l)
      {
        assert GoodWrite(s, tx, l);
      }
      SameBudgets(s, v);
      hide Budgets; hide FailuresSince; hide GoodWrite;
      QuietKeeps(s, v, tx);
    }
  }

  lemma AbortKeeps(s: State, tx: Txn)
    requires Inv(s)
    ensures Inv(Next(s, Abort(tx)))
  {
    hide GoodTx; hide FailuresSince; hide RowsAgree;
    if tx in s.txs {
      SameBudgets(s, Next(s, Abort(tx)));
      hide Budgets;
      assert forall e :: RowsAgree(s.links, s.links, e) by { SameRowsAgree(s.links); }
      QuietKeeps(s, Next(s, Abort(tx)), tx);
    }
  }

  lemma CommitRespects(s: State, tx: Txn, y: Txn)
    requires Inv(s) && tx in s.txs && y in s.txs && y != tx && Next(s, Commit(tx)) != s
    ensures Respected(s, Next(s, Commit(tx)), y)
  {
    hide OneCodePerFlow; hide GoodRows; hide GoodTx;
    hide Budgets; hide RowsAgree;
    assert GoodTx(s, tx);
    CommittedRows(s, tx);
    if s.txs[tx].phase.Done? { DoneHolds(s, tx); }
    forall e | e in s.addressLocks && s.addressLocks[e] == y
      ensures RowsAgree(s.links, s.links + s.txs[tx].writes, e)
    {
      AddressesAgree(s, tx, y, e);
    }
  }

  lemma DoneHolds(s: State, tx: Txn)
    requires tx in s.txs && GoodTx(s, tx) && s.txs[tx].phase.Done?
    ensures s.txs[tx].phase.flow in s.flowLocks && s.flowLocks[s.txs[tx].phase.flow] == tx
  {
  }

  lemma CommittedRows(s: State, tx: Txn)
    requires tx in s.txs && GoodTx(s, tx)
    ensures forall l :: l in s.txs[tx].writes ==>
      && l in s.links && l in s.linkLocks && s.linkLocks[l] == tx && SameMail(s.links[l], s.txs[tx].writes[l])
      && (s.txs[tx].writes[l].failures == s.links[l].failures || HoldsAddress(s, tx, l))
  {
    forall l | l in s.txs[tx].writes
      ensures l in s.links && l in s.linkLocks && s.linkLocks[l] == tx && SameMail(s.links[l], s.txs[tx].writes[l])
      ensures s.txs[tx].writes[l].failures == s.links[l].failures || HoldsAddress(s, tx, l)
    {
      assert GoodWrite(s, tx, l);
    }
  }

  predicate SameMail(x: LinkRow, y: LinkRow) {
    y.email == x.email && y.createdAt == x.createdAt
  }

  lemma AddressesAgree(s: State, tx: Txn, y: Txn, email: Email)
    requires tx in s.txs && GoodTx(s, tx) && y != tx && email in s.addressLocks && s.addressLocks[email] == y
    ensures RowsAgree(s.links, s.links + s.txs[tx].writes, email)
  {
    hide GoodTx;
    CommittedRows(s, tx);
  }

  /** The row a wrong code was counted on, as the one who counted it leaves the table. */
  lemma CountedRows(s: State, tx: Txn, email: Email)
    requires tx in s.txs && GoodTx(s, tx) && s.txs[tx].phase.Counted?
    ensures var link := s.txs[tx].phase.link; var after := s.links + s.txs[tx].writes;
      && link in s.links && link in after && SameMail(s.links[link], after[link])
      && after[link].failures <= s.links[link].failures + 1
      && RowsAgree(s.links[link := after[link]], after, email)
  {
    var link := s.txs[tx].phase.link;
    CommittedRows(s, tx);
    forall l | l in s.txs[tx].writes
      ensures s.txs[tx].writes[l].failures <= s.links[l].failures + (if l == link then 1 else 0)
      ensures l != link ==> s.txs[tx].writes[l].failures == s.links[l].failures
    {
      assert GoodWrite(s, tx, l);
    }
    hide GoodTx; hide FailuresSince;
  }

  lemma UncountedRows(s: State, tx: Txn, email: Email)
    requires tx in s.txs && GoodTx(s, tx)
    requires s.txs[tx].phase.Counted? ==> email != s.links[s.txs[tx].phase.link].email
    ensures RowsAgree(s.links, s.links + s.txs[tx].writes, email)
  {
    CommittedRows(s, tx);
    forall l | l in s.txs[tx].writes
      ensures s.txs[tx].writes[l].failures == s.links[l].failures || s.links[l].email != email
    {
      assert GoodWrite(s, tx, l);
    }
    hide GoodTx; hide FailuresSince;
  }

  /** A counted failure was the tenth at most: when its transaction had the address, there were nine. */
  lemma CommitKeepsBudget(s: State, tx: Txn, email: Email)
    requires GoodRows(s.links, s.next) && Budgets(s) && tx in s.txs && GoodTx(s, tx)
    ensures FailuresSince(s.links + s.txs[tx].writes, email, s.now - DAY, s.next) <= MAX_FAILURES_PER_DAY
  {
    var x := s.txs[tx];
    var after := s.links + x.writes;
    if x.phase.Counted? && email == s.links[x.phase.link].email {
      var link := x.phase.link;
      CountedRows(s, tx, email);
      hide FailuresSince; hide RowsAgree;
      SameSum(s.links[link := after[link]], after, email, s.now - DAY, s.next);
      OneMoreFailure(s.links, link, after[link], email, s.now - DAY, s.next);
      LaterSum(s.links, email, x.began - DAY, s.now - DAY, s.next);
    } else {
      UncountedRows(s, tx, email);
      hide FailuresSince; hide RowsAgree;
      SameSum(s.links, after, email, s.now - DAY, s.next);
      assert Today(s, email) <= MAX_FAILURES_PER_DAY;
    }
  }

  lemma CommitKeeps(s: State, tx: Txn)
    requires Inv(s)
    ensures Inv(Next(s, Commit(tx)))
  {
    hide Respected; hide FailuresSince;
    var v := Next(s, Commit(tx));
    if v != s {
      assert GoodTx(s, tx);
      forall l | l in v.links
        ensures l < v.next && GoodRow(v.links[l])
      {
        if l in s.txs[tx].writes { assert GoodWrite(s, tx, l); }
      }
      assert OneCodePerFlow(v.codes, v.completed);
      hide GoodTx; hide OneCodePerFlow;
      forall e
        ensures Today(v, e) <= MAX_FAILURES_PER_DAY
      {
        CommitKeepsBudget(s, tx, e);
      }
      forall y | y in v.txs
        ensures Respected(s, v, y)
      {
        CommitRespects(s, tx, y);
      }
      QuietKeeps(s, v, tx);
    }
  }

  lemma StepKeeps(s: State, step: Step)
    requires Inv(s)
    ensures Inv(Next(s, step))
  {
    hide Inv; hide Next;
    match step
    case Tick(elapsed) => TickKeeps(s, elapsed);
    case Mail(flow, email) => MailKeeps(s, flow, email);
    case OpenLink(_, _) => ReadsKeep(s, step);
    case TypeCode(_, _, _) => ReadsKeep(s, step);
    case LockAddress(_) => ReadsKeep(s, step);
    case ReadCandidate(_, _) => ReadsKeep(s, step);
    case ConsumeOpened(_) => UpdatesKeep(s, step);
    case ConsumeFound(_) => UpdatesKeep(s, step);
    case CountWrong(_) => UpdatesKeep(s, step);
    case Complete(tx) => CompleteKeeps(s, tx);
    case Commit(tx) => CommitKeeps(s, tx);
    case Abort(tx) => AbortKeeps(s, tx);
  }

  lemma {:induction false} RunKeeps(s: State, steps: seq<Step>)
    requires Inv(s)
    ensures Inv(Run(s, steps))
    decreases |steps|
  {
    hide Inv; hide Next;
    if steps != [] {
      StepKeeps(s, steps[0]);
      RunKeeps(Next(s, steps[0]), steps[1..]);
    }
  }

  /** Under any interleaving of link and code confirmations, a flow is completed at most once and gives at
      most one code; no link takes more than five wrong codes, and the links to an address created in the last
      day no more than ten. */
  lemma OneCompletionUnderConcurrency(steps: seq<Step>)
    ensures var s := Run(Start(), steps);
      && (forall i, j :: 0 <= i < j < |s.codes| ==> s.codes[i] != s.codes[j])
      && (forall l :: l in s.links ==> s.links[l].failures <= 5 && (s.links[l].failures == 5 ==> s.links[l].consumed))
      && (forall e :: Today(s, e) <= 10)
  {
    hide Run; hide GoodTx; hide FailuresSince;
    StartsWell();
    RunKeeps(Start(), steps);
  }

  lemma StartsWell()
    ensures Inv(Start())
  {
  }

  // ---- A used link can come back ----

  lemma {:induction false} Extend(s: State, steps: seq<Step>, step: Step)
    ensures Run(s, steps + [step]) == Next(Run(s, steps), step)
    decreases |steps|
  {
    if steps == [] {
      assert steps + [step] == [step];
      assert Run(s, [step]) == Run(Next(s, step), []);
    } else {
      assert (steps + [step])[1..] == steps[1..] + [step];
      Extend(Next(s, steps[0]), steps[1..], step);
    }
  }

  /** The code of link 0 was typed wrong and found its link pending. */
  function Candidate(): State {
    State(map[0 := LinkRow(7, "a", 0, false, 0)], {}, [], map[], map[], map["a" := 1],
          map[1 := Tx(Found(0), 0, map[])], 1, 0)
  }

  /** Before the failure was recorded, the link was opened and logged in. */
  function Overtaken(): State {
    Candidate().(links := map[0 := LinkRow(7, "a", 0, true, 0)], completed := {7}, codes := [7])
  }

  lemma CodeIsTyped() returns (steps: seq<Step>)
    ensures Run(Start(), steps) == Candidate()
  {
    hide Run;
    steps := [];
    assert Run(Start(), []) == Start() by { Nothing(Start()); }
    Extend(Start(), steps, Mail(7, "a")); steps := steps + [Mail(7, "a")];
    Extend(Start(), steps, TypeCode(1, 7, "a")); steps := steps + [TypeCode(1, 7, "a")];
    Extend(Start(), steps, LockAddress(1)); steps := steps + [LockAddress(1)];
    assert FailuresSince(map[0 := LinkRow(7, "a", 0, false, 0)], "a", 0 - DAY, 1) == 0;
    Extend(Start(), steps, ReadCandidate(1, 0)); steps := steps + [ReadCandidate(1, 0)];
  }

  lemma Nothing(s: State)
    ensures Run(s, []) == s
  {
  }

  lemma LinkIsOpened()
    ensures Next(Next(Next(Next(Candidate(), OpenLink(2, 0)), ConsumeOpened(2)), Complete(2)), Commit(2)) == Overtaken()
  {
    var row := LinkRow(7, "a", 0, true, 0);
    var s := Next(Next(Candidate(), OpenLink(2, 0)), ConsumeOpened(2));
    assert s == Candidate().(linkLocks := map[0 := 2],
                             txs := map[1 := Tx(Found(0), 0, map[]), 2 := Tx(Used(0), 0, map[0 := row])]);
    LinkLogsIn(s, row);
  }

  lemma LinkLogsIn(s: State, row: LinkRow)
    requires row == LinkRow(7, "a", 0, true, 0)
    requires s == Candidate().(linkLocks := map[0 := 2],
                               txs := map[1 := Tx(Found(0), 0, map[]), 2 := Tx(Used(0), 0, map[0 := row])])
    ensures Next(Next(s, Complete(2)), Commit(2)) == Overtaken()
  {
    var v := Next(s, Complete(2));
    assert v == s.(flowLocks := map[7 := 2],
                   txs := map[1 := Tx(Found(0), 0, map[]), 2 := Tx(Done(7), 0, map[0 := row])]);
    hide Next;
    LoginCommits(v, row);
  }

  lemma LoginCommits(v: State, row: LinkRow)
    requires row == LinkRow(7, "a", 0, true, 0)
    requires v == Candidate().(linkLocks := map[0 := 2], flowLocks := map[7 := 2],
                               txs := map[1 := Tx(Found(0), 0, map[]), 2 := Tx(Done(7), 0, map[0 := row])])
    ensures Next(v, Commit(2)) == Overtaken()
  {
    hide Release;
    assert Release(v.linkLocks, 2) == map[] && Release(v.flowLocks, 2) == map[] by {
      OnlyLocks(v.linkLocks, 2);
      OnlyLocks(v.flowLocks, 2);
    }
    assert Release(v.addressLocks, 2) == v.addressLocks by { NoLock(v.addressLocks, 2); }
    assert v.links + v.txs[2].writes == map[0 := row];
    assert v.txs - {2} == map[1 := Tx(Found(0), 0, map[])];
  }

  lemma OnlyLocks(locks: map<Id, Txn>, tx: Txn)
    requires forall k :: k in locks ==> locks[k] == tx
    ensures Release(locks, tx) == map[]
  {
  }

  lemma NoLock(locks: map<Email, Txn>, tx: Txn)
    requires forall k :: k in locks ==> locks[k] != tx
    ensures Release(locks, tx) == locks
  {
  }

  lemma FailureIsRecorded()
    ensures var s := Next(Next(Overtaken(), CountWrong(1)), Commit(1));
      s.links == map[0 := LinkRow(7, "a", 1, false, 0)] && s.codes == [7]
  {
    var s := Next(Overtaken(), CountWrong(1));
    assert s.txs == map[1 := Tx(Counted(0), 0, map[0 := LinkRow(7, "a", 1, false, 0)])];
  }

  /** Recording a failure writes `consumed_at` whatever it was by then: a link that logged somebody in
      meanwhile is pending again, although its flow stays completed. */
  lemma RecordingAFailureReopensTheLink() returns (steps: seq<Step>)
    ensures var s := Run(Start(), steps); s.links == map[0 := LinkRow(7, "a", 1, false, 0)] && s.codes == [7]
  {
    hide Run; hide Next; hide Candidate; hide Overtaken;
    steps := CodeIsTyped();
    LinkIsOpened();
    FailureIsRecorded();
    Extend(Start(), steps, OpenLink(2, 0)); steps := steps + [OpenLink(2, 0)];
    Extend(Start(), steps, ConsumeOpened(2)); steps := steps + [ConsumeOpened(2)];
    Extend(Start(), steps, Complete(2)); steps := steps + [Complete(2)];
    Extend(Start(), steps, Commit(2)); steps := steps + [Commit(2)];
    Extend(Start(), steps, CountWrong(1)); steps := steps + [CountWrong(1)];
    Extend(Start(), steps, Commit(1)); steps := steps + [Commit(1)];
  }

  /** Exactly a link that was used meanwhile and has no fifth failure comes back; every other row of the
      table is as it was, and no flow and no code changes. */
  lemma ReopensIff(s: State, tx: Txn, link: Id)
    requires tx in s.txs && s.txs[tx].phase == Found(link) && link in s.links && Free(s.linkLocks, link, tx)
    ensures var v := Next(Next(s, CountWrong(tx)), Commit(tx));
      && link in v.links
      && ((s.links[link].consumed && !v.links[link].consumed) <==>
          (s.links[link].consumed && s.links[link].failures + 1 < 5))
      && v.links == s.links[link := v.links[link]] && v.completed == s.completed && v.codes == s.codes
  {
    var u := Next(s, CountWrong(tx));
    assert u.txs[tx].writes == map[link := Counting(s.links[link])];
    assert s.links + map[link := Counting(s.links[link])] == s.links[link := Counting(s.links[link])];
  }

  // ---- A login nobody is in the way of ----

  /** Nobody has locked the link, its flow or its address. */
  predicate Unlocked(s: State, link: Id)
    requires link in s.links
  {
    link !in s.linkLocks && s.links[link].flow !in s.flowLocks && s.links[link].email !in s.addressLocks
  }

  /** A link nobody is in the way of logs in exactly if it is unused, under 15 minutes old and its flow not
      completed. */
  lemma FreeLinkLogsInIff(s: State, tx: Txn, link: Id)
    requires link in s.links && Unlocked(s, link) && tx !in s.txs
    ensures var v := Next(Next(Next(Next(s, OpenLink(tx, link)), ConsumeOpened(tx)), Complete(tx)), Commit(tx));
      var row := s.links[link];
      if !row.consumed && s.now < row.createdAt + 15 * MINUTE && row.flow !in s.completed
      then
        && v.codes == s.codes + [row.flow] && v.completed == s.completed + {row.flow}
        && v.links == s.links[link := row.(consumed := true)]
      else v.codes == s.codes && v.completed == s.completed && v.links == s.links
  {
    var b := Next(Next(s, OpenLink(tx, link)), ConsumeOpened(tx));
    OpenedWrites(s, tx, link);
    hide Release;
    if tx in b.txs && b.txs[tx].phase.Used? {
      assert s.links + b.txs[tx].writes == s.links[link := s.links[link].(consumed := true)];
    }
  }

  lemma OpenedWrites(s: State, tx: Txn, link: Id)
    requires link in s.links && Unlocked(s, link) && tx !in s.txs
    ensures var v := Next(Next(s, OpenLink(tx, link)), ConsumeOpened(tx)); var row := s.links[link];
      && v == s.(txs := v.txs, linkLocks := v.linkLocks) && tx in v.txs
      && v.txs[tx] == if Pending(row, s.now) then Tx(Used(link), s.now, map[link := row.(consumed := true)])
                      else Tx(Opening(link), s.now, map[])
  {
  }

  /** The candidate a typed code is checked against: the newest link of its flow, unused, under 15 minutes old, with
      fewer than five wrong codes, and fewer than ten for its address that day. */
  predicate IsCandidate(s: State, link: Id)
    requires link in s.links
  {
    var row := s.links[link];
    && (forall l | l in s.links :: s.links[l].flow == row.flow ==> l <= link)
    && !row.consumed && s.now < row.createdAt + 15 * MINUTE && row.failures < 5
    && FailuresSince(s.links, row.email, s.now - DAY, s.next) < 10
  }

  function Typed(s: State, tx: Txn, link: Id): State
    requires link in s.links
  {
    var row := s.links[link];
    Next(Next(Next(s, TypeCode(tx, row.flow, row.email)), LockAddress(tx)), ReadCandidate(tx, link))
  }

  lemma TypedFinds(s: State, tx: Txn, link: Id)
    requires link in s.links && Unlocked(s, link) && tx !in s.txs
    ensures var v := Typed(s, tx, link); var row := s.links[link];
      && v == s.(addressLocks := s.addressLocks[row.email := tx], txs := v.txs) && tx in v.txs
      && v.txs[tx].writes == map[] && v.txs[tx].began == s.now
      && v.txs[tx].phase == if IsCandidate(s, link) then Found(link) else Reading(row.flow, row.email)
  {
    hide FailuresSince;
    var row := s.links[link];
    var a := Next(s, TypeCode(tx, row.flow, row.email));
    var b := Next(a, LockAddress(tx));
    assert b.txs[tx] == Tx(Reading(row.flow, row.email), s.now, map[]);
    assert Selected(b, b.txs[tx], link) <==> IsCandidate(s, link);
  }

  /** A right code nobody is in the way of logs in exactly if its link is the candidate and the flow not completed. */
  lemma FreeCodeLogsInIff(s: State, tx: Txn, link: Id)
    requires link in s.links && Unlocked(s, link) && tx !in s.txs
    ensures var v := Next(Next(Next(Typed(s, tx, link), ConsumeFound(tx)), Complete(tx)), Commit(tx));
      var row := s.links[link];
      if IsCandidate(s, link) && row.flow !in s.completed
      then
        && v.codes == s.codes + [row.flow] && v.completed == s.completed + {row.flow}
        && v.links == s.links[link := row.(consumed := true)]
      else v.codes == s.codes && v.completed == s.completed && v.links == s.links
  {
    hide Typed; hide IsCandidate;
    TypedFinds(s, tx, link);
    var a := Typed(s, tx, link);
    var b := Next(a, ConsumeFound(tx));
    if b != a {
      assert b.txs[tx] == Tx(Used(link), s.now, map[link := s.links[link].(consumed := true)]);
      assert s.links + b.txs[tx].writes == s.links[link := s.links[link].(consumed := true)];
    }
  }

  /** A wrong code nobody is in the way of counts exactly if its link is the candidate, and the fifth uses it up. */
  lemma FreeWrongCodeCountsIff(s: State, tx: Txn, link: Id)
    requires link in s.links && Unlocked(s, link) && tx !in s.txs
    ensures var v := Next(Next(Typed(s, tx, link), CountWrong(tx)), Commit(tx)); var row := s.links[link];
      && v.codes == s.codes && v.completed == s.completed
      && v.links == if IsCandidate(s, link)
                    then s.links[link := row.(failures := row.failures + 1, consumed := row.failures == 4)]
                    else s.links
  {
    hide Typed;
    TypedFinds(s, tx, link);
    var a := Typed(s, tx, link);
    var b := Next(a, CountWrong(tx));
    if b != a {
      assert b.txs[tx] == Tx(Counted(link), s.now, map[link := Counting(s.links[link])]);
      assert s.links + b.txs[tx].writes == s.links[link := Counting(s.links[link])];
    }
    hide IsCandidate;
  }
}
