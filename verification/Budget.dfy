/** How many wrong codes can be typed: the sums kept in the rows, and the attempts that really happened.
    Written once for any table of emailed codes. */
module Budget {
  import opened Base
  import opened Tables
  import opened EmailedCodes

  /** At most five failures per code, and five use it up. */
  ghost predicate Capped<K(!new), S(!new)>(rows: map<Id, CodeRow<K, S>>, next: Id, now: Time) {
    forall r :: r in rows ==>
      && r < next
      && rows[r].failures <= MAX_FAILURES_PER_CODE
      && (rows[r].failures == MAX_FAILURES_PER_CODE ==> rows[r].consumedAt.Some?)
      && rows[r].createdAt <= now && rows[r].expiresAt == rows[r].createdAt + CODE_TTL
      && (rows[r].consumedAt.Some? ==> rows[r].createdAt <= rows[r].consumedAt.value <= now)
  }

  function DayTotal<K(==), S>(rows: map<Id, CodeRow<K, S>>, key: K, next: Id, now: Time): nat {
    FailuresSince(rows, key, now - DAY, next)
  }

  /** At most ten failures over the codes of one key created in the last day. */
  ghost predicate WithinDay<K(!new), S(!new)>(rows: map<Id, CodeRow<K, S>>, next: Id, now: Time) {
    forall key :: DayTotal(rows, key, next, now) <= MAX_FAILURES_PER_DAY
  }

  ghost predicate Budgeted<K(!new), S(!new)>(rows: map<Id, CodeRow<K, S>>, next: Id, now: Time) {
    Capped(rows, next, now) && WithinDay(rows, next, now)
  }

  // ---- Sums ----

  lemma {:induction false} SumShrinks<K(!new), S(!new)>(before: map<Id, CodeRow<K, S>>, since: Time,
                                            after: map<Id, CodeRow<K, S>>, later: Time, key: K, n: Id)
    requires forall r: Id :: r < n ==> Weight(after, key, later, r) <= Weight(before, key, since, r)
    ensures FailuresSince(after, key, later, n) <= FailuresSince(before, key, since, n)
  {
    if n > 0 { SumShrinks(before, since, after, later, key, n - 1); }
  }

  lemma {:induction false} SumExtends<K(!new), S(!new)>(rows: map<Id, CodeRow<K, S>>, key: K, since: Time, n: Id, m: Id)
    requires n <= m && forall r :: r in rows ==> r < n
    ensures FailuresSince(rows, key, since, m) == FailuresSince(rows, key, since, n)
  {
    if n < m { SumExtends(rows, key, since, n, m - 1); }
  }

  /** A recorded failure adds one to exactly the sums its row is counted in. */
  lemma {:induction false} SumCounts<K(!new), S(!new)>(rows: map<Id, CodeRow<K, S>>, id: Id, now: Time, key: K,
                                                       since: Time, n: Id)
    requires id in rows
    ensures FailuresSince(RecordFailure(rows, id, now), key, since, n) ==
            FailuresSince(rows, key, since, n) +
            if id < n && rows[id].key == key && since < rows[id].createdAt then 1 else 0
  {
    if n > 0 { SumCounts(rows, id, now, key, since, n - 1); }
  }

  // ---- What each kind of step does to the sums ----

  lemma RecordKeeps<K(!new), S(!new)>(rows: map<Id, CodeRow<K, S>>, next: Id, now: Time, scope: S, key: K, id: Id)
    requires Budgeted(rows, next, now) && Candidate(rows, scope, key, now, next) == Some(id) && rows[id].key == key
    ensures Budgeted(RecordFailure(rows, id, now), next, now)
  {
    hide FailuresSince; hide Newest;
    forall k
      ensures DayTotal(RecordFailure(rows, id, now), k, next, now) <= MAX_FAILURES_PER_DAY
    {
      SumCounts(rows, id, now, k, now - DAY, next);
      assert DayTotal(rows, k, next, now) <= MAX_FAILURES_PER_DAY;
    }
  }

  /** Rows may go, be used up or be added without failures, and time may pass. */
  ghost predicate Quiet<K(!new), S(!new)>(before: map<Id, CodeRow<K, S>>, next: Id,
                                          after: map<Id, CodeRow<K, S>>, next': Id, now': Time) {
    next <= next' &&
    forall r :: r in after ==> r < next' && (QuietRow(before, after, r, now') || NewRow(after[r], r, next, now'))
  }

  ghost predicate QuietRow<K(!new), S(!new)>(before: map<Id, CodeRow<K, S>>, after: map<Id, CodeRow<K, S>>, r: Id,
                                             now: Time) {
    r in before && r in after && after[r] == before[r].(consumedAt := after[r].consumedAt) &&
    (after[r].consumedAt == before[r].consumedAt || after[r].consumedAt == Some(now))
  }

  ghost predicate NewRow<K(!new), S(!new)>(row: CodeRow<K, S>, r: Id, next: Id, now: Time) {
    next <= r && row.failures == 0 && row.createdAt == now && row.consumedAt.None? && row.expiresAt == now + CODE_TTL
  }

  lemma QuietKeeps<K(!new), S(!new)>(rows: map<Id, CodeRow<K, S>>, next: Id, now: Time,
                         after: map<Id, CodeRow<K, S>>, next': Id, now': Time)
    requires Budgeted(rows, next, now) && Quiet(rows, next, after, next', now') && now <= now'
    ensures Budgeted(after, next', now')
  {
    hide FailuresSince;
    forall k
      ensures DayTotal(after, k, next', now') <= MAX_FAILURES_PER_DAY
    {
      SumShrinks(rows, now - DAY, after, now' - DAY, k, next');
      SumExtends(rows, k, now - DAY, next, next');
      assert DayTotal(rows, k, next, now) <= MAX_FAILURES_PER_DAY;
    }
  }

  // ---- Attempts by the time they happened ----

  function GuessCount<K(==)>(guesses: seq<Guess<K>>, key: K, since: Time): nat {
    if guesses == [] then 0
    else
      var g := guesses[|guesses| - 1];
      GuessCount(guesses[..|guesses| - 1], key, since) + if g.key == key && since < g.mailedAt then 1 else 0
  }

  /** The span in which at most ten wrong codes can be typed: a day less the life of a code. */
  const SAFE_SPAN: Time := DAY - CODE_TTL

  /** Wrong codes typed for `key` from `start` on, for `SAFE_SPAN`, both ends included. */
  function AttemptsIn<K(==)>(guesses: seq<Guess<K>>, key: K, start: Time): nat {
    if guesses == [] then 0
    else
      var g := guesses[|guesses| - 1];
      AttemptsIn(guesses[..|guesses| - 1], key, start) +
      if g.key == key && start <= g.at <= start + SAFE_SPAN then 1 else 0
  }

  /** A code is typed while it works. */
  ghost predicate Timed<K(!new)>(guesses: seq<Guess<K>>, now: Time) {
    forall i :: 0 <= i < |guesses| ==>
      guesses[i].mailedAt <= guesses[i].at < guesses[i].mailedAt + CODE_TTL && guesses[i].at <= now
  }

  /** Every attempt on a code mailed during the last day is still in the sums. */
  ghost predicate Tallied<K(!new), S(!new)>(rows: map<Id, CodeRow<K, S>>, guesses: seq<Guess<K>>, next: Id, now: Time) {
    forall key, since :: now - DAY <= since ==> GuessCount(guesses, key, since) <= FailuresSince(rows, key, since, next)
  }

  ghost predicate Paced<K(!new)>(guesses: seq<Guess<K>>) {
    forall key, start :: AttemptsIn(guesses, key, start) <= MAX_FAILURES_PER_DAY
  }

  ghost predicate Accounted<K(!new), S(!new)>(rows: map<Id, CodeRow<K, S>>, guesses: seq<Guess<K>>, next: Id,
                                              now: Time) {
    Timed(guesses, now) && Tallied(rows, guesses, next, now) && Paced(guesses)
  }

  /** Attempts in a span that reaches to the present are on codes mailed within the last day. */
  lemma {:induction false} SpanIsCounted<K(!new)>(guesses: seq<Guess<K>>, key: K, start: Time, now: Time)
    requires Timed(guesses, now) && now <= start + SAFE_SPAN
    ensures AttemptsIn(guesses, key, start) <= GuessCount(guesses, key, now - DAY)
  {
    if guesses != [] { SpanIsCounted(guesses[..|guesses| - 1], key, start, now); }
  }

  lemma RecordTallies<K(!new), S(!new)>(rows: map<Id, CodeRow<K, S>>, guesses: seq<Guess<K>>, next: Id, now: Time,
                                        id: Id)
    requires Tallied(rows, guesses, next, now) && id in rows && id < next
    ensures Tallied(RecordFailure(rows, id, now), guesses + [Guess(rows[id].key, rows[id].createdAt, now)], next, now)
  {
    hide FailuresSince;
    var g := Guess(rows[id].key, rows[id].createdAt, now);
    assert (guesses + [g])[..|guesses|] == guesses;
    forall k, since | now - DAY <= since
      ensures GuessCount(guesses + [g], k, since) <= FailuresSince(RecordFailure(rows, id, now), k, since, next)
    {
      SumCounts(rows, id, now, k, since, next);
    }
  }

  lemma RecordAccounted<K(!new), S(!new)>(rows: map<Id, CodeRow<K, S>>, guesses: seq<Guess<K>>, next: Id, now: Time,
                                          scope: S, key: K,
                              id: Id)
    requires Budgeted(rows, next, now) && Accounted(rows, guesses, next, now)
    requires Candidate(rows, scope, key, now, next) == Some(id) && rows[id].key == key
    ensures Accounted(RecordFailure(rows, id, now), guesses + [Guess(key, rows[id].createdAt, now)], next, now)
  {
    hide FailuresSince; hide Newest; hide RecordFailure; hide Tallied; hide WithinDay;
    var g := Guess(key, rows[id].createdAt, now);
    var more := guesses + [g];
    var after := RecordFailure(rows, id, now);
    RecordKeeps(rows, next, now, scope, key, id);
    RecordTallies(rows, guesses, next, now, id);
    assert Timed(more, now);
    forall k, start
      ensures AttemptsIn(more, k, start) <= MAX_FAILURES_PER_DAY
    {
      assert more[..|guesses|] == guesses;
      if now <= start + SAFE_SPAN {
        SpanIsCounted(more, k, start, now);
        TallyBounds(after, more, next, now, k);
      }
    }
  }

  lemma TallyBounds<K(!new), S(!new)>(rows: map<Id, CodeRow<K, S>>, guesses: seq<Guess<K>>, next: Id, now: Time, key: K)
    requires WithinDay(rows, next, now) && Tallied(rows, guesses, next, now)
    ensures GuessCount(guesses, key, now - DAY) <= MAX_FAILURES_PER_DAY
  {
    assert DayTotal(rows, key, next, now) <= MAX_FAILURES_PER_DAY;
  }

  /** As `Quiet`, and only rows more than a day old go. */
  ghost predicate Unforgetting<K(!new), S(!new)>(before: map<Id, CodeRow<K, S>>, after: map<Id, CodeRow<K, S>>,
                                                 now': Time) {
    forall r :: r in before ==>
      before[r].createdAt <= now' - DAY ||
      (r in after && after[r].key == before[r].key && after[r].failures == before[r].failures &&
       after[r].createdAt == before[r].createdAt)
  }

  lemma QuietAccounted<K(!new), S(!new)>(rows: map<Id, CodeRow<K, S>>, guesses: seq<Guess<K>>, next: Id, now: Time,
                             after: map<Id, CodeRow<K, S>>, next': Id, now': Time)
    requires Accounted(rows, guesses, next, now) && (forall r :: r in rows ==> r < next)
    requires Unforgetting(rows, after, now') && now <= now' && next <= next'
    ensures Accounted(after, guesses, next', now')
  {
    hide FailuresSince;
    forall k, since | now' - DAY <= since
      ensures GuessCount(guesses, k, since) <= FailuresSince(after, k, since, next')
    {
      SumShrinks(after, since, rows, since, k, next');
      SumExtends(rows, k, since, next, next');
    }
  }
}
