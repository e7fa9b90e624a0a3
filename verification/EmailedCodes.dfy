/** Six-digit codes sent by email, as magic links and confirmations both use them
    (queries/magic_links.rs, queries/confirmations.rs). */
module EmailedCodes {
  import opened Base
  import opened Tables

  /** Six ASCII digits. */
  predicate IsWellFormed(code: string) {
    |code| == 6 && forall i :: 0 <= i < 6 ==> '0' <= code[i] <= '9'
  }

  /** `ORDER BY created_at DESC, id DESC LIMIT 1` among the rows of `scope` with an id below `n`. */
  function Newest<K, S(==)>(rows: map<Id, CodeRow<K, S>>, scope: S, n: Id): (r: Option<Id>)
    ensures r.Some? ==> r.value in rows && r.value < n && rows[r.value].scope == scope
  {
    if n == 0 then None
    else
      var best := Newest(rows, scope, n - 1);
      if n - 1 in rows && rows[n - 1].scope == scope &&
         (best.Some? ==> rows[best.value].createdAt <= rows[n - 1].createdAt)
      then Some(n - 1)
      else best
  }

  /** The failures of row `id` that count for `key` since `since`. */
  function Weight<K(==), S>(rows: map<Id, CodeRow<K, S>>, key: K, since: Time, id: Id): nat {
    if id in rows && rows[id].key == key && since < rows[id].createdAt then rows[id].failures else 0
  }

  /** Wrong codes summed over the rows of `key` created after `since`. */
  function FailuresSince<K(==), S>(rows: map<Id, CodeRow<K, S>>, key: K, since: Time, n: Id): nat {
    if n == 0 then 0 else FailuresSince(rows, key, since, n - 1) + Weight(rows, key, since, n - 1)
  }

  predicate Pending<K, S>(row: CodeRow<K, S>, now: Time) {
    row.consumedAt.None? && now < row.expiresAt
  }

  /** The row a typed code is checked against: the newest of its scope, if it may still be guessed. */
  function Candidate<K(==), S(==)>(rows: map<Id, CodeRow<K, S>>, scope: S, key: K, now: Time, n: Id): (r: Option<Id>)
    ensures r.Some? ==> r == Newest(rows, scope, n)
  {
    var newest := Newest(rows, scope, n);
    if newest.Some? && Pending(rows[newest.value], now) && rows[newest.value].failures < MAX_FAILURES_PER_CODE &&
       FailuresSince(rows, key, now - DAY, n) < MAX_FAILURES_PER_DAY
    then newest
    else None
  }

  /** `CASE WHEN ... THEN now() END`: below the limit this writes NULL, whatever was there. */
  function RecordFailure<K, S>(rows: map<Id, CodeRow<K, S>>, id: Id, now: Time): map<Id, CodeRow<K, S>>
    requires id in rows
  {
    var row := rows[id];
    rows[id := row.(failures := row.failures + 1,
                    consumedAt := if row.failures + 1 >= MAX_FAILURES_PER_CODE then Some(now) else None)]
  }

  function Consume<K, S>(rows: map<Id, CodeRow<K, S>>, id: Id, now: Time): map<Id, CodeRow<K, S>>
    requires id in rows
  {
    rows[id := rows[id].(consumedAt := Some(now))]
  }
}
