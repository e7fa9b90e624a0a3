/** `find_code_candidate` as the database answers it: row by row, in no particular order
    (queries/magic_links.rs, queries/confirmations.rs). */
module CandidateQuery {
  import opened Base
  import opened Tables
  import opened EmailedCodes
  import Login

  /** `ORDER BY created_at DESC, id DESC`: `a` comes no later than `b`. */
  predicate ComesFirst<K, S>(rows: map<Id, CodeRow<K, S>>, a: Id, b: Id)
    requires a in rows && b in rows
  {
    rows[b].createdAt < rows[a].createdAt || (rows[b].createdAt == rows[a].createdAt && b <= a)
  }

  /** `r` is what `LIMIT 1` leaves of the rows of `scope`. */
  ghost predicate IsNewest<K(!new), S(!new)>(rows: map<Id, CodeRow<K, S>>, scope: S, r: Option<Id>) {
    match r
    case None => forall id :: id in rows ==> rows[id].scope != scope
    case Some(m) =>
      m in rows && rows[m].scope == scope &&
      forall id :: id in rows && rows[id].scope == scope ==> ComesFirst(rows, m, id)
  }

  method FindNewest<K(!new), S(==, !new)>(rows: map<Id, CodeRow<K, S>>, scope: S) returns (r: Option<Id>)
    ensures IsNewest(rows, scope, r)
  {
    r := None;
    var rest := rows.Keys;
    while rest != {}
      invariant rest <= rows.Keys
      invariant r.Some? ==> r.value in rows && rows[r.value].scope == scope
      invariant forall id :: id in rows && id !in rest && rows[id].scope == scope ==>
                  r.Some? && ComesFirst(rows, r.value, id)
      decreases |rest|
    {
      var id :| id in rest;
      if rows[id].scope == scope && (r.None? || ComesFirst(rows, id, r.value)) { r := Some(id); }
      rest := rest - {id};
    }
  }

  lemma {:induction false} NewestIsNewest<K(!new), S(!new)>(rows: map<Id, CodeRow<K, S>>, scope: S, n: Id,
                                                            r: Option<Id>)
    requires IsNewest(rows, scope, r) && forall id :: id in rows ==> id < n
    ensures Newest(rows, scope, n) == r
  {
    if r.Some? { NewestComesFirst(rows, scope, n, r.value); }
  }

  lemma {:induction false} NewestComesFirst<K(!new), S(!new)>(rows: map<Id, CodeRow<K, S>>, scope: S, n: Id, id: Id)
    requires id in rows && id < n && rows[id].scope == scope
    ensures Newest(rows, scope, n).Some? && ComesFirst(rows, Newest(rows, scope, n).value, id)
  {
    if id < n - 1 { NewestComesFirst(rows, scope, n - 1, id); }
  }

  // ---- The windowed sum ----

  lemma {:induction false} SumAdds<K, S>(rows: map<Id, CodeRow<K, S>>, id: Id, row: CodeRow<K, S>, key: K, since: Time,
                                         n: Id)
    requires id !in rows && id < n
    ensures FailuresSince(rows[id := row], key, since, n) ==
            FailuresSince(rows, key, since, n) + if row.key == key && since < row.createdAt then row.failures else 0
  {
    if id < n - 1 {
      SumAdds(rows, id, row, key, since, n - 1);
    } else {
      SumSame(rows, rows[id := row], key, since, n - 1);
    }
  }

  lemma {:induction false} SumSame<K, S>(a: map<Id, CodeRow<K, S>>, b: map<Id, CodeRow<K, S>>, key: K, since: Time,
                                         n: Id)
    requires forall id: Id :: id < n ==> Weight(a, key, since, id) == Weight(b, key, since, id)
    ensures FailuresSince(a, key, since, n) == FailuresSince(b, key, since, n)
  {
    if n > 0 { SumSame(a, b, key, since, n - 1); }
  }

  lemma {:induction false} SumOfNone<K, S>(key: K, since: Time, n: Id)
    ensures FailuresSince<K, S>(map[], key, since, n) == 0
  {
    if n > 0 { SumOfNone<K, S>(key, since, n - 1); }
  }

  /** `sum(code_failures)` over the rows of `key` created after `since`, in whatever order they come. */
  method SumFailures<K(==, !new), S(!new)>(rows: map<Id, CodeRow<K, S>>, key: K, since: Time,
                                           ghost n: Id) returns (total: nat)
    requires forall id :: id in rows ==> id < n
    ensures total == FailuresSince(rows, key, since, n)
  {
    total := 0;
    var rest := rows.Keys;
    ghost var done: map<Id, CodeRow<K, S>> := map[];
    SumOfNone<K, S>(key, since, n);
    while rest != {}
      invariant rest <= rows.Keys && done.Keys == rows.Keys - rest
      invariant forall id :: id in done ==> done[id] == rows[id]
      invariant total == FailuresSince(done, key, since, n)
      decreases |rest|
    {
      var id :| id in rest;
      SumAdds(done, id, rows[id], key, since, n);
      done := done[id := rows[id]];
      if rows[id].key == key && since < rows[id].createdAt { total := total + rows[id].failures; }
      rest := rest - {id};
    }
    assert done == rows;
  }

  // ---- The whole query ----

  /** The newest row of `scope`, pending, below five failures, with fewer than ten failures over the day's
      rows of `key`. */
  method FindCandidate<K(==, !new), S(==, !new)>(rows: map<Id, CodeRow<K, S>>, scope: S, key: K, now: Time, ghost n: Id)
    returns (r: Option<Id>)
    requires forall id :: id in rows ==> id < n
    ensures r == Candidate(rows, scope, key, now, n)
    ensures r.Some? ==>
      && IsNewest(rows, scope, r) && rows[r.value].consumedAt.None? && now < rows[r.value].expiresAt
      && rows[r.value].failures < 5 && FailuresSince(rows, key, now - DAY, n) < 10
    ensures r.None? ==>
      forall m: Id :: IsNewest(rows, scope, Some(m)) ==>
        rows[m].consumedAt.Some? || rows[m].expiresAt <= now || rows[m].failures >= 5 ||
        FailuresSince(rows, key, now - DAY, n) >= 10
  {
    var newest := FindNewest(rows, scope);
    NewestIsNewest(rows, scope, n, newest);
    OneNewest(rows, scope, newest);
    if newest.None? { return None; }
    var row := rows[newest.value];
    var total := SumFailures(rows, key, now - DAY, n);
    if row.consumedAt.Some? || row.expiresAt <= now || row.failures >= MAX_FAILURES_PER_CODE ||
       total >= MAX_FAILURES_PER_DAY {
      return None;
    }
    return newest;
  }

  lemma OneNewest<K(!new), S(!new)>(rows: map<Id, CodeRow<K, S>>, scope: S, r: Option<Id>)
    requires IsNewest(rows, scope, r)
    ensures forall m: Id :: IsNewest(rows, scope, Some(m)) ==> r == Some(m)
  {
  }

  /** For links, the address whose failures are summed is that of the newest link of the flow. */
  method FindLinkCandidate(links: map<Id, Link>, flow: Id, now: Time, ghost n: Id) returns (r: Option<Id>)
    requires forall id :: id in links ==> id < n
    ensures r == Login.LinkCandidate(links, flow, now, n)
    ensures r.Some? ==>
      && IsNewest(links, flow, r) && links[r.value].consumedAt.None? && now < links[r.value].expiresAt
      && links[r.value].failures < 5 && FailuresSince(links, links[r.value].email, now - DAY, n) < 10
    ensures r.None? ==>
      forall m: Id :: IsNewest(links, flow, Some(m)) ==>
        links[m].consumedAt.Some? || links[m].expiresAt <= now || links[m].failures >= 5 ||
        FailuresSince(links, links[m].email, now - DAY, n) >= 10
  {
    var newest := FindNewest(links, flow);
    NewestIsNewest(links, flow, n, newest);
    OneNewest(links, flow, newest);
    if newest.None? { return None; }
    r := FindCandidate(links, flow, links[newest.value].email, now, n);
    if r.Some? { OneNewest(links, flow, r); }
  }
}
