/** The signing key table, its rotation, and the key sets servers load from it (signing_keys.rs,
    queries/signing_keys.rs). */
module SigningKeys {
  import opened Base

  const ROTATION_INTERVAL: Time := 30 * DAY
  const PREPUBLICATION: Time := 24 * HOUR
  const RETIRED_KEY_GRACE: Time := 24 * HOUR
  const RETIRED_KEY_RETENTION: Time := 30 * DAY

  type Kid = Id
  type PublicKey = nat

  datatype Row = Row(public: PublicKey, activeAt: Time, retiredAt: Option<Time>)

  type Table = map<Kid, Row>

  predicate CanSign(r: Row, t: Time) {
    r.activeAt <= t && (r.retiredAt.None? || t < r.retiredAt.value)
  }

  /** In the JWKS: not retired, or retired less than the grace period ago. */
  predicate Published(r: Row, t: Time) {
    r.retiredAt.None? || t - RETIRED_KEY_GRACE < r.retiredAt.value
  }

  predicate Unretired(r: Row, t: Time) {
    r.retiredAt.None? || t < r.retiredAt.value
  }

  predicate Signs(table: Table, k: Kid, t: Time) {
    k in table && CanSign(table[k], t)
  }

  // ---- Reading ----

  datatype Listed = Listed(kid: Kid, row: Row)

  /** A result of `ORDER BY active_at DESC` over the published keys; equal instants come in any order. */
  ghost predicate IsListing(rows: seq<Listed>, table: Table, t: Time) {
    && (forall i :: 0 <= i < |rows| ==>
          rows[i].kid in table && rows[i].row == table[rows[i].kid] && Published(rows[i].row, t))
    && (forall k :: k in table && Published(table[k], t) ==> Listed(k, table[k]) in rows)
    && (forall i, j :: 0 <= i < j < |rows| ==> rows[j].row.activeAt <= rows[i].row.activeAt)
  }

  /** What a server keeps: the keys that may still sign, and every published public key. */
  datatype KeySet = KeySet(keys: seq<Listed>, jwks: map<Kid, PublicKey>)

  function SigningKey(keys: seq<Listed>, t: Time): Option<Kid>
    decreases |keys|
  {
    if keys == [] then None
    else if CanSign(keys[0].row, t) then Some(keys[0].kid)
    else SigningKey(keys[1..], t)
  }

  /** A set loaded from `table` at `t`. */
  ghost predicate IsLoaded(s: KeySet, table: Table, t: Time) {
    && (forall i :: 0 <= i < |s.keys| ==>
          s.keys[i].kid in table && s.keys[i].row == table[s.keys[i].kid] && Unretired(s.keys[i].row, t))
    && (forall k :: k in table && Unretired(table[k], t) ==> Listed(k, table[k]) in s.keys)
    && (forall i, j :: 0 <= i < j < |s.keys| ==> s.keys[j].row.activeAt <= s.keys[i].row.activeAt)
    && (forall k :: k in s.jwks <==> k in table && Published(table[k], t))
    && (forall k :: k in s.jwks ==> s.jwks[k] == table[k].public)
  }

  // ---- Changing ----

  predicate Pending(table: Table, t: Time) {
    exists k :: k in table && Published(table[k], t) && t < table[k].activeAt
  }

  /** The newest signing key is old enough, or there is none. */
  predicate Due(table: Table, t: Time) {
    forall k :: k in table && CanSign(table[k], t) ==> ROTATION_INTERVAL <= t - table[k].activeAt
  }

  function RetireAllExcept(table: Table, keep: Kid, at: Time): Table {
    map k | k in table ::
      if k != keep && (table[k].retiredAt.None? || at < table[k].retiredAt.value)
      then table[k].(retiredAt := Some(at)) else table[k]
  }

  function Rotate(table: Table, kid: Kid, public: PublicKey, t: Time): Table {
    if Pending(table, t) || !Due(table, t) then table
    else RetireAllExcept(table[kid := Row(public, t + PREPUBLICATION, None)], kid, t + PREPUBLICATION)
  }

  /** A key signing right away, if none can. */
  function Ensure(table: Table, kid: Kid, public: PublicKey, t: Time): Table {
    if exists k :: k in table && Signs(table, k, t) then table
    else table[kid := Row(public, t, None)]
  }

  function PurgeKeys(table: Table, t: Time): Table {
    map k | k in table && !Before(table[k].retiredAt, t - RETIRED_KEY_RETENTION) :: table[k]
  }

  // ---- The table as the server works on it ----

  /** Where the key that signs is listed: nothing before it can sign, and with none nothing can. */
  lemma {:induction false} SigningKeyAt(keys: seq<Listed>, t: Time) returns (i: nat)
    ensures var k := SigningKey(keys, t);
      if k.Some? then i < |keys| && keys[i].kid == k.value && CanSign(keys[i].row, t) && NoneSigns(keys[..i], t)
      else NoneSigns(keys, t)
    decreases |keys|
  {
    i := 0;
    if keys != [] && !CanSign(keys[0].row, t) {
      var j := SigningKeyAt(keys[1..], t);
      i := j + 1;
      if SigningKey(keys, t).Some? {
        assert keys[..i] == [keys[0]] + keys[1..][..j];
      } else {
        assert keys == [keys[0]] + keys[1..];
      }
    }
  }

  predicate NoneSigns(keys: seq<Listed>, t: Time) {
    forall i :: 0 <= i < |keys| ==> !CanSign(keys[i].row, t)
  }

  /** The first listed key that can sign is chosen, and none exactly if none can. */
  lemma SigningKeyIsFirst(keys: seq<Listed>, t: Time)
    ensures var k := SigningKey(keys, t);
      && (k.Some? <==> exists i :: 0 <= i < |keys| && CanSign(keys[i].row, t))
      && (k.Some? ==> exists i :: 0 <= i < |keys| && keys[i].kid == k.value && CanSign(keys[i].row, t) &&
                        NoneSigns(keys[..i], t))
  {
    var i := SigningKeyAt(keys, t);
  }

  /** `rest` is still to be listed, and is older than what is. */
  ghost predicate ListedSoFar(list: seq<Listed>, rest: set<Kid>, table: Table, t: Time) {
    && (forall k :: k in rest ==> k in table && Published(table[k], t))
    && (forall i :: 0 <= i < |list| ==>
          list[i].kid in table && list[i].row == table[list[i].kid] && Published(list[i].row, t))
    && (forall k :: k in table && Published(table[k], t) ==> k in rest || Listed(k, table[k]) in list)
    && (forall i, k :: 0 <= i < |list| && k in rest ==> table[k].activeAt <= list[i].row.activeAt)
    && (forall i, j :: 0 <= i < j < |list| ==> list[j].row.activeAt <= list[i].row.activeAt)
  }

  lemma ListOne(list: seq<Listed>, rest: set<Kid>, table: Table, t: Time, newest: Kid)
    requires ListedSoFar(list, rest, table, t) && newest in rest
    requires forall k :: k in rest ==> table[k].activeAt <= table[newest].activeAt
    ensures ListedSoFar(list + [Listed(newest, table[newest])], rest - {newest}, table, t)
  {
    var more := list + [Listed(newest, table[newest])];
    forall k | k in table && Published(table[k], t)
      ensures k in rest - {newest} || Listed(k, table[k]) in more
    {
      if k == newest { assert more[|list|] == Listed(k, table[k]); }
    }
  }

  /** The unretired of the first `n`, in their order. */
  ghost predicate KeptSoFar(keys: seq<Listed>, list: seq<Listed>, n: nat, table: Table, t: Time)
    requires n <= |list|
  {
    && (forall j :: 0 <= j < |keys| ==>
          keys[j].kid in table && keys[j].row == table[keys[j].kid] && Unretired(keys[j].row, t))
    && (forall j :: 0 <= j < n && Unretired(list[j].row, t) ==> list[j] in keys)
    && NewestFirst(keys) && (n < |list| ==> AllNewer(keys, list[n].row))
  }

  ghost predicate NewestFirst(keys: seq<Listed>) {
    forall i, j :: 0 <= i < j < |keys| ==> keys[j].row.activeAt <= keys[i].row.activeAt
  }

  ghost predicate AllNewer(keys: seq<Listed>, row: Row) {
    forall j :: 0 <= j < |keys| ==> row.activeAt <= keys[j].row.activeAt
  }

  lemma AppendOlder(keys: seq<Listed>, x: Listed, next: Row)
    requires NewestFirst(keys) && AllNewer(keys, x.row) && next.activeAt <= x.row.activeAt
    ensures NewestFirst(keys + [x]) && AllNewer(keys + [x], next) && AllNewer(keys, next)
  {
  }

  lemma KeepNone(list: seq<Listed>, table: Table, t: Time)
    ensures KeptSoFar([], list, 0, table, t)
  {
  }

  lemma KeepOne(keys: seq<Listed>, list: seq<Listed>, n: nat, table: Table, t: Time)
    requires n < |list| && IsListing(list, table, t) && KeptSoFar(keys, list, n, table, t)
    ensures KeptSoFar(if Unretired(list[n].row, t) then keys + [list[n]] else keys, list, n + 1, table, t)
  {
    var more := keys + [list[n]];
    AppendOlder(keys, list[n], if n + 1 < |list| then list[n + 1].row else list[n].row);
    assert forall x :: x in more <==> x in keys || x == list[n];
    hide NewestFirst; hide AllNewer; hide Unretired;
    var kept := if Unretired(list[n].row, t) then more else keys;
    forall j | 0 <= j < n + 1 && Unretired(list[j].row, t)
      ensures list[j] in kept
    {
      if j < n { assert list[j] in keys; }
    }
  }

  lemma KeptAreLoaded(list: seq<Listed>, s: KeySet, table: Table, t: Time)
    requires IsListing(list, table, t) && KeptSoFar(s.keys, list, |list|, table, t)
    requires s.jwks == map k | k in table && Published(table[k], t) :: table[k].public
    ensures IsLoaded(s, table, t)
  {
    forall k | k in table && Unretired(table[k], t)
      ensures Listed(k, table[k]) in s.keys
    {
      assert Listed(k, table[k]) in list;
    }
  }

  class KeyTable {
    var rows: Table

    constructor ()
      ensures rows == map[]
    {
      rows := map[];
    }

    /** Picks the newest remaining key until none is left. */
    method ListPublished(now: Time) returns (list: seq<Listed>)
      ensures IsListing(list, rows, now)
    {
      list := [];
      var rest := set k | k in rows && Published(rows[k], now);
      while rest != {}
        invariant ListedSoFar(list, rest, rows, now)
        decreases |rest|
      {
        var newest := Newest(rest);
        ListOne(list, rest, rows, now, newest);
        list := list + [Listed(newest, rows[newest])];
        rest := rest - {newest};
      }
    }

    method Newest(from: set<Kid>) returns (newest: Kid)
      requires from != {} && forall k :: k in from ==> k in rows
      ensures newest in from && forall k :: k in from ==> rows[k].activeAt <= rows[newest].activeAt
    {
      newest :| newest in from;
      var rest := from - {newest};
      while rest != {}
        invariant newest in from && rest <= from
        invariant forall k :: k in from && k !in rest ==> rows[k].activeAt <= rows[newest].activeAt
        decreases |rest|
      {
        var k :| k in rest;
        if rows[newest].activeAt < rows[k].activeAt { newest := k; }
        rest := rest - {k};
      }
    }

    /** Keeps the published keys that may still sign, in the order they were listed. */
    method Load(now: Time) returns (s: KeySet)
      ensures IsLoaded(s, rows, now)
    {
      hide IsListing; hide KeptSoFar; hide IsLoaded;
      var list := ListPublished(now);
      var keys: seq<Listed> := [];
      KeepNone(list, rows, now);
      for i := 0 to |list|
        invariant KeptSoFar(keys, list, i, rows, now)
      {
        KeepOne(keys, list, i, rows, now);
        if list[i].row.retiredAt.None? || now < list[i].row.retiredAt.value {
          keys := keys + [list[i]];
        }
      }
      s := KeySet(keys, map k | k in rows && Published(rows[k], now) :: rows[k].public);
      KeptAreLoaded(list, s, rows, now);
    }

    method EnsureAndLoad(kid: Kid, public: PublicKey, now: Time) returns (s: KeySet)
      requires kid !in rows
      modifies this
      ensures rows == Ensure(old(rows), kid, public, now)
      ensures IsLoaded(s, rows, now)
    {
      s := Load(now);
      SigningKeyIsFirst(s.keys, now);
      if SigningKey(s.keys, now).None? {
        forall k | k in rows && Unretired(rows[k], now)
          ensures !CanSign(rows[k], now)
        {
          assert Listed(k, rows[k]) in s.keys;
        }
        rows := rows[kid := Row(public, now, None)];
        s := Load(now);
      } else {
        var i :| 0 <= i < |s.keys| && CanSign(s.keys[i].row, now);
        assert Signs(rows, s.keys[i].kid, now);
      }
    }

    /** `locked`: this instance got the rotation lock. */
    method RotateIfDue(locked: bool, kid: Kid, public: PublicKey, now: Time) returns (created: Option<Kid>)
      requires kid !in rows
      modifies this
      ensures rows == (if locked then Rotate(old(rows), kid, public, now) else old(rows))
      ensures created.Some? <==> locked && !Pending(old(rows), now) && Due(old(rows), now)
    {
      if !locked { return None; }
      var list := ListPublished(now);
      var pending := exists i :: 0 <= i < |list| && now < list[i].row.activeAt;
      var current := SigningKey(list, now);
      DueIsDecidedByTheFirst(list, rows, now);
      PendingIsListed(list, rows, now);
      var due := current.None? || ROTATION_INTERVAL <= now - rows[current.value].activeAt;
      if pending || !due { return None; }
      rows := rows[kid := Row(public, now + PREPUBLICATION, None)];
      rows := RetireAllExcept(rows, kid, now + PREPUBLICATION);
      created := Some(kid);
    }
  }

  lemma PendingIsListed(list: seq<Listed>, table: Table, t: Time)
    requires IsListing(list, table, t)
    ensures Pending(table, t) <==> exists i :: 0 <= i < |list| && t < list[i].row.activeAt
  {
    if k :| k in table && Published(table[k], t) && t < table[k].activeAt {
      assert Listed(k, table[k]) in list;
    }
  }

  /** Listed newest first, the first key that can sign is the newest that can. */
  lemma FirstIsNewest(list: seq<Listed>, t: Time, other: Listed)
    requires forall i, j :: 0 <= i < j < |list| ==> list[j].row.activeAt <= list[i].row.activeAt
    requires other in list && CanSign(other.row, t)
    ensures SigningKey(list, t).Some?
    ensures exists i :: 0 <= i < |list| && list[i].kid == SigningKey(list, t).value && CanSign(list[i].row, t) &&
                        other.row.activeAt <= list[i].row.activeAt
  {
    var j :| 0 <= j < |list| && list[j] == other;
    var i := SigningKeyAt(list, t);
    assert SigningKey(list, t).Some?;
    assert forall m :: 0 <= m < |list[..i]| ==> list[..i][m] == list[m];
  }

  /** The age of that one key decides whether rotation is due. */
  lemma DueIsDecidedByTheFirst(list: seq<Listed>, table: Table, t: Time)
    requires IsListing(list, table, t)
    ensures var current := SigningKey(list, t);
      (current.Some? ==> current.value in table) &&
      (Due(table, t) <==> current.None? || ROTATION_INTERVAL <= t - table[current.value].activeAt)
  {
    var i := SigningKeyAt(list, t);
    forall k | k in table && CanSign(table[k], t)
      ensures SigningKey(list, t).Some? && table[k].activeAt <= table[SigningKey(list, t).value].activeAt
    {
      FirstIsNewest(list, t, Listed(k, table[k]));
    }
  }

  /** From then on a loaded set signs with the newest key of its table that can sign at that moment, and
      with none exactly if none can. */
  lemma LoadedSignsWithTheNewest(s: KeySet, table: Table, loaded: Time, t: Time)
    requires IsLoaded(s, table, loaded) && loaded <= t
    ensures var k := SigningKey(s.keys, t);
      && (k.Some? <==> exists a :: a in table && Signs(table, a, t))
      && (k.Some? ==>
            Signs(table, k.value, t) && forall a :: Signs(table, a, t) ==> table[a].activeAt <= table[k.value].activeAt)
  {
    var i := SigningKeyAt(s.keys, t);
    forall a | Signs(table, a, t)
      ensures SigningKey(s.keys, t).Some? && SigningKey(s.keys, t).value in table
      ensures table[a].activeAt <= table[SigningKey(s.keys, t).value].activeAt
    {
      assert Unretired(table[a], loaded);
      FirstIsNewest(s.keys, t, Listed(a, table[a]));
    }
    if SigningKey(s.keys, t).Some? { assert Signs(table, s.keys[i].kid, t); }
  }
}
