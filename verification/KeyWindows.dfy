/** From an empty table on, the signing windows tile time, and what a server or an API holds in memory
    agrees with the table. */
module KeyWindows {
  import opened Base
  import opened SigningKeys

  datatype KeyWorld = KeyWorld(table: Table, next: Kid, now: Time)

  /** The background jobs, in any order at any time. `public` is the generated key. */
  datatype KeyStep =
    | Wait(elapsed: nat)
    | RunEnsure(public: PublicKey)
    | RunRotate(locked: bool, generated: PublicKey)
    | RunPurge

  function KeyApply(w: KeyWorld, a: KeyStep): KeyWorld {
    match a
    case Wait(elapsed) => w.(now := w.now + elapsed)
    case RunEnsure(public) => KeyWorld(Ensure(w.table, w.next, public, w.now), w.next + 1, w.now)
    case RunRotate(locked, public) =>
      if locked then KeyWorld(Rotate(w.table, w.next, public, w.now), w.next + 1, w.now) else w
    case RunPurge => w.(table := PurgeKeys(w.table, w.now))
  }

  function KeyRun(w: KeyWorld, steps: seq<KeyStep>): KeyWorld
    decreases |steps|
  {
    if steps == [] then w else KeyRun(KeyApply(w, steps[0]), steps[1..])
  }

  /** The first start: `ensure_and_load` on an empty table. */
  function Boot(public: PublicKey, now: Time): KeyWorld {
    KeyApply(KeyWorld(map[], 0, now), RunEnsure(public))
  }

  // ---- The invariant ----

  /** Identifiers grow with the windows: an older key is retired no later than a newer one starts, at
      least 31 days after its own start. */
  ghost predicate Chained(table: Table) {
    forall a, b :: a in table && b in table && a < b ==>
      table[a].retiredAt.Some? && table[a].retiredAt.value <= table[b].activeAt &&
      table[a].activeAt + ROTATION_INTERVAL + PREPUBLICATION <= table[b].activeAt
  }

  predicate Retired(table: Table, a: Kid) {
    a in table && table[a].retiredAt.Some?
  }

  predicate TakesOver(table: Table, b: Kid, a: Kid)
    requires a in table
  {
    b in table && a < b && table[a].retiredAt == Some(table[b].activeAt)
  }

  /** A retired key hands over to another at the very instant it stops. */
  ghost predicate HandsOver(table: Table) {
    forall a :: Retired(table, a) ==> exists b :: TakesOver(table, b, a)
  }

  ghost predicate Scheduled(table: Table, next: Kid, now: Time) {
    forall k :: k in table ==> k < next && table[k].activeAt <= now + PREPUBLICATION
  }

  ghost predicate KeyInv(w: KeyWorld) {
    Chained(w.table) && HandsOver(w.table) && Scheduled(w.table, w.next, w.now) &&
    exists k :: Signs(w.table, k, w.now)
  }

  // ---- Tiling ----

  lemma OneSigner(table: Table, a: Kid, b: Kid, t: Time)
    requires Chained(table) && Signs(table, a, t) && Signs(table, b, t)
    ensures a == b
  {
  }

  /** Once some key is active, some key can sign at every later instant: follow the handovers. */
  lemma {:induction false} SomeSigner(table: Table, next: Kid, now: Time, a: Kid, t: Time) returns (k: Kid)
    requires HandsOver(table) && Scheduled(table, next, now) && a in table && table[a].activeAt <= t
    ensures Signs(table, k, t)
    decreases next - a
  {
    if CanSign(table[a], t) {
      k := a;
    } else {
      assert Retired(table, a);
      var b :| TakesOver(table, b, a);
      k := SomeSigner(table, next, now, b, t);
    }
  }

  lemma WaitKeeps(w: KeyWorld, elapsed: nat)
    requires KeyInv(w)
    ensures KeyInv(w.(now := w.now + elapsed))
  {
    var a :| Signs(w.table, a, w.now);
    var k := SomeSigner(w.table, w.next, w.now, a, w.now + elapsed);
  }

  /** A purged key was not signing, and none that is left hands over to it. */
  lemma PurgeKeepsWindows(w: KeyWorld)
    requires KeyInv(w)
    ensures KeyInv(w.(table := PurgeKeys(w.table, w.now)))
  {
    var after := PurgeKeys(w.table, w.now);
    forall a | Retired(after, a)
      ensures exists b :: TakesOver(after, b, a)
    {
      assert Retired(w.table, a);
      var b :| TakesOver(w.table, b, a);
      if Retired(w.table, b) {
        var c :| TakesOver(w.table, c, b);
      }
      assert TakesOver(after, b, a);
    }
    var k :| Signs(w.table, k, w.now);
    assert Signs(after, k, w.now);
  }

  /** With nothing pending, the key that signs is the only one not yet retired. */
  lemma SignerIsLast(w: KeyWorld, k: Kid)
    requires KeyInv(w) && !Pending(w.table, w.now) && Signs(w.table, k, w.now)
    ensures w.table[k].retiredAt.None?
    ensures forall a :: a in w.table && a != k ==>
              a < k && w.table[a].retiredAt.Some? && w.table[a].retiredAt.value <= w.now
  {
    if Retired(w.table, k) { SuccessorIsPending(w, k); }
  }

  lemma SuccessorIsPending(w: KeyWorld, k: Kid)
    requires KeyInv(w) && Signs(w.table, k, w.now) && Retired(w.table, k)
    ensures Pending(w.table, w.now)
  {
    var b :| TakesOver(w.table, b, k);
    assert forall c: Kid :: c in w.table ==> c <= b;
    assert !Retired(w.table, b);
    assert Published(w.table[b], w.now);
  }

  lemma RotateShape(w: KeyWorld, public: PublicKey, k: Kid)
    requires KeyInv(w) && !Pending(w.table, w.now) && Due(w.table, w.now) && Signs(w.table, k, w.now)
    ensures Rotate(w.table, w.next, public, w.now) ==
      w.table[k := w.table[k].(retiredAt := Some(w.now + PREPUBLICATION))]
             [w.next := Row(public, w.now + PREPUBLICATION, None)]
  {
    SignerIsLast(w, k);
  }

  lemma RotateKeeps(w: KeyWorld, public: PublicKey)
    requires KeyInv(w)
    ensures KeyInv(KeyWorld(Rotate(w.table, w.next, public, w.now), w.next + 1, w.now))
  {
    if !Pending(w.table, w.now) && Due(w.table, w.now) {
      var k :| Signs(w.table, k, w.now);
      RotateShape(w, public, k);
      SignerIsLast(w, k);
      var after := Rotate(w.table, w.next, public, w.now);
      AppendKeeps(w, public, k, after);
    }
  }

  lemma AppendKeeps(w: KeyWorld, public: PublicKey, k: Kid, after: Table)
    requires KeyInv(w) && Signs(w.table, k, w.now) && ROTATION_INTERVAL <= w.now - w.table[k].activeAt
    requires w.table[k].retiredAt.None? && forall a :: a in w.table && a != k ==> a < k
    requires after == w.table[k := w.table[k].(retiredAt := Some(w.now + PREPUBLICATION))]
                             [w.next := Row(public, w.now + PREPUBLICATION, None)]
    ensures KeyInv(KeyWorld(after, w.next + 1, w.now))
  {
    forall a | Retired(after, a)
      ensures exists b :: TakesOver(after, b, a)
    {
      if a == k {
        assert TakesOver(after, w.next, k);
      } else {
        assert Retired(w.table, a);
        var b :| TakesOver(w.table, b, a);
        assert TakesOver(after, b, a);
      }
    }
    assert Signs(after, k, w.now);
  }

  lemma KeyStepKeeps(w: KeyWorld, a: KeyStep)
    requires KeyInv(w)
    ensures KeyInv(KeyApply(w, a))
  {
    hide Rotate; hide PurgeKeys;
    match a
    case Wait(elapsed) => WaitKeeps(w, elapsed);
    case RunEnsure(public) =>
    case RunRotate(locked, public) => RotateKeeps(w, public);
    case RunPurge => PurgeKeepsWindows(w);
  }

  lemma {:induction false} KeyRunKeeps(w: KeyWorld, steps: seq<KeyStep>)
    requires KeyInv(w)
    ensures KeyInv(KeyRun(w, steps))
    decreases |steps|
  {
    hide KeyInv; hide KeyApply;
    if steps != [] {
      KeyStepKeeps(w, steps[0]);
      KeyRunKeeps(KeyApply(w, steps[0]), steps[1..]);
    }
  }

  lemma KeysAlways(public: PublicKey, start: Time, steps: seq<KeyStep>)
    ensures KeyInv(KeyRun(Boot(public, start), steps))
  {
    assert Signs(Boot(public, start).table, 0, start);
    KeyRunKeeps(Boot(public, start), steps);
  }

  /** Exactly one key signs at every instant from now on, at most one is pending, handovers are at least
      31 days apart and at most two keys are published. */
  lemma WindowsTileTime(public: PublicKey, start: Time, steps: seq<KeyStep>, t: Time)
    requires KeyRun(Boot(public, start), steps).now <= t
    ensures var w := KeyRun(Boot(public, start), steps);
      && (exists k :: Signs(w.table, k, t))
      && (forall a, b :: Signs(w.table, a, t) && Signs(w.table, b, t) ==> a == b)
      && (forall a, b :: a in w.table && b in w.table && w.now < w.table[a].activeAt && w.now < w.table[b].activeAt
            ==> a == b)
      && (forall a, b ::
          a in w.table && b in w.table && a < b ==> w.table[a].activeAt + 31 * DAY <= w.table[b].activeAt)
      && (forall a, b, c :: a in w.table && b in w.table && c in w.table && a < b < c ==>
            !Published(w.table[a], w.now))
  {
    hide KeyRun;
    KeysAlways(public, start, steps);
    var w := KeyRun(Boot(public, start), steps);
    var a :| Signs(w.table, a, w.now);
    var k := SomeSigner(w.table, w.next, w.now, a, t);
  }

  // ---- A table read earlier, compared with the table now ----

  /** How a row read at `readAt` may have changed since: only an open end may have been set, a full
      prepublication period ahead. */
  predicate RowAged(before: Row, after: Row, readAt: Time) {
    after.public == before.public && after.activeAt == before.activeAt &&
    (before.retiredAt.Some? ==> after.retiredAt == before.retiredAt) &&
    (before.retiredAt.None? && after.retiredAt.Some? ==> readAt + PREPUBLICATION <= after.retiredAt.value)
  }

  predicate RowGone(before: Row, readAt: Time, now: Time) {
    (if before.retiredAt.Some? then before.retiredAt.value else readAt + PREPUBLICATION) < now - RETIRED_KEY_RETENTION
  }

  ghost predicate Aged(first: KeyWorld, later: KeyWorld) {
    && first.now <= later.now && first.next <= later.next && (forall k :: k in first.table ==> k < first.next)
    && (forall k :: k in first.table && k in later.table ==> RowAged(first.table[k], later.table[k], first.now))
    && (forall k :: k in first.table && k !in later.table ==> RowGone(first.table[k], first.now, later.now))
    && (forall k :: k in later.table && k !in first.table ==>
          first.next <= k && first.now + PREPUBLICATION <= later.table[k].activeAt)
  }

  lemma RotateAges(first: KeyWorld, w: KeyWorld, public: PublicKey)
    requires KeyInv(w) && Aged(first, w)
    ensures Aged(first, KeyWorld(Rotate(w.table, w.next, public, w.now), w.next + 1, w.now))
  {
    if !Pending(w.table, w.now) && Due(w.table, w.now) {
      hide Rotate; hide Pending; hide Due; hide HandsOver; hide Chained;
      var k :| Signs(w.table, k, w.now);
      RotateShape(w, public, k);
      SignerIsLast(w, k);
    }
  }

  lemma StepAges(first: KeyWorld, w: KeyWorld, a: KeyStep)
    requires KeyInv(w) && Aged(first, w)
    ensures Aged(first, KeyApply(w, a))
  {
    if a.RunRotate? {
      hide Aged; hide KeyInv;
      RotateAges(first, w, a.generated);
    } else {
      hide HandsOver; hide Chained; hide Scheduled;
    }
  }

  lemma {:induction false} RunAges(first: KeyWorld, w: KeyWorld, steps: seq<KeyStep>)
    requires KeyInv(w) && Aged(first, w)
    ensures Aged(first, KeyRun(w, steps))
    decreases |steps|
  {
    hide KeyInv; hide KeyApply; hide Aged;
    if steps != [] {
      StepAges(first, w, steps[0]);
      KeyStepKeeps(w, steps[0]);
      RunAges(first, KeyApply(w, steps[0]), steps[1..]);
    }
  }

  /** A loaded set picks the one key of its table that signs at `t`. */
  lemma LoadedPicks(s: KeySet, w: KeyWorld, t: Time, k: Kid)
    requires Chained(w.table) && IsLoaded(s, w.table, w.now) && w.now <= t && Signs(w.table, k, t)
    ensures SigningKey(s.keys, t) == Some(k)
  {
    assert Listed(k, w.table[k]) in s.keys;
    SigningKeyIsFirst(s.keys, t);
    var i :| 0 <= i < |s.keys| && s.keys[i].kid == SigningKey(s.keys, t).value && CanSign(s.keys[i].row, t);
    OneSigner(w.table, s.keys[i].kid, k, t);
  }

  /** The key that signs now was already the one to sign when the table was read. */
  lemma SignerUnchanged(first: KeyWorld, later: KeyWorld, k: Kid)
    requires Aged(first, later) && Signs(later.table, k, later.now) && later.now < first.now + PREPUBLICATION
    ensures Signs(first.table, k, later.now)
  {
    if k in first.table { assert RowAged(first.table[k], later.table[k], first.now); }
  }

  /** A set loaded at some instant chooses, for a whole day, the key a fresh read of the table would
      choose, whatever rotations and purges ran in between. */
  lemma CacheRefinesTable(public: PublicKey, start: Time, before: seq<KeyStep>, since: seq<KeyStep>, early: KeySet,
                          late: KeySet)
    requires var first := KeyRun(Boot(public, start), before); IsLoaded(early, first.table, first.now)
    requires var first := KeyRun(Boot(public, start), before);
      var later := KeyRun(first, since);
      IsLoaded(late, later.table, later.now) && later.now < first.now + 24 * HOUR
    ensures var later := KeyRun(KeyRun(Boot(public, start), before), since);
      SigningKey(early.keys, later.now) == SigningKey(late.keys, later.now) &&
      SigningKey(late.keys, later.now).Some?
  {
    hide KeyRun; hide IsLoaded; hide Aged; hide Chained; hide HandsOver; hide Scheduled;
    var first := KeyRun(Boot(public, start), before);
    KeysAlways(public, start, before);
    AgedSelf(first);
    RunAges(first, first, since);
    KeyRunKeeps(first, since);
    var later := KeyRun(first, since);
    assert first.now <= later.now by { AgedTime(first, later); }
    var k :| Signs(later.table, k, later.now);
    SignerUnchanged(first, later, k);
    LoadedPicks(early, first, later.now, k);
    LoadedPicks(late, later, later.now, k);
  }

  lemma AgedSelf(w: KeyWorld)
    ensures KeyInv(w) ==> Aged(w, w)
  {
  }

  lemma AgedTime(first: KeyWorld, later: KeyWorld)
    requires Aged(first, later)
    ensures first.now <= later.now
  {
  }
}
