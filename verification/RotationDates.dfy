/** When keys change: which runs of the rotation job schedule a key, how old a signing key gets, and how long a key
    stays published. */
module RotationDates {
  import opened Base
  import opened SigningKeys
  import opened KeyWindows

  // ---- One run of the job ----

  /** In any reachable state, a run of the job that has the lock schedules a key exactly if none is waiting to start
      and the signing one started at least 30 days ago. The new key starts in 24 hours, when the old one stops. */
  lemma RotatesIff(public: PublicKey, start: Time, steps: seq<KeyStep>, generated: PublicKey, signer: Kid)
    requires var w := KeyRun(Boot(public, start), steps); Signs(w.table, signer, w.now)
    ensures var w := KeyRun(Boot(public, start), steps);
      var v := KeyApply(w, RunRotate(true, generated));
      && (w.next in v.table <==>
            (forall k :: k in w.table ==> w.table[k].activeAt <= w.now) &&
            30 * DAY <= w.now - w.table[signer].activeAt)
      && (w.next in v.table ==>
            v.table == w.table[signer := w.table[signer].(retiredAt := Some(w.now + 24 * HOUR))]
                              [w.next := Row(generated, w.now + 24 * HOUR, None)])
      && (w.next !in v.table ==> v.table == w.table)
      && KeyApply(w, RunRotate(false, generated)) == w
  {
    hide KeyRun;
    KeysAlways(public, start, steps);
    var w := KeyRun(Boot(public, start), steps);
    PendingIff(w);
    assert forall k :: Signs(w.table, k, w.now) ==> k == signer;
    assert Due(w.table, w.now) <==> 30 * DAY <= w.now - w.table[signer].activeAt by {
      if Due(w.table, w.now) { assert CanSign(w.table[signer], w.now); }
      assert forall k :: k in w.table && CanSign(w.table[k], w.now) ==> Signs(w.table, k, w.now);
    }
    if !Pending(w.table, w.now) && Due(w.table, w.now) { RotateShape(w, generated, signer); }
    NextIsNew(w);
  }

  lemma NextIsNew(w: KeyWorld)
    requires KeyInv(w)
    ensures w.next !in w.table
  {
  }

  lemma RetiredHaveStarted(w: KeyWorld)
    requires KeyInv(w)
    ensures forall k :: Retired(w.table, k) ==> w.table[k].activeAt <= w.now
  {
    forall k | Retired(w.table, k)
      ensures w.table[k].activeAt <= w.now
    {
      var b :| TakesOver(w.table, b, k);
    }
  }

  /** A key that has not started yet is published. */
  lemma PendingIff(w: KeyWorld)
    requires KeyInv(w)
    ensures Pending(w.table, w.now) <==> exists k :: k in w.table && w.now < w.table[k].activeAt
  {
    RetiredHaveStarted(w);
    if k :| k in w.table && w.now < w.table[k].activeAt {
      assert !Retired(w.table, k);
      assert Published(w.table[k], w.now);
    }
  }

  // ---- A job that runs often enough ----

  /** How long ago a run of the job last had the lock, if it was `idle` ago before the step. */
  function NextIdle(idle: nat, step: KeyStep): nat {
    match step
    case Wait(elapsed) => idle + elapsed
    case RunRotate(locked, _) => if locked then 0 else idle
    case _ => idle
  }

  function Idle(idle: nat, steps: seq<KeyStep>): nat
    decreases |steps|
  {
    if steps == [] then idle else Idle(NextIdle(idle, steps[0]), steps[1..])
  }

  /** Never more than `gap` passes without such a run. */
  predicate Regular(idle: nat, steps: seq<KeyStep>, gap: nat)
    decreases |steps|
  {
    idle <= gap && (steps == [] || Regular(NextIdle(idle, steps[0]), steps[1..], gap))
  }

  ghost predicate IsLast(table: Table, k: Kid) {
    k in table && forall a :: a in table ==> a <= k
  }

  /** The newest key was under 30 days old when the job last had the lock, and each handover came within 31 days and
      the gap. */
  ghost predicate Timely(w: KeyWorld, idle: nat, gap: nat) {
    && (forall k :: IsLast(w.table, k) ==> w.now - idle - w.table[k].activeAt < 30 * DAY)
    && HandoversWithin(w.table, gap)
  }

  ghost predicate HandoversWithin(table: Table, gap: nat) {
    forall a, b :: a in table && TakesOver(table, b, a) ==> table[b].activeAt - table[a].activeAt < 31 * DAY + gap
  }

  lemma LastIsOpen(w: KeyWorld, k: Kid)
    requires KeyInv(w) && k in w.table
    ensures IsLast(w.table, k) <==> w.table[k].retiredAt.None?
  {
    if Retired(w.table, k) { var b :| TakesOver(w.table, b, k); }
  }

  lemma PurgeKeepsTimely(w: KeyWorld, idle: nat, gap: nat)
    requires KeyInv(w) && Timely(w, idle, gap)
    ensures Timely(KeyApply(w, RunPurge), idle, gap)
  {
    var v := KeyApply(w, RunPurge);
    PurgeKeepsWindows(w);
    forall k | IsLast(v.table, k)
      ensures IsLast(w.table, k)
    {
      LastIsOpen(v, k);
      LastIsOpen(w, k);
    }
    forall a, b | a in v.table && TakesOver(v.table, b, a)
      ensures v.table[b].activeAt - v.table[a].activeAt < 31 * DAY + gap
    {
      assert TakesOver(w.table, b, a);
    }
  }

  lemma RotateKeepsTimely(w: KeyWorld, generated: PublicKey, idle: nat, gap: nat)
    requires KeyInv(w) && Timely(w, idle, gap) && idle <= gap
    ensures Timely(KeyApply(w, RunRotate(true, generated)), 0, gap)
  {
    var v := KeyApply(w, RunRotate(true, generated));
    if Pending(w.table, w.now) {
      var k :| k in w.table && Published(w.table[k], w.now) && w.now < w.table[k].activeAt;
      assert forall n :: IsLast(w.table, n) ==> n == k;
    } else if !Due(w.table, w.now) {
      var k :| k in w.table && CanSign(w.table[k], w.now) && w.now - w.table[k].activeAt < ROTATION_INTERVAL;
      assert forall n :: IsLast(w.table, n) ==> n == k;
    } else {
      var k :| Signs(w.table, k, w.now);
      RotateShape(w, generated, k);
      SignerIsLast(w, k);
      LastIsOpen(w, k);
      HandoverIsTimely(w, v, k, generated, gap);
    }
  }

  lemma HandoverIsTimely(w: KeyWorld, v: KeyWorld, k: Kid, generated: PublicKey, gap: nat)
    requires k in w.table && w.now - w.table[k].activeAt < 30 * DAY + gap && (forall a :: a in w.table ==> a < w.next)
    requires forall a :: a in w.table && a != k ==> w.table[a].retiredAt.Some? && w.table[a].retiredAt.value <= w.now
    requires HandoversWithin(w.table, gap) && v.now == w.now
    requires v.table == w.table[k := w.table[k].(retiredAt := Some(w.now + PREPUBLICATION))]
                               [w.next := Row(generated, w.now + PREPUBLICATION, None)]
    ensures Timely(v, 0, gap)
  {
    hide IsLast; hide TakesOver; hide HandoversWithin;
    LastAfter(w.table, v.table, w.next);
    assert forall n :: IsLast(v.table, n) ==> v.now - v.table[n].activeAt < 30 * DAY;
    HandoversAfter(w.table, v.table, w.next, w.now, k, generated, gap);
  }

  lemma HandoversAfter(before: Table, after: Table, next: Kid, now: Time, k: Kid, generated: PublicKey, gap: nat)
    requires k in before && next !in before && now - before[k].activeAt < 30 * DAY + gap
    requires after == before[k := before[k].(retiredAt := Some(now + PREPUBLICATION))]
                            [next := Row(generated, now + PREPUBLICATION, None)]
    requires forall a :: a in before && a != k ==> before[a].retiredAt.Some? && before[a].retiredAt.value <= now
    requires HandoversWithin(before, gap)
    ensures HandoversWithin(after, gap)
  {
    forall a, b | a in after && TakesOver(after, b, a)
      ensures after[b].activeAt - after[a].activeAt < 31 * DAY + gap
    {
      OneHandover(before, after, next, now, k, generated, gap, a, b);
    }
  }

  /** The new key is the last. */
  lemma LastAfter(before: Table, after: Table, next: Kid)
    requires (forall a :: a in before ==> a < next) && after.Keys == before.Keys + {next}
    ensures forall n :: IsLast(after, n) ==> n == next
  {
    assert next in after;
  }

  lemma OneHandover(before: Table, after: Table, next: Kid, now: Time, k: Kid, generated: PublicKey, gap: nat, a: Kid,
                    b: Kid)
    requires k in before && next !in before && now - before[k].activeAt < 30 * DAY + gap
    requires after == before[k := before[k].(retiredAt := Some(now + PREPUBLICATION))]
                            [next := Row(generated, now + PREPUBLICATION, None)]
    requires a in before && a != k ==> before[a].retiredAt.Some? && before[a].retiredAt.value <= now
    requires a in before && TakesOver(before, b, a) ==> before[b].activeAt - before[a].activeAt < 31 * DAY + gap
    requires a in after && TakesOver(after, b, a)
    ensures after[b].activeAt - after[a].activeAt < 31 * DAY + gap
  {
  }

  lemma {:induction false} RunKeepsTimely(w: KeyWorld, steps: seq<KeyStep>, idle: nat, gap: nat)
    requires KeyInv(w) && Timely(w, idle, gap) && Regular(idle, steps, gap)
    ensures Timely(KeyRun(w, steps), Idle(idle, steps), gap) && Idle(idle, steps) <= gap
    decreases |steps|
  {
    hide KeyInv; hide Timely; hide KeyApply;
    if steps != [] {
      KeyStepKeeps(w, steps[0]);
      StepKeepsTimely(w, steps[0], idle, gap);
      RunKeepsTimely(KeyApply(w, steps[0]), steps[1..], NextIdle(idle, steps[0]), gap);
    }
  }

  lemma StepKeepsTimely(w: KeyWorld, step: KeyStep, idle: nat, gap: nat)
    requires KeyInv(w) && Timely(w, idle, gap) && idle <= gap
    ensures Timely(KeyApply(w, step), NextIdle(idle, step), gap)
  {
    hide KeyInv; hide Timely; hide KeyApply;
    match step
    case Wait(elapsed) => WaitKeepsTimely(w, elapsed, idle, gap);
    case RunRotate(locked, generated) =>
      if locked { RotateKeepsTimely(w, generated, idle, gap); } else { UnlockedChangesNothing(w, generated); }
    case RunPurge => PurgeKeepsTimely(w, idle, gap);
    case RunEnsure(public) => EnsureKeepsTimely(w, public, idle, gap);
  }

  lemma WaitKeepsTimely(w: KeyWorld, elapsed: nat, idle: nat, gap: nat)
    requires Timely(w, idle, gap)
    ensures Timely(KeyApply(w, Wait(elapsed)), idle + elapsed, gap)
  {
  }

  lemma UnlockedChangesNothing(w: KeyWorld, generated: PublicKey)
    ensures KeyApply(w, RunRotate(false, generated)) == w
  {
  }

  lemma EnsureKeepsTimely(w: KeyWorld, public: PublicKey, idle: nat, gap: nat)
    requires KeyInv(w) && Timely(w, idle, gap)
    ensures Timely(KeyApply(w, RunEnsure(public)), idle, gap)
  {
  }

  /** From the first start on, if never more than `gap` passes between two runs of the job that have the lock, the
      key that signs is at every moment less than 31 days and `gap` old. */
  lemma KeysAreReplaced(public: PublicKey, start: Time, steps: seq<KeyStep>, gap: nat, signer: Kid)
    requires Regular(0, steps, gap)
    requires var w := KeyRun(Boot(public, start), steps); Signs(w.table, signer, w.now)
    ensures var w := KeyRun(Boot(public, start), steps); w.now - w.table[signer].activeAt < 31 * DAY + gap
  {
    hide KeyRun;
    KeysAlways(public, start, []);
    NoSteps(Boot(public, start));
    RunKeepsTimely(Boot(public, start), steps, 0, gap);
    KeysAlways(public, start, steps);
    var w := KeyRun(Boot(public, start), steps);
    LastIsOpen(w, signer);
    if Retired(w.table, signer) { var b :| TakesOver(w.table, b, signer); }
  }

  lemma NoSteps(w: KeyWorld)
    ensures KeyRun(w, []) == w
  {
  }

  // ---- Published keys ----

  /** A key that was there, and was to stop or had stopped at `end`, is in the set loaded after any further run exactly
      until 24 hours after that; and one with no end yet for two days at least. */
  lemma PublishedUntil(public: PublicKey, start: Time, before: seq<KeyStep>, since: seq<KeyStep>, k: Kid, s: KeySet)
    requires k in KeyRun(Boot(public, start), before).table
    requires var later := KeyRun(KeyRun(Boot(public, start), before), since); IsLoaded(s, later.table, later.now)
    ensures var first := KeyRun(Boot(public, start), before); var later := KeyRun(first, since);
      && (first.table[k].retiredAt.Some? ==>
            (k in s.jwks <==> later.now < first.table[k].retiredAt.value + 24 * HOUR))
      && (first.table[k].retiredAt.None? && later.now < first.now + 48 * HOUR ==> k in s.jwks)
      && (k in s.jwks ==> s.jwks[k] == first.table[k].public)
  {
    hide KeyRun; hide KeyInv;
    var first := KeyRun(Boot(public, start), before);
    KeysAlways(public, start, before);
    AgedSelf(first);
    RunAges(first, first, since);
    var later := KeyRun(first, since);
    if k in later.table { assert RowAged(first.table[k], later.table[k], first.now); }
  }

  /** The purge takes exactly the keys that stopped more than 30 days ago. */
  lemma PurgedIff(w: KeyWorld, k: Kid)
    requires k in w.table
    ensures var v := KeyApply(w, RunPurge);
      && (k !in v.table <==> w.table[k].retiredAt.Some? && 30 * DAY < w.now - w.table[k].retiredAt.value)
      && (k in v.table ==> v.table[k] == w.table[k])
  {
  }
}
