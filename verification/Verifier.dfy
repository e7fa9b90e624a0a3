/** The key cache of an API that verifies access tokens (bauth_client/src/verifier.rs). A lookup takes the read
    lock first; if the answer is not there it takes the write lock, and looks again, since others may have
    been through in between. */
module Verifier {
  import opened Base
  import opened SigningKeys

  const JWKS_MAX_AGE: Time := HOUR
  const MIN_REFETCH_INTERVAL: Time := 30 * SECOND
  const LEEWAY: Time := 30 * SECOND

  type Jwks = map<Kid, PublicKey>

  datatype Cache = Cache(keys: Jwks, fetchedAt: Option<Time>)

  predicate IsStale(c: Cache, now: Time) {
    c.fetchedAt.None? || JWKS_MAX_AGE <= now - c.fetchedAt.value
  }

  predicate CanRefetch(c: Cache, now: Time) {
    c.fetchedAt.None? || MIN_REFETCH_INTERVAL <= now - c.fetchedAt.value
  }

  datatype Answer = Found(key: PublicKey) | UnknownKey | Unreachable

  /** Under the read lock: the key, if it is there and not stale. */
  function Peek(c: Cache, kid: Kid, now: Time): Option<PublicKey> {
    if kid in c.keys && !IsStale(c, now) then Some(c.keys[kid]) else None
  }

  /** `server` is what a fetch would return, None if it would fail. */
  datatype Lookup = Lookup(cache: Cache, answer: Answer, asked: bool)

  /** Under the write lock. */
  function Refill(c: Cache, kid: Kid, now: Time, server: Option<Jwks>): Lookup {
    if !((IsStale(c, now) || kid !in c.keys) && CanRefetch(c, now)) then Lookup(c, Find(c.keys, kid), false)
    else if server.Some? then Lookup(Cache(server.value, Some(now)), Find(server.value, kid), true)
    else if c.keys != map[] then Lookup(c, Find(c.keys, kid), true)
    else Lookup(c, Unreachable, true)
  }

  function Find(keys: Jwks, kid: Kid): Answer {
    if kid in keys then Found(keys[kid]) else UnknownKey
  }

  class KeyCache {
    var keys: Jwks
    var fetchedAt: Option<Time>

    ghost function State(): Cache
      reads this
    {
      Cache(keys, fetchedAt)
    }

    constructor ()
      ensures State() == Cache(map[], None)
    {
      keys, fetchedAt := map[], None;
    }

    method Replace(jwks: Jwks, now: Time)
      modifies this
      ensures State() == Cache(jwks, Some(now))
    {
      keys := jwks;
      fetchedAt := Some(now);
    }

    method IsStaleNow(now: Time) returns (stale: bool)
      ensures stale == IsStale(State(), now)
    {
      stale := fetchedAt.None? || JWKS_MAX_AGE <= now - fetchedAt.value;
    }

    /** The first half of `decoding_key`, under the read lock. */
    method ReadLocked(kid: Kid, now: Time) returns (key: Option<PublicKey>)
      ensures key == Peek(State(), kid, now)
    {
      var stale := IsStaleNow(now);
      key := if kid in keys && !stale then Some(keys[kid]) else None;
    }

    /** The second half, under the write lock, on whatever the cache is by then. */
    method WriteLocked(kid: Kid, now: Time, server: Option<Jwks>) returns (answer: Answer, asked: bool)
      modifies this
      ensures Lookup(State(), answer, asked) == Refill(old(State()), kid, now, server)
    {
      var stale := IsStaleNow(now);
      var canRefetch := fetchedAt.None? || MIN_REFETCH_INTERVAL <= now - fetchedAt.value;
      asked := (stale || kid !in keys) && canRefetch;
      if asked {
        match server
        case Some(jwks) => Replace(jwks, now);
        case None =>
          if keys == map[] { return Unreachable, true; }
      }
      answer := if kid in keys then Found(keys[kid]) else UnknownKey;
    }
  }

  // ---- Any number of lookups, interleaved between their two locks ----

  type Caller = nat

  datatype Step = Wait(elapsed: nat) | Read(caller: Caller, kid: Kid) | Write(writer: Caller, server: Option<Jwks>)

  /** What a lookup ended with, and what the cache was when it did. `asked`: it fetched on its way. */
  datatype Reply = Reply(kid: Kid, answer: Answer, asked: bool, failed: bool, at: Time)

  /** The cache, the clock, the lookups between their two locks, what was fetched and when, and the replies. */
  datatype Trace = Trace(cache: Cache, now: Time, between: map<Caller, Kid>, fetched: seq<(Time, Jwks)>,
                         replies: seq<Reply>)

  function Next(x: Trace, step: Step): Trace {
    match step
    case Wait(elapsed) => x.(now := x.now + elapsed)
    case Read(caller, kid) =>
      if caller in x.between then x
      else
        var key := Peek(x.cache, kid, x.now);
        if key.Some? then x.(replies := x.replies + [Reply(kid, Found(key.value), false, false, x.now)])
        else x.(between := x.between[caller := kid])
    case Write(caller, server) =>
      if caller !in x.between then x
      else
        var kid := x.between[caller];
        var r := Refill(x.cache, kid, x.now, server);
        x.(cache := r.cache, between := x.between - {caller},
           fetched := if r.asked && server.Some? then x.fetched + [(x.now, server.value)] else x.fetched,
           replies := x.replies + [Reply(kid, r.answer, r.asked, r.asked && server.None?, x.now)])
  }

  function Run(x: Trace, steps: seq<Step>): Trace
    decreases |steps|
  {
    if steps == [] then x else Run(Next(x, steps[0]), steps[1..])
  }

  function Start(now: Time): Trace {
    Trace(Cache(map[], None), now, map[], [], [])
  }

  /** The cache is the last fetched set, and fetches are spaced out. */
  ghost predicate CacheInv(x: Trace) {
    && (x.fetched == [] ==> x.cache == Cache(map[], None))
    && (x.fetched != [] ==>
          var last := x.fetched[|x.fetched| - 1]; x.cache == Cache(last.1, Some(last.0)) && last.0 <= x.now)
    && (forall i :: 0 < i < |x.fetched| ==> x.fetched[i - 1].0 + MIN_REFETCH_INTERVAL <= x.fetched[i].0)
  }

  /** A reply was read off some fetched set, under an hour old then, or the fetch had just failed. */
  ghost predicate ReadOff(r: Reply, fetched: seq<(Time, Jwks)>) {
    r.answer.Found? ==>
      exists i ::
        0 <= i < |fetched| && r.kid in fetched[i].1 && fetched[i].1[r.kid] == r.answer.key && fetched[i].0 <= r.at &&
                  (r.at - fetched[i].0 < HOUR || r.failed) && (forall j :: i < j < |fetched| ==> r.at <= fetched[j].0)
  }

  ghost predicate RepliesInv(x: Trace) {
    forall i :: 0 <= i < |x.replies| ==> ReadOff(x.replies[i], x.fetched) && x.replies[i].at <= x.now
  }

  lemma NextKeepsCache(x: Trace, step: Step)
    requires CacheInv(x)
    ensures CacheInv(Next(x, step))
  {
  }

  lemma OlderReplies(r: Reply, fetched: seq<(Time, Jwks)>, now: Time, jwks: Jwks)
    requires ReadOff(r, fetched) && r.at <= now
    ensures ReadOff(r, fetched + [(now, jwks)])
  {
    if r.answer.Found? {
      var i :|
        0 <= i < |fetched| && r.kid in fetched[i].1 && fetched[i].1[r.kid] == r.answer.key && fetched[i].0 <= r.at &&
               (r.at - fetched[i].0 < HOUR || r.failed) && (forall j :: i < j < |fetched| ==> r.at <= fetched[j].0);
      assert (fetched + [(now, jwks)])[i] == fetched[i];
    }
  }

  lemma NewReply(x: Trace, step: Step)
    requires CacheInv(x)
    ensures var y := Next(x, step);
      |y.replies| > |x.replies| ==> ReadOff(y.replies[|x.replies|], y.fetched) && y.replies[|x.replies|].at == x.now
  {
    var y := Next(x, step);
    if |y.replies| > |x.replies| && y.replies[|x.replies|].answer.Found? {
      var i := |y.fetched| - 1;
      assert y.replies[|x.replies|].kid in y.fetched[i].1;
    }
  }

  lemma NextKeepsReplies(x: Trace, step: Step)
    requires CacheInv(x) && RepliesInv(x)
    ensures RepliesInv(Next(x, step))
  {
    hide CacheInv; hide ReadOff;
    var y := Next(x, step);
    NewReply(x, step);
    forall i | 0 <= i < |y.replies|
      ensures ReadOff(y.replies[i], y.fetched)
    {
      if i < |x.replies| {
        assert y.replies[i] == x.replies[i];
        if y.fetched != x.fetched { OlderReplies(x.replies[i], x.fetched, x.now, y.fetched[|x.fetched|].1); }
      }
    }
  }

  lemma {:induction false} RunKeeps(x: Trace, steps: seq<Step>)
    requires CacheInv(x) && RepliesInv(x)
    ensures CacheInv(Run(x, steps)) && RepliesInv(Run(x, steps))
    decreases |steps|
  {
    hide CacheInv; hide RepliesInv; hide Next;
    if steps != [] {
      NextKeepsCache(x, steps[0]);
      NextKeepsReplies(x, steps[0]);
      RunKeeps(Next(x, steps[0]), steps[1..]);
    }
  }

  /** For any lookups, interleaved in any way between their two locks, and any outcome of each fetch: fetches
      are at least 30 s apart; every key ever answered was read off the set fetched last at that moment, which
      was under an hour old unless its replacement could not be fetched just then. */
  lemma CacheIsFaithful(start: Time, steps: seq<Step>)
    ensures var x := Run(Start(start), steps);
      && (forall i :: 0 < i < |x.fetched| ==> x.fetched[i - 1].0 + 30 * SECOND <= x.fetched[i].0)
      && (forall i :: 0 <= i < |x.replies| ==> ReadOff(x.replies[i], x.fetched))
  {
    hide Run; hide ReadOff;
    RunKeeps(Start(start), steps);
  }

  /** A lookup that comes to the write lock: it fetches only if the set is then stale or lacks the key, so one
      that waited behind a fetch of its key does not fetch again; a published key is found if the last fetch
      is 30 s old and its own succeeds; and no key is unknown that the last fetched set has. */
  lemma WriteLockDecides(start: Time, steps: seq<Step>, caller: Caller, server: Option<Jwks>)
    requires caller in Run(Start(start), steps).between
    ensures var x := Run(Start(start), steps); var kid := x.between[caller];
      var y := Next(x, Write(caller, server));
      var r := y.replies[|x.replies|];
      && (x.fetched != [] && kid in x.fetched[|x.fetched| - 1].1 && x.now - x.fetched[|x.fetched| - 1].0 < HOUR ==>
            !r.asked && y.fetched == x.fetched && r.answer.Found?)
      && ((x.fetched == [] || 30 * SECOND <= x.now - x.fetched[|x.fetched| - 1].0) ==>
            server.Some? && kid in server.value ==> r.answer.Found?)
      && (r.answer.UnknownKey? ==> y.fetched == [] || kid !in y.fetched[|y.fetched| - 1].1)
  {
    hide Run;
    RunKeeps(Start(start), steps);
  }

  /** The set fetched last. */
  function LastSet(x: Trace): Jwks {
    if x.fetched == [] then map[] else x.fetched[|x.fetched| - 1].1
  }

  /** Nothing was fetched for `age`. */
  predicate NoFetchFor(x: Trace, age: Time) {
    x.fetched == [] || age <= x.now - x.fetched[|x.fetched| - 1].0
  }

  /** A lookup under the read lock ends there exactly if the last set has the key and is under an hour old. */
  lemma ReadLockAnswers(start: Time, steps: seq<Step>, caller: Caller, kid: Kid)
    requires caller !in Run(Start(start), steps).between
    ensures var x := Run(Start(start), steps); var y := Next(x, Read(caller, kid));
      && y.fetched == x.fetched
      && (if kid in LastSet(x) && !NoFetchFor(x, HOUR)
          then y.between == x.between &&
               y.replies == x.replies + [Reply(kid, Found(LastSet(x)[kid]), false, false, x.now)]
          else y.between == x.between[caller := kid] && y.replies == x.replies)
  {
    hide Run;
    RunKeeps(Start(start), steps);
  }

  /** A lookup under the write lock, in any run of lookups: it fetches exactly if the last set is an hour old or
      lacks the key, and nothing was fetched for 30 seconds. What it fetched answers it. Otherwise, and also if its
      fetch fails, it answers the key of the last set if that has it, that the key is unknown if it does not, and
      that the server is out of reach exactly if a fetch just failed and there is no set to go on with. */
  lemma WriteLockAnswers(start: Time, steps: seq<Step>, caller: Caller, server: Option<Jwks>)
    requires caller in Run(Start(start), steps).between
    ensures var x := Run(Start(start), steps); var kid := x.between[caller];
      var y := Next(x, Write(caller, server));
      var r := y.replies[|x.replies|];
      && |y.replies| == |x.replies| + 1 && r.kid == kid && caller !in y.between
      && (r.asked <==> (NoFetchFor(x, HOUR) || kid !in LastSet(x)) && NoFetchFor(x, 30 * SECOND))
      && (r.asked && server.Some? ==>
            y.fetched == x.fetched + [(x.now, server.value)] &&
            r.answer == if kid in server.value then Found(server.value[kid]) else UnknownKey)
      && (!r.asked || server.None? ==>
            && y.fetched == x.fetched
            && (r.answer.Unreachable? <==> r.asked && LastSet(x) == map[])
            && (r.answer.Found? <==> kid in LastSet(x)) && (r.answer.Found? ==> r.answer.key == LastSet(x)[kid]))
  {
    hide Run;
    RunKeeps(Start(start), steps);
  }
}
