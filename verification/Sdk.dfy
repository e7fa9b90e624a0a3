/** The SDK's session object (session.ts) against the server: concurrent callers share one refresh, and
    the store follows the tokens. */
module Sdk {
  import opened Base
  import opened Tables
  import opened Refresh
  import opened TokenForest
  import TokenRuns
  import Login
  import opened System
  import H = HonestClient

  /** A promise the variable `refreshing` can hold. */
  type Ref = nat

  /** Where a running body of `refresh` is, between two awaits. */
  datatype Body =
    | Reading
    | Sending(token: Id)
    | Answered(sent: Id, reply: RefreshReply)
    | Writing(previous: Id, tokens: Id)
    | Clearing(refused: Id)

  /** What the session object keeps: the store, the variable, the bodies that have not returned, and the
      promises whose body returned but whose `finally` has not run. */
  datatype Kept = Kept(store: Option<Id>, refreshing: Option<Ref>, running: map<Ref, Body>, settled: set<Ref>,
                       next: Ref)

  /** The token endpoint answers `invalid_grant` to these. */
  predicate InvalidGrant(r: RefreshReply) {
    r.UnknownToken? || r.OtherClient? || r.SessionOver? || r.Reused? || r.AccountDisabled?
  }

  /** What the event loop can bring. A write may fail: the store then keeps what it had. */
  datatype Event =
    | Call | ReadDone(read: Ref) | Delivered(answered: Ref) | Lost(lost: Ref) | WriteDone(written: Ref, ok: bool)
    | Finally(ended: Ref)

  /** The body of `r` returns or throws. */
  function Settle(x: Kept, r: Ref): Kept {
    x.(running := x.running - {r}, settled := x.settled + {r})
  }

  function Next(x: Kept, e: Event): Kept {
    match e
    case Call =>
      if x.refreshing.Some? then x
      else x.(running := x.running[x.next := Reading], refreshing := Some(x.next), next := x.next + 1)
    case ReadDone(r) =>
      if r !in x.running || !x.running[r].Reading? then x
      else if x.store.None? then Settle(x, r)
      else x.(running := x.running[r := Sending(x.store.value)])
    case Delivered(r) =>
      if r !in x.running || !x.running[r].Answered? then x
      else
        var b := x.running[r];
        if b.reply.Issued? then x.(running := x.running[r := Writing(b.sent, b.reply.token)])
        else if InvalidGrant(b.reply) then x.(running := x.running[r := Clearing(b.sent)])
        else Settle(x, r)
    case Lost(r) => if r in x.running && (x.running[r].Sending? || x.running[r].Answered?) then Settle(x, r) else x
    case WriteDone(r, ok) =>
      if r !in x.running || !(x.running[r].Writing? || x.running[r].Clearing?) then x
      else
        var store := if x.running[r].Writing? then Some(x.running[r].tokens) else None;
        Settle(if ok then x.(store := store) else x, r)
    case Finally(r) => if r in x.settled then x.(refreshing := None, settled := x.settled - {r}) else x
  }

  /** Single flight: the variable holds the one promise whose body runs or whose `finally` is due, and is
      empty when there is none. */
  ghost predicate SingleFlight(x: Kept) {
    && (forall r :: r in x.running ==> r !in x.settled)
    && (match x.refreshing
        case Some(r) => x.running.Keys + x.settled == {r} && r < x.next
        case None => x.running == map[] && x.settled == {})
  }

  lemma NextKeepsFlight(x: Kept, e: Event)
    requires SingleFlight(x)
    ensures SingleFlight(Next(x, e))
  {
    var y := Next(x, e);
    match e
    case Call => if x.refreshing.None? { assert y.running.Keys == {x.next}; }
    case Finally(r) =>
      if r in x.settled {
        assert r in x.running.Keys + x.settled;
        assert x.running.Keys == {} && x.settled == {r};
        assert y.running == map[];
      }
    case _ => SettleKeys(x, y, e);
  }

  lemma SettleKeys(x: Kept, y: Kept, e: Event)
    requires SingleFlight(x) && y == Next(x, e) && !e.Call? && !e.Finally?
    ensures y.running.Keys + y.settled == x.running.Keys + x.settled && (forall r :: r in y.running ==> r !in y.settled)
    ensures y.refreshing == x.refreshing && y.next == x.next
  {
  }

  lemma OneBody(x: Kept)
    requires SingleFlight(x)
    ensures |x.running| <= 1 && |x.running| + |x.settled| <= 1
    ensures forall a, b :: a in x.running && b in x.running ==> a == b
  {
    if x.refreshing.Some? {
      var r := x.refreshing.value;
      assert forall k :: k in x.running.Keys + x.settled ==> k == r;
      if r in x.running {
        assert x.running.Keys == {r} && x.settled == {};
      } else {
        assert x.running.Keys == {} && x.settled == {r};
      }
      assert |x.running| == |x.running.Keys|;
    }
  }

  /** The object itself, one method for each point where the event loop comes back to it. */
  class AuthSession {
    var store: Option<Id>
    var refreshing: Option<Ref>
    var running: map<Ref, Body>
    var settled: set<Ref>
    var next: Ref

    ghost function State(): Kept
      reads this
    {
      Kept(store, refreshing, running, settled, next)
    }

    ghost predicate Valid()
      reads this
    {
      SingleFlight(State()) && |running| <= 1
    }

    constructor (token: Id)
      ensures Valid() && State() == Kept(Some(token), None, map[], {}, 0)
    {
      store := Some(token);
      refreshing := None;
      running := map[];
      settled := {};
      next := 0;
    }

    /** `refreshing ??= ...`: tests the variable, runs the body to its first await, and only then assigns. */
    method Refresh() returns (shared: Ref)
      requires Valid()
      modifies this
      ensures Valid() && State() == Next(old(State()), Call)
      ensures refreshing == Some(shared)
    {
      ghost var before := State();
      if refreshing.None? {
        var body := next;
        next := next + 1;
        running := running[body := Reading];
        refreshing := Some(body);
      }
      shared := refreshing.value;
      NextKeepsFlight(before, Call);
      OneBody(State());
    }

    method OnRead(r: Ref)
      requires Valid()
      modifies this
      ensures Valid() && State() == Next(old(State()), ReadDone(r))
    {
      ghost var before := State();
      if r in running && running[r].Reading? {
        match store
        case Some(token) => running := running[r := Sending(token)];
        case None => Return(r);
      }
      NextKeepsFlight(before, ReadDone(r));
      OneBody(State());
    }

    /** The body of `r` returns or throws; its `finally` is now due. */
    method Return(r: Ref)
      modifies this`running, this`settled
      ensures State() == Settle(old(State()), r)
    {
      running := running - {r};
      settled := settled + {r};
    }

    method OnDelivered(r: Ref)
      requires Valid()
      modifies this
      ensures Valid() && State() == Next(old(State()), Delivered(r))
    {
      ghost var before := State();
      if r in running && running[r].Answered? {
        var sent, reply := running[r].sent, running[r].reply;
        if reply.Issued? {
          running := running[r := Writing(sent, reply.token)];
        } else if InvalidGrant(reply) {
          running := running[r := Clearing(sent)];
        } else {
          Return(r);
        }
      }
      NextKeepsFlight(before, Delivered(r));
      OneBody(State());
    }

    /** No answer came: the shared refresh rejects and nothing is stored. */
    method OnLost(r: Ref)
      requires Valid()
      modifies this
      ensures Valid() && State() == Next(old(State()), Lost(r))
    {
      ghost var before := State();
      if r in running && (running[r].Sending? || running[r].Answered?) { Return(r); }
      NextKeepsFlight(before, Lost(r));
      OneBody(State());
    }

    method OnWritten(r: Ref, ok: bool)
      requires Valid()
      modifies this
      ensures Valid() && State() == Next(old(State()), WriteDone(r, ok))
    {
      ghost var before := State();
      if r in running && running[r].Writing? {
        if ok { store := Some(running[r].tokens); }
        Return(r);
      } else if r in running && running[r].Clearing? {
        if ok { store := None; }
        Return(r);
      }
      NextKeepsFlight(before, WriteDone(r, ok));
      OneBody(State());
    }

    /** `finally` clears the variable without looking: it holds this very promise. */
    method OnFinally(r: Ref)
      requires Valid()
      modifies this
      ensures Valid() && State() == Next(old(State()), Finally(r))
      ensures r in old(settled) ==> old(refreshing) == Some(r)
    {
      ghost var before := State();
      if r in settled {
        assert r in running.Keys + settled;
        refreshing := None;
        settled := settled - {r};
      }
      NextKeepsFlight(before, Finally(r));
      OneBody(State());
    }
  }

  // ---- The app and the server together ----

  /** `sent`: every refresh token put on the wire. `received`: the tokens an answer replaced. `dropped`: those
      whose replacement could not be written to the store. */
  datatype Joint = Joint(world: World, app: Kept, sent: seq<Id>, received: set<Id>, dropped: set<Id>)

  datatype Move = App(event: Event) | Serve(request: Ref, canSign: bool) | Elsewhere(action: Action)

  predicate Receives(x: Kept, e: Event) {
    e.Delivered? && e.answered in x.running && x.running[e.answered].Answered? && x.running[e.answered].reply.Issued?
  }

  predicate Drops(x: Kept, e: Event) {
    e.WriteDone? && !e.ok && e.written in x.running && x.running[e.written].Writing?
  }

  predicate Sends(x: Kept, e: Event) {
    e.ReadDone? && e.read in x.running && x.running[e.read].Reading? && x.store.Some?
  }

  function Moved(j: Joint, client: ClientId, m: Move): Joint {
    match m
    case App(e) =>
      j.(app := Next(j.app, e),
         sent := if Sends(j.app, e) then j.sent + [j.app.store.value] else j.sent,
         received := if Receives(j.app, e) then j.received + {j.app.running[e.answered].sent} else j.received,
         dropped := if Drops(j.app, e) then j.dropped + {j.app.running[e.written].previous} else j.dropped)
    case Serve(r, canSign) =>
      if r !in j.app.running || !j.app.running[r].Sending? then j
      else
        var token := j.app.running[r].token;
        var out := Grant(j.world, true, client, token, canSign);
        j.(world := out.world, app := j.app.(running := j.app.running[r := Answered(token, out.reply)]))
    case Elsewhere(a) => j.(world := Apply(j.world, a))
  }

  predicate Private(j: Joint, s: Id, m: Move) {
    m.Elsewhere? && m.action.RefreshGrant? && m.action.token in j.world.db.tokens ==>
      j.world.db.tokens[m.action.token].session != s
  }

  function Play(j: Joint, client: ClientId, moves: seq<Move>): Joint
    decreases |moves|
  {
    if moves == [] then j else Play(Moved(j, client, moves[0]), client, moves[1..])
  }

  predicate AllPrivate(j: Joint, s: Id, client: ClientId, moves: seq<Move>)
    decreases |moves|
  {
    moves == [] || (Private(j, s, moves[0]) && AllPrivate(Moved(j, client, moves[0]), s, client, moves[1..]))
  }

  /** The token a body would put in the store. */
  function Incoming(b: Body): Option<Id> {
    match b
    case Answered(_, reply) => if reply.Issued? then Some(reply.token) else None
    case Writing(_, t) => Some(t)
    case _ => None
  }

  predicate Refused(b: Body) {
    b.Clearing? || (b.Answered? && InvalidGrant(b.reply))
  }

  ghost predicate Ended(w: World, s: Id) {
    s < w.db.next && (s in w.db.sessions ==> w.db.sessions[s].revokedAt.Some? || w.db.sessions[s].expiresAt <= w.now)
  }

  /** What a body has sent is what is stored, and what comes back is newer. */
  predicate BodyInStep(b: Body, store: Option<Id>) {
    && (b.Sending? ==> store == Some(b.token))
    && (b.Answered? ==> store == Some(b.sent) && !b.reply.Reused? && (b.reply.Issued? ==> b.sent < b.reply.token))
    && (b.Writing? ==> store == Some(b.previous) && b.previous < b.tokens)
    && (b.Clearing? ==> store.Some?)
  }

  ghost predicate BeingWritten(x: Kept) {
    exists r :: r in x.running && x.running[r].Writing?
  }

  /** A token whose replacement was received is behind the store, or its write failed or is under way. */
  ghost predicate Replaced(j: Joint) {
    && j.dropped <= j.received
    && (forall r :: r in j.app.running && j.app.running[r].Writing? ==> j.app.running[r].previous in j.received)
    && (j.app.store.Some? ==>
          forall t :: t in j.received ==>
            t < j.app.store.value ||
            (t == j.app.store.value && (t in j.dropped || BeingWritten(j.app))))
  }

  ghost predicate InStep(j: Joint) {
    && SingleFlight(j.app) && Replaced(j)
    && (forall r :: r in j.app.running ==> BodyInStep(j.app.running[r], j.app.store))
    && (forall i :: 0 <= i < |j.sent| && j.app.store.Some? ==> j.sent[i] <= j.app.store.value)
    && (forall i, k :: 0 <= i < k < |j.sent| ==> j.sent[i] <= j.sent[k])
  }

  ghost predicate BodySound(w: World, b: Body, s: Id, client: ClientId) {
    && (Incoming(b).Some? ==> H.Holds(H.Talk(w, Incoming(b).value), s, client))
    && (Refused(b) ==> Ended(w, s))
  }

  /** The stored token and the one coming back are both good, or the session is over. */
  ghost predicate Sound(j: Joint, s: Id, client: ClientId) {
    && TokenInv(j.world)
    && (j.app.store.Some? ==> H.Holds(H.Talk(j.world, j.app.store.value), s, client))
    && (j.app.store.None? ==> Ended(j.world, s))
    && (forall r :: r in j.app.running ==> BodySound(j.world, j.app.running[r], s, client))
  }

  lemma EndedStays(w: World, a: Action, s: Id)
    requires TokenInv(w) && Ended(w, s)
    ensures Ended(Apply(w, a), s)
  {
    hide TokenInv; hide Apply;
    if a.RefreshGrant? { EndedGrant(w, a, s); }
    else if a.Exchange? { EndedExchange(w, a, s); }
    else {
      Frame(w, a);
      TokenRuns.ForestRooted(w);
      TokenRuns.OtherStepsShrink(w, a);
    }
  }

  lemma EndedGrant(w: World, a: Action, s: Id)
    requires a.RefreshGrant? && Ended(w, s)
    ensures Ended(Apply(w, a), s)
  {
    hide Grant; hide Present; hide Classify;
    GrantCases(w, a.knownClient, a.tokenClient, a.token, a.signs);
  }

  lemma EndedExchange(w: World, a: Action, s: Id)
    requires a.Exchange? && Ended(w, s)
    ensures Ended(Apply(w, a), s)
  {
    hide Login.PkceMatches; hide Login.CodeUsable;
  }

  lemma AppKeepsSound(j: Joint, s: Id, client: ClientId, e: Event)
    requires Sound(j, s, client)
    ensures Sound(Moved(j, client, App(e)), s, client)
  {
    hide Apply; hide TokenInv; hide H.Holds; hide Ended; hide Grant;
  }

  lemma AppKeepsStep(j: Joint, client: ClientId, e: Event)
    requires InStep(j)
    ensures InStep(Moved(j, client, App(e)))
  {
    hide Replaced; hide SingleFlight; hide BodyInStep; hide Next;
    NextKeepsFlight(j.app, e);
    AppKeepsReplaced(j, client, e);
    AppKeepsBodies(j, e);
    AppKeepsSent(j, client, e);
  }

  lemma AppKeepsBodies(j: Joint, e: Event)
    requires InStep(j)
    ensures var k := Next(j.app, e); forall r :: r in k.running ==> BodyInStep(k.running[r], k.store)
  {
    hide Replaced; hide SingleFlight;
    OneBody(j.app);
  }

  /** What is sent is what is stored, and the store only moves up. */
  lemma AppKeepsSent(j: Joint, client: ClientId, e: Event)
    requires InStep(j)
    ensures var k := Moved(j, client, App(e));
      && (forall i :: 0 <= i < |k.sent| && k.app.store.Some? ==> k.sent[i] <= k.app.store.value)
      && (forall i, n :: 0 <= i < n < |k.sent| ==> k.sent[i] <= k.sent[n])
  {
    hide Replaced; hide SingleFlight;
  }

  lemma AppKeepsReplaced(j: Joint, client: ClientId, e: Event)
    requires InStep(j)
    ensures Replaced(Moved(j, client, App(e)))
  {
    hide Replaced; hide Moved; hide SingleFlight; hide BodyInStep;
    match e
    case Delivered(r) => DeliveryKeepsReplaced(j, client, r);
    case WriteDone(r, ok) => WriteKeepsReplaced(j, client, r, ok);
    case _ =>
      OthersReplaceNothing(j, client, e);
      SameReplaced(j, Moved(j, client, App(e)));
  }

  /** Calls, reads, losses and `finally` leave the store, what was received and what is being written. */
  lemma OthersReplaceNothing(j: Joint, client: ClientId, e: Event)
    requires SingleFlight(j.app) && !e.Delivered? && !e.WriteDone?
    ensures var k := Moved(j, client, App(e));
      && k.received == j.received && k.dropped == j.dropped && k.app.store == j.app.store
      && SameWrites(j.app.running, k.app.running) && SameWrites(k.app.running, j.app.running)
  {
    FlightIsOver(j.app);
  }

  predicate SameWrites(a: map<Ref, Body>, b: map<Ref, Body>) {
    forall r :: r in a && a[r].Writing? ==> r in b && b[r] == a[r]
  }

  lemma WritingIs(x: Kept)
    ensures forall r :: r in x.running && x.running[r].Writing? ==> BeingWritten(x)
  {
  }

  lemma FlightIsOver(x: Kept)
    requires SingleFlight(x)
    ensures x.next !in x.running
    ensures x.settled != {} || x.refreshing.None? ==> x.running == map[]
  {
    if x.refreshing.Some? {
      assert forall k :: k in x.running.Keys + x.settled ==> k == x.refreshing.value;
      if r :| r in x.settled { assert x.running.Keys == {}; }
    }
  }

  lemma SameReplaced(j: Joint, k: Joint)
    requires Replaced(j) && k.received == j.received && k.dropped == j.dropped && k.app.store == j.app.store
    requires SameWrites(j.app.running, k.app.running) && SameWrites(k.app.running, j.app.running)
    ensures Replaced(k)
  {
    if BeingWritten(j.app) {
      var r :| r in j.app.running && j.app.running[r].Writing?;
      assert r in k.app.running && k.app.running[r].Writing?;
    }
  }

  /** An answer that is issued is now being written; any other leaves what was received. */
  lemma DeliveryKeepsReplaced(j: Joint, client: ClientId, r: Ref)
    requires InStep(j)
    ensures Replaced(Moved(j, client, App(Delivered(r))))
  {
    hide SingleFlight;
    OneBody(j.app);
    var k := Moved(j, client, App(Delivered(r)));
    if r in j.app.running && j.app.running[r].Answered? {
      assert !BeingWritten(j.app) && BodyInStep(j.app.running[r], j.app.store);
      if j.app.running[r].reply.Issued? {
        assert r in k.app.running && k.app.running[r].Writing?;
        assert BeingWritten(k.app);
      }
    }
  }

  /** A write that is done moves the store on, or its token is dropped. */
  lemma WriteKeepsReplaced(j: Joint, client: ClientId, r: Ref, ok: bool)
    requires InStep(j)
    ensures Replaced(Moved(j, client, App(WriteDone(r, ok))))
  {
    hide SingleFlight;
    OneBody(j.app);
    if r in j.app.running && (j.app.running[r].Writing? || j.app.running[r].Clearing?) {
      assert BodyInStep(j.app.running[r], j.app.store);
      assert Moved(j, client, App(WriteDone(r, ok))).app.running == map[];
    }
  }

  // ---- The server answers ----

  lemma ServeKeepsSound(j: Joint, s: Id, client: ClientId, r: Ref, canSign: bool)
    requires Sound(j, s, client) && InStep(j)
    ensures Sound(Moved(j, client, Serve(r, canSign)), s, client)
  {
    hide Apply; hide TokenInv; hide Grant; hide H.Holds; hide Ended; hide Replaced; hide SingleFlight;
    if r in j.app.running && j.app.running[r].Sending? {
      OneBody(j.app);
      var w := j.world;
      var k := H.Talk(w, j.app.store.value);
      H.SendKeepsHold(k, s, client, canSign, false);
      H.SendKeepsHold(k, s, client, canSign, true);
      TokenRuns.RefreshKeeps(w, true, client, k.held, canSign);
      RefusalMeansEnded(k, s, client, canSign);
    }
  }

  lemma ServeKeepsStep(j: Joint, s: Id, client: ClientId, r: Ref, canSign: bool)
    requires Sound(j, s, client) && InStep(j)
    ensures InStep(Moved(j, client, Serve(r, canSign)))
  {
    hide Apply; hide TokenInv; hide Grant; hide H.Holds; hide Ended; hide Present; hide Classify; hide BodySound;
    if r in j.app.running && j.app.running[r].Sending? {
      var k := H.Talk(j.world, j.app.store.value);
      var after := Moved(j, client, Serve(r, canSign));
      H.SendIsSafe(k, s, client, canSign);
      GrantCases(j.world, true, client, k.held, canSign);
      assert k.held < j.world.db.next by { HeldAllocated(k, s, client); }
      assert after.app.running.Keys == j.app.running.Keys;
      OneBody(j.app);
      WritingIs(j.app);
      assert !BeingWritten(j.app);
    }
  }

  lemma HeldAllocated(k: H.Talk, s: Id, client: ClientId)
    requires H.Holds(k, s, client)
    ensures k.held < k.world.db.next
  {
  }

  lemma RefusalMeansEnded(k: H.Talk, s: Id, client: ClientId, canSign: bool)
    requires TokenInv(k.world) && H.Holds(k, s, client)
    ensures var out := Grant(k.world, true, client, k.held, canSign);
      InvalidGrant(out.reply) ==> Ended(out.world, s)
  {
    hide TokenInv; hide HasUsedSuccessor; hide Present; hide Classify; hide Grant;
    assert Rooted(k.world.db.tokens, k.world.db.sessions) by { TokenRuns.ForestRooted(k.world); }
    GrantCases(k.world, true, client, k.held, canSign);
    GrantRefusals(k.world, true, client, k.held, canSign);
  }

  // ---- Everything else ----

  lemma ElsewhereKeeps(j: Joint, s: Id, client: ClientId, a: Action)
    requires Sound(j, s, client) && InStep(j) && Private(j, s, Elsewhere(a))
    ensures Sound(Moved(j, client, Elsewhere(a)), s, client) && InStep(Moved(j, client, Elsewhere(a)))
  {
    hide TokenInv; hide H.Holds; hide Ended; hide Apply; hide SingleFlight; hide BodyInStep;
    TokenRuns.StepKeeps(j.world, a);
    if j.app.store.Some? { H.ElsewhereKeepsHold(H.Talk(j.world, j.app.store.value), s, client, a); }
    else { EndedStays(j.world, a, s); }
    forall r | r in j.app.running
      ensures BodySound(Apply(j.world, a), j.app.running[r], s, client)
    {
      var b := j.app.running[r];
      if Incoming(b).Some? { H.ElsewhereKeepsHold(H.Talk(j.world, Incoming(b).value), s, client, a); }
      if Refused(b) { EndedStays(j.world, a, s); }
    }
  }

  lemma {:induction false} PlayKeeps(j: Joint, s: Id, client: ClientId, moves: seq<Move>)
    requires Sound(j, s, client) && InStep(j) && AllPrivate(j, s, client, moves)
    ensures var end := Play(j, client, moves); Sound(end, s, client) && InStep(end)
    decreases |moves|
  {
    hide Sound; hide InStep; hide Private; hide Moved;
    if moves != [] {
      match moves[0] {
        case App(e) =>
          AppKeepsSound(j, s, client, e);
          AppKeepsStep(j, client, e);
        case Serve(r, canSign) =>
          ServeKeepsSound(j, s, client, r, canSign);
          ServeKeepsStep(j, s, client, r, canSign);
        case Elsewhere(a) => ElsewhereKeeps(j, s, client, a);
      }
      PlayKeeps(Moved(j, client, moves[0]), s, client, moves[1..]);
    }
  }

  /** The session object right after a login stored its tokens. */
  function LoggedIn(w: World, token: Id): Joint {
    Joint(w, Kept(Some(token), None, map[], {}, 0), [], {}, {})
  }

  /** For any number of callers, any loss, any failed write, and whatever else the server does: at most one
      refresh runs; what it has on the wire is the stored token; a token whose replacement was received is on
      the wire again exactly if that replacement could not be stored; the server never sees reuse; tokens go
      out in the order they were issued; and the store is only emptied when the session is over. */
  lemma SdkIsHonest(start: Time, history: seq<Action>, client: ClientId, code: Id, uri: string, verifier: string,
                    moves: seq<Move>)
    requires Login.Exchange(Run(Init(start), history), true, client, code, uri, verifier, true).reply.Opened?
    requires var out := Login.Exchange(Run(Init(start), history), true, client, code, uri, verifier, true);
      AllPrivate(LoggedIn(out.world, out.reply.token), out.reply.session, client, moves)
    ensures var out := Login.Exchange(Run(Init(start), history), true, client, code, uri, verifier, true);
      var end := Play(LoggedIn(out.world, out.reply.token), client, moves);
      && |end.app.running| <= 1
      && (forall r :: r in end.app.running && end.app.running[r].Sending? ==>
            var token := end.app.running[r].token;
            end.app.store == Some(token) && (token in end.received <==> token in end.dropped))
      && (forall r :: r in end.app.running && end.app.running[r].Answered? ==> !end.app.running[r].reply.Reused?)
      && (forall i, k :: 0 <= i < k < |end.sent| ==> end.sent[i] <= end.sent[k])
      && (end.app.store.None? ==> !Live(end.world.db.sessions, out.reply.session, end.world.now))
  {
    hide TokenInv; hide Run; hide Login.Exchange; hide H.Holds; hide AllPrivate; hide Play; hide SingleFlight;
    hide BodySound;
    TokenRuns.Always(start, history);
    var w := Run(Init(start), history);
    var out := Login.Exchange(w, true, client, code, uri, verifier, true);
    H.LoginHands(w, client, code, uri, verifier);
    var j := LoggedIn(out.world, out.reply.token);
    assert SingleFlight(j.app) by { NothingFlies(out.reply.token); }
    PlayKeeps(j, out.reply.session, client, moves);
    var end := Play(j, client, moves);
    OneBody(end.app);
  }

  lemma NothingFlies(token: Id)
    ensures SingleFlight(Kept(Some(token), None, map[], {}, 0))
  {
  }

  /** A refresh that is answered, and whose answer cannot be stored. */
  function Unstored(n: Ref, canSign: bool): seq<Move> {
    [App(Call), App(ReadDone(n))] + [Serve(n, canSign), App(Delivered(n))] + [App(WriteDone(n, false)), App(Finally(n))]
  }

  /** A failed write is how a replaced token comes to be sent again: from any idle state, if the server
      answers and the answer cannot be stored, the next refresh sends the same token. */
  lemma FailedWriteResends(j: Joint, client: ClientId, token: Id, canSign: bool)
    requires SingleFlight(j.app) && j.app.refreshing.None? && j.app.store == Some(token)
    requires Grant(j.world, true, client, token, canSign).reply.Issued?
    ensures var n := j.app.next;
      var end := Play(j, client, Unstored(n, canSign) + [App(Call), App(ReadDone(n + 1))]);
      n + 1 in end.app.running && end.app.running[n + 1] == Sending(token) &&
      token in end.received && token in end.dropped
  {
    hide Grant; hide Play; hide Moved; hide Next;
    var n := j.app.next;
    var reply := Grant(j.world, true, client, token, canSign).reply;
    var a, b, c := [App(Call), App(ReadDone(n))], [Serve(n, canSign), App(Delivered(n))],
                   [App(WriteDone(n, false)), App(Finally(n))];
    var j2 := FirstTwo(j, client, token);
    var j4 := AnsweredTwo(j2, client, n, token, canSign);
    var j6 := DroppedTwo(j4, client, n, token);
    var j8 := FirstTwo(j6, client, token);
    PlayMore(j, client, a, b);
    PlayMore(j, client, a + b, c);
    PlayMore(j, client, a + b + c, [App(Call), App(ReadDone(n + 1))]);
  }

  lemma FirstTwo(j: Joint, client: ClientId, token: Id) returns (k: Joint)
    requires j.app == Kept(Some(token), None, map[], {}, j.app.next) || (SingleFlight(j.app) && j.app.refreshing.None?)
    requires j.app.store == Some(token)
    ensures k == Play(j, client, [App(Call), App(ReadDone(j.app.next))])
    ensures k.app == Kept(Some(token), Some(j.app.next), map[j.app.next := Sending(token)], {}, j.app.next + 1)
    ensures k.world == j.world && k.received == j.received && k.dropped == j.dropped
  {
    hide Play;
    var n := j.app.next;
    PlayTwo(j, client, App(Call), App(ReadDone(n)));
    var j1 := Moved(j, client, App(Call));
    assert j1.app.running == map[n := Reading];
    k := Moved(j1, client, App(ReadDone(n)));
    assert k.app.running == map[n := Sending(token)];
  }

  lemma AnsweredTwo(j: Joint, client: ClientId, n: Ref, token: Id, canSign: bool) returns (k: Joint)
    requires j.app == Kept(Some(token), Some(n), map[n := Sending(token)], {}, n + 1)
    requires Grant(j.world, true, client, token, canSign).reply.Issued?
    ensures k == Play(j, client, [Serve(n, canSign), App(Delivered(n))])
    ensures var reply := Grant(j.world, true, client, token, canSign).reply;
      k.app == Kept(Some(token), Some(n), map[n := Writing(token, reply.token)], {}, n + 1)
    ensures token in k.received && k.dropped == j.dropped
  {
    hide Play; hide Grant; hide Moved;
    var reply := Grant(j.world, true, client, token, canSign).reply;
    PlayTwo(j, client, Serve(n, canSign), App(Delivered(n)));
    Served(j, client, n, token, canSign);
    var j1 := Moved(j, client, Serve(n, canSign));
    Received(j1, client, n, token, reply);
    k := Moved(j1, client, App(Delivered(n)));
  }

  lemma Served(j: Joint, client: ClientId, n: Ref, token: Id, canSign: bool)
    requires j.app == Kept(Some(token), Some(n), map[n := Sending(token)], {}, n + 1)
    ensures var reply := Grant(j.world, true, client, token, canSign).reply;
      var k := Moved(j, client, Serve(n, canSign));
      k.app == j.app.(running := map[n := Answered(token, reply)]) && k.dropped == j.dropped
  {
    hide Grant;
  }

  lemma Received(j: Joint, client: ClientId, n: Ref, token: Id, reply: RefreshReply)
    requires j.app == Kept(Some(token), Some(n), map[n := Answered(token, reply)], {}, n + 1) && reply.Issued?
    ensures var k := Moved(j, client, App(Delivered(n)));
      k.app == j.app.(running := map[n := Writing(token, reply.token)]) && token in k.received && k.dropped == j.dropped
  {
  }

  lemma DroppedTwo(j: Joint, client: ClientId, n: Ref, token: Id) returns (k: Joint)
    requires n in j.app.running && j.app.running[n].Writing? && j.app.running[n].previous == token
    requires j.app == Kept(Some(token), Some(n), map[n := j.app.running[n]], {}, n + 1)
    ensures k == Play(j, client, [App(WriteDone(n, false)), App(Finally(n))])
    ensures k.app == Kept(Some(token), None, map[], {}, n + 1) && k.received == j.received && token in k.dropped
  {
    hide Play;
    PlayTwo(j, client, App(WriteDone(n, false)), App(Finally(n)));
    var j1 := Moved(j, client, App(WriteDone(n, false)));
    assert j1.app == Kept(Some(token), Some(n), map[], {n}, n + 1);
    k := Moved(j1, client, App(Finally(n)));
  }

  lemma PlayTwo(j: Joint, client: ClientId, a: Move, b: Move)
    ensures Play(j, client, [a, b]) == Moved(Moved(j, client, a), client, b)
  {
    hide Moved;
    assert [a, b][1..] == [b] && [b][1..] == [];
    assert Play(Moved(j, client, a), client, [b]) == Play(Moved(Moved(j, client, a), client, b), client, []);
  }

  lemma {:induction false} PlayMore(j: Joint, client: ClientId, a: seq<Move>, b: seq<Move>)
    ensures Play(j, client, a + b) == Play(Play(j, client, a), client, b)
    decreases |a|
  {
    hide Moved;
    if a == [] { assert a + b == b; }
    else {
      assert (a + b)[1..] == a[1..] + b;
      PlayMore(Moved(j, client, a[0]), client, a[1..], b);
    }
  }
}
