/** Every token a server issues can be verified by every API until it expires. */
module EndToEnd {
  import opened Base
  import opened Tables
  import opened SigningKeys
  import opened KeyWindows
  import V = Verifier
  import Refresh
  import Login
  import System
  import H = HonestClient

  /** The API read the table after the server that signed did. */
  lemma PublishedLater(signer: KeyWorld, publisher: KeyWorld, k: Kid, t: Time)
    requires Aged(signer, publisher) && Signs(signer.table, k, t)
    requires t < signer.now + HOUR && publisher.now <= t + 16 * MINUTE
    ensures k in publisher.table && Published(publisher.table[k], publisher.now) &&
            publisher.table[k].public == signer.table[k].public
  {
    if k in publisher.table { assert RowAged(signer.table[k], publisher.table[k], signer.now); }
  }

  /** The API read the table first: the key was published a day ahead of signing. */
  lemma PublishedEarlier(publisher: KeyWorld, signer: KeyWorld, k: Kid, t: Time)
    requires Aged(publisher, signer) && Signs(signer.table, k, t) && signer.now <= t < publisher.now + 2 * HOUR
    ensures k in publisher.table && Published(publisher.table[k], publisher.now) &&
            publisher.table[k].public == signer.table[k].public
  {
    if k in publisher.table { assert RowAged(publisher.table[k], signer.table[k], publisher.now); }
  }

  /** A set loaded under an hour before `t` signs with exactly one key of its table. */
  lemma SignerExists(w: KeyWorld, set': KeySet, t: Time) returns (k: Kid)
    requires KeyInv(w) && IsLoaded(set', w.table, w.now) && w.now <= t
    ensures Signs(w.table, k, t) && SigningKey(set'.keys, t) == Some(k)
  {
    hide IsLoaded;
    var a :| Signs(w.table, a, w.now);
    k := SomeSigner(w.table, w.next, w.now, a, t);
    LoadedPicks(set', w, t, k);
  }

  /** Take two points of any run of the background jobs, in either order: at one a server loads the keys
      it signs with, at the other a server loads the keys it serves to an API. A token issued at `t`, with
      the first set under an hour old, is checked at `v`, before it expires and with 30 s of leeway,
      against a cache fetched under an hour ago from a server whose set was then under an hour old. The
      cache answers with the public half of the key that signed, under either lock. */
  lemma TokensVerify(public: PublicKey, start: Time, before: seq<KeyStep>, between: seq<KeyStep>, signsFirst: bool,
                     signing: KeySet, served: KeySet, t: Time, f: Time, v: Time, refetch: Option<V.Jwks>)
    requires var first := KeyRun(Boot(public, start), before);
      var second := KeyRun(first, between);
      var (signer, publisher) := if signsFirst then (first, second) else (second, first);
      && IsLoaded(signing, signer.table, signer.now) && IsLoaded(served, publisher.table, publisher.now)
      && signer.now <= t < signer.now + HOUR
      && publisher.now <= f < publisher.now + HOUR
    requires f <= v < f + HOUR
    requires t <= v <= WholeSeconds(t + 15 * MINUTE) + 30 * SECOND
    ensures var first := KeyRun(Boot(public, start), before);
      var signer := if signsFirst then first else KeyRun(first, between);
      var kid := SigningKey(signing.keys, t);
      && kid.Some? && kid.value in signer.table
      && V.Peek(V.Cache(served.jwks, Some(f)), kid.value, v) == Some(signer.table[kid.value].public)
      && V.Refill(V.Cache(served.jwks, Some(f)), kid.value, v, refetch).answer ==
         V.Found(signer.table[kid.value].public)
  {
    hide KeyRun; hide Aged; hide KeyInv; hide IsLoaded;
    var first := KeyRun(Boot(public, start), before);
    var second := KeyRun(first, between);
    KeysAlways(public, start, before);
    KeyRunKeeps(first, between);
    AgedSelf(first);
    RunAges(first, first, between);
    if signsFirst {
      var k := SignerExists(first, signing, t);
      PublishedLater(first, second, k, t);
      ServedAnswers(second, served, k, f, v, refetch);
    } else {
      var k := SignerExists(second, signing, t);
      PublishedEarlier(first, second, k, t);
      ServedAnswers(first, served, k, f, v, refetch);
    }
  }

  lemma ServedAnswers(w: KeyWorld, served: KeySet, k: Kid, f: Time, v: Time, refetch: Option<V.Jwks>)
    requires IsLoaded(served, w.table, w.now) && k in w.table && Published(w.table[k], w.now) && f <= v < f + HOUR
    ensures V.Peek(V.Cache(served.jwks, Some(f)), k, v) == Some(w.table[k].public)
    ensures V.Refill(V.Cache(served.jwks, Some(f)), k, v, refetch).answer == V.Found(w.table[k].public)
  {
  }

  /** From its load on, a key set can sign at every instant, in every run of the key jobs. */
  lemma AServerCanSign(public: PublicKey, boot: Time, keySteps: seq<KeyStep>, signing: KeySet, t: Time)
    requires var w := KeyRun(Boot(public, boot), keySteps); IsLoaded(signing, w.table, w.now) && w.now <= t
    ensures SigningKey(signing.keys, t).Some?
  {
    hide KeyRun; hide IsLoaded; hide KeyInv;
    KeysAlways(public, boot, keySteps);
    var k := SignerExists(KeyRun(Boot(public, boot), keySteps), signing, t);
  }

  /** The honest client against a server that signs with a set it loaded at any earlier point of any run of the
      key jobs: while the session lives and the account is enabled, the next refresh succeeds. */
  lemma HonestClientsAreServed(start: Time, history: seq<System.Action>, client: ClientId, code: Id, uri: string,
                               verifier: string, moves: seq<H.Move>, public: PublicKey, boot: Time,
                               keySteps: seq<KeyStep>, signing: KeySet)
    requires Login.Exchange(System.Run(Init(start), history), true, client, code, uri, verifier, true).reply.Opened?
    requires var out := Login.Exchange(System.Run(Init(start), history), true, client, code, uri, verifier, true);
      H.AllPrivate(H.Talk(out.world, out.reply.token), out.reply.session, client, moves)
    requires var out := Login.Exchange(System.Run(Init(start), history), true, client, code, uri, verifier, true);
      var w := KeyRun(Boot(public, boot), keySteps);
      IsLoaded(signing, w.table, w.now) &&
      w.now <= H.Converse(H.Talk(out.world, out.reply.token), client, moves).world.now
    ensures var out := Login.Exchange(System.Run(Init(start), history), true, client, code, uri, verifier, true);
      var s := out.reply.session;
      var end := H.Converse(H.Talk(out.world, out.reply.token), client, moves);
      var canSign := SigningKey(signing.keys, end.world.now).Some?;
      Refresh.Live(end.world.db.sessions, s, end.world.now) &&
      Refresh.Enabled(end.world.db.users, end.world.db.sessions[s].user) ==>
        Refresh.Grant(end.world, true, client, end.held, canSign).reply.Issued?
  {
    hide System.Run; hide Login.Exchange; hide H.Converse; hide H.AllPrivate; hide Refresh.Grant; hide KeyRun;
    hide IsLoaded;
    var out := Login.Exchange(System.Run(Init(start), history), true, client, code, uri, verifier, true);
    var end := H.Converse(H.Talk(out.world, out.reply.token), client, moves);
    AServerCanSign(public, boot, keySteps, signing, end.world.now);
    H.NeverThrownOut(start, history, client, code, uri, verifier, moves, true);
  }
}
