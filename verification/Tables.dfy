/** The database of the server, the record of everything it ever did, and the clock. */
module Tables {
  import opened Base

  datatype User = User(email: Email, verifiedAt: Option<Time>, disabledAt: Option<Time>, createdAt: Time)

  /** S256 is injective: a challenge is the digest of one verifier, or of none. */
  datatype Challenge = S256(verifier: string) | NoDigest(text: string)

  datatype Flow = Flow(client: ClientId, redirectUri: string, challenge: Challenge, requests: nat,
                       expiresAt: Time, completedAt: Option<Time>, createdAt: Time)

  /** Keyed digest of a code bound to the flow or session it unlocks; injective. */
  datatype CodeHash = Hmac(owner: Id, code: string)

  /** An emailed code. `scope` is what the newest row is looked up by, `key` what failures are summed
      over during a day: flow and address for magic links, session with action and account for
      confirmations. */
  datatype CodeRow<K, S> = CodeRow(key: K, scope: S, user: Option<Id>, email: Email, hash: CodeHash,
                                   failures: nat, expiresAt: Time, consumedAt: Option<Time>, createdAt: Time)

  type Link = CodeRow<Email, Id>

  datatype ConfirmationAction = ChangeEmailAction | DeleteAccountAction
  datatype ConfirmationScope = ConfirmationScope(session: Id, action: ConfirmationAction)

  type Confirmation = CodeRow<Id, ConfirmationScope>

  datatype AuthCode = AuthCode(flow: Id, user: Id, expiresAt: Time, consumedAt: Option<Time>, createdAt: Time)

  datatype Session = Session(user: Id, client: ClientId, code: Option<Id>, expiresAt: Time,
                             revokedAt: Option<Time>, createdAt: Time)

  datatype Token = Token(session: Id, parent: Option<Id>, rotatedAt: Option<Time>,
                         supersededAt: Option<Time>, createdAt: Time)

  datatype EmailChange = EmailChange(user: Id, fromEmail: Email, toEmail: Email, expiresAt: Time,
                                     consumedAt: Option<Time>, createdAt: Time)

  datatype Db = Db(
    users: map<Id, User>,
    flows: map<Id, Flow>,
    links: map<Id, Link>,
    codes: map<Id, AuthCode>,
    sessions: map<Id, Session>,
    tokens: map<Id, Token>,
    changes: map<Id, EmailChange>,
    confirmations: map<Id, Confirmation>,
    next: Id)

  datatype FlowTerms = FlowTerms(client: ClientId, challenge: Challenge)
  datatype Completion = Completion(flow: Id, user: Id, mail: Id, email: Email)
  datatype Opening = Opening(code: Id, client: ClientId, verifier: string, at: Time)
  datatype IssueKind = Root | Rotation | GraceReuse | LateRetry
  datatype Issue = Issue(session: Id, kind: IssueKind, at: Time)
  datatype AccessToken = AccessToken(user: Id, session: Id, client: ClientId, issuedAt: Time, expiresAt: Time)
  /** `mail` was used up in a committed transaction to show that `user` reads `email`. */
  datatype Proof = Proof(user: Id, email: Email, mail: Id)
  /** A wrong code typed at `at` for a code mailed at `mailedAt`. */
  datatype Guess<K> = Guess(key: K, mailedAt: Time, at: Time)

  /** What was ever done. Nothing is removed from it, and the server never reads it. */
  datatype Ledger = Ledger(
    flows: map<Id, FlowTerms>,
    sent: map<Id, Email>,
    completions: map<Id, Completion>,
    openings: map<Id, Opening>,
    issues: map<Id, Issue>,
    access: set<AccessToken>,
    proofs: set<Proof>,
    guesses: seq<Guess<Email>>,
    confirmationGuesses: seq<Guess<Id>>)

  datatype World = World(db: Db, ledger: Ledger, now: Time)

  /** A handler's committed effect and its answer. A rolled back handler returns the world it got. */
  datatype Outcome<R> = Outcome(world: World, reply: R)

  function Init(now: Time): World {
    World(Db(map[], map[], map[], map[], map[], map[], map[], map[], 0),
          Ledger(map[], map[], map[], map[], map[], {}, {}, [], []), now)
  }

  /** Floor to whole seconds, as `DateTime::timestamp` does for the claims of a token. */
  function WholeSeconds(t: Time): (r: Time)
    ensures r <= t < r + SECOND
  {
    (t / SECOND) * SECOND
  }

  function IssueAccess(user: Id, session: Id, client: ClientId, now: Time): AccessToken {
    AccessToken(user, session, client, WholeSeconds(now), WholeSeconds(now + ACCESS_TOKEN_TTL))
  }
}
