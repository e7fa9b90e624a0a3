/** How much one login flow can be asked for: emails, wrong codes and time. */
module FlowBounds {
  import opened Base
  import opened Tables
  import opened EmailedCodes
  import opened Login
  import opened References
  import Account
  import Purge
  import opened System

  /** A flow lives 15 minutes, and 15 more for each of at most three emails. */
  ghost predicate FlowRows(flows: map<Id, Flow>, now: Time) {
    forall f :: f in flows ==>
      flows[f].requests <= MAX_EMAILS_PER_FLOW && flows[f].createdAt <= now &&
      flows[f].expiresAt <= flows[f].createdAt + FLOW_TTL + CODE_TTL * flows[f].requests
  }

  /** A link belongs to a flow that outlives it. */
  ghost predicate LinkRows(links: map<Id, Link>, flows: map<Id, Flow>) {
    forall l :: l in links ==>
      links[l].key == links[l].email && links[l].scope in flows &&
      links[l].expiresAt <= flows[links[l].scope].expiresAt
  }

  /** A code belongs to a completed flow and dies at most a minute after the flow would have expired. */
  ghost predicate CodeRows(codes: map<Id, AuthCode>, flows: map<Id, Flow>) {
    forall c :: c in codes ==>
      codes[c].flow in flows && flows[codes[c].flow].completedAt.Some? &&
      codes[c].expiresAt < flows[codes[c].flow].expiresAt + AUTHORIZATION_CODE_TTL
  }

  predicate LinkOf(links: map<Id, Link>, f: Id, l: Id) {
    l in links && links[l].scope == f
  }

  function LinkCount(links: map<Id, Link>, f: Id, n: Id): nat {
    if n == 0 then 0 else LinkCount(links, f, n - 1) + if LinkOf(links, f, n - 1) then 1 else 0
  }

  ghost predicate LinksCounted(links: map<Id, Link>, flows: map<Id, Flow>, next: Id) {
    forall f :: f in flows ==> LinkCount(links, f, next) <= flows[f].requests
  }

  ghost predicate FlowInv(db: Db, now: Time) {
    FlowRows(db.flows, now) && LinkRows(db.links, db.flows) && CodeRows(db.codes, db.flows) &&
    LinksCounted(db.links, db.flows, db.next)
  }

  lemma {:induction false} CountShrinks(before: map<Id, Link>, after: map<Id, Link>, f: Id, n: Id)
    requires forall l: Id :: l < n && LinkOf(after, f, l) ==> LinkOf(before, f, l)
    ensures LinkCount(after, f, n) <= LinkCount(before, f, n)
  {
    if n > 0 { CountShrinks(before, after, f, n - 1); }
  }

  lemma {:induction false} CountExtends(links: map<Id, Link>, f: Id, n: Id, m: Id)
    requires n <= m && forall l :: l in links ==> l < n
    ensures LinkCount(links, f, m) == LinkCount(links, f, n)
  {
    if n < m { CountExtends(links, f, n, m - 1); }
  }

  // ---- Rows are removed or marked, and flows move on ----

  ghost predicate FewerLinks(before: map<Id, Link>, after: map<Id, Link>) {
    forall l :: l in after ==>
      l in before && after[l] == before[l].(failures := after[l].failures, consumedAt := after[l].consumedAt)
  }

  ghost predicate FewerCodes(before: map<Id, AuthCode>, after: map<Id, AuthCode>) {
    forall c :: c in after ==> c in before && after[c] == before[c].(consumedAt := after[c].consumedAt)
  }

  /** Only later and longer: an expiry never moves back and a completion is never undone. */
  predicate FlowMoved(x: Flow, y: Flow) {
    y == x.(requests := y.requests, expiresAt := y.expiresAt, completedAt := y.completedAt) &&
    x.requests <= y.requests && x.expiresAt <= y.expiresAt && (x.completedAt.Some? ==> y.completedAt == x.completedAt)
  }

  ghost predicate FlowsMove(before: map<Id, Flow>, after: map<Id, Flow>) {
    forall f :: f in before && f in after ==> FlowMoved(before[f], after[f])
  }

  lemma LinkRowsKept(links: map<Id, Link>, flows: map<Id, Flow>, links': map<Id, Link>, flows': map<Id, Flow>)
    requires LinkRows(links, flows) && FewerLinks(links, links') && FlowsMove(flows, flows')
    requires forall l :: l in links' ==> links'[l].scope in flows'
    ensures LinkRows(links', flows')
  {
  }

  lemma CodeRowsKept(codes: map<Id, AuthCode>, flows: map<Id, Flow>, codes': map<Id, AuthCode>, flows': map<Id, Flow>)
    requires CodeRows(codes, flows) && FewerCodes(codes, codes') && FlowsMove(flows, flows')
    requires forall c :: c in codes' ==> codes'[c].flow in flows'
    ensures CodeRows(codes', flows')
  {
  }

  lemma CountKept(links: map<Id, Link>, flows: map<Id, Flow>, next: Id, links': map<Id, Link>, flows': map<Id, Flow>,
                  next': Id)
    requires LinksCounted(links, flows, next) && FewerLinks(links, links') && FlowsMove(flows, flows')
    requires flows'.Keys <= flows.Keys && (forall l :: l in links ==> l < next) && next <= next'
    ensures LinksCounted(links', flows', next')
  {
    hide LinkCount;
    forall f | f in flows'
      ensures LinkCount(links', f, next') <= flows'[f].requests
    {
      CountShrinks(links, links', f, next');
      CountExtends(links, f, next, next');
    }
  }

  /** Steps after which no flow, link or code is new. */
  lemma ThinnerKeeps(db: Db, now: Time, v: Db, now': Time)
    requires Intact(db) && Intact(v) && FlowInv(db, now) && now <= now' && db.next <= v.next
    requires Within(v.flows, db.flows) && FewerLinks(db.links, v.links) && FewerCodes(db.codes, v.codes)
    ensures FlowInv(v, now')
  {
    hide SessionRefs; hide ChangeRefs; hide ConfirmationRefs; hide LinkRows; hide CodeRows; hide LinksCounted;
    assert FlowsMove(db.flows, v.flows);
    LinkRowsKept(db.links, db.flows, v.links, v.flows);
    CodeRowsKept(db.codes, db.flows, v.codes, v.flows);
    CountKept(db.links, db.flows, db.next, v.links, v.flows, v.next);
  }

  // ---- A flow is started, or asked for an email ----

  lemma CreateKeeps(w: World, client: ClientId, uri: string, challenge: Challenge)
    requires Intact(w.db) && FlowInv(w.db, w.now)
    ensures FlowInv(Login.CreateFlow(w, client, uri, challenge).db, w.now)
  {
    hide LinkCount; hide SessionRefs; hide ChangeRefs; hide ConfirmationRefs;
    var v := Login.CreateFlow(w, client, uri, challenge).db;
    forall f | f in v.flows
      ensures LinkCount(v.links, f, v.next) <= v.flows[f].requests
    {
      CountExtends(w.db.links, f, w.db.next, w.db.next + 1);
      if f == w.db.next { NoLinks(w.db.links, f, w.db.next); }
    }
  }

  lemma {:induction false} NoLinks(links: map<Id, Link>, f: Id, n: Id)
    requires forall l :: l in links ==> links[l].scope != f
    ensures LinkCount(links, f, n) == 0
  {
    if n > 0 { NoLinks(links, f, n - 1); }
  }

  lemma LinkAddedKeeps(links: map<Id, Link>, flows: map<Id, Flow>, next: Id, flow: Id, moved: Flow, link: Link)
    requires LinksCounted(links, flows, next) && flow in flows && moved.requests == flows[flow].requests + 1
    requires link.scope == flow && forall l :: l in links ==> l < next
    ensures LinksCounted(links[next := link], flows[flow := moved], next + 1)
  {
    var after := links[next := link];
    forall f | f in flows
      ensures LinkCount(after, f, next) <= LinkCount(links, f, next)
    {
      CountShrinks(links, after, f, next);
    }
  }

  lemma RequestKeeps(w: World, flow: Id, email: Email, signup: Option<bool>, plain: string)
    requires Intact(w.db) && FlowInv(w.db, w.now)
    ensures FlowInv(Login.RequestLink(w, flow, email, signup, plain).world.db, w.now)
  {
    hide Login.RequestLink; hide LinksCounted; hide LinkRows; hide CodeRows; hide Intact; hide NewLink;
    var user := RequestCases(w, flow, email, signup, plain);
    var out := Login.RequestLink(w, flow, email, signup, plain);
    if out.reply.Accepted? {
      CodeRowsKept(w.db.codes, w.db.flows, out.world.db.codes, out.world.db.flows) by { IntactFlows(w.db); }
      RequestKeepsLinks(w, out.world, flow, email, user, plain);
    }
  }

  lemma IntactFlows(db: Db)
    requires Intact(db)
    ensures forall c :: c in db.codes ==> db.codes[c].flow in db.flows
  {
  }

  lemma RequestKeepsLinks(w: World, v: World, flow: Id, email: Email, user: Option<Id>, plain: string)
    requires LinkRows(w.db.links, w.db.flows) && LinksCounted(w.db.links, w.db.flows, w.db.next) && Intact(w.db)
    requires flow in w.db.flows && flow in v.db.flows && v.db.flows == w.db.flows[flow := v.db.flows[flow]]
    requires FlowMoved(w.db.flows[flow], v.db.flows[flow]) && w.now + CODE_TTL <= v.db.flows[flow].expiresAt
    requires v.db.flows[flow].requests == w.db.flows[flow].requests + 1
    requires (v.db.links == w.db.links && v.db.next == w.db.next) || NewLink(w, v, flow, email, user, plain)
    ensures LinkRows(v.db.links, v.db.flows) && LinksCounted(v.db.links, v.db.flows, v.db.next)
  {
    hide LinksCounted; hide SessionRefs; hide ChangeRefs; hide ConfirmationRefs; hide CodeRefs;
    LinkRowsKept(w.db.links, w.db.flows, w.db.links, v.db.flows);
    if v.db.next == w.db.next {
      CountKept(w.db.links, w.db.flows, w.db.next, v.db.links, v.db.flows, v.db.next);
    } else {
      LinkAddedKeeps(w.db.links, w.db.flows, w.db.next, flow, v.db.flows[flow], v.db.links[w.db.next]);
    }
  }

  // ---- A flow is completed ----

  lemma UsedKeeps(w: World, v: World, link: Id, id: Id, code: Id)
    requires Intact(w.db) && FlowInv(w.db, w.now) && LinkUsed(w, v, link, id, code) && LoginFrame(w, v)
    ensures FlowInv(v.db, w.now)
  {
    hide UserReady; hide FlowInv; hide Intact;
    CompletedKeeps(w.db, v.db, w.now, w.db.links[link].scope, code);
  }

  lemma CompletedKeeps(db: Db, v: Db, now: Time, flow: Id, code: Id)
    requires Intact(db) && FlowInv(db, now) && FlowPending(db.flows, flow, now) && db.next <= v.next
    requires OnlyMarked(db.links, v.links)
    requires v.flows == db.flows[flow := db.flows[flow].(completedAt := Some(now))]
    requires code in v.codes && v.codes == db.codes[code := v.codes[code]]
    requires v.codes[code].flow == flow && v.codes[code].expiresAt == now + AUTHORIZATION_CODE_TTL
    ensures FlowInv(v, now)
  {
    hide LinkRows; hide LinksCounted; hide SessionRefs; hide ChangeRefs; hide ConfirmationRefs;
    assert FlowsMove(db.flows, v.flows);
    LinkRowsKept(db.links, db.flows, v.links, v.flows);
    CountKept(db.links, db.flows, db.next, v.links, v.flows, v.next);
  }

  lemma ConfirmKeeps(w: World, a: Action)
    requires Intact(w.db) && FlowInv(w.db, w.now) && (a.ConfirmLink? || a.ConfirmCode?)
    ensures FlowInv(Apply(w, a).db, w.now)
  {
    hide FlowInv; hide LinkUsed; hide LinkCandidate; hide Login.ConfirmLink; hide Login.ConfirmCode; hide Intact;
    hide LoginFrame;
    IntactUsers(w.db);
    match a
    case ConfirmLink(link) =>
      var id := ConfirmLinkCases(w, link);
      var out := Login.ConfirmLink(w, link);
      if out.reply.Completed? { UsedKeeps(w, out.world, link, id, out.reply.code); }
    case ConfirmCode(flow, typed) =>
      var link, id := ConfirmCodeCases(w, flow, typed);
      var out := Login.ConfirmCode(w, flow, typed);
      if out.reply.Completed? { UsedKeeps(w, out.world, link, id, out.reply.code); }
      else if out.world != w {
        References.GuessKeeps(w, out.world, flow, link);
        ThinnerKeeps(w.db, w.now, out.world.db, w.now);
      }
  }

  // ---- Every step ----

  lemma DeletionsThin(w: World, a: Action)
    requires Intact(w.db) && (a.DeleteAccount? || a.RunPurge?)
    ensures var v := Apply(w, a).db;
      Within(v.flows, w.db.flows) && Within(v.links, w.db.links) && Within(v.codes, w.db.codes)
  {
    hide Intact; hide Purge.PurgeDb; hide Account.CheckCode;
    match a
    case RunPurge => PurgeKeeps(w.db, w.now);
    case DeleteAccount(sid, typed) =>
  }

  lemma StepKeeps(w: World, a: Action)
    requires Intact(w.db) && FlowInv(w.db, w.now)
    ensures FlowInv(Apply(w, a).db, Apply(w, a).now)
  {
    hide FlowInv; hide Intact; hide Apply;
    Frame(w, a);
    References.StepKeeps(w, a);
    match a {
      case CreateFlow(client, uri, challenge) => CreateKeeps(w, client, uri, challenge); AppliedCreate(w, a);
      case RequestLink(flow, email, signup, plain) => RequestKeeps(w, flow, email, signup, plain); AppliedCreate(w, a);
      case ConfirmLink(_) => ConfirmKeeps(w, a);
      case ConfirmCode(_, _) => ConfirmKeeps(w, a);
      case _ =>
        if a.DeleteAccount? || a.RunPurge? { DeletionsThin(w, a); }
        else if a.Exchange? { ExchangeThins(w, a); }
        ThinnerKeeps(w.db, w.now, Apply(w, a).db, Apply(w, a).now);
    }
  }

  lemma AppliedCreate(w: World, a: Action)
    requires a.CreateFlow? || a.RequestLink?
    ensures a.CreateFlow? ==> Apply(w, a) == Login.CreateFlow(w, a.flowClient, a.flowRedirect, a.challenge)
    ensures a.RequestLink? ==> Apply(w, a) == Login.RequestLink(w, a.flow, a.email, a.signup, a.plain).world
    ensures Apply(w, a).now == w.now
  {
  }

  lemma ExchangeThins(w: World, a: Action)
    requires a.Exchange?
    ensures FewerCodes(w.db.codes, Apply(w, a).db.codes)
  {
    hide Login.Exchange; hide PkceMatches; hide RejectCode;
    ExchangeCases(w, a.known, a.client, a.code, a.redirectUri, a.verifier, a.canSign);
  }
}
