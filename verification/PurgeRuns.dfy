/** Two runs in which a purge shows. */
module PurgeRuns {
  import opened Base
  import opened Tables
  import opened EmailedCodes
  import opened Budget
  import Login
  import Purge
  import opened PurgeEffects
  import opened Soundness
  import opened Owners
  import opened PurgeExactly
  import opened System

  const WEEK_AND_A_DAY: Time := 8 * DAY

  lemma RunFirst(w: World, a: Action, rest: seq<Action>)
    ensures Run(w, [a] + rest) == Run(Apply(w, a), rest)
  {
    hide Apply;
    assert ([a] + rest)[1..] == rest;
  }

  /** Whatever comes after the import, the wait and the flow. */
  lemma RunImported(rest: seq<Action>)
    ensures Run(Init(0), ImportThenWait() + rest) == Run(Imported(), rest)
  {
    hide Apply; hide Run; hide Imported;
    ImportThenFlow();
    var a, b, c := ImportUser("a"), Tick(WEEK_AND_A_DAY), CreateFlow("app", "uri", NoDigest(""));
    assert ImportThenWait() + rest == [a] + ([b] + ([c] + rest));
    RunFirst(Init(0), a, [b] + ([c] + rest));
    RunFirst(Apply(Init(0), a), b, [c] + rest);
    RunFirst(Apply(Apply(Init(0), a), b), c, rest);
  }

  function ImportThenWait(): seq<Action> {
    [ImportUser("a"), Tick(WEEK_AND_A_DAY), CreateFlow("app", "uri", NoDigest(""))]
  }

  // ---- An imported account that never logged in, eight days later ----

  function Imported(): World {
    var w := Init(0);
    w.(db := w.db.(users := map[0 := User("a", None, None, 0)],
                   flows := map[1 := Flow("app", "uri", NoDigest(""), 0, WEEK_AND_A_DAY + FLOW_TTL, None,
                                          WEEK_AND_A_DAY)],
                   next := 2),
       ledger := w.ledger.(flows := map[1 := FlowTerms("app", NoDigest(""))]),
       now := WEEK_AND_A_DAY)
  }

  lemma ImportThenFlow()
    ensures var create := CreateFlow("app", "uri", NoDigest(""));
      Apply(Apply(Apply(Init(0), ImportUser("a")), Tick(WEEK_AND_A_DAY)), create) == Imported()
  {
    var w1 := Apply(Init(0), ImportUser("a"));
    assert w1.db.users == map[0 := User("a", None, None, 0)];
  }

  function Mail(user: Option<Id>, email: Email, code: string): Link {
    CodeRow(email, 1, user, email, Hmac(1, code), 0, WEEK_AND_A_DAY + CODE_TTL, None, WEEK_AND_A_DAY)
  }

  function ImportedThenMailed(): seq<Action> {
    ImportThenWait() + [RequestLink(1, "a", Some(false), "000000")]
  }

  lemma LinkIsMailed(w: World)
    requires w == Apply(Imported(), RequestLink(1, "a", Some(false), "000000"))
    ensures w.db.users == Imported().db.users && w.now == WEEK_AND_A_DAY
    ensures w.db.links == map[2 := Mail(Some(0), "a", "000000")]
    ensures Login.FlowPending(w.db.flows, 1, w.now)
  {
    var v := Imported();
    assert Login.FindByEmail(v.db.users, "a", v.db.next) == Some(0) by {
      assert Login.FindByEmail(v.db.users, "a", 1) == Some(0);
    }
  }

  /** Its link works before the purge and not after. */
  lemma PurgeTakesAnImportedAccountsLink()
    ensures var w := Run(Init(0), ImportedThenMailed());
      Login.ConfirmLink(w, 2).reply.Completed? && Login.ConfirmLink(Purge.Run(w), 2).reply.InvalidToken?
  {
    hide Purge.PurgeDb; hide Sound; hide OwnerInv; hide Apply; hide Run; hide Imported;
    RunImported([RequestLink(1, "a", Some(false), "000000")]);
    RunLast(Imported(), RequestLink(1, "a", Some(false), "000000"));
    var w := Run(Init(0), ImportedThenMailed());
    LinkIsMailed(w);
    OwnersAlways(0, ImportedThenMailed());
    assert w.db.users == map[0 := User("a", None, None, 0)] by { ImportedUsers(); }
    LinkAfterPurge(w, 2);
  }

  lemma ImportedUsers()
    ensures Imported().db.users == map[0 := User("a", None, None, 0)]
  {
  }

  lemma RunLast(w: World, a: Action)
    ensures Run(w, [a]) == Apply(w, a)
  {
    hide Apply;
    assert [a][1..] == [];
    assert Run(Apply(w, a), []) == Apply(w, a);
  }

  // ---- The same, with an older code of the same flow ----

  /** First a code for somebody new, then, on the same flow, one for the imported account: the newer mail
      disables the older code. */
  function MailedTwice(): seq<Action> {
    ImportThenWait() + [RequestLink(1, "b", Some(true), "111111"), RequestLink(1, "a", Some(true), "000000")]
  }

  lemma TwoLinks(w: World)
    requires w == Apply(Apply(Imported(), RequestLink(1, "b", Some(true), "111111")),
                        RequestLink(1, "a", Some(true), "000000"))
    ensures w.db.users == Imported().db.users && w.now == WEEK_AND_A_DAY && w.db.next == 4
    ensures w.db.links == map[2 := Mail(None, "b", "111111"), 3 := Mail(Some(0), "a", "000000")]
    ensures Login.FlowPending(w.db.flows, 1, w.now)
  {
    var v := Imported();
    Nobody(v.db.users);
    var u := Apply(v, RequestLink(1, "b", Some(true), "111111"));
    assert u.db.links == map[2 := Mail(None, "b", "111111")] && u.db.next == 3 && u.db.users == v.db.users;
    hide Apply;
    SecondLink(u, v, w);
  }

  lemma Nobody(users: map<Id, User>)
    requires users == map[0 := User("a", None, None, 0)]
    ensures Login.FindByEmail(users, "b", 2) == None && Login.FindByEmail(users, "a", 3) == Some(0)
  {
    assert Login.FindByEmail(users, "b", 1) == None;
    assert Login.FindByEmail(users, "a", 1) == Some(0);
    assert Login.FindByEmail(users, "a", 2) == Some(0);
  }

  lemma SecondLink(u: World, v: World, w: World)
    requires u.db.links == map[2 := Mail(None, "b", "111111")] && u.db.next == 3 && u.db.users == Imported().db.users
    requires u.now == WEEK_AND_A_DAY && 1 in u.db.flows && u.db.flows[1].requests < 3
    requires Login.FlowPending(u.db.flows, 1, u.now)
    requires w == Apply(u, RequestLink(1, "a", Some(true), "000000"))
    ensures w.db.users == u.db.users && w.now == u.now && w.db.next == 4
    ensures w.db.links == map[2 := Mail(None, "b", "111111"), 3 := Mail(Some(0), "a", "000000")]
    ensures Login.FlowPending(w.db.flows, 1, w.now)
  {
    Nobody(u.db.users);
  }

  /** The purge deletes the imported account with the newer link, and the older code, refused before,
      logs in. */
  lemma PurgeRevivesAnOlderCode()
    ensures var w := Run(Init(0), MailedTwice());
      Login.ConfirmCode(w, 1, "111111").reply.InvalidCode? &&
      Login.ConfirmCode(Purge.Run(w), 1, "111111").reply.Completed?
  {
    hide Purge.PurgeDb; hide Sound; hide OwnerInv; hide Apply; hide Run; hide Imported; hide Newest; hide CodeOpens;
    var a, b := RequestLink(1, "b", Some(true), "111111"), RequestLink(1, "a", Some(true), "000000");
    RunImported([a, b]);
    assert [a, b] == [a] + [b];
    RunFirst(Imported(), a, [b]);
    RunLast(Apply(Imported(), a), b);
    var w := Run(Init(0), MailedTwice());
    TwoLinks(w);
    ImportedUsers();
    OwnersAlways(0, MailedTwice());
    AfterPurgeIff(w, 1, "111111");
    OldCodeSurvives(w);
    OldCodeIsRefused(w);
  }

  ghost predicate MailedState(w: World) {
    && w.db.users == map[0 := User("a", None, None, 0)] && w.now == WEEK_AND_A_DAY && w.db.next == 4
    && w.db.links == map[2 := Mail(None, "b", "111111"), 3 := Mail(Some(0), "a", "000000")]
    && Login.FlowPending(w.db.flows, 1, w.now)
  }

  lemma OldCodeSurvives(w: World)
    requires MailedState(w)
    ensures CodeOpens(w, 1, Survivor(w, 1), "111111")
  {
    hide Newest;
    var links := map[2 := Mail(None, "b", "111111")];
    assert Spared(w) == links;
    assert Newest(links, 1, 4) == Some(2) by { NewestOfOne(links); }
    assert DayTotal(w.db.links, "b", 4, w.now) == 0 by { NoFailures(w); }
    assert Login.FlowPending(w.db.flows, 1, w.now);
  }

  lemma NewestOfOne(links: map<Id, Link>)
    requires links == map[2 := Mail(None, "b", "111111")]
    ensures Newest(links, 1, 4) == Some(2)
  {
    assert Newest(links, 1, 0) == None && Newest(links, 1, 1) == None && Newest(links, 1, 2) == None;
    assert Newest(links, 1, 3) == Some(2);
  }

  lemma NoFailures(w: World)
    requires MailedState(w)
    ensures DayTotal(w.db.links, "b", 4, w.now) == 0
  {
    var since := w.now - DAY;
    assert FailuresSince(w.db.links, "b", since, 1) == 0 && FailuresSince(w.db.links, "b", since, 2) == 0;
    assert FailuresSince(w.db.links, "b", since, 3) == 0;
  }

  lemma OldCodeIsRefused(w: World)
    requires MailedState(w)
    ensures Login.ConfirmCode(w, 1, "111111").reply.InvalidCode?
  {
    hide Login.LogIn; hide Newest; hide FailuresSince;
    assert Newest(w.db.links, 1, 4) == Some(3) by { NewestOfTwo(w.db.links); }
    assert Hmac(1, "000000") != Hmac(1, "111111") by { assert "000000"[0] != "111111"[0]; }
  }

  lemma NewestOfTwo(links: map<Id, Link>)
    requires links == map[2 := Mail(None, "b", "111111"), 3 := Mail(Some(0), "a", "000000")]
    ensures Newest(links, 1, 4) == Some(3)
  {
    assert Newest(links, 1, 0) == None && Newest(links, 1, 1) == None && Newest(links, 1, 2) == None;
    assert Newest(links, 1, 3) == Some(2);
  }
}
