/** What one refresh of the session object leaves in the store, answer by answer. */
module SdkRounds {
  import opened Base
  import opened Refresh
  import opened Sdk

  /** The store once the answer to a refresh has been dealt with: the new token; nothing, for the answers that say
      the session is over; and in every other case, or if the write fails, what it was. */
  function Left(store: Option<Id>, reply: RefreshReply, written: bool): Option<Id> {
    match reply
    case Issued(t, _) => if written then Some(t) else store
    case UnknownToken => if written then None else store
    case OtherClient => if written then None else store
    case SessionOver => if written then None else store
    case Reused => if written then None else store
    case AccountDisabled => if written then None else store
    case InvalidClient => store
    case NoSigningKey => store
  }

  /** From any state of the app and the server, for any running refresh that has its answer. */
  lemma AnswerIsStored(j: Joint, client: ClientId, r: Ref, written: bool)
    requires r in j.app.running && j.app.running[r].Answered?
    ensures var end := Play(j, client, [App(Delivered(r)), App(WriteDone(r, written))]);
      && end.app.store == Left(j.app.store, j.app.running[r].reply, written)
      && r !in end.app.running && r in end.app.settled && end.world == j.world && end.sent == j.sent
  {
    hide Play;
    PlayTwo(j, client, App(Delivered(r)), App(WriteDone(r, written)));
  }

  /** One refresh from an idle app to an idle app. */
  function Round(n: Ref, canSign: bool, written: bool): seq<Move> {
    [App(Call), App(ReadDone(n))] + [Serve(n, canSign), App(Delivered(n))] +
    [App(WriteDone(n, written)), App(Finally(n))]
  }

  /** An idle app with a stored token refreshes, and the server answers: the token sent is the stored one, the store
      then holds what the answer says, and the app is idle again. */
  lemma RoundLeaves(j: Joint, client: ClientId, token: Id, canSign: bool, written: bool)
    requires SingleFlight(j.app) && j.app.refreshing.None? && j.app.store == Some(token)
    ensures var out := Grant(j.world, true, client, token, canSign);
      var end := Play(j, client, Round(j.app.next, canSign, written));
      && end.world == out.world && end.sent == j.sent + [token]
      && end.app == Kept(Left(Some(token), out.reply, written), None, map[], {}, j.app.next + 1)
  {
    hide Grant; hide Play; hide Moved; hide Left;
    var n := j.app.next;
    var reply := Grant(j.world, true, client, token, canSign).reply;
    var a, b, c := [App(Call), App(ReadDone(n))], [Serve(n, canSign), App(Delivered(n))],
                   [App(WriteDone(n, written)), App(Finally(n))];
    var j2 := FirstTwo(j, client, token);
    FirstSends(j, client, token);
    var j3 := Moved(j2, client, Serve(n, canSign));
    ServedRound(j2, client, n, token, canSign);
    var j4 := Moved(j3, client, App(Delivered(n)));
    var j5 := Moved(j4, client, App(WriteDone(n, written)));
    PlayTwo(j2, client, Serve(n, canSign), App(Delivered(n)));
    PlayTwo(j4, client, App(WriteDone(n, written)), App(Finally(n)));
    PlayMore(j, client, a, b);
    PlayMore(j, client, a + b, c);
    SettledRound(j3, client, n, token, reply, written);
  }

  lemma FirstSends(j: Joint, client: ClientId, token: Id)
    requires SingleFlight(j.app) && j.app.refreshing.None? && j.app.store == Some(token)
    ensures var k := Play(j, client, [App(Call), App(ReadDone(j.app.next))]);
      k.sent == j.sent + [token] && k.world == j.world
  {
    hide Play;
    PlayTwo(j, client, App(Call), App(ReadDone(j.app.next)));
  }

  lemma ServedRound(j: Joint, client: ClientId, n: Ref, token: Id, canSign: bool)
    requires j.app == Kept(Some(token), Some(n), map[n := Sending(token)], {}, n + 1)
    ensures var out := Grant(j.world, true, client, token, canSign);
      var k := Moved(j, client, Serve(n, canSign));
      k.app == j.app.(running := map[n := Answered(token, out.reply)]) && k.world == out.world && k.sent == j.sent
  {
    hide Grant;
  }

  lemma SettledRound(j: Joint, client: ClientId, n: Ref, token: Id, reply: RefreshReply, written: bool)
    requires j.app == Kept(Some(token), Some(n), map[n := Answered(token, reply)], {}, n + 1)
    ensures var x := Moved(Moved(j, client, App(Delivered(n))), client, App(WriteDone(n, written)));
      var k := Moved(x, client, App(Finally(n)));
      && k.app == Kept(Left(Some(token), reply, written), None, map[], {}, n + 1)
      && k.world == j.world && k.sent == j.sent
  {
    var x := Moved(j, client, App(Delivered(n)));
    var y := Moved(x, client, App(WriteDone(n, written)));
    assert y.app.running == map[] && y.app.settled == {n};
  }

  /** An idle app sends its token and no answer comes: the store stays, the caller is told, and the app is idle again,
      free to try once more. */
  lemma LostLeaves(j: Joint, client: ClientId, token: Id)
    requires SingleFlight(j.app) && j.app.refreshing.None? && j.app.store == Some(token)
    ensures var n := j.app.next;
      var end := Play(j, client, [App(Call), App(ReadDone(n))] + [App(Lost(n)), App(Finally(n))]);
      && end.world == j.world && end.sent == j.sent + [token]
      && end.app == Kept(Some(token), None, map[], {}, n + 1)
  {
    hide Play; hide Moved;
    var n := j.app.next;
    var k := FirstTwo(j, client, token);
    FirstSends(j, client, token);
    PlayTwo(k, client, App(Lost(n)), App(Finally(n)));
    PlayMore(j, client, [App(Call), App(ReadDone(n))], [App(Lost(n)), App(Finally(n))]);
    LostTwo(k, client, n, token);
  }

  lemma LostTwo(j: Joint, client: ClientId, n: Ref, token: Id)
    requires j.app == Kept(Some(token), Some(n), map[n := Sending(token)], {}, n + 1)
    ensures var k := Moved(Moved(j, client, App(Lost(n))), client, App(Finally(n)));
      k.app == Kept(Some(token), None, map[], {}, n + 1) && k.world == j.world && k.sent == j.sent
  {
    var x := Moved(j, client, App(Lost(n)));
    assert x.app.running == map[] && x.app.settled == {n};
  }

  /** An app with nothing stored sends nothing. */
  lemma EmptyStoreSendsNothing(j: Joint, client: ClientId)
    requires SingleFlight(j.app) && j.app.refreshing.None? && j.app.store.None?
    ensures var n := j.app.next; var end := Play(j, client, [App(Call), App(ReadDone(n))]);
      end.sent == j.sent && end.world == j.world && end.app.running == map[] && n in end.app.settled
  {
    hide Play;
    PlayTwo(j, client, App(Call), App(ReadDone(j.app.next)));
    assert Moved(Moved(j, client, App(Call)), client, App(ReadDone(j.app.next))).app.running == map[];
  }
}
