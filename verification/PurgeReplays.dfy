/** Replay detection lives as long as the row of the code, which goes with its flow a day after the flow ended. */
module PurgeReplays {
  import opened Base
  import opened Tables
  import Refresh
  import Login
  import Purge
  import opened References
  import opened PurgeEffects
  import opened Chain
  import FlowBounds
  import CodeBudgets
  import Accounts
  import TokenForest
  import opened Soundness
  import opened System
  import G = Guarantees
  import PurgeInvisible

  /** Presenting a code that opened a live session again: it is refused, and ends the session exactly if its row
      is still there. */
  lemma ReplayRevokesIff(w: World, s: Id, client: ClientId, uri: string, verifier: string, canSign: bool)
    requires ChainInv(w) && s in w.ledger.openings && Refresh.Live(w.db.sessions, s, w.now)
    ensures var code := w.ledger.openings[s].code;
      var replay := Login.Exchange(w, true, client, code, uri, verifier, canSign);
      && replay.reply.UnusableCode? && s in replay.world.db.sessions
      && (replay.world.db.sessions[s].revokedAt.Some? <==> code in w.db.codes)
      && (code !in w.db.codes ==> replay.world == w)
  {
    hide ChainInv;
    var code := w.ledger.openings[s].code;
    if code in w.db.codes {
      G.SpentCode(w, s);
      G.RefusesSpent(w, client, code, uri, verifier, canSign);
      G.RejectsOpened(w, s);
      hide Login.Exchange;
      SameSessions(w, code);
    }
  }

  lemma SameSessions(w: World, code: Id)
    ensures Login.RejectCode(w, code).db.sessions.Keys == w.db.sessions.Keys
  {
  }

  /** A live session's account is verified, so its code goes only with its flow. */
  lemma CodeStaysIff(w: World, s: Id)
    requires Sound(w) && s in w.ledger.openings && Refresh.Live(w.db.sessions, s, w.now)
    requires w.ledger.openings[s].code in w.db.codes
    ensures var code := w.ledger.openings[s].code;
      code in Purge.PurgeDb(w.db, w.now).codes <==> !FlowGoes(w.db, w.db.codes[code].flow, w.now)
  {
    hide Purge.PurgeDb; hide FlowBounds.FlowInv; hide CodeBudgets.CodeInv; hide Accounts.AccountInv;
    hide TokenForest.TokenInv;
    LoginRowsLeft(w.db, w.now);
    PurgeInvisible.LiveSpared(w, s);
    SameAccount(w, s);
    assert UsersLeft(w.db, Purge.PurgeDb(w.db, w.now).users, w.now);
  }

  lemma SameAccount(w: World, s: Id)
    requires ChainInv(w) && s in w.ledger.openings && s in w.db.sessions && w.ledger.openings[s].code in w.db.codes
    ensures w.db.codes[w.ledger.openings[s].code].user == w.db.sessions[s].user
  {
  }

  /** In every run: after a purge, replaying the code of a live session still ends that session exactly if the
      row of the code was there and its flow had not ended more than a day ago; otherwise the replay is refused
      and changes nothing. */
  lemma ReplayAfterPurgeIff(start: Time, actions: seq<Action>, s: Id, client: ClientId, uri: string, verifier: string,
                            canSign: bool)
    requires var w := Run(Init(start), actions); s in w.ledger.openings && Refresh.Live(w.db.sessions, s, w.now)
    ensures var w := Run(Init(start), actions);
      var code := w.ledger.openings[s].code;
      var replay := Login.Exchange(Purge.Run(w), true, client, code, uri, verifier, canSign);
      && replay.reply.UnusableCode? && s in replay.world.db.sessions
      && (replay.world.db.sessions[s].revokedAt.Some? <==>
            code in w.db.codes && w.db.codes[code].flow in w.db.flows &&
            w.now - DAY <= w.db.flows[w.db.codes[code].flow].expiresAt)
      && (replay.world.db.sessions[s].revokedAt.None? ==> replay.world == Purge.Run(w))
  {
    hide System.Run; hide Sound; hide Purge.PurgeDb; hide Login.Exchange; hide ChainInv; hide Refresh.Live;
    hide Intact;
    Always(start, actions);
    var w := Run(Init(start), actions);
    var v := Purge.Run(w);
    StepSound(w);
    PurgeInvisible.LiveSpared(w, s);
    PurgeInvisible.Purged(w.db, w.now);
    ReplayRevokesIff(v, s, client, uri, verifier, canSign);
    CodeRow(w, s);
    if w.ledger.openings[s].code in w.db.codes { CodeStaysIff(w, s); }
  }

  lemma StepSound(w: World)
    requires Sound(w)
    ensures ChainInv(Purge.Run(w)) && Intact(w.db)
  {
    hide Purge.PurgeDb; hide ChainInv; hide Intact; hide FlowBounds.FlowInv; hide CodeBudgets.CodeInv;
    hide Accounts.AccountInv; hide TokenForest.TokenInv;
    Soundness.StepKeeps(w, RunPurge);
  }

  lemma CodeRow(w: World, s: Id)
    requires Sound(w) && s in w.ledger.openings
    ensures w.ledger.openings[s].code in w.db.codes ==> w.db.codes[w.ledger.openings[s].code].flow in w.db.flows
  {
  }
}
