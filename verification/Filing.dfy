/** Under which key a message is filed, told from its header and its fallback key: equal
    keys are answered as one message, different ones as different messages. */
module Filing {
  import opened Basics
  import opened Tables
  import opened Intake
  import opened Nodes
  import opened System
  import opened ExactlyOnce

  /** The committed row of a key was won by a request with that key. */
  lemma {:induction false} RowWinner(cfg: Config, s: State, c: Communication) returns (i: nat)
    requires Inv(cfg, s) && c in s.db.communications && c.key.Some?
    ensures RequestAt(s, i) && s.requests[i].won.Some? && s.requests[i].won.value.communication == c
    ensures KeyFor(cfg, s.requests[i]) == c.key.value
  {
    hide AllSeparate, IdsIn, CacheOk, UniqueKeys, AllRequestsOk, KeyFor, Winners, StagingFits;
    assert OwnedKey(s.db, c);
    assert CommunicationWon(Winners(s.requests), c);
    var w :| w in Winners(s.requests) && w.communication == c;
    WinnerRows(cfg, s, w);
    var p :| p in s.requests && p.won == Some(w) && StagingFits(cfg, p, w);
    FitsKey(cfg, p, p, w);
    i :| 0 <= i < |s.requests| && s.requests[i] == p;
  }

  /** An answer names the communication of the request that won its key. */
  lemma {:induction false} AnswerWinner(cfg: Config, s: State, q: Request) returns (i: nat)
    requires Inv(cfg, s) && q in s.requests && AckIn(q.state).Some?
    ensures RequestAt(s, i) && s.requests[i].won.Some? && KeyFor(cfg, s.requests[i]) == KeyFor(cfg, q)
    ensures s.requests[i].won.value.communication.id == AckIn(q.state).value.communication
  {
    hide AllSeparate, TablesOk, EveryRowWon, CacheOk, Winners, KeyFor, ListsOriginal, RequestOk;
    var r :| 0 <= r < |s.requests| && s.requests[r] == q;
    NotWonYet(cfg, s, r);
    var ack := AckIn(q.state).value;
    var c :| c in s.db.communications && c.key == Some(KeyFor(cfg, q)) && c.id == ack.communication && c.application == ack.application;
    hide Inv;
    i := RowWinner(cfg, s, c);
  }

  lemma {:induction false} WinnersApart(cfg: Config, s: State, i: nat, j: nat)
    requires Inv(cfg, s) && RequestAt(s, i) && RequestAt(s, j) && s.requests[i].won.Some? && s.requests[j].won.Some?
    requires KeyFor(cfg, s.requests[i]) != KeyFor(cfg, s.requests[j])
    ensures s.requests[i].won.value.communication.id != s.requests[j].won.value.communication.id
  {
    OwnCommunication(s.requests[i].won.value);
    OwnCommunication(s.requests[j].won.value);
    hide Inv, KeyFor, OwnIds;
    if i < j { TwoWinners(cfg, s, i, j); } else { TwoWinners(cfg, s, j, i); }
  }

  lemma {:induction false} OwnCommunication(staging: Staging)
    ensures staging.communication.id in OwnIds(staging)
  {
  }

  /** The same key: the same header, the same fallback key, or one for the other. */
  predicate FiledAlike(cfg: Config, p: Request, q: Request) {
    match (p.header, q.header)
    case (Some(x), Some(y)) => x == y
    case (Some(x), None) => x == cfg.fallbackKey(q.message)
    case (None, Some(y)) => cfg.fallbackKey(p.message) == y
    case (None, None) => cfg.fallbackKey(p.message) == cfg.fallbackKey(q.message)
  }

  lemma {:induction false} FiledAlikeSameKey(cfg: Config, p: Request, q: Request)
    requires Strip(p.message.userId) == Strip(q.message.userId)
    ensures FiledAlike(cfg, p, q) <==> KeyFor(cfg, p) == KeyFor(cfg, q)
  {
    hide Strip;
    var front := Strip(p.message.userId) + ":";
    var x, y := KeyOf(cfg, p.message, p.header), KeyOf(cfg, q.message, q.header);
    assert (front + x)[|front|..] == x && (front + y)[|front|..] == y;
  }

  /** Any two answered requests of one borrower name the same communication exactly when
      they are filed alike. */
  ghost predicate AnsweredAsFiled(cfg: Config, s: State) {
    forall p, q | p in s.requests && q in s.requests && AckIn(p.state).Some? && AckIn(q.state).Some?
                  && Strip(p.message.userId) == Strip(q.message.userId) ::
      AckIn(p.state).value.communication == AckIn(q.state).value.communication <==> FiledAlike(cfg, p, q)
  }

  /** In every history a message is stored once under its own key: its header or, without
      one, its own fallback key. */
  lemma {:induction false} FiledExactly(cfg: Config, rt: Runtime, steps: seq<Step>)
    requires Runs(cfg, rt, INIT, steps)
    ensures AnsweredAsFiled(cfg, After(cfg, rt, INIT, steps))
  {
    var s := After(cfg, rt, INIT, steps);
    InitSound(cfg);
    HistoryKeepsSound(cfg, rt, INIT, steps);
    hide After, Runs, Inv, RunsKnown, FiledAlike, KeyFor, Strip;
    forall p, q | p in s.requests && q in s.requests && AckIn(p.state).Some? && AckIn(q.state).Some?
                  && Strip(p.message.userId) == Strip(q.message.userId)
      ensures AckIn(p.state).value.communication == AckIn(q.state).value.communication <==> FiledAlike(cfg, p, q)
    {
      FiledAlikeSameKey(cfg, p, q);
      AnswersOf(cfg, s, p, q);
    }
  }

  lemma {:induction false} AnswersOf(cfg: Config, s: State, p: Request, q: Request)
    requires Inv(cfg, s) && p in s.requests && q in s.requests && AckIn(p.state).Some? && AckIn(q.state).Some?
    ensures AckIn(p.state).value.communication == AckIn(q.state).value.communication <==> KeyFor(cfg, p) == KeyFor(cfg, q)
  {
    hide Inv, KeyFor;
    var i := AnswerWinner(cfg, s, p);
    var j := AnswerWinner(cfg, s, q);
    if KeyFor(cfg, p) == KeyFor(cfg, q) {
      SameWinner(cfg, s, i, j);
    } else {
      WinnersApart(cfg, s, i, j);
    }
  }

  lemma {:induction false} SameWinner(cfg: Config, s: State, i: nat, j: nat)
    requires Inv(cfg, s) && RequestAt(s, i) && RequestAt(s, j) && s.requests[i].won.Some? && s.requests[j].won.Some?
    requires KeyFor(cfg, s.requests[i]) == KeyFor(cfg, s.requests[j])
    ensures i == j
  {
    hide Inv, KeyFor, OwnIds;
    if i < j {
      TwoWinners(cfg, s, i, j);
    } else if j < i {
      TwoWinners(cfg, s, j, i);
    }
  }
}
