/** The intake of one message in the running system is the intake of the code: whatever
    other steps are taken between its preparation and its commit. */
module Requests {
  import opened Basics
  import opened Tables
  import opened Intake
  import opened Nodes
  import opened System

  function ResultIn(state: RequestState): Result<Ack, IntakeError>
    requires state.Acked? || state.Rejected?
  {
    if state.Acked? then Ok(state.ack) else Err(state.error)
  }

  lemma {:induction false} PrepareIs(cfg: Config, rt: Runtime, s: State, r: nat, chosen: Option<Uuid>, draw: Draw)
    requires Enabled(cfg, rt, s, Prepare(r, chosen, draw))
    ensures RequestAt(s, r) && |draw.documents| == |s.requests[r].message.attachments|
    ensures NewestOpen(s.db, Strip(s.requests[r].message.userId), chosen)
    ensures var q, s1 := s.requests[r], Apply(cfg, rt, s, Prepare(r, chosen, draw));
            && RequestAt(s1, r) && s1.db == s.db && s1.requests[r].message == q.message && s1.requests[r].header == q.header
            && s1.requests[r].state == match StageMessage(cfg, s.db, q.message, KeyOf(cfg, q.message, q.header), chosen, draw)
                                       case Ok(staging) => Prepared(staging)
                                       case Err(e) => Rejected(e)
  {
    hide StageMessage, NewDraw, Strip, KeyOf;
  }

  /** A refused message: nothing is written. */
  lemma {:induction false} RefusedIngest(cfg: Config, rt: Runtime, s: State, meanwhile: Db, later: Db, r: nat, chosen: Option<Uuid>, draw: Draw)
    requires Enabled(cfg, rt, s, Prepare(r, chosen, draw))
    requires var s1 := Apply(cfg, rt, s, Prepare(r, chosen, draw)); RequestAt(s1, r) && s1.requests[r].state.Rejected?
    ensures var q, s1 := s.requests[r], Apply(cfg, rt, s, Prepare(r, chosen, draw));
            && |draw.documents| == |q.message.attachments|
            && IngestOutcome(cfg, s.db, meanwhile, later, q.message, KeyOf(cfg, q.message, q.header), draw, ResultIn(s1.requests[r].state), s1.db)
  {
    PrepareIs(cfg, rt, s, r, chosen, draw);
    hide Apply, Enabled, StageMessage, NewestOpen, Strip, KeyOf, Committed, KeyCommitted, Replayed;
  }

  /** A prepared message commits to the tables as others have left them by then. */
  lemma {:induction false} CommittedIngest(cfg: Config, rt: Runtime, s: State, s2: State, later: Db, r: nat, chosen: Option<Uuid>, draw: Draw)
    requires Enabled(cfg, rt, s, Prepare(r, chosen, draw)) && Enabled(cfg, rt, s2, CommitMessage(r)) && RequestAt(s2, r)
    requires var s1 := Apply(cfg, rt, s, Prepare(r, chosen, draw)); RequestAt(s1, r) && s2.requests[r] == s1.requests[r]
    ensures var q, s3 := s.requests[r], Apply(cfg, rt, s2, CommitMessage(r));
            && RequestAt(s3, r) && |draw.documents| == |q.message.attachments|
            && (s3.requests[r].state.Acked? || s3.requests[r].state.Conflicted?)
            && (s3.requests[r].state.Acked? ==>
                  IngestOutcome(cfg, s.db, s2.db, later, q.message, KeyOf(cfg, q.message, q.header), draw, ResultIn(s3.requests[r].state), s3.db))
            && (s3.requests[r].state.Conflicted? ==> s3.db == s2.db && s3.requests[r] == s2.requests[r].(state := Conflicted))
  {
    PrepareIs(cfg, rt, s, r, chosen, draw);
    CommitIs(cfg, rt, s2, r);
    hide Apply, Enabled, StageMessage, NewestOpen, Strip, KeyOf, Committed, KeyCommitted, Replayed;
  }

  lemma {:induction false} CommitIs(cfg: Config, rt: Runtime, s: State, r: nat)
    requires Enabled(cfg, rt, s, CommitMessage(r))
    ensures RequestAt(s, r) && s.requests[r].state.Prepared?
    ensures var staging, s' := s.requests[r].state.staging, Apply(cfg, rt, s, CommitMessage(r));
            && RequestAt(s', r)
            && if KeyCommitted(s.db, staging) then s'.db == s.db && s'.requests[r] == s.requests[r].(state := Conflicted)
               else s'.db == Committed(s.db, staging) && s'.requests[r].state == Acked(AckOf(staging))
  {
    hide Committed, KeyCommitted;
  }

  lemma {:induction false} ReplayIs(cfg: Config, rt: Runtime, s: State, r: nat, order: seq<Uuid>)
    requires Enabled(cfg, rt, s, Replay(r, order))
    ensures RequestAt(s, r)
    ensures var q, s' := s.requests[r], Apply(cfg, rt, s, Replay(r, order));
            && RequestAt(s', r) && s'.db == s.db && (s'.requests[r].state.Acked? || s'.requests[r].state.Rejected?)
            && Replayed(s.db, KeyFor(cfg, q), Strip(q.message.userId), ResultIn(s'.requests[r].state))
  {
    hide KeyFor, Strip, Enumerates, FindByKey;
  }

  /** A message that lost the race answers with the committed row as the tables are at
      its replay, whatever others do between the conflict and the replay. */
  lemma {:induction false} ReplayedIngest(cfg: Config, rt: Runtime, s: State, s2: State, s3: State, r: nat, chosen: Option<Uuid>, draw: Draw, order: seq<Uuid>)
    requires Enabled(cfg, rt, s, Prepare(r, chosen, draw)) && Enabled(cfg, rt, s2, CommitMessage(r)) && RequestAt(s2, r)
    requires var s1 := Apply(cfg, rt, s, Prepare(r, chosen, draw)); RequestAt(s1, r) && s2.requests[r] == s1.requests[r]
    requires Enabled(cfg, rt, s3, Replay(r, order)) && RequestAt(s3, r)
    requires var c := Apply(cfg, rt, s2, CommitMessage(r)); RequestAt(c, r) && s3.requests[r] == c.requests[r]
    ensures var q, s4 := s.requests[r], Apply(cfg, rt, s3, Replay(r, order));
            && RequestAt(s4, r) && (s4.requests[r].state.Acked? || s4.requests[r].state.Rejected?)
            && |draw.documents| == |q.message.attachments|
            && IngestOutcome(cfg, s.db, s2.db, s3.db, q.message, KeyOf(cfg, q.message, q.header), draw, ResultIn(s4.requests[r].state), s4.db)
  {
    hide Enabled, StageMessage, NewestOpen, Strip, KeyOf, Committed, KeyCommitted, Replayed, Scoped;
    PrepareIs(cfg, rt, s, r, chosen, draw);
    CommitIs(cfg, rt, s2, r);
    ConflictedAt(cfg, rt, s3, r, order);
    ReplayIs(cfg, rt, s3, r, order);
    hide Apply;
  }

  lemma {:induction false} ConflictedAt(cfg: Config, rt: Runtime, s: State, r: nat, order: seq<Uuid>)
    requires Enabled(cfg, rt, s, Replay(r, order))
    ensures RequestAt(s, r) && s.requests[r].state.Conflicted?
  {
  }
}
