/** Building histories: single steps, one after the other, and the whole delivery of a
    message from its arrival to its queued run. */
module Histories {
  import opened Basics
  import opened Intake
  import opened Nodes
  import opened System
  import opened Tables

  lemma {:induction false} OneStep(cfg: Config, rt: Runtime, s: State, none: seq<Step>)
    requires none == []
    ensures Runs(cfg, rt, s, none) && After(cfg, rt, s, none) == s
  {
  }

  lemma {:induction false} OneMore(cfg: Config, rt: Runtime, s: State, step: Step, steps: seq<Step>)
    requires Enabled(cfg, rt, s, step) && Runs(cfg, rt, Apply(cfg, rt, s, step), steps)
    ensures Runs(cfg, rt, s, [step] + steps)
         && After(cfg, rt, s, [step] + steps) == After(cfg, rt, Apply(cfg, rt, s, step), steps)
  {
    assert ([step] + steps)[1..] == steps;
    hide Enabled, Apply;
  }

  /** One history after another is a history. */
  lemma {:induction false} RunsAppend(cfg: Config, rt: Runtime, s: State, a: seq<Step>, b: seq<Step>)
    requires Runs(cfg, rt, s, a) && Runs(cfg, rt, After(cfg, rt, s, a), b)
    ensures Runs(cfg, rt, s, a + b) && After(cfg, rt, s, a + b) == After(cfg, rt, After(cfg, rt, s, a), b)
    decreases |a|
  {
    hide Enabled, Apply;
    if a == [] {
      assert a + b == b;
    } else {
      var next := Apply(cfg, rt, s, a[0]);
      RunsAppend(cfg, rt, next, a[1..], b);
      OneMore(cfg, rt, s, a[0], a[1..] + b);
      hide Runs, After;
      assert [a[0]] + (a[1..] + b) == a + b;
    }
  }

  // ----- The steps of one request -----

  function WithLast(s: State, q: Request): State { s.(requests := s.requests + [q]) }

  lemma {:induction false} LastReplaced(s: State, q: Request, q': Request)
    ensures var r := |s.requests|;
            && RequestAt(WithLast(s, q), r) && WithLast(s, q).requests[r] == q
            && WithLast(s, q).requests[r := q'] == WithLast(s, q').requests
  {
  }

  lemma {:induction false} Arrives(cfg: Config, rt: Runtime, s: State, message: Message, header: Option<string>)
    ensures Enabled(cfg, rt, s, Arrive(message, header))
    ensures Apply(cfg, rt, s, Arrive(message, header)) == WithLast(s, Request(message, header, Arrived, None))
  {
  }

  lemma {:induction false} Misses(cfg: Config, rt: Runtime, s: State, r: nat)
    requires RequestAt(s, r) && s.requests[r].state.Arrived? && !TooLong(s.requests[r])
    ensures Enabled(cfg, rt, s, CheckKey(r, false)) && Apply(cfg, rt, s, CheckKey(r, false)) == AtRequest(s, r, Missed)
  {
    hide KeyFor;
  }

  lemma {:induction false} Hits(cfg: Config, rt: Runtime, s: State, r: nat)
    requires RequestAt(s, r) && s.requests[r].state.Arrived? && !TooLong(s.requests[r]) && KeyFor(cfg, s.requests[r]) in s.cache
    ensures Enabled(cfg, rt, s, CheckKey(r, true))
    ensures Apply(cfg, rt, s, CheckKey(r, true)) == AtRequest(s, r, Answered(s.cache[KeyFor(cfg, s.requests[r])]))
  {
    hide KeyFor;
  }

  lemma {:induction false} Prepares(cfg: Config, rt: Runtime, s: State, r: nat, chosen: Option<Uuid>, draw: Draw)
    requires RequestAt(s, r) && s.requests[r].state.Missed? && |draw.documents| == |s.requests[r].message.attachments|
    requires NewestOpen(s.db, Strip(s.requests[r].message.userId), chosen) && NewDraw(s.drawn, draw)
    requires StagedFor(cfg, s.db, s.requests[r], chosen, draw).Ok?
    ensures Enabled(cfg, rt, s, Prepare(r, chosen, draw))
    ensures Apply(cfg, rt, s, Prepare(r, chosen, draw))
         == AtRequest(s, r, Prepared(StagedFor(cfg, s.db, s.requests[r], chosen, draw).value)).(drawn := s.drawn + DrawnBy(draw))
  {
    hide NewDraw, StageMessage, Strip;
  }

  lemma {:induction false} Commits(cfg: Config, rt: Runtime, s: State, r: nat, staging: Staging)
    requires RequestAt(s, r) && s.requests[r].state == Prepared(staging) && !KeyCommitted(s.db, staging)
    ensures Enabled(cfg, rt, s, CommitMessage(r))
    ensures Apply(cfg, rt, s, CommitMessage(r))
         == s.(db := Committed(s.db, staging), requests := s.requests[r := s.requests[r].(state := Acked(AckOf(staging)), won := Some(staging))])
  {
    hide Committed, KeyCommitted;
  }

  lemma {:induction false} MeetsConflict(cfg: Config, rt: Runtime, s: State, r: nat, staging: Staging)
    requires RequestAt(s, r) && s.requests[r].state == Prepared(staging) && KeyCommitted(s.db, staging)
    ensures Enabled(cfg, rt, s, CommitMessage(r)) && Apply(cfg, rt, s, CommitMessage(r)) == AtRequest(s, r, Conflicted)
  {
    hide Committed, KeyCommitted;
  }

  lemma {:induction false} StoresAnswer(cfg: Config, rt: Runtime, s: State, r: nat, ack: Ack)
    requires RequestAt(s, r) && s.requests[r].state == Acked(ack)
    ensures Enabled(cfg, rt, s, StoreAnswer(r, true))
    ensures Apply(cfg, rt, s, StoreAnswer(r, true)) == AtRequest(s, r, Stored(ack)).(cache := s.cache[KeyFor(cfg, s.requests[r]) := ack])
  {
    hide KeyFor;
  }

  lemma {:induction false} Queues(cfg: Config, rt: Runtime, s: State, r: nat, ack: Ack)
    requires RequestAt(s, r) && s.requests[r].state == Stored(ack)
    ensures Enabled(cfg, rt, s, QueueRun(r))
    ensures Apply(cfg, rt, s, QueueRun(r)) == AtRequest(s, r, Answered(ack)).(pending := s.pending + multiset{ack.application})
  {
  }

  function StagedFor(cfg: Config, db: Db, q: Request, chosen: Option<Uuid>, draw: Draw): Result<Staging, IntakeError>
    requires |draw.documents| == |q.message.attachments| && (chosen.Some? ==> chosen.value in db.applications)
  {
    StageMessage(cfg, db, q.message, KeyOf(cfg, q.message, q.header), chosen, draw)
  }

  // ----- A whole delivery -----

  /** The message can be delivered without a conflict. */
  ghost predicate Deliverable(cfg: Config, s: State, q: Request, chosen: Option<Uuid>, draw: Draw) {
    && q.state == Arrived && q.won == None && !TooLong(q)
    && |draw.documents| == |q.message.attachments| && NewestOpen(s.db, Strip(q.message.userId), chosen) && NewDraw(s.drawn, draw)
    && StagedFor(cfg, s.db, q, chosen, draw).Ok?
    && !KeyCommitted(s.db, StagedFor(cfg, s.db, q, chosen, draw).value)
  }

  function DeliverySteps(r: nat, q: Request, chosen: Option<Uuid>, draw: Draw): seq<Step> {
    [Arrive(q.message, q.header), CheckKey(r, false), Prepare(r, chosen, draw), CommitMessage(r), StoreAnswer(r, true), QueueRun(r)]
  }

  function Delivered(cfg: Config, s: State, q: Request, staging: Staging, draw: Draw): State {
    s.(db := Committed(s.db, staging), cache := s.cache[KeyFor(cfg, q) := AckOf(staging)],
       requests := s.requests + [q.(state := Answered(AckOf(staging)), won := Some(staging))],
       pending := s.pending + multiset{staging.applicationId}, drawn := s.drawn + DrawnBy(draw))
  }

  lemma {:induction false} Delivers(cfg: Config, rt: Runtime, s: State, q: Request, chosen: Option<Uuid>, draw: Draw)
    requires Deliverable(cfg, s, q, chosen, draw)
    ensures var steps := DeliverySteps(|s.requests|, q, chosen, draw);
            && Runs(cfg, rt, s, steps)
            && After(cfg, rt, s, steps) == Delivered(cfg, s, q, StagedFor(cfg, s.db, q, chosen, draw).value, draw)
  {
    var r, staging := |s.requests|, StagedFor(cfg, s.db, q, chosen, draw).value;
    var ack := AckOf(staging);
    hide Apply, Enabled, StageMessage, NewestOpen, NewDraw, Strip, Committed, KeyCommitted, DrawnBy, KeyOf, Scoped;
    var q2, q3, q4 := q.(state := Missed), q.(state := Prepared(staging)), q.(state := Acked(ack), won := Some(staging));
    var q5, q6 := q4.(state := Stored(ack)), q4.(state := Answered(ack));
    var t := s.(drawn := s.drawn + DrawnBy(draw));
    var u := t.(db := Committed(s.db, staging));
    var v := u.(cache := s.cache[KeyFor(cfg, q) := ack]);
    var s1, s2, s3, s4, s5 := WithLast(s, q), WithLast(s, q2), WithLast(t, q3), WithLast(u, q4), WithLast(v, q5);
    Arrives(cfg, rt, s, q.message, q.header);
    LastReplaced(s, q, q2);
    Misses(cfg, rt, s1, r);
    LastReplaced(t, q2, q3);
    Prepares(cfg, rt, s2, r, chosen, draw);
    LastReplaced(u, q3, q4);
    Commits(cfg, rt, s3, r, staging);
    LastReplaced(v, q4, q5);
    StoresAnswer(cfg, rt, s4, r, ack);
    LastReplaced(v, q5, q6);
    Queues(cfg, rt, s5, r, ack);
    var s6 := Apply(cfg, rt, s5, QueueRun(r));
    SixSteps(cfg, rt, s, s1, s2, s3, s4, s5, s6, r, q, chosen, draw);
  }

  lemma {:induction false} SixSteps(cfg: Config, rt: Runtime, s: State, s1: State, s2: State, s3: State, s4: State, s5: State, s6: State,
                                    r: nat, q: Request, chosen: Option<Uuid>, draw: Draw)
    requires Enabled(cfg, rt, s, Arrive(q.message, q.header)) && Apply(cfg, rt, s, Arrive(q.message, q.header)) == s1
    requires Enabled(cfg, rt, s1, CheckKey(r, false)) && Apply(cfg, rt, s1, CheckKey(r, false)) == s2
    requires Enabled(cfg, rt, s2, Prepare(r, chosen, draw)) && Apply(cfg, rt, s2, Prepare(r, chosen, draw)) == s3
    requires Enabled(cfg, rt, s3, CommitMessage(r)) && Apply(cfg, rt, s3, CommitMessage(r)) == s4
    requires Enabled(cfg, rt, s4, StoreAnswer(r, true)) && Apply(cfg, rt, s4, StoreAnswer(r, true)) == s5
    requires Enabled(cfg, rt, s5, QueueRun(r)) && Apply(cfg, rt, s5, QueueRun(r)) == s6
    ensures var steps := DeliverySteps(r, q, chosen, draw); Runs(cfg, rt, s, steps) && After(cfg, rt, s, steps) == s6
  {
    hide Enabled, Apply;
    var steps := DeliverySteps(r, q, chosen, draw);
    OneStep(cfg, rt, s6, []);
    OneMore(cfg, rt, s5, steps[5], []);
    OneMore(cfg, rt, s4, steps[4], [steps[5]]);
    OneMore(cfg, rt, s3, steps[3], [steps[4], steps[5]]);
    OneMore(cfg, rt, s2, steps[2], [steps[3], steps[4], steps[5]]);
    OneMore(cfg, rt, s1, steps[1], [steps[2], steps[3], steps[4], steps[5]]);
    OneMore(cfg, rt, s, steps[0], [steps[1], steps[2], steps[3], steps[4], steps[5]]);
  }
}
