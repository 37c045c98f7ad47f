/** Where the status in an answer comes from: a fresh answer tells what the request found
    when it was prepared, a replayed one what the tables hold at the replay. */
module Answers {
  import opened Basics
  import opened Tables
  import opened Intake
  import opened Nodes
  import opened System
  import opened ExactlyOnce
  import opened Overtakings

  /** The step prepares request r with this staging. */
  ghost predicate PreparesAs(cfg: Config, s: State, step: Step, r: nat, staging: Staging) {
    && step.Prepare? && step.r == r && RequestAt(s, r)
    && |step.draw.documents| == |s.requests[r].message.attachments| && (step.chosen.Some? ==> step.chosen.value in s.db.applications)
    && var q := s.requests[r];
       StageMessage(cfg, s.db, q.message, KeyOf(cfg, q.message, q.header), step.chosen, step.draw) == Ok(staging)
  }

  ghost predicate Holds(s: State, r: nat, staging: Staging) { RequestAt(s, r) && s.requests[r].state == Prepared(staging) }

  lemma {:induction false} PrepareStep(cfg: Config, rt: Runtime, s: State, p: nat, chosen: Option<Uuid>, draw: Draw, r: nat, staging: Staging)
    requires Enabled(cfg, rt, s, Prepare(p, chosen, draw)) && Holds(Apply(cfg, rt, s, Prepare(p, chosen, draw)), r, staging)
    ensures Holds(s, r, staging) || PreparesAs(cfg, s, Prepare(p, chosen, draw), r, staging)
  {
    hide NewDraw, Strip, StageMessage, KeyOf;
  }

  lemma {:induction false} CommitStep(cfg: Config, rt: Runtime, s: State, p: nat, r: nat, staging: Staging)
    requires Enabled(cfg, rt, s, CommitMessage(p)) && Holds(Apply(cfg, rt, s, CommitMessage(p)), r, staging)
    ensures Holds(s, r, staging)
  {
    hide KeyCommitted, Committed;
  }

  lemma {:induction false} OtherRequestStep(cfg: Config, rt: Runtime, s: State, step: Step, r: nat, staging: Staging)
    requires Enabled(cfg, rt, s, step) && IsRequestStep(step) && !step.Prepare? && !step.CommitMessage?
    requires Holds(Apply(cfg, rt, s, step), r, staging)
    ensures Holds(s, r, staging)
  {
    hide KeyFor, ReplayAck, Strip, Enumerates;
  }

  lemma {:induction false} RunStepPrepares(cfg: Config, rt: Runtime, s: State, step: Step, r: nat, staging: Staging)
    requires Sound(cfg, s) && Enabled(cfg, rt, s, step) && !IsRequestStep(step) && Holds(Apply(cfg, rt, s, step), r, staging)
    ensures Holds(s, r, staging)
  {
    InvTables(cfg, s);
    hide Inv, RunsKnown, Enabled, Apply, PipelineFrame, IdsIn;
    RunStepFrame(cfg, rt, s, step);
  }

  lemma {:induction false} StepPrepares(cfg: Config, rt: Runtime, s: State, step: Step, r: nat, staging: Staging)
    requires Sound(cfg, s) && Enabled(cfg, rt, s, step) && Holds(Apply(cfg, rt, s, step), r, staging)
    ensures Holds(s, r, staging) || PreparesAs(cfg, s, step, r, staging)
  {
    hide Sound, Enabled, Apply, Holds, PreparesAs;
    match step {
      case Prepare(p, chosen, draw) => PrepareStep(cfg, rt, s, p, chosen, draw, r, staging);
      case CommitMessage(p) => CommitStep(cfg, rt, s, p, r, staging);
      case _ => if IsRequestStep(step) { OtherRequestStep(cfg, rt, s, step, r, staging); } else { RunStepPrepares(cfg, rt, s, step, r, staging); }
    }
  }

  lemma {:induction false} HasPreparation(cfg: Config, rt: Runtime, steps: seq<Step>, l: nat, r: nat, staging: Staging) returns (i: nat)
    requires Runs(cfg, rt, INIT, steps) && l <= |steps| && Holds(StateAt(cfg, rt, INIT, steps, l), r, staging)
    ensures i < l && PreparesAs(cfg, StateAt(cfg, rt, INIT, steps, i), steps[i], r, staging)
  {
    hide Enabled, Apply, PreparesAs, Runs, Sound;
    i := l - 1;
    SoundAt(cfg, rt, steps, i);
    StepAt(cfg, rt, INIT, steps, i);
    StepPrepares(cfg, rt, StateAt(cfg, rt, INIT, steps, i), steps[i], r, staging);
    if Holds(StateAt(cfg, rt, INIT, steps, i), r, staging) { i := HasPreparation(cfg, rt, steps, l - 1, r, staging); }
  }

  /** The answer to a request prepared on this state. */
  ghost predicate TellsFresh(s: State, step: Step, ack: Ack)
    requires step.Prepare?
  {
    match step.chosen
    case Some(a) => a in s.db.applications && ack == Ack(a, s.db.applications[a].status, step.draw.communication, step.draw.documents)
    case None => ack == Ack(step.draw.application, PendingDocs, step.draw.communication, step.draw.documents)
  }

  lemma {:induction false} CommitTells(cfg: Config, rt: Runtime, s: State, r: nat)
    requires Enabled(cfg, rt, s, CommitMessage(r)) && Apply(cfg, rt, s, CommitMessage(r)).requests[r].state.Acked?
    ensures Holds(s, r, s.requests[r].state.staging)
    ensures Apply(cfg, rt, s, CommitMessage(r)).requests[r].state.ack == AckOf(s.requests[r].state.staging)
  {
    hide KeyCommitted, Committed, AckOf;
  }

  lemma {:induction false} PreparedTells(cfg: Config, s: State, step: Step, r: nat, staging: Staging)
    requires PreparesAs(cfg, s, step, r, staging)
    ensures TellsFresh(s, step, AckOf(staging))
  {
    var q := s.requests[r];
    FreshAnswer(cfg, s.db, q.message, KeyOf(cfg, q.message, q.header), step.chosen, step.draw);
    hide StageMessage, KeyOf, AckOf;
  }

  /** In every history, a request that commits answers with what it found when it was
      prepared: the status the application then had, or a new application waiting for
      documents, and its own message and documents. */
  lemma {:induction false} FreshAnswerTold(cfg: Config, rt: Runtime, steps: seq<Step>, l: nat) returns (i: nat)
    requires Runs(cfg, rt, INIT, steps) && l < |steps| && steps[l].CommitMessage?
    requires RequestAt(StateAt(cfg, rt, INIT, steps, l + 1), steps[l].r)
    requires StateAt(cfg, rt, INIT, steps, l + 1).requests[steps[l].r].state.Acked?
    ensures i < l && steps[i].Prepare? && steps[i].r == steps[l].r
    ensures TellsFresh(StateAt(cfg, rt, INIT, steps, i), steps[i], StateAt(cfg, rt, INIT, steps, l + 1).requests[steps[l].r].state.ack)
  {
    hide Enabled, Apply, Runs, StateAt, AckOf, TellsFresh;
    var r := steps[l].r;
    StepAt(cfg, rt, INIT, steps, l);
    CommitTells(cfg, rt, StateAt(cfg, rt, INIT, steps, l), r);
    var staging := StateAt(cfg, rt, INIT, steps, l).requests[r].state.staging;
    i := HasPreparation(cfg, rt, steps, l, r, staging);
    PreparedTells(cfg, StateAt(cfg, rt, INIT, steps, i), steps[i], r, staging);
  }

  /** A replayed answer tells the present status and all documents of the application
      that the row of its key belongs to. */
  lemma {:induction false} ReplayedAnswerTold(cfg: Config, rt: Runtime, s: State, r: nat, order: seq<Uuid>)
    requires Enabled(cfg, rt, s, Replay(r, order)) && Apply(cfg, rt, s, Replay(r, order)).requests[r].state.Acked?
    ensures var ack := Apply(cfg, rt, s, Replay(r, order)).requests[r].state.ack;
            && ack.application in s.db.applications && ack.status == s.db.applications[ack.application].status
            && Enumerates(ack.documents, DocsOf(s.db, ack.application))
            && exists c | c in s.db.communications ::
                 c.key == Some(KeyFor(cfg, s.requests[r])) && c.id == ack.communication && c.application == ack.application
  {
    FindByKeyFinds(s.db.communications, KeyFor(cfg, s.requests[r]));
    hide KeyFor, Strip, FindByKey, Enumerates, DocsOf;
  }
}
