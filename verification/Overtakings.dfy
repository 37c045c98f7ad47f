/** Which sends repeat a text, read off the history: some other run of the application sent
    the same text between this run's decision and its send. */
module Overtakings {
  import opened Basics
  import opened Tables
  import opened Intake
  import opened Nodes
  import opened System
  import opened ExactlyOnce
  import opened Messages

  // ----- The states along a history -----

  /** The state after the first i steps. */
  ghost function StateAt(cfg: Config, rt: Runtime, s: State, steps: seq<Step>, i: nat): State
    requires Runs(cfg, rt, s, steps) && i <= |steps|
    decreases i
  {
    if i == 0 then s else StateAt(cfg, rt, Apply(cfg, rt, s, steps[0]), steps[1..], i - 1)
  }

  lemma {:induction false} StepAt(cfg: Config, rt: Runtime, s: State, steps: seq<Step>, i: nat)
    requires Runs(cfg, rt, s, steps) && i < |steps|
    ensures Enabled(cfg, rt, StateAt(cfg, rt, s, steps, i), steps[i])
    ensures StateAt(cfg, rt, s, steps, i + 1) == Apply(cfg, rt, StateAt(cfg, rt, s, steps, i), steps[i])
    decreases i
  {
    hide Enabled, Apply;
    if i > 0 { StepAt(cfg, rt, Apply(cfg, rt, s, steps[0]), steps[1..], i - 1); }
  }

  lemma {:induction false} SoundAt(cfg: Config, rt: Runtime, steps: seq<Step>, i: nat)
    requires Runs(cfg, rt, INIT, steps) && i <= |steps|
    ensures Sound(cfg, StateAt(cfg, rt, INIT, steps, i))
  {
    InitSound(cfg);
    hide Sound, Enabled, Apply, Runs;
    if i > 0 {
      SoundAt(cfg, rt, steps, i - 1);
      StepAt(cfg, rt, INIT, steps, i - 1);
      StepKeepsSound(cfg, rt, StateAt(cfg, rt, INIT, steps, i - 1), steps[i - 1]);
    }
  }

  ghost predicate NoneAgain(cfg: Config, rt: Runtime, s: State, steps: seq<Step>)
    requires Runs(cfg, rt, s, steps)
  {
    forall l | 0 <= l < |steps| :: !SendsAgain(StateAt(cfg, rt, s, steps, l), steps[l])
  }

  lemma {:induction false} NeverIsNone(cfg: Config, rt: Runtime, s: State, steps: seq<Step>)
    requires Runs(cfg, rt, s, steps)
    ensures NeverRepeats(cfg, rt, s, steps) <==> NoneAgain(cfg, rt, s, steps)
    decreases |steps|
  {
    hide Enabled, Apply, SendsAgain;
    if steps != [] {
      var next, rest := Apply(cfg, rt, s, steps[0]), steps[1..];
      NeverIsNone(cfg, rt, next, rest);
      assert StateAt(cfg, rt, s, steps, 0) == s;
      forall l | 0 < l < |steps| ensures StateAt(cfg, rt, s, steps, l) == StateAt(cfg, rt, next, rest, l - 1) && steps[l] == rest[l - 1] {}
      if NoneAgain(cfg, rt, s, steps) {
        forall l | 0 <= l < |rest| ensures !SendsAgain(StateAt(cfg, rt, next, rest, l), rest[l]) {
          assert !SendsAgain(StateAt(cfg, rt, s, steps, l + 1), steps[l + 1]);
        }
      }
    }
  }

  // ----- One run from its decision to its send -----

  ghost predicate Waits(s: State, k: nat) { RunAt(s, k) && s.runs[k].state.AtChaseCommit? }

  /** The step is run k's decision. */
  ghost predicate TakesDecision(s: State, step: Step, k: nat, run: Run) {
    && step.DecideChase? && step.k == k && RunAt(s, k)
    && run.application == s.runs[k].application && run.state == AtChaseCommit(Decide(s.db, run.application, step.channel))
  }

  /** A waiting run waits unchanged or is over, a run that is over stays so, and a run
      comes to wait only by its decision. */
  ghost predicate Advances(s: State, s': State, step: Step, k: nat) {
    && (Waits(s, k) ==> RunAt(s', k) && (s'.runs[k] == s.runs[k] || RunOver(s', k)))
    && (RunOver(s, k) ==> RunOver(s', k))
    && (Waits(s', k) ==> (RunAt(s, k) && s'.runs[k] == s.runs[k]) || TakesDecision(s, step, k, s'.runs[k]))
  }

  lemma {:induction false} SameRunsAdvance(s: State, s': State, step: Step, k: nat)
    requires RunAt(s, k) ==> RunAt(s', k) && s'.runs[k] == s.runs[k]
    requires RunAt(s', k) && !RunAt(s, k) ==> !s'.runs[k].state.AtChaseCommit?
    ensures Advances(s, s', step, k)
  {
    hide TakesDecision;
  }

  lemma {:induction false} StartAdvances(cfg: Config, rt: Runtime, s: State, a: Uuid, k: nat)
    requires Enabled(cfg, rt, s, StartRun(a))
    ensures Advances(s, Apply(cfg, rt, s, StartRun(a)), StartRun(a), k)
  {
    hide Entered, EnteredStatus, TakesDecision;
  }

  lemma {:induction false} ExtractAdvances(cfg: Config, rt: Runtime, s: State, k: nat, outcome: Outcome)
    requires Enabled(cfg, rt, s, Extract(k, outcome))
    ensures Advances(s, Apply(cfg, rt, s, Extract(k, outcome)), Extract(k, outcome), k)
  {
    hide ExtractedDb, DegradedDb, SchemaValid, TakesDecision;
  }

  lemma {:induction false} OwnStepAdvances(cfg: Config, rt: Runtime, s: State, step: Step)
    requires Enabled(cfg, rt, s, step) && !IsRequestStep(step) && !step.StartRun? && !step.Extract?
    ensures Advances(s, Apply(cfg, rt, s, step), step, step.k)
  {
    hide Ingested, ReconciledDb, ChasedDb, SourcesOf, LoadAll, Decide, Enumerates, ChatRows, PickedChannel;
  }

  lemma {:induction false} StepAdvances(cfg: Config, rt: Runtime, s: State, step: Step, k: nat)
    requires Enabled(cfg, rt, s, step)
    ensures Advances(s, Apply(cfg, rt, s, step), step, k)
  {
    hide Enabled, Apply, Advances;
    var s' := Apply(cfg, rt, s, step);
    if IsRequestStep(step) {
      RequestStepCarriesRuns(cfg, rt, s, step);
      SameRunsAdvance(s, s', step, k);
    } else if step.StartRun? {
      StartAdvances(cfg, rt, s, step.application, k);
    } else if k == step.k {
      if step.Extract? { ExtractAdvances(cfg, rt, s, k, step.outcome); } else { OwnStepAdvances(cfg, rt, s, step); }
    } else {
      RunStepRuns(cfg, rt, s, step);
      SameRunsAdvance(s, s', step, k);
    }
  }

  /** Run k waits at l with the decision it made at i. */
  ghost predicate DecidedAt(cfg: Config, rt: Runtime, steps: seq<Step>, i: nat, l: nat, k: nat)
    requires Runs(cfg, rt, INIT, steps)
  {
    i < l <= |steps| && RunAt(StateAt(cfg, rt, INIT, steps, l), k)
    && TakesDecision(StateAt(cfg, rt, INIT, steps, i), steps[i], k, StateAt(cfg, rt, INIT, steps, l).runs[k])
  }

  lemma {:induction false} HasDecision(cfg: Config, rt: Runtime, steps: seq<Step>, l: nat, k: nat) returns (i: nat)
    requires Runs(cfg, rt, INIT, steps) && l <= |steps| && Waits(StateAt(cfg, rt, INIT, steps, l), k)
    ensures DecidedAt(cfg, rt, steps, i, l, k)
  {
    hide Enabled, Apply, TakesDecision, Runs;
    i := l - 1;
    var s, s' := StateAt(cfg, rt, INIT, steps, i), StateAt(cfg, rt, INIT, steps, l);
    StepAt(cfg, rt, INIT, steps, i);
    StepAdvances(cfg, rt, s, steps[i], k);
    if !TakesDecision(s, steps[i], k, s'.runs[k]) { i := HasDecision(cfg, rt, steps, l - 1, k); }
  }

  lemma {:induction false} StillWaits(cfg: Config, rt: Runtime, steps: seq<Step>, i: nat, l: nat, k: nat)
    requires Runs(cfg, rt, INIT, steps) && i <= l <= |steps| && Waits(StateAt(cfg, rt, INIT, steps, i), k)
    ensures var s, s' := StateAt(cfg, rt, INIT, steps, i), StateAt(cfg, rt, INIT, steps, l);
            RunOver(s', k) || (RunAt(s', k) && s'.runs[k] == s.runs[k])
    decreases l - i
  {
    hide Enabled, Apply, TakesDecision, Runs, StateAt;
    if i < l {
      StillWaits(cfg, rt, steps, i, l - 1, k);
      StepAt(cfg, rt, INIT, steps, l - 1);
      StepAdvances(cfg, rt, StateAt(cfg, rt, INIT, steps, l - 1), steps[l - 1], k);
    }
  }

  lemma {:induction false} DecisionMade(cfg: Config, rt: Runtime, s: State, k: nat, channel: Channel)
    requires Enabled(cfg, rt, s, DecideChase(k, channel))
    ensures var s' := Apply(cfg, rt, s, DecideChase(k, channel)); Waits(s', k) && TakesDecision(s, DecideChase(k, channel), k, s'.runs[k])
  {
    hide Decide, PickedChannel;
  }

  lemma {:induction false} SendWaits(cfg: Config, rt: Runtime, s: State, step: Step)
    requires Enabled(cfg, rt, s, step) && step.CommitChase?
    ensures Waits(s, step.k)
  {
  }

  /** A run decides once: the decision it sends is the one it made. */
  lemma {:induction false} OnlyDecision(cfg: Config, rt: Runtime, steps: seq<Step>, i: nat, l: nat)
    requires Runs(cfg, rt, INIT, steps) && i < l < |steps|
    requires steps[i].DecideChase? && steps[l].CommitChase? && steps[l].k == steps[i].k
    ensures DecidedAt(cfg, rt, steps, i, l, steps[l].k)
  {
    hide Enabled, Apply, TakesDecision, Runs, StateAt;
    var k := steps[l].k;
    StepAt(cfg, rt, INIT, steps, i);
    DecisionMade(cfg, rt, StateAt(cfg, rt, INIT, steps, i), k, steps[i].channel);
    StepAt(cfg, rt, INIT, steps, l);
    SendWaits(cfg, rt, StateAt(cfg, rt, INIT, steps, l), steps[l]);
    StillWaits(cfg, rt, steps, i + 1, l, k);
  }

  // ----- What is sent between two positions -----

  /** The step sends this text to this application. */
  ghost predicate SendsText(s: State, step: Step, a: Uuid, text: string) {
    && step.CommitChase? && Waits(s, step.k) && s.runs[step.k].application == a
    && !s.runs[step.k].state.decision.alreadySent && s.runs[step.k].state.decision.content == text
  }

  ghost predicate Sent(s: State, a: Uuid, text: string) { text in SentContents(s.db.communications, a) }

  lemma {:induction false} ChaseStepSends(cfg: Config, rt: Runtime, s: State, k: nat, id: Uuid, now: int, a: Uuid, text: string)
    requires Enabled(cfg, rt, s, CommitChase(k, id, now))
    ensures var s' := Apply(cfg, rt, s, CommitChase(k, id, now));
            Sent(s', a, text) <==> Sent(s, a, text) || SendsText(s, CommitChase(k, id, now), a, text)
  {
    hide SentContents, ChasedDb, FinalStatus;
    ChaseSendsTo(s.db, s.runs[k].application, s.runs[k].seen, s.runs[k].state.decision, id, now);
  }

  lemma {:induction false} StepSends(cfg: Config, rt: Runtime, s: State, step: Step, a: Uuid, text: string)
    requires Sound(cfg, s) && Enabled(cfg, rt, s, step)
    ensures Sent(Apply(cfg, rt, s, step), a, text) <==> Sent(s, a, text) || SendsText(s, step, a, text)
  {
    hide Sound, Enabled, Apply, SentContents;
    if step.CommitChase? {
      ChaseStepSends(cfg, rt, s, step.k, step.id, step.now, a, text);
    } else if IsRequestStep(step) {
      RequestsSendNothing(cfg, rt, s, step);
    } else {
      OtherStepsSendNothing(cfg, rt, s, step);
    }
  }

  ghost predicate SentBetween(cfg: Config, rt: Runtime, steps: seq<Step>, i: nat, l: nat, a: Uuid, text: string)
    requires Runs(cfg, rt, INIT, steps) && l <= |steps|
  {
    exists j | i <= j < l :: SendsText(StateAt(cfg, rt, INIT, steps, j), steps[j], a, text)
  }

  lemma {:induction false} SentByThen(cfg: Config, rt: Runtime, steps: seq<Step>, i: nat, l: nat, a: Uuid, text: string)
    requires Runs(cfg, rt, INIT, steps) && i <= l <= |steps|
    ensures Sent(StateAt(cfg, rt, INIT, steps, l), a, text)
       <==> Sent(StateAt(cfg, rt, INIT, steps, i), a, text) || SentBetween(cfg, rt, steps, i, l, a, text)
    decreases l - i
  {
    hide Sound, Enabled, Apply, Runs, StateAt, Sent, SendsText;
    if i < l {
      SentByThen(cfg, rt, steps, i, l - 1, a, text);
      SoundAt(cfg, rt, steps, l - 1);
      StepAt(cfg, rt, INIT, steps, l - 1);
      StepSends(cfg, rt, StateAt(cfg, rt, INIT, steps, l - 1), steps[l - 1], a, text);
    }
  }

  // ----- Overtaken sends -----

  /** A run decides at i that a text is to be sent, another send of the same text to the
      same application happens at j, and the run sends at l. */
  ghost predicate Overtaken(cfg: Config, rt: Runtime, steps: seq<Step>, i: nat, j: nat, l: nat)
    requires Runs(cfg, rt, INIT, steps)
  {
    && i < j < l < |steps| && steps[i].DecideChase? && steps[l].CommitChase? && steps[l].k == steps[i].k
    && var s := StateAt(cfg, rt, INIT, steps, i);
       RunAt(s, steps[i].k)
       && var decision := Decide(s.db, s.runs[steps[i].k].application, steps[i].channel);
          !decision.alreadySent
          && SendsText(StateAt(cfg, rt, INIT, steps, j), steps[j], s.runs[steps[i].k].application, decision.content)
  }

  lemma {:induction false} NotSentYet(s: State, a: Uuid, channel: Channel)
    ensures var decision := Decide(s.db, a, channel); decision.alreadySent <==> Sent(s, a, decision.content)
  {
    hide SentContents, ChaseContent, MissingKeys;
  }

  lemma {:induction false} AgainIsOvertaken(cfg: Config, rt: Runtime, steps: seq<Step>, l: nat) returns (i: nat, j: nat)
    requires Runs(cfg, rt, INIT, steps) && l < |steps| && SendsAgain(StateAt(cfg, rt, INIT, steps, l), steps[l])
    ensures Overtaken(cfg, rt, steps, i, j, l)
  {
    hide Sound, Enabled, Apply, Runs, StateAt, Decide, SentContents;
    var k := steps[l].k;
    i := HasDecision(cfg, rt, steps, l, k);
    var s, run := StateAt(cfg, rt, INIT, steps, i), StateAt(cfg, rt, INIT, steps, l).runs[k];
    NotSentYet(s, run.application, steps[i].channel);
    SentByThen(cfg, rt, steps, i, l, run.application, run.state.decision.content);
    j :| i <= j < l && SendsText(StateAt(cfg, rt, INIT, steps, j), steps[j], run.application, run.state.decision.content);
  }

  lemma {:induction false} OvertakenIsAgain(cfg: Config, rt: Runtime, steps: seq<Step>, i: nat, j: nat, l: nat)
    requires Runs(cfg, rt, INIT, steps) && Overtaken(cfg, rt, steps, i, j, l)
    ensures SendsAgain(StateAt(cfg, rt, INIT, steps, l), steps[l])
  {
    hide Sound, Enabled, Apply, Runs, StateAt, Decide, SentContents;
    OnlyDecision(cfg, rt, steps, i, l);
    var run := StateAt(cfg, rt, INIT, steps, l).runs[steps[l].k];
    SentByThen(cfg, rt, steps, i, l, run.application, run.state.decision.content);
  }

  ghost predicate SomeOvertaken(cfg: Config, rt: Runtime, steps: seq<Step>)
    requires Runs(cfg, rt, INIT, steps)
  {
    exists i, j, l :: Overtaken(cfg, rt, steps, i, j, l)
  }

  /** Whatever the interleaving: no application ever holds one text twice exactly when no
      run is overtaken between its decision and its send. */
  lemma {:induction false} DistinctUnlessOvertaken(cfg: Config, rt: Runtime, steps: seq<Step>)
    requires Runs(cfg, rt, INIT, steps)
    ensures AlwaysDistinct(cfg, rt, INIT, steps) <==> !SomeOvertaken(cfg, rt, steps)
  {
    MessagesExactly(cfg, rt, steps);
    NeverIsNone(cfg, rt, INIT, steps);
    hide Runs, AlwaysDistinct, NeverRepeats, Overtaken, SendsAgain, StateAt;
    if l: nat :| l < |steps| && SendsAgain(StateAt(cfg, rt, INIT, steps, l), steps[l]) {
      var i, j := AgainIsOvertaken(cfg, rt, steps, l);
    }
    if i, j, l :| Overtaken(cfg, rt, steps, i, j, l) {
      OvertakenIsAgain(cfg, rt, steps, i, j, l);
      OvertakenInside(cfg, rt, steps, i, j, l);
    }
  }

  lemma {:induction false} OvertakenInside(cfg: Config, rt: Runtime, steps: seq<Step>, i: nat, j: nat, l: nat)
    requires Runs(cfg, rt, INIT, steps) && Overtaken(cfg, rt, steps, i, j, l)
    ensures l < |steps|
  {
  }
}
