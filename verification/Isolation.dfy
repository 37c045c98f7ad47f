/** Applications do not disturb each other: a run among any steps of other applications
    does to its own application what it does alone, and so does a second run. */
module Isolation {
  import opened Basics
  import opened Facts
  import opened Reconcile
  import opened Tables
  import opened Intake
  import opened Nodes
  import opened System
  import opened ExactlyOnce
  import opened Traceability
  import opened Histories
  import opened WholeRun
  import opened Rerun
  import opened Sides
  import Prompt

  // ----- Steps that concern other applications -----

  /** The step writes no row of application a and moves no run of it. */
  ghost predicate Elsewhere(s: State, step: Step, a: Uuid) {
    if IsRequestStep(step) then
      step.CommitMessage? ==>
        RequestAt(s, step.r) && s.requests[step.r].state.Prepared? && s.requests[step.r].state.staging.applicationId != a
    else if step.StartRun? then step.application != a
    else RunAt(s, step.k) && s.runs[step.k].application != a
  }

  /** The side of a is as before. */
  ghost predicate SideKept(db: Db, db': Db, a: Uuid) {
    a in db.applications && a in db'.applications && SideOf(db', a) == SideOf(db, a)
  }

  lemma {:induction false} OtherRequestDb(cfg: Config, rt: Runtime, s: State, step: Step)
    requires Enabled(cfg, rt, s, step) && IsRequestStep(step) && !step.CommitMessage?
    ensures Apply(cfg, rt, s, step).db == s.db
  {
    hide KeyFor, ReplayAck, StageMessage, NewDraw, NewestOpen, Enumerates;
  }

  lemma {:induction false} FitsDocuments(cfg: Config, q: Request, staging: Staging)
    requires StagingFits(cfg, q, staging)
    ensures forall d | d in staging.documents :: d.row.application == staging.applicationId
  {
    hide BuildDocument, KeyFor, Strip;
    forall d | d in staging.documents ensures d.row.application == staging.applicationId {
      var t :| 0 <= t < |staging.documents| && staging.documents[t] == d;
      BuiltDocument(cfg, q.message.attachments[t], staging.applicationId, staging.documents[t].id);
    }
  }

  lemma {:induction false} PreparedCommittable(cfg: Config, s: State, r: nat)
    requires Inv(cfg, s) && RequestAt(s, r) && s.requests[r].state.Prepared? && !KeyCommitted(s.db, s.requests[r].state.staging)
    ensures var staging := s.requests[r].state.staging;
            Committable(s.db, staging) && forall d | d in staging.documents :: d.row.application == staging.applicationId
  {
    PreparedFacts(cfg, s, r);
    hide Inv, StagingFits, StillPrivate, KeyCommitted, Committable;
    FitsCommittable(cfg, s.db, s.requests[r], s.requests[r].state.staging);
    FitsDocuments(cfg, s.requests[r], s.requests[r].state.staging);
  }

  lemma {:induction false} CommitElsewhere(cfg: Config, rt: Runtime, s: State, r: nat, a: Uuid)
    requires Inv(cfg, s) && Enabled(cfg, rt, s, CommitMessage(r)) && Elsewhere(s, CommitMessage(r), a) && a in s.db.applications
    ensures SideKept(s.db, Apply(cfg, rt, s, CommitMessage(r)).db, a)
  {
    hide Inv, KeyCommitted, Committed, SideOf, Committable;
    var staging := s.requests[r].state.staging;
    if !KeyCommitted(s.db, staging) {
      PreparedCommittable(cfg, s, r);
      CommittedSide(s.db, staging, a);
    }
  }

  lemma {:induction false} IngestElsewhere(cfg: Config, rt: Runtime, s: State, k: nat, rows: seq<Communication>, a: Uuid)
    requires Traceable(rt, s) && Enabled(cfg, rt, s, CommitIngest(k, rows)) && s.runs[k].application != a && a in s.db.applications
    ensures SideKept(s.db, Apply(cfg, rt, s, CommitIngest(k, rows)).db, a)
  {
    var run := s.runs[k];
    assert run in s.runs && RunOk(rt, s.db, run);
    IngestedElsewhere(rt, s.db, run.application, run.state.loaded, a);
    hide Traceable, RunOk, ChatRows, Ingested, SideOf, SourcesOf;
  }

  lemma {:induction false} IngestedElsewhere(rt: Runtime, db: Db, b: Uuid, loaded: seq<Loaded>, a: Uuid)
    requires a in db.applications && b != a && forall l | l in loaded :: LoadedOk(rt, db.documents, b, l)
    ensures SideOf(Ingested(db, b, loaded), a) == SideOf(db, a)
  {
    FreshOwners(rt, db.documents, b, loaded);
    OtherTexts(db.documents, FreshTexts(loaded), a);
    IngestedSide(db, b, loaded, a);
    hide LoadedOk, FreshTexts, Ingested, WithRawTexts, DocumentsOf, Filter, SentContents;
  }

  lemma {:induction false} FreshOwners(rt: Runtime, documents: map<Uuid, Document>, b: Uuid, loaded: seq<Loaded>)
    requires forall l | l in loaded :: LoadedOk(rt, documents, b, l)
    ensures forall d | d in FreshTexts(loaded) :: d in documents && documents[d].application == b
  {
    hide ParseDocument;
    if loaded != [] {
      assert LoadedOk(rt, documents, b, loaded[|loaded| - 1]);
      FreshOwners(rt, documents, b, loaded[..|loaded| - 1]);
    }
  }

  lemma {:induction false} ExtractElsewhere(cfg: Config, rt: Runtime, s: State, k: nat, outcome: Outcome, a: Uuid)
    requires Enabled(cfg, rt, s, Extract(k, outcome)) && s.runs[k].application != a && a in s.db.applications
    ensures SideKept(s.db, Apply(cfg, rt, s, Extract(k, outcome)).db, a)
  {
    hide SchemaValid, ExtractedDb, DegradedDb, SideOf;
    var run := s.runs[k];
    match outcome
    case Failed(errorClass, code, detail) => DegradedSide(s.db, run.application, run.seen, errorClass, code, detail, a);
    case Extracted(entities, response) =>
      ExtractedTables(rt.python, s.db, run.application, run.state.sources, entities, response);
      ExtractedSide(rt.python, s.db, run.application, run.state.sources, entities, response, a);
      ExtractedApplications(rt.python, s.db, run.application, run.state.sources, entities, response);
  }

  lemma {:induction false} ExtractedApplications(py: Python, db: Db, b: Uuid, sources: seq<Prompt.SourceText>, entities: seq<Entity>, response: string)
    ensures ExtractedDb(py, db, b, sources, entities, response).applications == db.applications
  {
  }

  lemma {:induction false} ReconcileElsewhere(cfg: Config, rt: Runtime, s: State, k: nat, anomalies: seq<Anomaly>, a: Uuid)
    requires Enabled(cfg, rt, s, ReconcileFacts(k, anomalies)) && a in s.db.applications
    ensures SideKept(s.db, Apply(cfg, rt, s, ReconcileFacts(k, anomalies)).db, a)
  {
    hide AllConflicts, AnomalyAudits, SideOf, FactsOf;
    ReconciledSide(rt, s.db, s.runs[k].application, anomalies, a);
  }

  lemma {:induction false} ChaseElsewhere(cfg: Config, rt: Runtime, s: State, k: nat, id: Uuid, now: int, a: Uuid)
    requires Enabled(cfg, rt, s, CommitChase(k, id, now)) && s.runs[k].application != a && a in s.db.applications
    ensures SideKept(s.db, Apply(cfg, rt, s, CommitChase(k, id, now)).db, a)
  {
    hide ChasedDb, FinalStatus, SideOf;
    ChasedSide(s.db, s.runs[k].application, s.runs[k].seen, s.runs[k].state.decision, id, now, a);
  }

  lemma {:induction false} StartElsewhere(cfg: Config, rt: Runtime, s: State, b: Uuid, a: Uuid)
    requires Enabled(cfg, rt, s, StartRun(b)) && b != a && a in s.db.applications
    ensures SideKept(s.db, Apply(cfg, rt, s, StartRun(b)).db, a)
  {
    hide Assigned, EnteredStatus, SideOf;
    if b in s.db.applications {
      AssignedSide(s.db, b, s.db.applications[b].status, EnteredStatus(s.db.applications[b].status), a);
    }
  }

  lemma {:induction false} ReadingElsewhere(cfg: Config, rt: Runtime, s: State, step: Step)
    requires Enabled(cfg, rt, s, step) && (step.LoadDocuments? || step.DecideChase?)
    ensures Apply(cfg, rt, s, step).db == s.db
  {
    hide LoadAll, Decide, PickedChannel, Enumerates;
  }

  /** A step elsewhere leaves the side of a as it is. */
  lemma {:induction false} ElsewhereKeeps(cfg: Config, rt: Runtime, s: State, step: Step, a: Uuid)
    requires Inv(cfg, s) && Traceable(rt, s) && Enabled(cfg, rt, s, step) && Elsewhere(s, step, a) && a in s.db.applications
    ensures SideKept(s.db, Apply(cfg, rt, s, step).db, a)
  {
    hide Inv, Traceable, Enabled, Apply, SideOf;
    match step {
      case CommitMessage(r) => CommitElsewhere(cfg, rt, s, r, a);
      case StartRun(b) => StartElsewhere(cfg, rt, s, b, a);
      case CommitIngest(k, rows) => IngestElsewhere(cfg, rt, s, k, rows, a);
      case Extract(k, outcome) => ExtractElsewhere(cfg, rt, s, k, outcome, a);
      case ReconcileFacts(k, anomalies) => ReconcileElsewhere(cfg, rt, s, k, anomalies, a);
      case CommitChase(k, id, now) => ChaseElsewhere(cfg, rt, s, k, id, now, a);
      case _ => if IsRequestStep(step) { OtherRequestDb(cfg, rt, s, step); } else { ReadingElsewhere(cfg, rt, s, step); }
    }
  }

  // ----- Two states that agree on one run -----

  /** s and t show application a the same side, and run k of it stands at the same place. */
  ghost predicate Agree(s: State, t: State, a: Uuid, k: nat) {
    && SideKept(t.db, s.db, a) && RunAt(s, k) && RunAt(t, k) && s.runs[k] == t.runs[k] && s.runs[k].application == a
    && t.drawn <= s.drawn
  }

  lemma {:induction false} DrawnGrows(cfg: Config, rt: Runtime, s: State, step: Step)
    requires Sound(cfg, s) && Enabled(cfg, rt, s, step)
    ensures s.drawn <= Apply(cfg, rt, s, step).drawn
  {
    if IsRequestStep(step) {
      RequestDrawn(cfg, rt, s, step);
    } else {
      InvTables(cfg, s);
      hide Inv, Enabled, Apply, PipelineFrame, IdsIn, RunsKnown;
      RunStepFrame(cfg, rt, s, step);
    }
  }

  lemma {:induction false} RequestDrawn(cfg: Config, rt: Runtime, s: State, step: Step)
    requires Enabled(cfg, rt, s, step) && IsRequestStep(step)
    ensures s.drawn <= Apply(cfg, rt, s, step).drawn
  {
    hide KeyFor, ReplayAck, StageMessage, NewDraw, NewestOpen, Enumerates, KeyCommitted, Committed, DrawnBy;
  }

  lemma {:induction false} ElsewhereRun(cfg: Config, rt: Runtime, s: State, step: Step, a: Uuid, k: nat)
    requires Enabled(cfg, rt, s, step) && Elsewhere(s, step, a) && RunAt(s, k) && s.runs[k].application == a
    ensures RunAt(Apply(cfg, rt, s, step), k) && Apply(cfg, rt, s, step).runs[k] == s.runs[k]
  {
    hide Enabled, Apply;
    if IsRequestStep(step) {
      RequestStepCarriesRuns(cfg, rt, s, step);
    } else {
      RunStepRuns(cfg, rt, s, step);
      var s' := Apply(cfg, rt, s, step);
      if step.StartRun? && s'.runs != s.runs { assert s'.runs[..|s.runs|][k] == s'.runs[k]; }
    }
  }

  lemma {:induction false} ElsewhereAgrees(cfg: Config, rt: Runtime, s: State, t: State, step: Step, a: Uuid, k: nat)
    requires Sound(cfg, s) && Traceable(rt, s) && Enabled(cfg, rt, s, step) && Elsewhere(s, step, a) && Agree(s, t, a, k)
    ensures Agree(Apply(cfg, rt, s, step), t, a, k)
  {
    DrawnGrows(cfg, rt, s, step);
    hide Inv, Traceable, Enabled, Apply, SideOf, Elsewhere, RunsKnown;
    ElsewhereKeeps(cfg, rt, s, step, a);
    ElsewhereRun(cfg, rt, s, step, a, k);
  }

  // ----- The run's own steps, on either state -----

  /** The step can be taken on t too, and both agree afterwards. */
  ghost predicate BothStep(cfg: Config, rt: Runtime, s: State, t: State, step: Step, a: Uuid, k: nat)
    requires Enabled(cfg, rt, s, step)
  {
    Enabled(cfg, rt, t, step) && Agree(Apply(cfg, rt, s, step), Apply(cfg, rt, t, step), a, k)
  }

  lemma {:induction false} BothLoad(cfg: Config, rt: Runtime, s: State, t: State, k: nat, order: seq<Uuid>, a: Uuid)
    requires Agree(s, t, a, k) && Enabled(cfg, rt, s, LoadDocuments(k, order))
    ensures BothStep(cfg, rt, s, t, LoadDocuments(k, order), a, k)
  {
    hide Enumerates, SideOf, LoadAll, DocsOf;
    SideKeys(s.db, a);
    SideKeys(t.db, a);
    EnumeratedDocuments(s.db, a, order);
    EnumeratedDocuments(t.db, a, order);
    EnumeratedIn(s.db, a, order);
    SameLoaded(rt, s.db, t.db, a, order);
  }

  lemma {:induction false} EnumeratedIn(db: Db, a: Uuid, order: seq<Uuid>)
    requires Enumerates(order, DocsOf(db, a))
    ensures forall d | d in order :: d in DocsOf(db, a)
  {
    forall d | d in order ensures d in DocsOf(db, a) { assert d in set x | x in order; }
  }

  lemma {:induction false} BothIngest(cfg: Config, rt: Runtime, s: State, t: State, k: nat, rows: seq<Communication>, a: Uuid)
    requires Agree(s, t, a, k) && Enabled(cfg, rt, s, CommitIngest(k, rows))
    ensures BothStep(cfg, rt, s, t, CommitIngest(k, rows), a, k)
  {
    hide SideOf, ChatRows, Ingested, SourcesOf, WithRawTexts, FreshTexts;
    SameChatRows(s.db, t.db, a, rows);
    IngestedSide(s.db, a, s.runs[k].state.loaded, a);
    IngestedSide(t.db, a, s.runs[k].state.loaded, a);
    IngestedApplications(s.db, a, s.runs[k].state.loaded);
    IngestedApplications(t.db, a, s.runs[k].state.loaded);
  }

  lemma {:induction false} IngestedApplications(db: Db, b: Uuid, loaded: seq<Loaded>)
    ensures Ingested(db, b, loaded).applications == db.applications
  {
  }

  /** What a failing extraction does to its run and its side. */
  lemma {:induction false} DegradeLeaves(rt: Runtime, s: State, k: nat, errorClass: string, code: string, detail: string)
    requires RunAt(s, k) && s.runs[k].state.AtExtract? && s.runs[k].application in s.db.applications
    ensures var run, s' := s.runs[k], AfterExtract(rt, s, k, Failed(errorClass, code, detail));
            && RunAt(s', k) && s'.drawn == s.drawn && run.application in s'.db.applications
            && s'.runs[k] == (if run.state.sources == [] then run.(state := AtReconcile) else run.(state := Done, seen := ManualReview))
            && SideOf(s'.db, run.application)
               == if run.state.sources == [] || run.seen == ManualReview then SideOf(s.db, run.application)
                  else SideOf(s.db, run.application).(status := ManualReview)
  {
    hide SideOf, DegradedDb;
    DegradedSide(s.db, s.runs[k].application, s.runs[k].seen, errorClass, code, detail, s.runs[k].application);
  }

  /** What an answered extraction does to its run and its side. */
  lemma {:induction false} ReplaceLeaves(rt: Runtime, s: State, k: nat, entities: seq<Entity>, response: string)
    requires RunAt(s, k) && s.runs[k].state.AtExtract? && s.runs[k].application in s.db.applications
    ensures var run, s' := s.runs[k], AfterExtract(rt, s, k, Extracted(entities, response));
            && RunAt(s', k) && s'.drawn == s.drawn && run.application in s'.db.applications
            && s'.runs[k] == run.(state := AtReconcile)
            && SideOf(s'.db, run.application)
               == if run.state.sources == [] then SideOf(s.db, run.application)
                  else SideOf(s.db, run.application).(facts := FactsFrom(rt.python, run.application, entities, run.state.sources))
  {
    hide SideOf, ExtractedDb, FactsFrom;
    var run := s.runs[k];
    ExtractedSide(rt.python, s.db, run.application, run.state.sources, entities, response, run.application);
    ExtractedApplications(rt.python, s.db, run.application, run.state.sources, entities, response);
  }

  lemma {:induction false} BothExtract(cfg: Config, rt: Runtime, s: State, t: State, k: nat, outcome: Outcome, a: Uuid)
    requires Agree(s, t, a, k) && Enabled(cfg, rt, s, Extract(k, outcome))
    ensures BothStep(cfg, rt, s, t, Extract(k, outcome), a, k)
  {
    hide SideOf, SchemaValid, AfterExtract, FactsFrom;
    match outcome
    case Failed(errorClass, code, detail) =>
      DegradeLeaves(rt, s, k, errorClass, code, detail);
      DegradeLeaves(rt, t, k, errorClass, code, detail);
    case Extracted(entities, response) =>
      ReplaceLeaves(rt, s, k, entities, response);
      ReplaceLeaves(rt, t, k, entities, response);
  }

  lemma {:induction false} SideFacts(db: Db, a: Uuid)
    requires a in db.applications
    ensures FactsOf(db, a) == SideOf(db, a).facts
  {
  }

  lemma {:induction false} BothReconcile(cfg: Config, rt: Runtime, s: State, t: State, k: nat, anomalies: seq<Anomaly>, a: Uuid)
    requires Agree(s, t, a, k) && Enabled(cfg, rt, s, ReconcileFacts(k, anomalies))
    ensures BothStep(cfg, rt, s, t, ReconcileFacts(k, anomalies), a, k)
  {
    hide SideOf, AllConflicts, AnomalyAudits, FactsOf;
    SideFacts(s.db, a);
    SideFacts(t.db, a);
    ReconciledSide(rt, s.db, a, anomalies, a);
    ReconciledSide(rt, t.db, a, anomalies, a);
  }

  lemma {:induction false} BothDecide(cfg: Config, rt: Runtime, s: State, t: State, k: nat, channel: Channel, a: Uuid)
    requires Agree(s, t, a, k) && Enabled(cfg, rt, s, DecideChase(k, channel))
    ensures BothStep(cfg, rt, s, t, DecideChase(k, channel), a, k)
  {
    hide SideOf, PickedChannel, Decide;
    SameInbound(s.db, t.db, a);
    SameChannel(s.db, t.db, a, channel);
    SameDecision(s.db, t.db, a, channel);
  }

  lemma {:induction false} BothChase(cfg: Config, rt: Runtime, s: State, t: State, k: nat, id: Uuid, now: int, a: Uuid)
    requires Agree(s, t, a, k) && Enabled(cfg, rt, s, CommitChase(k, id, now))
    ensures BothStep(cfg, rt, s, t, CommitChase(k, id, now), a, k)
  {
    hide SideOf, ChasedDb, FinalStatus;
    ChasedSide(s.db, a, s.runs[k].seen, s.runs[k].state.decision, id, now, a);
    ChasedSide(t.db, a, s.runs[k].seen, s.runs[k].state.decision, id, now, a);
  }

  /** A step that moves run k. */
  predicate StepOf(step: Step, k: nat) { !IsRequestStep(step) && !step.StartRun? && step.k == k }

  lemma {:induction false} BothTake(cfg: Config, rt: Runtime, s: State, t: State, step: Step, a: Uuid, k: nat)
    requires Agree(s, t, a, k) && Enabled(cfg, rt, s, step) && StepOf(step, k)
    ensures BothStep(cfg, rt, s, t, step, a, k)
  {
    hide Agree, Enabled, Apply, BothStep;
    match step
    case LoadDocuments(_, order) => BothLoad(cfg, rt, s, t, k, order, a);
    case CommitIngest(_, rows) => BothIngest(cfg, rt, s, t, k, rows, a);
    case Extract(_, outcome) => BothExtract(cfg, rt, s, t, k, outcome, a);
    case ReconcileFacts(_, anomalies) => BothReconcile(cfg, rt, s, t, k, anomalies, a);
    case DecideChase(_, channel) => BothDecide(cfg, rt, s, t, k, channel, a);
    case CommitChase(_, id, now) => BothChase(cfg, rt, s, t, k, id, now, a);
  }

  // ----- A run among other steps -----

  /** The steps are `own`, in order, with steps elsewhere in between. */
  ghost predicate Woven(cfg: Config, rt: Runtime, s: State, steps: seq<Step>, own: seq<Step>, a: Uuid)
    requires Runs(cfg, rt, s, steps)
    decreases |steps|
  {
    if steps == [] then own == []
    else if own != [] && steps[0] == own[0] then Woven(cfg, rt, Apply(cfg, rt, s, steps[0]), steps[1..], own[1..], a)
    else Elsewhere(s, steps[0], a) && Woven(cfg, rt, Apply(cfg, rt, s, steps[0]), steps[1..], own, a)
  }

  /** Leaving out the steps elsewhere, the run can be taken from t and ends in agreement. */
  lemma {:induction false} OthersErased(cfg: Config, rt: Runtime, s: State, t: State, steps: seq<Step>, own: seq<Step>, a: Uuid, k: nat)
    requires Sound(cfg, s) && Traceable(rt, s) && Agree(s, t, a, k)
    requires Runs(cfg, rt, s, steps) && Woven(cfg, rt, s, steps, own, a) && forall step | step in own :: StepOf(step, k)
    ensures Runs(cfg, rt, t, own) && Agree(After(cfg, rt, s, steps), After(cfg, rt, t, own), a, k)
    decreases |steps|
  {
    hide Sound, Traceable, Agree, Enabled, Apply, Elsewhere, StepOf;
    if steps != [] {
      var next := Apply(cfg, rt, s, steps[0]);
      StepKeepsSound(cfg, rt, s, steps[0]);
      StepTraceable(cfg, rt, s, steps[0]);
      if own != [] && steps[0] == own[0] {
        assert own[0] in own;
        BothTake(cfg, rt, s, t, steps[0], a, k);
        OthersErased(cfg, rt, next, Apply(cfg, rt, t, steps[0]), steps[1..], own[1..], a, k);
      } else {
        ElsewhereAgrees(cfg, rt, s, t, steps[0], a, k);
        OthersErased(cfg, rt, next, t, steps[1..], own, a, k);
      }
    }
  }

  // ----- A run alone, read off its steps -----

  lemma {:induction false} TwoPeeled(cfg: Config, rt: Runtime, s: State, first: Step, rest: seq<Step>)
    requires Runs(cfg, rt, s, [first] + rest)
    ensures Enabled(cfg, rt, s, first) && Runs(cfg, rt, Apply(cfg, rt, s, first), rest)
    ensures After(cfg, rt, s, [first] + rest) == After(cfg, rt, Apply(cfg, rt, s, first), rest)
  {
    hide Enabled, Apply;
    assert ([first] + rest)[1..] == rest;
  }

  function Tail(k: nat, x: RunInput): seq<Step> { [ReconcileFacts(k, x.anomalies), DecideChase(k, x.channel), CommitChase(k, x.id, x.now)] }

  /** The steps of a run after its start. */
  function OwnSteps(k: nat, x: RunInput, degraded: bool): seq<Step> {
    [LoadDocuments(k, x.order)] + ([CommitIngest(k, x.rows)] + ([Extract(k, x.outcome)] + if degraded then [] else Tail(k, x)))
  }

  lemma {:induction false} LoadAsked(cfg: Config, rt: Runtime, s: State, k: nat, order: seq<Uuid>)
    requires Enabled(cfg, rt, s, LoadDocuments(k, order))
    ensures RunAt(s, k) && Enumerates(order, DocsOf(s.db, s.runs[k].application))
    ensures var s' := Apply(cfg, rt, s, LoadDocuments(k, order));
            s'.db == s.db && RunAt(s', k) && s'.runs[k].application == s.runs[k].application
  {
    hide Enumerates, LoadAll;
  }

  lemma {:induction false} IngestAsked(cfg: Config, rt: Runtime, s: State, k: nat, rows: seq<Communication>)
    requires Enabled(cfg, rt, s, CommitIngest(k, rows))
    ensures RunAt(s, k) && ChatRows(s.db, s.runs[k].application, rows)
  {
    hide ChatRows;
  }

  /** The first two steps fetch the documents and chat rows of the tables the run started on. */
  lemma {:induction false} StepsFetched(cfg: Config, rt: Runtime, s: State, a: Uuid, x: RunInput)
    requires a in s.pending && a in s.db.applications && SchemaValid(x.outcome)
    requires var k, s1 := |s.runs|, AfterStart(s, a);
             && Enabled(cfg, rt, s1, LoadDocuments(k, x.order))
             && Enabled(cfg, rt, Apply(cfg, rt, s1, LoadDocuments(k, x.order)), CommitIngest(k, x.rows))
    ensures Fetched(s.db, a, x)
  {
    hide Enabled, Apply, AfterStart, SchemaValid, Enumerates, Entered, SeenBy, ChatRows;
    var k, s1 := |s.runs|, AfterStart(s, a);
    Starts(cfg, rt, s, a);
    EnteredKeeps(s.db, a);
    LoadAsked(cfg, rt, s1, k, x.order);
    IngestAsked(cfg, rt, Apply(cfg, rt, s1, LoadDocuments(k, x.order)), k, x.rows);
    SameCommunicationsSameChat(s1.db, s.db, a, x.rows);
    assert DocsOf(s1.db, a) == DocsOf(s.db, a);
    EnumeratedDocuments(s.db, a, x.order);
  }

  /** The third traces, on the state the first two left. */
  lemma {:induction false} ThreeTaken(cfg: Config, rt: Runtime, s: State, a: Uuid, x: RunInput, rest: seq<Step>) returns (s4: State)
    requires a in s.pending && a in s.db.applications
    requires var k := |s.runs|;
             Runs(cfg, rt, AfterStart(s, a), [LoadDocuments(k, x.order)] + ([CommitIngest(k, x.rows)] + ([Extract(k, x.outcome)] + rest)))
    ensures Fetched(s.db, a, x) && Runs(cfg, rt, s4, rest) && RunAt(s4, |s.runs|) && s4.db == AfterTrace(rt, s.db, a, x)
    ensures var k := |s.runs|;
            After(cfg, rt, s4, rest)
            == After(cfg, rt, AfterStart(s, a), [LoadDocuments(k, x.order)] + ([CommitIngest(k, x.rows)] + ([Extract(k, x.outcome)] + rest)))
    ensures s4.runs[|s.runs|] == Run(a, if DegradedBy(rt, s.db, x) then ManualReview else SeenBy(s.db, a),
                                     if DegradedBy(rt, s.db, x) then Done else AtReconcile)
  {
    hide Enabled, Apply, AfterStart, AfterTrace, SeenBy, AfterExtract, Enumerates, ChatRows, DegradedBy, SourcesBy, AfterIngest, Runs, After;
    var k, s1 := |s.runs|, AfterStart(s, a);
    TwoPeeled(cfg, rt, s1, LoadDocuments(k, x.order), [CommitIngest(k, x.rows)] + ([Extract(k, x.outcome)] + rest));
    var s2 := Apply(cfg, rt, s1, LoadDocuments(k, x.order));
    TwoPeeled(cfg, rt, s2, CommitIngest(k, x.rows), [Extract(k, x.outcome)] + rest);
    var s3 := Apply(cfg, rt, s2, CommitIngest(k, x.rows));
    TwoPeeled(cfg, rt, s3, Extract(k, x.outcome), rest);
    ExtractAsked(cfg, rt, s3, k, x.outcome);
    StepsFetched(cfg, rt, s, a, x);
    Starts(cfg, rt, s, a);
    var u1, u2, u3 := StepsIngested(cfg, rt, s, a, x);
    Extracts(cfg, rt, s3, k, x.outcome);
    StepsTraced(rt, s, s3, a, x);
    s4 := AfterExtract(rt, s3, k, x.outcome);
    TracedRun(rt, s3, k, x.outcome);
    DegradedIs(rt, s.db, x);
  }

  lemma {:induction false} ExtractAsked(cfg: Config, rt: Runtime, s: State, k: nat, outcome: Outcome)
    requires Enabled(cfg, rt, s, Extract(k, outcome))
    ensures SchemaValid(outcome) && RunAt(s, k) && s.runs[k].state.AtExtract?
  {
  }

  lemma {:induction false} DegradedIs(rt: Runtime, db: Db, x: RunInput)
    requires Listed(db, x.order)
    ensures DegradedBy(rt, db, x) <==> SourcesBy(rt, db, x) != [] && x.outcome.Failed?
  {
    hide SourcesBy;
  }

  lemma {:induction false} TracedRun(rt: Runtime, s: State, k: nat, outcome: Outcome)
    requires RunAt(s, k) && s.runs[k].state.AtExtract?
    ensures var run, s' := s.runs[k], AfterExtract(rt, s, k, outcome);
            && RunAt(s', k)
            && s'.runs[k] == if run.state.sources != [] && outcome.Failed? then run.(state := Done, seen := ManualReview)
                             else run.(state := AtReconcile)
  {
    hide ExtractedDb, DegradedDb;
  }

  /** The last three steps, from where extraction left the run. */
  lemma {:induction false} TailTaken(cfg: Config, rt: Runtime, s: State, s4: State, a: Uuid, x: RunInput)
    requires Fetched(s.db, a, x) && RunAt(s4, |s.runs|) && s4.db == AfterTrace(rt, s.db, a, x) && !DegradedBy(rt, s.db, x)
    requires s4.runs[|s.runs|] == Run(a, SeenBy(s.db, a), AtReconcile) && Runs(cfg, rt, s4, Tail(|s.runs|, x))
    ensures Possible(rt, s.db, a, x) && After(cfg, rt, s4, Tail(|s.runs|, x)).db == Ran(rt, s.db, a, x)
  {
    hide Enabled, Apply, AfterTrace, SeenBy, Enumerates, ChatRows, DegradedBy, Runs, After, Ran, PickedChannel, AllConflicts, FactsOf, Possible;
    var k := |s.runs|;
    var r, d, c := ReconcileFacts(k, x.anomalies), DecideChase(k, x.channel), CommitChase(k, x.id, x.now);
    assert Tail(k, x) == [r] + ([d] + ([c] + []));
    TwoPeeled(cfg, rt, s4, r, [d] + ([c] + []));
    var s5 := Apply(cfg, rt, s4, r);
    TwoPeeled(cfg, rt, s5, d, [c] + []);
    var s6 := Apply(cfg, rt, s5, d);
    TwoPeeled(cfg, rt, s6, c, []);
    TailAsked(cfg, rt, s4, k, x);
    TraceKeepsCommunications(rt, s.db, a, x);
    SameCommunicationsSameChannel(s5.db, s.db, a, x.channel);
    PossibleIs(rt, s.db, a, x);
    var v5, v6, v7 := StepsChased(cfg, rt, s, s4, a, x);
    NoMore(cfg, rt, Apply(cfg, rt, s6, c));
  }

  lemma {:induction false} NoMore(cfg: Config, rt: Runtime, s: State)
    ensures Runs(cfg, rt, s, []) && After(cfg, rt, s, []) == s
  {
  }

  lemma {:induction false} PossibleIs(rt: Runtime, db: Db, a: Uuid, x: RunInput)
    requires Fetched(db, a, x)
    requires multiset(x.anomalies) == AllConflicts(rt.python, FactsOf(AfterTrace(rt, db, a, x), a)) && PickedChannel(db, a, x.channel)
    ensures Possible(rt, db, a, x)
  {
    hide Enumerates, ChatRows, AllConflicts, PickedChannel, AfterTrace, DegradedBy, FactsOf;
  }

  /** What the last three steps ask of the tables. */
  lemma {:induction false} TailAsked(cfg: Config, rt: Runtime, s: State, k: nat, x: RunInput)
    requires Enabled(cfg, rt, s, ReconcileFacts(k, x.anomalies))
    requires var s5 := Apply(cfg, rt, s, ReconcileFacts(k, x.anomalies));
             && Enabled(cfg, rt, s5, DecideChase(k, x.channel))
             && Enabled(cfg, rt, Apply(cfg, rt, s5, DecideChase(k, x.channel)), CommitChase(k, x.id, x.now))
    ensures RunAt(s, k) && multiset(x.anomalies) == AllConflicts(rt.python, FactsOf(s.db, s.runs[k].application)) && x.id !in s.drawn
    ensures var s5 := Apply(cfg, rt, s, ReconcileFacts(k, x.anomalies));
            s5.db.communications == s.db.communications && PickedChannel(s5.db, s.runs[k].application, x.channel)
  {
    hide AllConflicts, PickedChannel, FactsOf, AnomalyAudits, Decide;
  }

  /** A run started on s, taken step by step without others and ended, is the whole run. */
  lemma {:induction false} SoloRun(cfg: Config, rt: Runtime, s: State, a: Uuid, x: RunInput, degraded: bool)
    requires a in s.pending && a in s.db.applications && Runs(cfg, rt, AfterStart(s, a), OwnSteps(|s.runs|, x, degraded))
    requires RunOver(After(cfg, rt, AfterStart(s, a), OwnSteps(|s.runs|, x, degraded)), |s.runs|)
    ensures Possible(rt, s.db, a, x)
    ensures After(cfg, rt, AfterStart(s, a), OwnSteps(|s.runs|, x, degraded)).db == Ran(rt, s.db, a, x)
  {
    hide Enabled, Apply, AfterStart, AfterTrace, SeenBy, Enumerates, ChatRows, DegradedBy, Runs, After, Ran, PickedChannel, AllConflicts, FactsOf;
    var rest := if degraded then [] else Tail(|s.runs|, x);
    var s4 := ThreeTaken(cfg, rt, s, a, x, rest);
    if degraded {
      NoMore(cfg, rt, s4);
      DegradedRan(rt, s.db, a, x);
    } else {
      TailStarts(cfg, rt, s4, |s.runs|, x);
      TailTaken(cfg, rt, s, s4, a, x);
    }
  }

  lemma {:induction false} TailStarts(cfg: Config, rt: Runtime, s: State, k: nat, x: RunInput)
    requires Runs(cfg, rt, s, Tail(k, x))
    ensures RunAt(s, k) && s.runs[k].state.AtReconcile?
  {
    hide AllConflicts, FactsOf, Apply;
    assert Enabled(cfg, rt, s, ReconcileFacts(k, x.anomalies));
  }

  // ----- Runs of one application among all others -----

  /** The history is one whole run of a, from its start to its end, with steps elsewhere in between. */
  ghost predicate RunAmong(cfg: Config, rt: Runtime, s: State, steps: seq<Step>, a: Uuid, x: RunInput)
    requires Runs(cfg, rt, s, steps)
  {
    && steps != [] && steps[0] == StartRun(a)
    && (exists degraded :: Woven(cfg, rt, Apply(cfg, rt, s, steps[0]), steps[1..], OwnSteps(|s.runs|, x, degraded), a))
    && RunOver(After(cfg, rt, s, steps), |s.runs|)
  }

  lemma {:induction false} OwnStepsOf(k: nat, x: RunInput, degraded: bool)
    ensures forall step | step in OwnSteps(k, x, degraded) :: StepOf(step, k)
  {
    var rest := if degraded then [] else Tail(k, x);
    assert forall step | step in rest :: StepOf(step, k);
    forall step | step in OwnSteps(k, x, degraded) ensures StepOf(step, k) {
      assert step == LoadDocuments(k, x.order) || step == CommitIngest(k, x.rows) || step == Extract(k, x.outcome) || step in rest;
    }
  }

  lemma {:induction false} StartedAgree(s: State, a: Uuid)
    requires a in s.db.applications
    ensures Agree(AfterStart(s, a), AfterStart(s, a), a, |s.runs|)
  {
    hide SideOf, Assigned, EnteredStatus;
    AssignedSide(s.db, a, s.db.applications[a].status, EnteredStatus(s.db.applications[a].status), a);
  }

  /** A run leaves its application as the uninterrupted run would have, whatever the steps
      of other applications it was taken among. */
  lemma {:induction false} RunIsIsolated(cfg: Config, rt: Runtime, s: State, steps: seq<Step>, a: Uuid, x: RunInput)
    requires Sound(cfg, s) && Traceable(rt, s) && a in s.db.applications && Runs(cfg, rt, s, steps) && RunAmong(cfg, rt, s, steps, a, x)
    ensures Possible(rt, s.db, a, x) && SideKept(Ran(rt, s.db, a, x), After(cfg, rt, s, steps).db, a)
  {
    var k, s1 := |s.runs|, Apply(cfg, rt, s, steps[0]);
    StepKeepsSound(cfg, rt, s, steps[0]);
    StepTraceable(cfg, rt, s, steps[0]);
    StartPending(cfg, rt, s, a);
    Starts(cfg, rt, s, a);
    StartedAgree(s, a);
    hide Sound, Traceable, Enabled, Apply, AfterStart, Agree, Possible, Ran, SideOf;
    var degraded :| Woven(cfg, rt, s1, steps[1..], OwnSteps(k, x, degraded), a);
    OwnStepsOf(k, x, degraded);
    hide OwnSteps, StepOf;
    OthersErased(cfg, rt, s1, s1, steps[1..], OwnSteps(k, x, degraded), a, k);
    EndsAgree(After(cfg, rt, s1, steps[1..]), After(cfg, rt, s1, OwnSteps(k, x, degraded)), a, k);
    SoloRun(cfg, rt, s, a, x, degraded);
  }

  lemma {:induction false} StartPending(cfg: Config, rt: Runtime, s: State, a: Uuid)
    requires Enabled(cfg, rt, s, StartRun(a))
    ensures a in s.pending
  {
  }

  lemma {:induction false} EndsAgree(s: State, t: State, a: Uuid, k: nat)
    requires Agree(s, t, a, k)
    ensures SideKept(t.db, s.db, a) && (RunOver(s, k) ==> RunOver(t, k))
  {
    hide SideOf;
  }

  ghost predicate AllElsewhere(cfg: Config, rt: Runtime, s: State, steps: seq<Step>, a: Uuid)
    requires Runs(cfg, rt, s, steps)
    decreases |steps|
  {
    steps == [] || (Elsewhere(s, steps[0], a) && AllElsewhere(cfg, rt, Apply(cfg, rt, s, steps[0]), steps[1..], a))
  }

  /** Steps elsewhere leave the side of a as it is. */
  lemma {:induction false} ElsewhereKeepsAll(cfg: Config, rt: Runtime, s: State, steps: seq<Step>, a: Uuid)
    requires Sound(cfg, s) && Traceable(rt, s) && a in s.db.applications && Runs(cfg, rt, s, steps) && AllElsewhere(cfg, rt, s, steps, a)
    ensures SideKept(s.db, After(cfg, rt, s, steps).db, a)
    decreases |steps|
  {
    if steps != [] {
      StepKeepsSound(cfg, rt, s, steps[0]);
      StepTraceable(cfg, rt, s, steps[0]);
      hide Inv, Traceable, Enabled, Apply, SideOf, Elsewhere, RunsKnown;
      ElsewhereKeeps(cfg, rt, s, steps[0], a);
      ElsewhereKeepsAll(cfg, rt, Apply(cfg, rt, s, steps[0]), steps[1..], a);
    }
  }

  lemma {:induction false} SideUndisturbed(db: Db, db': Db, a: Uuid)
    requires SideKept(db, db', a)
    ensures Undisturbed(db, db', a)
  {
    SideKeys(db, a);
    SideKeys(db', a);
    SameInbound(db, db', a);
    hide DocsOf, DocumentsOf, Filter, SentContents;
  }

  /** Between the first run's end and the second's, everything the borrower's side shows
      stays as it is, whatever happened elsewhere meanwhile. */
  lemma {:induction false} RerunAmongOthers(cfg: Config, rt: Runtime, s: State, one: seq<Step>, between: seq<Step>, two: seq<Step>,
                                            a: Uuid, x: RunInput, y: RunInput)
    requires Sound(cfg, s) && Traceable(rt, s) && a in s.db.applications && DistinctTimestamps(s.db, a) && y.outcome == x.outcome
    requires Runs(cfg, rt, s, one) && RunAmong(cfg, rt, s, one, a, x)
    requires Runs(cfg, rt, After(cfg, rt, s, one), between) && AllElsewhere(cfg, rt, After(cfg, rt, s, one), between, a)
    requires var s2 := After(cfg, rt, After(cfg, rt, s, one), between); Runs(cfg, rt, s2, two) && RunAmong(cfg, rt, s2, two, a, y)
    ensures var s1 := After(cfg, rt, s, one);
            var s3 := After(cfg, rt, After(cfg, rt, s1, between), two);
            && a in s1.db.applications && a in s3.db.applications
            && s3.db.applications[a].status == s1.db.applications[a].status
            && FactsOf(s3.db, a) == FactsOf(s1.db, a)
            && SentContents(s3.db.communications, a) == SentContents(s1.db.communications, a)
  {
    var s1 := After(cfg, rt, s, one);
    var s2 := After(cfg, rt, s1, between);
    var s3 := After(cfg, rt, s2, two);
    HistoryKeepsSound(cfg, rt, s, one);
    HistoryTraceable(cfg, rt, s, one);
    HistoryKeepsSound(cfg, rt, s1, between);
    HistoryTraceable(cfg, rt, s1, between);
    hide Sound, Traceable, Runs, After, RunAmong, AllElsewhere, Ran, SideOf, DistinctTimestamps, FactsOf, SentContents, Possible, Undisturbed;
    RunIsIsolated(cfg, rt, s, one, a, x);
    ElsewhereKeepsAll(cfg, rt, s1, between, a);
    RunIsIsolated(cfg, rt, s2, two, a, y);
    SideUndisturbed(Ran(rt, s.db, a, x), s2.db, a);
    RerunChangesNothing(rt, s.db, a, x, s2.db, y);
    SideShows(Ran(rt, s.db, a, x), s1.db, a);
    SideShows(Ran(rt, s2.db, a, y), s3.db, a);
  }

  lemma {:induction false} SideShows(db: Db, db': Db, a: Uuid)
    requires SideKept(db, db', a)
    ensures db'.applications[a].status == db.applications[a].status && FactsOf(db', a) == FactsOf(db, a)
    ensures SentContents(db'.communications, a) == SentContents(db.communications, a)
  {
    hide Filter, SentContents, DocumentsOf, FactsOf;
  }
}
