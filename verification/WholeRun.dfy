/** One run of the pipeline from its entry to its last commit (pipeline.py, builder.py),
    as a function of the tables, and as the uninterrupted steps of the running system. */
module WholeRun {
  import opened Basics
  import opened Prompt
  import opened Reconcile
  import opened Tables
  import opened Intake
  import opened Nodes
  import opened System
  import opened Histories
  import Redaction

  /** What a run draws from its surroundings: row orders, the extractor's answer, the
      picked channel, an identifier and the clock. */
  datatype RunInput = RunInput(order: seq<Uuid>, rows: seq<Communication>, outcome: Outcome, anomalies: seq<Anomaly>,
                               channel: Channel, id: Uuid, now: int)

  /** The documents listed are documents of the tables. */
  predicate Listed(db: Db, order: seq<Uuid>) { forall d | d in order :: d in db.documents }

  function SourcesBy(rt: Runtime, db: Db, x: RunInput): seq<SourceText>
    requires Listed(db, x.order)
  {
    SourcesOf(LoadAll(rt, db.documents, x.order), x.rows)
  }

  predicate DegradedBy(rt: Runtime, db: Db, x: RunInput)
    requires Listed(db, x.order)
  {
    SourcesBy(rt, db, x) != [] && x.outcome.Failed?
  }

  function SeenBy(db: Db, a: Uuid): Status
    requires a in db.applications
  {
    EnteredStatus(db.applications[a].status)
  }

  function AfterIngest(rt: Runtime, db: Db, a: Uuid, x: RunInput): Db
    requires a in db.applications && Listed(db, x.order)
  {
    Ingested(Entered(db, a), a, LoadAll(rt, db.documents, x.order))
  }

  function AfterTrace(rt: Runtime, db: Db, a: Uuid, x: RunInput): Db
    requires a in db.applications && Listed(db, x.order)
  {
    var ingested, sources := AfterIngest(rt, db, a, x), SourcesBy(rt, db, x);
    if sources == [] then ingested
    else match x.outcome
      case Failed(errorClass, code, detail) => DegradedDb(ingested, a, SeenBy(db, a), errorClass, code, detail)
      case Extracted(entities, response) => ExtractedDb(rt.python, ingested, a, sources, entities, response)
  }

  function AfterReconcile(rt: Runtime, db: Db, a: Uuid, x: RunInput): Db
    requires a in db.applications && Listed(db, x.order)
  {
    ReconciledDb(rt, AfterTrace(rt, db, a, x), a, x.anomalies)
  }

  /** The tables after the whole run. */
  function Ran(rt: Runtime, db: Db, a: Uuid, x: RunInput): Db
    requires a in db.applications && Listed(db, x.order)
  {
    if DegradedBy(rt, db, x) then AfterTrace(rt, db, a, x)
    else
      var reconciled := AfterReconcile(rt, db, a, x);
      ChasedDb(reconciled, a, SeenBy(db, a), Decide(reconciled, a, x.channel), x.id, x.now)
  }

  /** The documents and chat rows are those of the tables, and the extractor keeps its schema. */
  ghost predicate Fetched(db: Db, a: Uuid, x: RunInput) {
    && a in db.applications && Listed(db, x.order)
    && Enumerates(x.order, DocsOf(db, a)) && ChatRows(db, a, x.rows) && SchemaValid(x.outcome)
  }

  /** The surroundings answer the run's queries as the tables say. */
  ghost predicate Possible(rt: Runtime, db: Db, a: Uuid, x: RunInput) {
    && Fetched(db, a, x)
    && (!DegradedBy(rt, db, x) ==>
          && multiset(x.anomalies) == AllConflicts(rt.python, FactsOf(AfterTrace(rt, db, a, x), a))
          && PickedChannel(db, a, x.channel))
  }

  /** Fields of the input a stage does not look at do not matter to it. */
  lemma {:induction false} InputUnused(rt: Runtime, db: Db, a: Uuid, x: RunInput, y: RunInput)
    requires a in db.applications && Listed(db, x.order) && y.order == x.order && y.rows == x.rows && y.outcome == x.outcome
    ensures SourcesBy(rt, db, y) == SourcesBy(rt, db, x) && DegradedBy(rt, db, y) == DegradedBy(rt, db, x)
    ensures AfterTrace(rt, db, a, y) == AfterTrace(rt, db, a, x)
  {
    hide Ingested, Entered, LoadAll, SourcesOf, ExtractedDb, DegradedDb;
  }

  // ----- The same run, step by step -----

  function RunSteps(k: nat, a: Uuid, x: RunInput, degraded: bool): seq<Step> {
    [StartRun(a), LoadDocuments(k, x.order), CommitIngest(k, x.rows), Extract(k, x.outcome)]
    + if degraded then [] else [ReconcileFacts(k, x.anomalies), DecideChase(k, x.channel), CommitChase(k, x.id, x.now)]
  }

  /** Nothing but tables, runs and drawn identifiers differs. */
  ghost predicate Around(s: State, s': State) {
    s'.requests == s.requests && s'.cache == s.cache && s'.pending == s.pending
  }

  /** At most this identifier was drawn. */
  ghost predicate DrewOnly(s: State, s': State, id: Uuid) { s.drawn <= s'.drawn <= s.drawn + {id} }

  lemma {:induction false} Starts(cfg: Config, rt: Runtime, s: State, a: Uuid)
    requires a in s.pending && a in s.db.applications
    ensures Enabled(cfg, rt, s, StartRun(a)) && Apply(cfg, rt, s, StartRun(a)) == AfterStart(s, a)
    ensures AfterStart(s, a).db == Entered(s.db, a) && AfterStart(s, a).drawn == s.drawn
    ensures Around(s.(pending := s.pending - multiset{a}), AfterStart(s, a))
    ensures AfterStart(s, a).runs == s.runs + [Run(a, SeenBy(s.db, a), AtIngest)]
  {
    hide Assigned, EnteredStatus;
  }

  lemma {:induction false} Loads(cfg: Config, rt: Runtime, s: State, k: nat, order: seq<Uuid>)
    requires RunAt(s, k) && s.runs[k].state.AtIngest? && Listed(s.db, order) && Enumerates(order, DocsOf(s.db, s.runs[k].application))
    ensures Enabled(cfg, rt, s, LoadDocuments(k, order))
    ensures Apply(cfg, rt, s, LoadDocuments(k, order)) == AtRun(s, k, AtIngestCommit(LoadAll(rt, s.db.documents, order)))
  {
    hide Enumerates, LoadAll, DocsOf;
  }

  lemma {:induction false} Ingests(cfg: Config, rt: Runtime, s: State, k: nat, rows: seq<Communication>)
    requires RunAt(s, k) && s.runs[k].state.AtIngestCommit? && ChatRows(s.db, s.runs[k].application, rows)
    ensures Enabled(cfg, rt, s, CommitIngest(k, rows))
    ensures var run := s.runs[k];
            Apply(cfg, rt, s, CommitIngest(k, rows))
            == AtRun(s, k, AtExtract(SourcesOf(run.state.loaded, rows))).(db := Ingested(s.db, run.application, run.state.loaded))
  {
    hide ChatRows, SourcesOf, Ingested;
  }

  lemma {:induction false} Extracts(cfg: Config, rt: Runtime, s: State, k: nat, outcome: Outcome)
    requires RunAt(s, k) && s.runs[k].state.AtExtract? && SchemaValid(outcome)
    ensures Enabled(cfg, rt, s, Extract(k, outcome)) && Apply(cfg, rt, s, Extract(k, outcome)) == AfterExtract(rt, s, k, outcome)
  {
    hide AfterExtract;
  }

  lemma {:induction false} Reconciles(cfg: Config, rt: Runtime, s: State, k: nat, anomalies: seq<Anomaly>)
    requires RunAt(s, k) && s.runs[k].state.AtReconcile?
    requires multiset(anomalies) == AllConflicts(rt.python, FactsOf(s.db, s.runs[k].application))
    ensures Enabled(cfg, rt, s, ReconcileFacts(k, anomalies))
    ensures Apply(cfg, rt, s, ReconcileFacts(k, anomalies))
         == AtRun(s, k, AtChase).(db := ReconciledDb(rt, s.db, s.runs[k].application, anomalies))
  {
    hide AllConflicts, FactsOf, ReconciledDb;
  }

  lemma {:induction false} Decides(cfg: Config, rt: Runtime, s: State, k: nat, channel: Channel)
    requires RunAt(s, k) && s.runs[k].state.AtChase? && PickedChannel(s.db, s.runs[k].application, channel)
    ensures Enabled(cfg, rt, s, DecideChase(k, channel))
    ensures Apply(cfg, rt, s, DecideChase(k, channel)) == AtRun(s, k, AtChaseCommit(Decide(s.db, s.runs[k].application, channel)))
  {
    hide PickedChannel, Decide;
  }

  lemma {:induction false} Chases(cfg: Config, rt: Runtime, s: State, k: nat, id: Uuid, now: int)
    requires RunAt(s, k) && s.runs[k].state.AtChaseCommit? && id !in s.drawn
    ensures Enabled(cfg, rt, s, CommitChase(k, id, now)) && Apply(cfg, rt, s, CommitChase(k, id, now)) == AfterChase(s, k, id, now)
  {
    hide AfterChase;
  }

  lemma {:induction false} EnteredKeeps(db: Db, a: Uuid)
    requires a in db.applications
    ensures var db' := Entered(db, a); db' == db.(applications := db'.applications)
  {
  }

  /** Up to the commit of the ingest node. */
  lemma {:induction false} StepsIngested(cfg: Config, rt: Runtime, s: State, a: Uuid, x: RunInput) returns (s1: State, s2: State, s3: State)
    requires a in s.pending && Fetched(s.db, a, x)
    ensures Enabled(cfg, rt, s, StartRun(a)) && s1 == Apply(cfg, rt, s, StartRun(a))
    ensures Enabled(cfg, rt, s1, LoadDocuments(|s.runs|, x.order)) && s2 == Apply(cfg, rt, s1, LoadDocuments(|s.runs|, x.order))
    ensures Enabled(cfg, rt, s2, CommitIngest(|s.runs|, x.rows)) && s3 == Apply(cfg, rt, s2, CommitIngest(|s.runs|, x.rows))
    ensures s3.db == AfterIngest(rt, s.db, a, x) && s3.drawn == s.drawn
    ensures Around(s.(pending := s.pending - multiset{a}), s3)
    ensures s3.runs == s.runs + [Run(a, SeenBy(s.db, a), AtExtract(SourcesBy(rt, s.db, x)))]
  {
    hide Enabled, Apply, Entered, Enumerates, SeenBy, Ingested, LoadAll, SourcesOf, DegradedBy, AfterTrace, PickedChannel, SchemaValid;
    var k := |s.runs|;
    EnteredKeeps(s.db, a);
    Starts(cfg, rt, s, a);
    s1 := AfterStart(s, a);
    hide AfterStart;
    assert DocsOf(s1.db, a) == DocsOf(s.db, a) && ChatRows(s1.db, a, x.rows);
    Loads(cfg, rt, s1, k, x.order);
    s2 := AtRun(s1, k, AtIngestCommit(LoadAll(rt, s1.db.documents, x.order)));
    hide ChatRows;
    assert s2.db == s1.db;
    Ingests(cfg, rt, s2, k, x.rows);
    s3 := AtRun(s2, k, AtExtract(SourcesOf(LoadAll(rt, s1.db.documents, x.order), x.rows)))
            .(db := Ingested(s2.db, a, LoadAll(rt, s1.db.documents, x.order)));
  }

  /** Extraction, as the run sees it. */
  lemma {:induction false} StepsTraced(rt: Runtime, s: State, s3: State, a: Uuid, x: RunInput)
    requires a in s.db.applications && Listed(s.db, x.order) && s3.db == AfterIngest(rt, s.db, a, x)
    requires s3.runs == s.runs + [Run(a, SeenBy(s.db, a), AtExtract(SourcesBy(rt, s.db, x)))]
    ensures var s4, k := AfterExtract(rt, s3, |s.runs|, x.outcome), |s.runs|;
            && s4.db == AfterTrace(rt, s.db, a, x) && s4.drawn == s3.drawn && RunAt(s4, k) && Around(s3, s4)
            && (!DegradedBy(rt, s.db, x) ==> s4.runs == s.runs + [Run(a, SeenBy(s.db, a), AtReconcile)])
  {
    hide AfterIngest, SourcesBy, ExtractedDb, DegradedDb, SeenBy;
  }

  lemma {:induction false} TraceKeepsCommunications(rt: Runtime, db: Db, a: Uuid, x: RunInput)
    requires a in db.applications && Listed(db, x.order)
    ensures AfterTrace(rt, db, a, x).communications == db.communications
    ensures AfterReconcile(rt, db, a, x).communications == db.communications
  {
    hide Excerpt, FactsFrom, WithoutFactsOf, FreshTexts, ParseFailures, LoadAll, SourcesOf, Redaction.DegradedExcerpt, AnomalyAudits;
  }

  lemma {:induction false} SameCommunicationsSameChannel(db: Db, db': Db, a: Uuid, channel: Channel)
    requires db'.communications == db.communications && PickedChannel(db, a, channel)
    ensures PickedChannel(db', a, channel)
  {
    if c :| c in db.communications && IsNewestInbound(db, a, c) && c.channel == channel {
      assert IsNewestInbound(db', a, c);
    }
  }

  lemma {:induction false} SameCommunicationsSameChat(db: Db, db': Db, a: Uuid, rows: seq<Communication>)
    requires db'.communications == db.communications && ChatRows(db, a, rows)
    ensures ChatRows(db', a, rows)
  {
    hide Filter;
  }

  /** From reconciliation to the last commit. */
  lemma {:induction false} StepsChased(cfg: Config, rt: Runtime, s: State, s4: State, a: Uuid, x: RunInput) returns (s5: State, s6: State, s7: State)
    requires Possible(rt, s.db, a, x) && !DegradedBy(rt, s.db, x) && RunAt(s4, |s.runs|) && x.id !in s4.drawn
    requires s4.db == AfterTrace(rt, s.db, a, x) && s4.runs[|s.runs|] == Run(a, SeenBy(s.db, a), AtReconcile)
    ensures var k := |s.runs|;
            && Enabled(cfg, rt, s4, ReconcileFacts(k, x.anomalies)) && s5 == Apply(cfg, rt, s4, ReconcileFacts(k, x.anomalies))
            && Enabled(cfg, rt, s5, DecideChase(k, x.channel)) && s6 == Apply(cfg, rt, s5, DecideChase(k, x.channel))
            && Enabled(cfg, rt, s6, CommitChase(k, x.id, x.now)) && s7 == Apply(cfg, rt, s6, CommitChase(k, x.id, x.now))
            && s7.db == Ran(rt, s.db, a, x) && DrewOnly(s4, s7, x.id) && Around(s4, s7)
  {
    hide Enabled, Apply, AfterTrace, SeenBy, ReconciledDb, Decide, PickedChannel, AllConflicts, FactsOf, Enumerates, ChatRows, SourcesBy;
    var k := |s.runs|;
    TraceKeepsCommunications(rt, s.db, a, x);
    Reconciles(cfg, rt, s4, k, x.anomalies);
    s5 := AtRun(s4, k, AtChase).(db := ReconciledDb(rt, s4.db, a, x.anomalies));
    assert s5.db == AfterReconcile(rt, s.db, a, x);
    SameCommunicationsSameChannel(s.db, s5.db, a, x.channel);
    Decides(cfg, rt, s5, k, x.channel);
    s6 := AtRun(s5, k, AtChaseCommit(Decide(s5.db, a, x.channel)));
    Chases(cfg, rt, s6, k, x.id, x.now);
    s7 := AfterChase(s6, k, x.id, x.now);
    ChaseDbIs(s6, k, x.id, x.now);
  }

  lemma {:induction false} ChaseDbIs(s: State, k: nat, id: Uuid, now: int)
    requires RunAt(s, k) && s.runs[k].state.AtChaseCommit?
    ensures Around(s, AfterChase(s, k, id, now)) && DrewOnly(s, AfterChase(s, k, id, now), id)
    ensures AfterChase(s, k, id, now).db == ChasedDb(s.db, s.runs[k].application, s.runs[k].seen, s.runs[k].state.decision, id, now)
  {
    hide ChasedDb;
  }

  /** A run whose steps are taken without interruption is the whole run. */
  lemma {:induction false} UninterruptedRun(cfg: Config, rt: Runtime, s: State, a: Uuid, x: RunInput)
    requires a in s.pending && Possible(rt, s.db, a, x) && x.id !in s.drawn
    ensures var steps := RunSteps(|s.runs|, a, x, DegradedBy(rt, s.db, x));
            && Runs(cfg, rt, s, steps) && After(cfg, rt, s, steps).db == Ran(rt, s.db, a, x)
            && Around(s.(pending := s.pending - multiset{a}), After(cfg, rt, s, steps))
            && DrewOnly(s, After(cfg, rt, s, steps), x.id)
  {
    hide Enabled, Apply, Ran, AfterTrace, SeenBy, AfterExtract, Enumerates, ChatRows, PickedChannel, AllConflicts, FactsOf, DegradedBy, SourcesBy, AfterIngest;
    var k, degraded := |s.runs|, DegradedBy(rt, s.db, x);
    var s1, s2, s3 := StepsIngested(cfg, rt, s, a, x);
    Extracts(cfg, rt, s3, k, x.outcome);
    StepsTraced(rt, s, s3, a, x);
    var s4, rest := AfterExtract(rt, s3, k, x.outcome), [];
    OneStep(cfg, rt, s4, rest);
    if degraded {
      DegradedRan(rt, s.db, a, x);
    } else {
      var s5, s6, s7 := StepsChased(cfg, rt, s, s4, a, x);
      rest := ThreeSteps(cfg, rt, s4, s5, s6, s7, k, x);
    }
    OneMore(cfg, rt, s3, Extract(k, x.outcome), rest);
    OneMore(cfg, rt, s2, CommitIngest(k, x.rows), [Extract(k, x.outcome)] + rest);
    OneMore(cfg, rt, s1, LoadDocuments(k, x.order), [CommitIngest(k, x.rows)] + ([Extract(k, x.outcome)] + rest));
    OneMore(cfg, rt, s, StartRun(a), [LoadDocuments(k, x.order)] + ([CommitIngest(k, x.rows)] + ([Extract(k, x.outcome)] + rest)));
    hide Runs, After;
    assert RunSteps(k, a, x, degraded)
        == [StartRun(a)] + ([LoadDocuments(k, x.order)] + ([CommitIngest(k, x.rows)] + ([Extract(k, x.outcome)] + rest)));
  }

  lemma {:induction false} DegradedRan(rt: Runtime, db: Db, a: Uuid, x: RunInput)
    requires a in db.applications && Listed(db, x.order) && DegradedBy(rt, db, x)
    ensures Ran(rt, db, a, x) == AfterTrace(rt, db, a, x)
  {
  }

  lemma {:induction false} ThreeSteps(cfg: Config, rt: Runtime, s4: State, s5: State, s6: State, s7: State, k: nat, x: RunInput) returns (rest: seq<Step>)
    requires Enabled(cfg, rt, s4, ReconcileFacts(k, x.anomalies)) && s5 == Apply(cfg, rt, s4, ReconcileFacts(k, x.anomalies))
    requires Enabled(cfg, rt, s5, DecideChase(k, x.channel)) && s6 == Apply(cfg, rt, s5, DecideChase(k, x.channel))
    requires Enabled(cfg, rt, s6, CommitChase(k, x.id, x.now)) && s7 == Apply(cfg, rt, s6, CommitChase(k, x.id, x.now))
    ensures rest == [ReconcileFacts(k, x.anomalies), DecideChase(k, x.channel), CommitChase(k, x.id, x.now)]
    ensures Runs(cfg, rt, s4, rest) && After(cfg, rt, s4, rest) == s7
  {
    hide Enabled, Apply;
    OneStep(cfg, rt, s7, []);
    OneMore(cfg, rt, s6, CommitChase(k, x.id, x.now), []);
    OneMore(cfg, rt, s5, DecideChase(k, x.channel), [CommitChase(k, x.id, x.now)]);
    OneMore(cfg, rt, s4, ReconcileFacts(k, x.anomalies), [DecideChase(k, x.channel), CommitChase(k, x.id, x.now)]);
    rest := [ReconcileFacts(k, x.anomalies), DecideChase(k, x.channel), CommitChase(k, x.id, x.now)];
    hide Runs, After;
    assert [CommitChase(k, x.id, x.now)] + [] == [CommitChase(k, x.id, x.now)];
  }
}
