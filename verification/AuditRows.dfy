/** Every audit row ever stored: where its texts come from, and exactly when they hold no
    identifier. */
module AuditRows {
  import opened Basics
  import opened Facts
  import opened Tables
  import opened Intake
  import opened Nodes
  import opened System
  import opened ExactlyOnce
  import opened Traceability
  import opened AuditTrail
  import opened CleanTexts
  import opened CleanPieces
  import opened Json
  import opened ObjectStore
  import opened Reconcile
  import Prompt
  import Redaction

  // ----- Where the rows come from -----

  ghost predicate FromExtraction(a: Audit) {
    a.action == "extract.trace" && ExtractionClean(a)
  }

  ghost predicate IsChaseText(text: string) {
    exists present: set<string>, channel :: text == ChaseContent(Missing(present, REQUIRED_FACT_KEYS), channel)
  }

  ghost predicate FromChase(a: Audit) {
    a.action == "chase.sent" && a.prompt == None && a.response.Some? && IsChaseText(a.response.value)
  }

  ghost predicate FromDegradation(a: Audit) {
    a.action == "extract.degraded" && a.prompt == None && exists raw :: a.response == Some(Redaction.DegradedExcerpt(raw))
  }

  /** The document's path leads nowhere, or its file is missing. */
  ghost predicate Unread(rt: Runtime, document: Document) {
    var path := LocalDocumentPath(rt.root, document.application, document.s3Path);
    path.None? || rt.readFile(path.value).None?
  }

  /** The row carries message and code of the failure to parse this stored document of its application. */
  ghost predicate ReportsFailure(rt: Runtime, documents: map<Uuid, Document>, a: Audit, d: Uuid) {
    && d in documents && documents[d].application == a.application
    && ParseDocument(rt, documents[d]).Err? && a.response == Some(ParseDocument(rt, documents[d]).error.message)
    && a.errorCode == Some(ParseDocument(rt, documents[d]).error.code)
    && (Unread(rt, documents[d]) ==> a.errorCode == Some("malformed_pdf"))
  }

  lemma {:induction false} UnreadIsMalformed(rt: Runtime, document: Document)
    requires Unread(rt, document)
    ensures ParseDocument(rt, document).Err? && ParseDocument(rt, document).error.code == "malformed_pdf"
  {
    hide LocalDocumentPath, PathText;
  }

  ghost predicate FromParsing(rt: Runtime, documents: map<Uuid, Document>, a: Audit) {
    a.action == "ingest.parse_failed" && a.prompt == None && exists d :: ReportsFailure(rt, documents, a, d)
  }

  /** The row shows the report on a conflicting pair of facts of its application, the
      documented one from a stored document. */
  ghost predicate ShowsConflict(rt: Runtime, documents: map<Uuid, Document>, a: Audit, s: Fact, d: Fact) {
    && s.application == a.application && d.application == a.application && s.key in KNOWN_FACT_KEYS
    && Conflict(rt.python, s, d) && d.documentId.value in documents
    && a.response == Some(AnomalyText(rt.python, Report(rt.python, s, d)))
  }

  ghost predicate FromReconciliation(rt: Runtime, documents: map<Uuid, Document>, a: Audit) {
    a.action == "reconcile.anomaly" && a.prompt == None && exists s, d :: ShowsConflict(rt, documents, a, s, d)
  }

  ghost predicate RowKnown(rt: Runtime, documents: map<Uuid, Document>, a: Audit) {
    FromExtraction(a) || FromChase(a) || FromDegradation(a) || FromParsing(rt, documents, a) || FromReconciliation(rt, documents, a)
  }

  ghost predicate RowsKnown(rt: Runtime, documents: map<Uuid, Document>, audits: seq<Audit>) {
    forall a | a in audits :: RowKnown(rt, documents, a)
  }

  /** A run sends no other text than it decided on. */
  ghost predicate RunKnown(run: Run) {
    run.state.AtChaseCommit? ==> IsChaseText(run.state.decision.content)
  }

  ghost predicate RunsAllKnown(runs: seq<Run>) { forall run | run in runs :: RunKnown(run) }

  // ----- Rows stay known while documents are kept -----

  lemma {:induction false} RowStaysKnown(rt: Runtime, db: Db, db': Db, a: Audit)
    requires EvidenceKept(db, db') && RowKnown(rt, db.documents, a)
    ensures RowKnown(rt, db'.documents, a)
  {
    hide FromExtraction, FromChase, FromDegradation, Conflict, Report, ParseDocument, AnomalyText;
    if FromParsing(rt, db.documents, a) {
      var d :| ReportsFailure(rt, db.documents, a, d);
      KeptParses(rt, db.documents[d], db'.documents[d]);
      assert Bare(db'.documents[d]).application == Bare(db.documents[d]).application;
      assert ReportsFailure(rt, db'.documents, a, d);
    } else if FromReconciliation(rt, db.documents, a) {
      var s, d :| ShowsConflict(rt, db.documents, a, s, d);
      assert ShowsConflict(rt, db'.documents, a, s, d);
    }
  }

  lemma {:induction false} RowsStayKnown(rt: Runtime, db: Db, db': Db)
    requires EvidenceKept(db, db') && RowsKnown(rt, db.documents, db.audits)
    ensures RowsKnown(rt, db'.documents, db.audits)
  {
    hide RowKnown, EvidenceKept;
    forall a | a in db.audits ensures RowKnown(rt, db'.documents, a) { RowStaysKnown(rt, db, db', a); }
  }

  // ----- The rows of each step -----

  lemma {:induction false} ParseRowsKnown(rt: Runtime, documents: map<Uuid, Document>, application: Uuid, loaded: seq<Loaded>)
    requires forall l | l in loaded :: LoadedOk(rt, documents, application, l)
    ensures RowsKnown(rt, documents, ParseFailures(application, loaded))
  {
    hide FromExtraction, FromChase, FromDegradation, FromReconciliation, ParseDocument;
    if loaded != [] {
      var n := |loaded| - 1;
      var l := loaded[n];
      assert LoadedOk(rt, documents, application, l);
      ParseRowsKnown(rt, documents, application, loaded[..n]);
      if l.text.Err? {
        if Unread(rt, documents[l.id]) { UnreadIsMalformed(rt, documents[l.id]); }
        var row := Audit(application, "ingest.parse_failed", None, Some(l.text.error.message), Some(l.text.error.code));
        assert ReportsFailure(rt, documents, row, l.id);
      }
    }
  }

  lemma {:induction false} ExtractionRowsKnown(rt: Runtime, documents: map<Uuid, Document>, application: Uuid, prompt: string, response: string)
    ensures RowKnown(rt, documents, Audit(application, "extract.trace", Excerpt(prompt), Excerpt(response), None))
  {
    ExtractionRowClean(application, prompt, response);
    hide ExtractionClean, FromChase, FromDegradation, FromParsing, FromReconciliation, Excerpt;
  }

  lemma {:induction false} DegradedRowKnown(rt: Runtime, documents: map<Uuid, Document>, application: Uuid, raw: string, code: string)
    ensures RowKnown(rt, documents, Audit(application, "extract.degraded", None, Some(Redaction.DegradedExcerpt(raw)), Some(code)))
  {
    hide FromExtraction, FromChase, FromParsing, FromReconciliation, Redaction.DegradedExcerpt;
    assert FromDegradation(Audit(application, "extract.degraded", None, Some(Redaction.DegradedExcerpt(raw)), Some(code)));
  }

  lemma {:induction false} ConflictDocumented(py: Python, s: Fact, d: Fact)
    ensures Conflict(py, s, d) ==> d.documentId.Some?
  {
    hide Disagree;
  }

  lemma {:induction false} ConflictsFrom(py: Python, s: Fact, facts: seq<Fact>, anomaly: Anomaly)
    requires anomaly in ConflictsWith(py, s, facts)
    ensures exists d :: d in facts && d.documentId.Some? && Conflict(py, s, d) && anomaly == Report(py, s, d)
  {
    hide Conflict, Report;
    var n := |facts| - 1;
    if anomaly in ConflictsWith(py, s, facts[..n]) {
      ConflictsFrom(py, s, facts[..n], anomaly);
      var d :| d in facts[..n] && d.documentId.Some? && Conflict(py, s, d) && anomaly == Report(py, s, d);
      assert d in facts;
    } else {
      ConflictDocumented(py, s, facts[n]);
      assert facts[n] in facts;
    }
  }

  lemma {:induction false} AnyConflictFrom(py: Python, keys: set<string>, outer: seq<Fact>, inner: seq<Fact>, anomaly: Anomaly)
    requires anomaly in Conflicts(py, keys, outer, inner)
    ensures exists s, d :: s in outer && d in inner && d.documentId.Some? && Conflict(py, s, d) && anomaly == Report(py, s, d)
  {
    hide Conflict, Report, ConflictsWith;
    var n := |outer| - 1;
    if anomaly in Conflicts(py, keys, outer[..n], inner) {
      AnyConflictFrom(py, keys, outer[..n], inner, anomaly);
      var s, d :| s in outer[..n] && d in inner && d.documentId.Some? && Conflict(py, s, d) && anomaly == Report(py, s, d);
      assert s in outer;
    } else {
      ConflictsFrom(py, outer[n], inner, anomaly);
      assert outer[n] in outer;
    }
  }

  lemma {:induction false} AnomalyRowsKnown(rt: Runtime, db: Db, application: Uuid, anomalies: seq<Anomaly>)
    requires FactsBacked(db) && multiset(anomalies) == AllConflicts(rt.python, FactsOf(db, application))
    ensures RowsKnown(rt, db.documents, AnomalyAudits(rt, application, anomalies))
  {
    var facts := FactsOf(db, application);
    FilterMembers(OfApplication(application), db.facts);
    hide FromExtraction, FromChase, FromDegradation, FromParsing, Filter, Conflict, Report, Conflicts, AnomalyText, Backed;
    forall a | a in AnomalyAudits(rt, application, anomalies) ensures RowKnown(rt, db.documents, a) {
      var i :| 0 <= i < |anomalies| && a == Audit(application, "reconcile.anomaly", None, Some(AnomalyText(rt.python, anomalies[i])), None);
      assert anomalies[i] in multiset(anomalies);
      AnyConflictFrom(rt.python, KeysOf(facts), facts, facts, anomalies[i]);
      var s, d :| s in facts && d in facts && d.documentId.Some? && Conflict(rt.python, s, d) && anomalies[i] == Report(rt.python, s, d);
      BackedIn(db, s);
      BackedIn(db, d);
      assert ShowsConflict(rt, db.documents, a, s, d);
    }
  }

  lemma {:induction false} BackedIn(db: Db, f: Fact)
    requires FactsBacked(db) && f in db.facts
    ensures f.key in KNOWN_FACT_KEYS && (f.documentId.Some? ==> f.documentId.value in db.documents)
  {
    assert Backed(db, f);
  }

  lemma {:induction false} ChaseRowKnown(rt: Runtime, documents: map<Uuid, Document>, application: Uuid, text: string)
    requires IsChaseText(text)
    ensures RowKnown(rt, documents, Audit(application, "chase.sent", None, Some(text), None))
  {
    hide FromExtraction, IsChaseText, FromDegradation, FromParsing, FromReconciliation;
  }

  lemma {:induction false} DecidedKnown(db: Db, application: Uuid, channel: Channel)
    ensures IsChaseText(Decide(db, application, channel).content)
  {
    hide ChaseContent, Missing;
    assert Decide(db, application, channel).content == ChaseContent(Missing(PresentKeys(db, application), REQUIRED_FACT_KEYS), channel);
  }

  /** The tables after a step hold the rows of before and known ones. */
  lemma {:induction false} MoreKnown(rt: Runtime, db: Db, db': Db, more: seq<Audit>)
    requires EvidenceKept(db, db') && RowsKnown(rt, db.documents, db.audits) && RowsKnown(rt, db'.documents, more)
    requires db'.audits == db.audits + more
    ensures RowsKnown(rt, db'.documents, db'.audits)
  {
    RowsStayKnown(rt, db, db');
    hide RowKnown, EvidenceKept;
  }

  lemma {:induction false} OneKnown(rt: Runtime, documents: map<Uuid, Document>, a: Audit)
    requires RowKnown(rt, documents, a)
    ensures RowsKnown(rt, documents, [a])
  {
    hide RowKnown;
  }

  /** The step left run k in a known state. */
  lemma {:induction false} MovedKnown(s: State, s': State, k: nat)
    requires RunsAllKnown(s.runs) && RunAt(s, k) && |s'.runs| == |s.runs| && s'.runs == s.runs[k := s'.runs[k]]
    requires RunKnown(s'.runs[k])
    ensures RunsAllKnown(s'.runs)
  {
    hide RunKnown;
    forall run | run in s'.runs ensures RunKnown(run) {
      var i :| 0 <= i < |s'.runs| && s'.runs[i] == run;
      if i != k { assert run == s.runs[i]; }
    }
  }

  ghost predicate AllKnown(rt: Runtime, s: State) { RowsKnown(rt, s.db.documents, s.db.audits) && RunsAllKnown(s.runs) }

  /** The step from s keeps evidence and texts, as every step does. */
  ghost predicate Keeps(rt: Runtime, s: State, s': State) { Traceable(rt, s) && EvidenceKept(s.db, s'.db) }

  lemma {:induction false} LoadStepKnown(cfg: Config, rt: Runtime, s: State, k: nat, order: seq<Uuid>)
    requires AllKnown(rt, s) && Enabled(cfg, rt, s, LoadDocuments(k, order))
    ensures AllKnown(rt, Apply(cfg, rt, s, LoadDocuments(k, order)))
  {
    hide RowsKnown, RunsAllKnown, LoadAll, Enumerates;
    MovedKnown(s, Apply(cfg, rt, s, LoadDocuments(k, order)), k);
  }

  lemma {:induction false} IngestStepKnown(cfg: Config, rt: Runtime, s: State, k: nat, rows: seq<Communication>)
    requires AllKnown(rt, s) && Enabled(cfg, rt, s, CommitIngest(k, rows)) && Keeps(rt, s, Apply(cfg, rt, s, CommitIngest(k, rows)))
    ensures AllKnown(rt, Apply(cfg, rt, s, CommitIngest(k, rows)))
  {
    var run, s' := s.runs[k], Apply(cfg, rt, s, CommitIngest(k, rows));
    IngestRowsKnown(rt, s, k, s'.db);
    hide RowsKnown, RunsAllKnown, ChatRows, SourcesOf, FreshTexts, ParseFailures, EvidenceKept, Traceable, WithRawTexts;
    MoreKnown(rt, s.db, s'.db, ParseFailures(run.application, run.state.loaded));
    MovedKnown(s, s', k);
  }

  lemma {:induction false} IngestRowsKnown(rt: Runtime, s: State, k: nat, db': Db)
    requires Traceable(rt, s) && RunAt(s, k) && s.runs[k].state.AtIngestCommit? && EvidenceKept(s.db, db')
    ensures RowsKnown(rt, db'.documents, ParseFailures(s.runs[k].application, s.runs[k].state.loaded))
  {
    var run := s.runs[k];
    assert run in s.runs && RunOk(rt, s.db, run);
    hide LoadedOk, RowsKnown, EvidenceKept, ParseFailures, FactsBacked, TextsParsed;
    EvidenceKeepsRun(rt, s.db, db', run);
    ParseRowsKnown(rt, db'.documents, run.application, run.state.loaded);
  }

  lemma {:induction false} ExtractStepKnown(cfg: Config, rt: Runtime, s: State, k: nat, outcome: Outcome)
    requires AllKnown(rt, s) && Enabled(cfg, rt, s, Extract(k, outcome)) && Keeps(rt, s, Apply(cfg, rt, s, Extract(k, outcome)))
    ensures AllKnown(rt, Apply(cfg, rt, s, Extract(k, outcome)))
  {
    hide RowsKnown, RunsAllKnown, RowKnown, Excerpt, FactsFrom, WithoutFactsOf, Assigned, Redaction.DegradedExcerpt, Prompt.UserPrompt,
         EvidenceKept, Traceable;
    var run, s' := s.runs[k], Apply(cfg, rt, s, Extract(k, outcome));
    if run.state.sources != [] {
      if outcome.Failed? {
        AssignedRows(s.db, run.application, run.seen, ManualReview);
        var raw := outcome.errorClass + ": " + outcome.detail;
        var row := Audit(run.application, "extract.degraded", None, Some(Redaction.DegradedExcerpt(raw)), Some(outcome.code));
        DegradedRowKnown(rt, s'.db.documents, run.application, raw, outcome.code);
        OneKnown(rt, s'.db.documents, row);
        MoreKnown(rt, s.db, s'.db, [row]);
      } else {
        var row := Audit(run.application, "extract.trace", Excerpt(Prompt.UserPrompt(run.state.sources)), Excerpt(outcome.response), None);
        ExtractionRowsKnown(rt, s'.db.documents, run.application, Prompt.UserPrompt(run.state.sources), outcome.response);
        OneKnown(rt, s'.db.documents, row);
        MoreKnown(rt, s.db, s'.db, [row]);
      }
    }
    MovedKnown(s, s', k);
  }

  lemma {:induction false} ReconcileStepKnown(cfg: Config, rt: Runtime, s: State, k: nat, anomalies: seq<Anomaly>)
    requires AllKnown(rt, s) && Enabled(cfg, rt, s, ReconcileFacts(k, anomalies))
    requires Keeps(rt, s, Apply(cfg, rt, s, ReconcileFacts(k, anomalies)))
    ensures AllKnown(rt, Apply(cfg, rt, s, ReconcileFacts(k, anomalies)))
  {
    hide RowsKnown, RunsAllKnown, AllConflicts, AnomalyAudits, FactsOf, FactsBacked, TextsParsed, AllRunsOk, EvidenceKept;
    var s' := Apply(cfg, rt, s, ReconcileFacts(k, anomalies));
    AnomalyRowsKnown(rt, s.db, s.runs[k].application, anomalies);
    MoreKnown(rt, s.db, s'.db, AnomalyAudits(rt, s.runs[k].application, anomalies));
    MovedKnown(s, s', k);
  }

  lemma {:induction false} DecideStepKnown(cfg: Config, rt: Runtime, s: State, k: nat, channel: Channel)
    requires AllKnown(rt, s) && Enabled(cfg, rt, s, DecideChase(k, channel))
    ensures AllKnown(rt, Apply(cfg, rt, s, DecideChase(k, channel)))
  {
    hide RowsKnown, RunsAllKnown, Decide, PickedChannel, IsChaseText;
    DecidedKnown(s.db, s.runs[k].application, channel);
    MovedKnown(s, Apply(cfg, rt, s, DecideChase(k, channel)), k);
  }

  lemma {:induction false} ChaseStepKnown(cfg: Config, rt: Runtime, s: State, k: nat, id: Uuid, now: int)
    requires AllKnown(rt, s) && Enabled(cfg, rt, s, CommitChase(k, id, now)) && Keeps(rt, s, Apply(cfg, rt, s, CommitChase(k, id, now)))
    ensures AllKnown(rt, Apply(cfg, rt, s, CommitChase(k, id, now)))
  {
    assert s.runs[k] in s.runs && RunKnown(s.runs[k]);
    hide RowsKnown, RunsAllKnown, RowKnown, IsChaseText, Assigned, FinalStatus, EvidenceKept, Traceable;
    var run, s' := s.runs[k], Apply(cfg, rt, s, CommitChase(k, id, now));
    AssignedRows(s.db, run.application, run.seen, FinalStatus(run.state.decision.missing));
    var row := Audit(run.application, "chase.sent", None, Some(run.state.decision.content), None);
    ChaseRowKnown(rt, s'.db.documents, run.application, run.state.decision.content);
    OneKnown(rt, s'.db.documents, row);
    if !run.state.decision.alreadySent { MoreKnown(rt, s.db, s'.db, [row]); }
    MovedKnown(s, s', k);
  }

  lemma {:induction false} StartStepKnown(cfg: Config, rt: Runtime, s: State, a: Uuid)
    requires AllKnown(rt, s) && Enabled(cfg, rt, s, StartRun(a))
    ensures AllKnown(rt, Apply(cfg, rt, s, StartRun(a)))
  {
    hide RowsKnown, IsChaseText, EnteredStatus, Assigned;
    if a in s.db.applications { AssignedRows(s.db, a, s.db.applications[a].status, EnteredStatus(s.db.applications[a].status)); }
  }

  lemma {:induction false} RequestStepKnown(cfg: Config, rt: Runtime, s: State, step: Step)
    requires Sound(cfg, s) && AllKnown(rt, s) && Enabled(cfg, rt, s, step) && IsRequestStep(step)
    requires Keeps(rt, s, Apply(cfg, rt, s, step))
    ensures AllKnown(rt, Apply(cfg, rt, s, step))
  {
    hide Sound, RowsKnown, RunsAllKnown, Apply, Enabled, Committed, Committable, RunsCarriedOver, EvidenceKept, Traceable;
    RequestStepDb(cfg, rt, s, step);
    RequestStepCarriesRuns(cfg, rt, s, step);
    var s' := Apply(cfg, rt, s, step);
    if s'.db != s.db {
      var staging :| Committable(s.db, staging) && s'.db == Committed(s.db, staging);
      CommitSendsNothing(s.db, staging);
    }
    RowsStayKnown(rt, s.db, s'.db);
  }

  lemma {:induction false} StepKnown(cfg: Config, rt: Runtime, s: State, step: Step)
    requires Sound(cfg, s) && AllKnown(rt, s) && Enabled(cfg, rt, s, step) && Keeps(rt, s, Apply(cfg, rt, s, step))
    ensures AllKnown(rt, Apply(cfg, rt, s, step))
  {
    hide Sound, AllKnown, Apply, Enabled, Keeps;
    match step
    case StartRun(a) => StartStepKnown(cfg, rt, s, a);
    case LoadDocuments(k, order) => LoadStepKnown(cfg, rt, s, k, order);
    case CommitIngest(k, rows) => IngestStepKnown(cfg, rt, s, k, rows);
    case Extract(k, outcome) => ExtractStepKnown(cfg, rt, s, k, outcome);
    case ReconcileFacts(k, anomalies) => ReconcileStepKnown(cfg, rt, s, k, anomalies);
    case DecideChase(k, channel) => DecideStepKnown(cfg, rt, s, k, channel);
    case CommitChase(k, id, now) => ChaseStepKnown(cfg, rt, s, k, id, now);
    case _ => RequestStepKnown(cfg, rt, s, step);
  }

  lemma {:induction false} HistoryKnown(cfg: Config, rt: Runtime, s: State, steps: seq<Step>)
    requires Sound(cfg, s) && Traceable(rt, s) && AllKnown(rt, s) && Runs(cfg, rt, s, steps)
    ensures AllKnown(rt, After(cfg, rt, s, steps))
    decreases |steps|
  {
    hide Sound, AllKnown, Enabled, Apply, Traceable, EvidenceKept;
    if steps != [] {
      StepKeepsSound(cfg, rt, s, steps[0]);
      StepTraceable(cfg, rt, s, steps[0]);
      StepKnown(cfg, rt, s, steps[0]);
      HistoryKnown(cfg, rt, Apply(cfg, rt, s, steps[0]), steps[1..]);
    }
  }

  // ----- Which rows hold no identifier -----

  /** No pattern matches in the row's prompt or response. */
  ghost predicate RowClean(a: Audit) {
    && (a.prompt.Some? ==> Redaction.Clean(a.prompt.value))
    && (a.response.Some? ==> Redaction.Clean(a.response.value))
  }

  /** The failure to parse a stored document shows no identifier: its path leads nowhere,
      or its file is missing and every segment of its location is clean, or the parser
      refuses its content with a clean message. */
  ghost predicate FailureClean(rt: Runtime, document: Document) {
    match LocalDocumentPath(rt.root, document.application, document.s3Path)
    case None => true
    case Some(location) =>
      match rt.readFile(location)
      case None => forall segment | segment in location :: Redaction.Clean(segment)
      case Some(payload) =>
        var parsed := rt.parseBytes(document.fileType, payload);
        parsed.Err? && Redaction.Clean(parsed.error.message)
  }

  /** The record of the pair shows no identifier in either value, in the identifier of
      the document, nor in the digits of the variance. */
  ghost predicate PairClean(py: Python, s: Fact, d: Fact)
    requires d.documentId.Some?
  {
    && ValueClean(py, Seen(py, s)) && ValueClean(py, Seen(py, d))
    && Redaction.Clean(d.documentId.value) && VarianceClean(py, Report(py, s, d).variance)
  }

  /** Extraction and chase rows are clean. A degraded row is unless its cut exposes an
      identifier, a parse failure exactly when the stored document it reports on makes it
      so, an anomaly exactly when what it shows of the two facts is. */
  ghost predicate CleanExactly(rt: Runtime, documents: map<Uuid, Document>, a: Audit) {
    || (a.action == "extract.trace" && RowClean(a))
    || (a.action == "chase.sent" && RowClean(a))
    || (a.action == "extract.degraded"
        && exists raw :: a.response == Some(Redaction.DegradedExcerpt(raw))
                         && (RowClean(a) <==> !Redaction.CutExposes(Redaction.Redact(raw).text)))
    || (a.action == "ingest.parse_failed"
        && exists d :: ReportsFailure(rt, documents, a, d) && (RowClean(a) <==> FailureClean(rt, documents[d])))
    || (a.action == "reconcile.anomaly"
        && exists s, d :: ShowsConflict(rt, documents, a, s, d) && (RowClean(a) <==> PairClean(rt.python, s, d)))
  }

  lemma {:induction false} FailureTextClean(rt: Runtime, document: Document)
    requires ParseDocument(rt, document).Err? && document.fileType in ALLOWED_FILE_TYPES
    ensures Redaction.Clean(ParseDocument(rt, document).error.message) <==> FailureClean(rt, document)
  {
    hide Redaction.Clean, LocalDocumentPath, PathText, UNTRUSTED_PATH, MISSING_FILE;
    UntrustedClean();
    var local := LocalDocumentPath(rt.root, document.application, document.s3Path);
    if local.Some? { MissingFileClean(local.value); }
  }

  lemma {:induction false} PairTextClean(rt: Runtime, documents: map<Uuid, Document>, a: Audit, s: Fact, d: Fact)
    requires ShowsConflict(rt, documents, a, s, d)
    ensures Redaction.Clean(a.response.value) <==> PairClean(rt.python, s, d)
  {
    hide Redaction.Clean, Disagree, AnomalyText, Seen;
    AnomalyTextClean(rt.python, Report(rt.python, s, d));
  }

  ghost predicate AllowedTypes(documents: map<Uuid, Document>) {
    forall d | d in documents :: documents[d].fileType in ALLOWED_FILE_TYPES
  }

  lemma {:induction false} KnownClean(rt: Runtime, documents: map<Uuid, Document>, a: Audit)
    requires RowKnown(rt, documents, a) && AllowedTypes(documents)
    ensures CleanExactly(rt, documents, a)
  {
    hide Redaction.Clean, Redaction.CutExposes, Redaction.Redact, Redaction.DegradedExcerpt, ShowsConflict, PairClean, FailureClean, ParseDocument;
    if FromChase(a) {
      var present: set<string>, channel :| a.response.value == ChaseContent(Missing(present, REQUIRED_FACT_KEYS), channel);
      hide ChaseContent, Missing;
      ChaseTextClean(present, channel);
    } else if FromDegradation(a) {
      var raw :| a.response == Some(Redaction.DegradedExcerpt(raw));
      Redaction.DegradedExcerptClean(raw);
    } else if FromParsing(rt, documents, a) {
      var d :| ReportsFailure(rt, documents, a, d);
      FailureTextClean(rt, documents[d]);
    } else if FromReconciliation(rt, documents, a) {
      var s, d :| ShowsConflict(rt, documents, a, s, d);
      PairTextClean(rt, documents, a, s, d);
      ShownText(rt, documents, a, s, d);
    }
  }

  lemma {:induction false} ShownText(rt: Runtime, documents: map<Uuid, Document>, a: Audit, s: Fact, d: Fact)
    requires ShowsConflict(rt, documents, a, s, d)
    ensures a.response.Some? && d.documentId.Some?
  {
  }

  /** Only allowed file types are ever stored. */
  lemma {:induction false} StoredTypesAllowed(cfg: Config, s: State)
    requires Inv(cfg, s)
    ensures AllowedTypes(s.db.documents)
  {
    hide AllSeparate, AllRequestsOk, AllOwned, IdsIn, CacheOk, Winners, TablesOk;
    forall d | d in s.db.documents ensures s.db.documents[d].fileType in ALLOWED_FILE_TYPES {
      assert DocumentWon(Winners(s.requests), d, s.db.documents[d]);
      var w :| w in Winners(s.requests) && NewDocument(d, Bare(s.db.documents[d])) in w.documents;
      WinnerRows(cfg, s, w);
      assert Bare(s.db.documents[d]).fileType == s.db.documents[d].fileType;
    }
  }

  /** After every history, of every audit row intake and pipeline ever stored. */
  lemma {:induction false} EveryRowAccounted(cfg: Config, rt: Runtime, steps: seq<Step>)
    requires Runs(cfg, rt, INIT, steps)
    ensures var db := After(cfg, rt, INIT, steps).db; forall a | a in db.audits :: CleanExactly(rt, db.documents, a)
  {
    hide Runs, After, Inv, RowKnown, CleanExactly, AllowedTypes, Traceable;
    InitSound(cfg);
    InitTraceable(rt);
    HistoryKeepsSound(cfg, rt, INIT, steps);
    HistoryKnown(cfg, rt, INIT, steps);
    var s := After(cfg, rt, INIT, steps);
    StoredTypesAllowed(cfg, s);
    forall a | a in s.db.audits ensures CleanExactly(rt, s.db.documents, a) {
      KnownClean(rt, s.db.documents, a);
    }
  }
}
