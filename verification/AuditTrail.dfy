/** What the audit rows promise after every history. */
module AuditTrail {
  import opened Basics
  import opened Tables
  import opened Intake
  import opened Nodes
  import opened System
  import opened ExactlyOnce
  import opened Traceability
  import Prompt
  import Redaction

  /** An extraction row holds no identifier in its prompt nor in its response. */
  ghost predicate ExtractionClean(a: Audit) {
    a.action == "extract.trace" ==>
      && (a.prompt.Some? ==> Redaction.Clean(a.prompt.value))
      && (a.response.Some? ==> Redaction.Clean(a.response.value))
  }

  predicate IsChaseSent(application: Uuid, a: Audit) {
    a.application == application && a.action == "chase.sent" && a.response.Some?
  }

  /** The message texts audited as sent, in order. */
  function ChaseAudits(audits: seq<Audit>, application: Uuid): seq<string> {
    if audits == [] then []
    else
      var a := audits[|audits| - 1];
      ChaseAudits(audits[..|audits| - 1], application) + (if IsChaseSent(application, a) then [a.response.value] else [])
  }

  ghost predicate TrailOk(db: Db) {
    && (forall a | a in db.audits :: ExtractionClean(a))
    && forall application :: ChaseAudits(db.audits, application) == SentContents(db.communications, application)
  }

  // ----- Appending rows -----

  lemma {:induction false} ChaseAuditsAppend(audits: seq<Audit>, more: seq<Audit>, application: Uuid)
    requires forall a | a in more :: a.action != "chase.sent"
    ensures ChaseAudits(audits + more, application) == ChaseAudits(audits, application)
  {
    if more == [] {
      assert audits + more == audits;
    } else {
      var n := |more| - 1;
      ChaseAuditsAppend(audits, more[..n], application);
      assert (audits + more)[..|audits + more| - 1] == audits + more[..n];
      assert (audits + more)[|audits + more| - 1] == more[n];
      assert more[n] in more;
    }
  }

  lemma {:induction false} ChaseAuditsStep(audits: seq<Audit>, a: Audit, application: Uuid)
    ensures ChaseAudits(audits + [a], application)
         == ChaseAudits(audits, application) + (if IsChaseSent(application, a) then [a.response.value] else [])
  {
    assert (audits + [a])[..|audits|] == audits;
  }

  lemma {:induction false} SentStep(communications: seq<Communication>, c: Communication, application: Uuid)
    ensures SentContents(communications + [c], application)
         == SentContents(communications, application) + (if IsOutbound(application, c) then [c.content.value] else [])
  {
    assert (communications + [c])[..|communications|] == communications;
  }

  lemma {:induction false} CommitSendsNothing(db: Db, staging: Staging)
    requires Committable(db, staging)
    ensures forall application :: SentContents(Committed(db, staging).communications, application) == SentContents(db.communications, application)
    ensures Committed(db, staging).audits == db.audits && Committed(db, staging).facts == db.facts
  {
    hide StillPrivate, KeyCommitted, DocumentMap;
    forall application ensures SentContents(Committed(db, staging).communications, application) == SentContents(db.communications, application) {
      SentStep(db.communications, staging.communication, application);
    }
  }

  /** Audit rows that are neither extractions nor chases change neither promise. */
  lemma {:induction false} OtherRowsOk(db: Db, db': Db, more: seq<Audit>)
    requires TrailOk(db) && db'.communications == db.communications && db'.audits == db.audits + more
    requires forall a | a in more :: a.action != "chase.sent" && ExtractionClean(a)
    ensures TrailOk(db')
  {
    hide ExtractionClean;
    forall application ensures ChaseAudits(db'.audits, application) == SentContents(db'.communications, application) {
      ChaseAuditsAppend(db.audits, more, application);
    }
  }

  lemma {:induction false} ParseFailureRows(application: Uuid, loaded: seq<Loaded>)
    ensures forall a | a in ParseFailures(application, loaded) :: a.action == "ingest.parse_failed"
  {
    if loaded != [] { ParseFailureRows(application, loaded[..|loaded| - 1]); }
  }

  lemma {:induction false} ActionsDiffer()
    ensures "ingest.parse_failed" != "chase.sent" && "ingest.parse_failed" != "extract.trace"
    ensures "extract.trace" != "chase.sent" && "extract.degraded" != "chase.sent" && "extract.degraded" != "extract.trace"
    ensures "reconcile.anomaly" != "chase.sent" && "reconcile.anomaly" != "extract.trace" && "chase.sent" != "extract.trace"
  {
    assert |"ingest.parse_failed"| == 19 && |"chase.sent"| == 10 && |"extract.trace"| == 13;
    assert |"extract.degraded"| == 16 && |"reconcile.anomaly"| == 17;
  }

  lemma {:induction false} ExtractionRowClean(application: Uuid, prompt: string, response: string)
    ensures ExtractionClean(Audit(application, "extract.trace", Excerpt(prompt), Excerpt(response), None))
  {
    Redaction.RedactClears(Cut(prompt, Redaction.EXCERPT));
    Redaction.RedactClears(Cut(response, Redaction.EXCERPT));
    hide Redaction.Redact, Redaction.Clean;
  }

  lemma {:induction false} AssignedRows(db: Db, application: Uuid, seen: Status, status: Status)
    ensures var db' := Assigned(db, application, seen, status);
            db'.communications == db.communications && db'.audits == db.audits && db'.facts == db.facts && db'.documents == db.documents
  {
  }

  lemma {:induction false} ChasedTrail(db: Db, application: Uuid, seen: Status, decision: Decision, id: Uuid, now: int)
    requires TrailOk(db)
    ensures TrailOk(ChasedDb(db, application, seen, decision, id, now))
  {
    var db' := ChasedDb(db, application, seen, decision, id, now);
    AssignedRows(db, application, seen, FinalStatus(decision.missing));
    ActionsDiffer();
    hide Assigned, FinalStatus;
    if !decision.alreadySent {
      var c := Communication(id, application, decision.channel, Outbound, Some(decision.content), now, None);
      var a := Audit(application, "chase.sent", None, Some(decision.content), None);
      assert db'.communications == db.communications + [c] && db'.audits == db.audits + [a];
      assert ExtractionClean(a);
      hide ExtractionClean, ChasedDb;
      forall other ensures ChaseAudits(db'.audits, other) == SentContents(db'.communications, other) {
        SentStep(db.communications, c, other);
        ChaseAuditsStep(db.audits, a, other);
      }
    }
  }

  lemma {:induction false} ExtractTrail(rt: Runtime, s: State, k: nat, outcome: Outcome)
    requires TrailOk(s.db) && RunAt(s, k) && s.runs[k].state.AtExtract?
    ensures TrailOk(AfterExtract(rt, s, k, outcome).db)
  {
    hide TrailOk, Excerpt, Assigned, FactsFrom, WithoutFactsOf, Redaction.DegradedExcerpt;
    ActionsDiffer();
    var run, s' := s.runs[k], AfterExtract(rt, s, k, outcome);
    if run.state.sources != [] {
      match outcome
      case Failed(errorClass, code, detail) =>
        AssignedRows(s.db, run.application, run.seen, ManualReview);
        OtherRowsOk(s.db, s'.db, [Audit(run.application, "extract.degraded", None,
                                        Some(Redaction.DegradedExcerpt(errorClass + ": " + detail)), Some(code))]);
      case Extracted(entities, response) =>
        ExtractionRowClean(run.application, Prompt.UserPrompt(run.state.sources), response);
        OtherRowsOk(s.db, s'.db, [Audit(run.application, "extract.trace", Excerpt(Prompt.UserPrompt(run.state.sources)),
                                        Excerpt(response), None)]);
    }
  }

  lemma {:induction false} StepTrail(cfg: Config, rt: Runtime, s: State, step: Step)
    requires Sound(cfg, s) && TrailOk(s.db) && Enabled(cfg, rt, s, step)
    ensures TrailOk(Apply(cfg, rt, s, step).db)
  {
    hide TrailOk;
    if IsRequestStep(step) {
      RequestStepDb(cfg, rt, s, step);
      hide Apply, Enabled, Sound, Committed, Committable;
      var s' := Apply(cfg, rt, s, step);
      if s'.db != s.db {
        var staging :| Committable(s.db, staging) && s'.db == Committed(s.db, staging);
        CommitTrail(s.db, staging);
      }
    } else {
      hide Apply, Enabled, Sound;
      RunStepTrail(cfg, rt, s, step);
    }
  }

  lemma {:induction false} CommitTrail(db: Db, staging: Staging)
    requires Committable(db, staging) && TrailOk(db)
    ensures TrailOk(Committed(db, staging))
  {
    CommitSendsNothing(db, staging);
    hide Committed, Committable, ExtractionClean;
  }

  lemma {:induction false} RunStepTrail(cfg: Config, rt: Runtime, s: State, step: Step)
    requires TrailOk(s.db) && Enabled(cfg, rt, s, step) && !IsRequestStep(step)
    ensures TrailOk(Apply(cfg, rt, s, step).db)
  {
    hide TrailOk, ChasedDb, AfterExtract, Decide, NewestOpen, NewDraw, Enumerates, ChatRows, PickedChannel, FreshTexts;
    ActionsDiffer();
    var s' := Apply(cfg, rt, s, step);
    match step
    case StartRun(application) =>
      if application in s.db.applications {
        var status := s.db.applications[application].status;
        AssignedRows(s.db, application, status, EnteredStatus(status));
      }
      OtherRowsOk(s.db, s'.db, []);
    case CommitIngest(k, rows) =>
      var more := ParseFailures(s.runs[k].application, s.runs[k].state.loaded);
      ParseFailureRows(s.runs[k].application, s.runs[k].state.loaded);
      OtherRowsOk(s.db, s'.db, more);
    case Extract(k, outcome) =>
      ExtractTrail(rt, s, k, outcome);
      assert s' == AfterExtract(rt, s, k, outcome);
    case ReconcileFacts(k, anomalies) =>
      OtherRowsOk(s.db, s'.db, AnomalyAudits(rt, s.runs[k].application, anomalies));
    case CommitChase(k, id, now) =>
      ChasedTrail(s.db, s.runs[k].application, s.runs[k].seen, s.runs[k].state.decision, id, now);
    case _ =>
  }

  lemma {:induction false} HistoryTrail(cfg: Config, rt: Runtime, s: State, steps: seq<Step>)
    requires Sound(cfg, s) && TrailOk(s.db) && Runs(cfg, rt, s, steps)
    ensures TrailOk(After(cfg, rt, s, steps).db)
    decreases |steps|
  {
    hide Sound, TrailOk, Enabled, Apply;
    if steps != [] {
      StepKeepsSound(cfg, rt, s, steps[0]);
      StepTrail(cfg, rt, s, steps[0]);
      HistoryTrail(cfg, rt, Apply(cfg, rt, s, steps[0]), steps[1..]);
    }
  }

  /** After every history extraction rows are free of identifiers, and chase.sent rows
      match the outbound messages of their application one for one, text for text. */
  lemma {:induction false} AuditTrailHolds(cfg: Config, rt: Runtime, steps: seq<Step>)
    requires Runs(cfg, rt, INIT, steps)
    ensures TrailOk(After(cfg, rt, INIT, steps).db)
  {
    InitSound(cfg);
    assert TrailOk(INIT.db);
    HistoryTrail(cfg, rt, INIT, steps);
    hide After, Runs, TrailOk;
  }
}
