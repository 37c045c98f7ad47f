/** One open application per borrower: when each request and the run it queued finish
    before the next request, and the cache neither loses nor misses an entry. */
module OneOpen {
  import opened Basics
  import opened Tables
  import opened Intake
  import opened Nodes
  import opened System
  import opened ExactlyOnce
  import opened Traceability
  import Facts
  import Prompt
  import Redaction

  ghost predicate OneOpenEach(db: Db) {
    forall a, b | a in db.applications && b in db.applications && Open(db.applications[a].status) && Open(db.applications[b].status)
                  && db.applications[a].borrower == db.applications[b].borrower :: a == b
  }

  // ----- Orderly histories -----

  predicate Finished(q: Request) { q.state.Answered? || q.state.Rejected? }

  predicate AllFinished(requests: seq<Request>) { forall q | q in requests :: Finished(q) }

  ghost predicate AllDone(runs: seq<Run>) { forall run | run in runs :: run.state.Done? }

  ghost predicate Quiet(s: State) { AllFinished(s.requests) && s.pending == multiset{} && AllDone(s.runs) }

  /** A new request waits for quiet, and the cache is always reachable and keeps everything. */
  ghost predicate Orderly(cfg: Config, s: State, step: Step) {
    match step
    case Arrive(_, _) => Quiet(s)
    case CheckKey(r, hit) => RequestAt(s, r) && KeyFor(cfg, s.requests[r]) in s.cache ==> hit || TooLong(s.requests[r])
    case StoreAnswer(_, reachable) => reachable
    case LoseEntries(keys) => keys == {}
    case _ => true
  }

  ghost predicate OrderlyHistory(cfg: Config, rt: Runtime, s: State, steps: seq<Step>)
    requires Runs(cfg, rt, s, steps)
    decreases |steps|
  {
    steps == [] || (Orderly(cfg, s, steps[0]) && OrderlyHistory(cfg, rt, Apply(cfg, rt, s, steps[0]), steps[1..]))
  }

  // ----- The invariant -----

  /** No other application of its borrower is open. */
  ghost predicate Alone(db: Db, a: Uuid) {
    a in db.applications ==>
      forall b | b in db.applications && b != a && db.applications[b].borrower == db.applications[a].borrower ::
        !Open(db.applications[b].status)
  }

  /** A staged message joins the borrower's open application, or opens one where there is none. */
  ghost predicate JoinsOpen(db: Db, staging: Staging) {
    if staging.isNew then forall b :: !IsOpenFor(db, staging.application.borrower, b)
    else IsOpenFor(db, staging.application.borrower, staging.applicationId)
  }

  ghost predicate RequestFocus(cfg: Config, db: Db, cache: map<string, Ack>, q: Request) {
    match q.state
    case Arrived => true
    case Missed => KeyFor(cfg, q) !in cache
    case Prepared(staging) => KeyFor(cfg, q) !in cache && JoinsOpen(db, staging)
    case Acked(ack) => Alone(db, ack.application)
    case Stored(ack) => Alone(db, ack.application)
    case _ => false
  }

  ghost predicate InRequest(cfg: Config, s: State) {
    var n := |s.requests|;
    && n > 0 && AllFinished(s.requests[..n - 1]) && RequestFocus(cfg, s.db, s.cache, s.requests[n - 1])
    && s.pending == multiset{} && AllDone(s.runs)
  }

  ghost predicate InQueue(s: State) {
    && AllFinished(s.requests) && AllDone(s.runs) && |s.pending| == 1
    && forall a | a in s.pending :: Alone(s.db, a)
  }

  ghost predicate InRun(s: State) {
    var n := |s.runs|;
    && AllFinished(s.requests) && s.pending == multiset{}
    && n > 0 && AllDone(s.runs[..n - 1]) && !s.runs[n - 1].state.Done? && Alone(s.db, s.runs[n - 1].application)
  }

  ghost predicate Excused(cfg: Config, requests: seq<Request>, key: string) {
    requests != [] && requests[|requests| - 1].state.Acked? && key == KeyFor(cfg, requests[|requests| - 1])
  }

  /** Every committed key is in the cache, but for the one about to be stored. */
  ghost predicate KeysCached(cfg: Config, s: State) {
    forall c | c in s.db.communications && c.key.Some? :: c.key.value in s.cache || Excused(cfg, s.requests, c.key.value)
  }

  ghost predicate Phase(cfg: Config, s: State) { Quiet(s) || InRequest(cfg, s) || InQueue(s) || InRun(s) }

  ghost predicate OpenInv(cfg: Config, s: State) { OneOpenEach(s.db) && Phase(cfg, s) && KeysCached(cfg, s) }

  // ----- Which request or run can move -----

  lemma {:induction false} OnlyLastMoves(cfg: Config, s: State, r: nat)
    requires Phase(cfg, s) && RequestAt(s, r) && !Finished(s.requests[r])
    ensures InRequest(cfg, s) && r == |s.requests| - 1
  {
    hide RequestFocus, Alone;
    assert s.requests[r] in s.requests;
    if InRequest(cfg, s) {
      forall i | 0 <= i < |s.requests| - 1 ensures Finished(s.requests[i]) {
        assert s.requests[..|s.requests| - 1][i] in s.requests[..|s.requests| - 1];
      }
    }
  }

  lemma {:induction false} OnlyLastRuns(cfg: Config, s: State, k: nat)
    requires Phase(cfg, s) && RunAt(s, k) && !s.runs[k].state.Done?
    ensures InRun(s) && k == |s.runs| - 1
  {
    hide RequestFocus, Alone;
    assert s.runs[k] in s.runs;
    if InRun(s) {
      forall i | 0 <= i < |s.runs| - 1 ensures s.runs[i].state.Done? {
        assert s.runs[..|s.runs| - 1][i] in s.runs[..|s.runs| - 1];
      }
    }
  }

  /** The last request is in a new state; nothing else about requests and runs changed. */
  lemma {:induction false} LastMoved(cfg: Config, s: State, s': State, q: Request)
    requires InRequest(cfg, s) && s'.requests == s.requests[|s.requests| - 1 := q]
    requires s'.runs == s.runs && s'.pending == s.pending
    requires Finished(q) || RequestFocus(cfg, s'.db, s'.cache, q)
    ensures Phase(cfg, s')
  {
    hide RequestFocus, Finished;
    var n := |s.requests| - 1;
    assert s'.requests[..n] == s.requests[..n];
    assert s'.requests == s.requests[..n] + [q];
  }

  lemma {:induction false} CheckOpen(cfg: Config, s: State, r: nat, hit: bool)
    requires OpenInv(cfg, s) && RequestAt(s, r) && s.requests[r].state.Arrived?
    requires hit ==> KeyFor(cfg, s.requests[r]) in s.cache
    requires KeyFor(cfg, s.requests[r]) in s.cache ==> hit || TooLong(s.requests[r])
    ensures OpenInv(cfg, AfterCheck(cfg, s, r, hit))
  {
    hide KeyFor, OneOpenEach, Alone, Phase;
    var s' := AfterCheck(cfg, s, r, hit);
    OnlyLastMoves(cfg, s, r);
    SameKey(cfg, s.requests[r], s'.requests[r]);
    LastMoved(cfg, s, s', s'.requests[r]);
  }

  lemma {:induction false} SameKey(cfg: Config, q: Request, q': Request)
    requires q'.message == q.message && q'.header == q.header
    ensures KeyFor(cfg, q') == KeyFor(cfg, q)
  {
  }

  lemma {:induction false} PrepareOpen(cfg: Config, s: State, r: nat, chosen: Option<Uuid>, draw: Draw)
    requires OpenInv(cfg, s) && RequestAt(s, r) && s.requests[r].state.Missed?
    requires |draw.documents| == |s.requests[r].message.attachments|
    requires NewestOpen(s.db, Strip(s.requests[r].message.userId), chosen)
    ensures OpenInv(cfg, AfterPrepare(cfg, s, r, chosen, draw))
  {
    hide KeyFor, KeyOf, OneOpenEach, Alone, Phase, Strip, BuildDocuments, Scoped;
    var q, s' := s.requests[r], AfterPrepare(cfg, s, r, chosen, draw);
    OnlyLastMoves(cfg, s, r);
    SameKey(cfg, q, s'.requests[r]);
    if StageMessage(cfg, s.db, q.message, KeyOf(cfg, q.message, q.header), chosen, draw).Ok? {
      StagedJoins(cfg, s.db, q.message, KeyOf(cfg, q.message, q.header), chosen, draw);
    }
    hide StageMessage, NewestOpen;
    LastMoved(cfg, s, s', s'.requests[r]);
  }

  lemma {:induction false} StagedJoins(cfg: Config, db: Db, message: Message, key: string, chosen: Option<Uuid>, draw: Draw)
    requires |draw.documents| == |message.attachments| && NewestOpen(db, Strip(message.userId), chosen)
    requires StageMessage(cfg, db, message, key, chosen, draw).Ok?
    ensures JoinsOpen(db, StageMessage(cfg, db, message, key, chosen, draw).value)
  {
    hide Strip, BuildDocuments, Scoped;
  }

  // ----- Committing -----

  /** The key was not in the cache, so it is not committed. */
  lemma {:induction false} NoConflict(cfg: Config, s: State, r: nat)
    requires Sound(cfg, s) && OpenInv(cfg, s) && RequestAt(s, r) && s.requests[r].state.Prepared?
    ensures Committable(s.db, s.requests[r].state.staging) && JoinsOpen(s.db, s.requests[r].state.staging)
    ensures s.requests[r].state.staging.communication.key == Some(KeyFor(cfg, s.requests[r]))
    ensures s.requests[r].state.staging.communication.application == s.requests[r].state.staging.applicationId
  {
    hide KeyFor, OneOpenEach, Alone, Phase, JoinsOpen, RunsKnown, TablesOk, AllSeparate, CacheOk, EveryRowWon, AllRequestsOk, Winners, StillPrivate;
    var q := s.requests[r];
    OnlyLastMoves(cfg, s, r);
    PreparedFacts(cfg, s, r);
    FitsKey(cfg, q, q, q.state.staging);
    assert !KeyCommitted(s.db, q.state.staging) by { FindByKeyFinds(s.db.communications, KeyFor(cfg, q)); }
    FitsCommittable(cfg, s.db, q, q.state.staging);
  }

  lemma {:induction false} CommitLeavesOne(db: Db, staging: Staging)
    requires OneOpenEach(db) && Committable(db, staging) && JoinsOpen(db, staging)
    ensures OneOpenEach(Committed(db, staging)) && Alone(Committed(db, staging), staging.applicationId)
  {
    CommitApplications(db, staging);
    hide Committable, DocumentMap;
    var id, borrower, after := staging.applicationId, staging.application.borrower, Committed(db, staging).applications;
    forall b | b in after && b != id && after[b].borrower == borrower ensures !Open(after[b].status) {
      assert b in db.applications && after[b] == db.applications[b];
      assert IsOpenFor(db, borrower, b) == Open(after[b].status);
    }
  }

  lemma {:induction false} CommitOpen(cfg: Config, s: State, r: nat)
    requires Sound(cfg, s) && OpenInv(cfg, s) && RequestAt(s, r) && s.requests[r].state.Prepared?
    ensures OpenInv(cfg, AfterCommit(s, r))
  {
    hide KeyFor, Sound, OneOpenEach, Alone, Phase, JoinsOpen, RequestFocus, KeysCached;
    var q, s' := s.requests[r], AfterCommit(s, r);
    var staging := q.state.staging;
    NoConflict(cfg, s, r);
    NotTaken(s.db, staging);
    OnlyLastMoves(cfg, s, r);
    CommitLeavesOne(s.db, staging);
    hide Committable, Committed;
    SameKey(cfg, q, s'.requests[r]);
    AckedFocus(cfg, s', s'.requests[r]);
    LastMoved(cfg, s, s', s'.requests[r]);
    CommitCached(cfg, s, s', r, staging);
  }

  lemma {:induction false} NotTaken(db: Db, staging: Staging)
    requires Committable(db, staging)
    ensures !KeyCommitted(db, staging)
  {
    hide StillPrivate, KeyCommitted;
  }

  lemma {:induction false} AckedFocus(cfg: Config, s: State, q: Request)
    requires q.state.Acked? && Alone(s.db, q.state.ack.application)
    ensures RequestFocus(cfg, s.db, s.cache, q)
  {
  }

  lemma {:induction false} CommitCached(cfg: Config, s: State, s': State, r: nat, staging: Staging)
    requires KeysCached(cfg, s) && r == |s.requests| - 1 && RequestAt(s, r) && !s.requests[r].state.Acked?
    requires |s'.requests| == |s.requests| && s'.cache == s.cache && s'.requests == s.requests[r := s'.requests[r]]
    requires s'.requests[r].state.Acked? && staging.communication.key == Some(KeyFor(cfg, s'.requests[r]))
    requires s'.db == Committed(s.db, staging)
    ensures KeysCached(cfg, s')
  {
    hide KeyFor, DocumentMap;
  }

  // ----- Answering and queueing -----

  lemma {:induction false} StoreOpen(cfg: Config, s: State, r: nat)
    requires OpenInv(cfg, s) && RequestAt(s, r) && s.requests[r].state.Acked?
    ensures OpenInv(cfg, AfterStore(cfg, s, r, true))
  {
    hide KeyFor, OneOpenEach, Alone, Phase;
    var s' := AfterStore(cfg, s, r, true);
    OnlyLastMoves(cfg, s, r);
    LastMoved(cfg, s, s', s'.requests[r]);
  }

  lemma {:induction false} QueueOpen(cfg: Config, s: State, s': State, r: nat)
    requires OpenInv(cfg, s) && RequestAt(s, r) && s.requests[r].state.Stored?
    requires s' == AtRequest(s, r, Answered(s.requests[r].state.ack)).(pending := s.pending + multiset{s.requests[r].state.ack.application})
    ensures OpenInv(cfg, s')
  {
    hide KeyFor, OneOpenEach, Alone, Phase;
    OnlyLastMoves(cfg, s, r);
    assert s'.requests == s.requests[..r] + [s'.requests[r]];
    assert InQueue(s');
    assert Phase(cfg, s') by { PhaseQueue(cfg, s'); }
  }

  lemma {:induction false} PhaseQueue(cfg: Config, s: State)
    requires InQueue(s)
    ensures Phase(cfg, s)
  {
  }

  lemma {:induction false} ArriveOpen(cfg: Config, s: State, message: Message, header: Option<string>)
    requires OpenInv(cfg, s) && Quiet(s)
    ensures OpenInv(cfg, s.(requests := s.requests + [Request(message, header, Arrived, None)]))
  {
    hide KeyFor, OneOpenEach, Alone;
    var s' := s.(requests := s.requests + [Request(message, header, Arrived, None)]);
    assert s'.requests[..|s.requests|] == s.requests;
    if s.requests != [] { assert s.requests[|s.requests| - 1] in s.requests; }
    assert InRequest(cfg, s');
  }

  // ----- Runs -----

  /** Only this application's status may have changed. */
  ghost predicate OnlyStatusOf(db: Db, db': Db, a: Uuid) {
    && db'.applications.Keys == db.applications.Keys
    && (forall b | b in db.applications :: db'.applications[b].borrower == db.applications[b].borrower)
    && forall b | b in db.applications && b != a :: db'.applications[b] == db.applications[b]
  }

  lemma {:induction false} FocusKeepsOne(db: Db, db': Db, a: Uuid)
    requires OneOpenEach(db) && Alone(db, a) && OnlyStatusOf(db, db', a)
    ensures OneOpenEach(db') && Alone(db', a)
  {
  }

  ghost predicate KeysSame(db: Db, db': Db) {
    forall c | c in db'.communications && c.key.Some? :: c in db.communications
  }

  lemma {:induction false} AssignedStatus(db: Db, a: Uuid, seen: Status, status: Status)
    ensures OnlyStatusOf(db, Assigned(db, a, seen, status), a) && KeysSame(db, Assigned(db, a, seen, status))
  {
  }

  lemma {:induction false} ChasedStatus(db: Db, a: Uuid, seen: Status, decision: Decision, id: Uuid, now: int)
    ensures OnlyStatusOf(db, ChasedDb(db, a, seen, decision, id, now), a) && KeysSame(db, ChasedDb(db, a, seen, decision, id, now))
  {
    AssignedStatus(db, a, seen, FinalStatus(decision.missing));
    AssignedKeepsCommunications(db, a, seen, FinalStatus(decision.missing));
    hide Assigned, FinalStatus;
  }

  lemma {:induction false} AssignedKeepsCommunications(db: Db, a: Uuid, seen: Status, status: Status)
    ensures Assigned(db, a, seen, status).communications == db.communications
  {
  }

  lemma {:induction false} DegradedStatus(db: Db, a: Uuid, seen: Status, errorClass: string, code: string, detail: string)
    ensures var db' := DegradedDb(db, a, seen, errorClass, code, detail); OnlyStatusOf(db, db', a) && KeysSame(db, db')
  {
    AssignedStatus(db, a, seen, ManualReview);
    AssignedKeepsCommunications(db, a, seen, ManualReview);
    hide Assigned;
  }

  lemma {:induction false} ExtractStatus(rt: Runtime, s: State, k: nat, outcome: Outcome)
    requires RunAt(s, k) && s.runs[k].state.AtExtract?
    ensures var db' := AfterExtract(rt, s, k, outcome).db; OnlyStatusOf(s.db, db', s.runs[k].application) && KeysSame(s.db, db')
  {
    hide ExtractedDb, DegradedDb;
    var run := s.runs[k];
    if run.state.sources != [] {
      match outcome
      case Failed(errorClass, code, detail) => DegradedStatus(s.db, run.application, run.seen, errorClass, code, detail);
      case Extracted(entities, response) => ExtractedStatus(rt, s.db, run.application, run.state.sources, entities, response);
    }
  }

  lemma {:induction false} ExtractedStatus(rt: Runtime, db: Db, a: Uuid, sources: seq<Prompt.SourceText>, entities: seq<Facts.Entity>, response: string)
    ensures var db' := ExtractedDb(rt.python, db, a, sources, entities, response); OnlyStatusOf(db, db', a) && KeysSame(db, db')
  {
    hide FactsFrom, Excerpt, WithoutFactsOf;
  }

  /** What a step of run k does to statuses, keys and everything around. */
  ghost predicate RunStepEffect(s: State, s': State, k: nat)
    requires RunAt(s, k)
  {
    && OnlyStatusOf(s.db, s'.db, s.runs[k].application) && KeysSame(s.db, s'.db)
    && s'.requests == s.requests && s'.cache == s.cache && s'.pending == s.pending
  }

  lemma {:induction false} RunStepStatus(cfg: Config, rt: Runtime, s: State, step: Step)
    requires Enabled(cfg, rt, s, step) && !IsRequestStep(step) && !step.StartRun?
    ensures RunAt(s, step.k) && !s.runs[step.k].state.Done? && RunStepEffect(s, Apply(cfg, rt, s, step), step.k)
  {
    hide Decide, Enumerates, ChatRows, PickedChannel, ChasedDb, LoadAll, SourcesOf, FreshTexts, ParseFailures, AnomalyAudits,
         FinalStatus, OnlyStatusOf, KeysSame, AfterExtract;
    var s' := Apply(cfg, rt, s, step);
    match step {
      case Extract(k, outcome) =>
        ExtractStatus(rt, s, k, outcome);
        ExtractAround(rt, s, k, outcome);
      case CommitChase(k, id, now) =>
        ChasedStatus(s.db, s.runs[k].application, s.runs[k].seen, s.runs[k].state.decision, id, now);
      case LoadDocuments(k, _) => SameStatus(s.db, s'.db, s.runs[k].application);
      case CommitIngest(k, _) => SameStatus(s.db, s'.db, s.runs[k].application);
      case ReconcileFacts(k, _) => SameStatus(s.db, s'.db, s.runs[k].application);
      case DecideChase(k, _) => SameStatus(s.db, s'.db, s.runs[k].application);
      case _ =>
    }
  }

  lemma {:induction false} ExtractAround(rt: Runtime, s: State, k: nat, outcome: Outcome)
    requires RunAt(s, k) && s.runs[k].state.AtExtract?
    ensures var s' := AfterExtract(rt, s, k, outcome); s'.requests == s.requests && s'.cache == s.cache && s'.pending == s.pending
  {
    hide ExtractedDb, DegradedDb;
  }

  lemma {:induction false} SameStatus(db: Db, db': Db, a: Uuid)
    requires db'.applications == db.applications && db'.communications == db.communications
    ensures OnlyStatusOf(db, db', a) && KeysSame(db, db')
  {
  }

  lemma {:induction false} RunMovesOpen(cfg: Config, s: State, s': State, k: nat)
    requires OpenInv(cfg, s) && RunAt(s, k) && !s.runs[k].state.Done? && RunStepEffect(s, s', k)
    requires |s'.runs| == |s.runs| && s'.runs == s.runs[k := s'.runs[k]] && s'.runs[k].application == s.runs[k].application
    ensures OpenInv(cfg, s')
  {
    hide OneOpenEach, Alone, OnlyStatusOf, KeyFor, Phase;
    OnlyLastRuns(cfg, s, k);
    FocusKeepsOne(s.db, s'.db, s.runs[k].application);
    assert s'.runs[..k] == s.runs[..k];
    assert s'.runs == s.runs[..k] + [s'.runs[k]];
    assert Phase(cfg, s') by { if s'.runs[k].state.Done? { PhaseQuiet(cfg, s'); } else { PhaseRun(cfg, s'); } }
  }

  lemma {:induction false} PhaseQuiet(cfg: Config, s: State)
    requires Quiet(s)
    ensures Phase(cfg, s)
  {
  }

  lemma {:induction false} PhaseRun(cfg: Config, s: State)
    requires InRun(s)
    ensures Phase(cfg, s)
  {
  }

  lemma {:induction false} StartOpen(cfg: Config, s: State, a: Uuid)
    requires OpenInv(cfg, s) && a in s.pending
    ensures OpenInv(cfg, AfterStart(s, a))
  {
    hide OneOpenEach, Alone, KeyFor, Phase, EnteredStatus, Assigned;
    var s' := AfterStart(s, a);
    OnlyPending(cfg, s, a);
    if a in s.db.applications {
      var status := s.db.applications[a].status;
      AssignedStatus(s.db, a, status, EnteredStatus(status));
      FocusKeepsOne(s.db, s'.db, a);
      assert s'.runs[..|s.runs|] == s.runs;
      PhaseRun(cfg, s');
    } else {
      PhaseQuiet(cfg, s');
    }
  }

  lemma {:induction false} OnlyPending(cfg: Config, s: State, a: Uuid)
    requires Phase(cfg, s) && a in s.pending
    ensures InQueue(s) && s.pending - multiset{a} == multiset{}
  {
    hide Alone, RequestFocus;
    if InQueue(s) { assert |s.pending - multiset{a}| == 0; }
  }

  // ----- Every step, every history -----

  lemma {:induction false} OrderlyRequestStep(cfg: Config, rt: Runtime, s: State, step: Step)
    requires Sound(cfg, s) && OpenInv(cfg, s) && Enabled(cfg, rt, s, step) && Orderly(cfg, s, step) && IsRequestStep(step)
    ensures OpenInv(cfg, Apply(cfg, rt, s, step))
  {
    hide Sound, OpenInv, KeyFor, NewestOpen, NewDraw, Enumerates, AfterCheck, AfterPrepare, AfterCommit, AfterReplay, AfterStore, Quiet;
    match step {
      case Arrive(message, header) => ArriveOpen(cfg, s, message, header);
      case CheckKey(r, hit) => CheckOpen(cfg, s, r, hit);
      case Prepare(r, chosen, draw) => PrepareOpen(cfg, s, r, chosen, draw);
      case CommitMessage(r) => CommitOpen(cfg, s, r);
      case Replay(r, order) => NeverConflicted(cfg, s, r);
      case StoreAnswer(r, _) => StoreOpen(cfg, s, r);
      case QueueRun(r) => QueueOpen(cfg, s, Apply(cfg, rt, s, step), r);
      case LoseEntries(keys) => assert s.cache - keys == s.cache;
      case _ =>
    }
  }

  /** In an orderly history no request loses a race. */
  lemma {:induction false} NeverConflicted(cfg: Config, s: State, r: nat)
    requires OpenInv(cfg, s) && RequestAt(s, r)
    ensures !s.requests[r].state.Conflicted?
  {
    hide KeyFor, OneOpenEach, KeysCached, Phase;
    if !Finished(s.requests[r]) { OnlyLastMoves(cfg, s, r); }
  }

  lemma {:induction false} OrderlyStep(cfg: Config, rt: Runtime, s: State, step: Step)
    requires Sound(cfg, s) && OpenInv(cfg, s) && Enabled(cfg, rt, s, step) && Orderly(cfg, s, step)
    ensures OpenInv(cfg, Apply(cfg, rt, s, step))
  {
    hide Sound, OpenInv, Apply, Enabled, Orderly, RunStepEffect, RunMoved;
    if IsRequestStep(step) {
      OrderlyRequestStep(cfg, rt, s, step);
    } else if step.StartRun? {
      OrderlyStart(cfg, rt, s, step.application);
    } else {
      RunStepStatus(cfg, rt, s, step);
      RunStepRuns(cfg, rt, s, step);
      MovedOne(s, Apply(cfg, rt, s, step), step);
      RunMovesOpen(cfg, s, Apply(cfg, rt, s, step), step.k);
    }
  }

  lemma {:induction false} MovedOne(s: State, s': State, step: Step)
    requires !IsRequestStep(step) && !step.StartRun? && RunMoved(s, s', step)
    ensures |s'.runs| == |s.runs| && step.k < |s.runs| && s'.runs == s.runs[step.k := s'.runs[step.k]]
    ensures s'.runs[step.k].application == s.runs[step.k].application
  {
  }

  lemma {:induction false} OrderlyStart(cfg: Config, rt: Runtime, s: State, a: Uuid)
    requires OpenInv(cfg, s) && Enabled(cfg, rt, s, StartRun(a))
    ensures OpenInv(cfg, Apply(cfg, rt, s, StartRun(a)))
  {
    hide OpenInv, AfterStart;
    StartOpen(cfg, s, a);
  }

  lemma {:induction false} HistoryOpen(cfg: Config, rt: Runtime, s: State, steps: seq<Step>)
    requires Sound(cfg, s) && OpenInv(cfg, s) && Runs(cfg, rt, s, steps) && OrderlyHistory(cfg, rt, s, steps)
    ensures OpenInv(cfg, After(cfg, rt, s, steps))
    decreases |steps|
  {
    hide Sound, OpenInv, Enabled, Apply, Orderly;
    if steps != [] {
      StepKeepsSound(cfg, rt, s, steps[0]);
      OrderlyStep(cfg, rt, s, steps[0]);
      HistoryOpen(cfg, rt, Apply(cfg, rt, s, steps[0]), steps[1..]);
    }
  }

  lemma {:induction false} InitOpen(cfg: Config)
    ensures OpenInv(cfg, INIT)
  {
  }

  /** After every orderly history every borrower has at most one open application. */
  lemma {:induction false} AtMostOneOpen(cfg: Config, rt: Runtime, steps: seq<Step>)
    requires Runs(cfg, rt, INIT, steps) && OrderlyHistory(cfg, rt, INIT, steps)
    ensures OneOpenEach(After(cfg, rt, INIT, steps).db)
  {
    hide After, Runs, OrderlyHistory, OneOpenEach, Sound, Phase, KeysCached;
    InitSound(cfg);
    InitOpen(cfg);
    HistoryOpen(cfg, rt, INIT, steps);
  }

  // ----- Exactly which steps break it -----

  /** A staged message brings a new application while the borrower has an open one. */
  ghost predicate OpensSecond(db: Db, staging: Staging) {
    staging.isNew && exists b :: IsOpenFor(db, staging.application.borrower, b)
  }

  lemma {:induction false} CommitBreaks(db: Db, staging: Staging)
    requires OneOpenEach(db) && Committable(db, staging)
    ensures OneOpenEach(Committed(db, staging)) <==> !OpensSecond(db, staging)
  {
    var after, id, borrower := Committed(db, staging).applications, staging.applicationId, staging.application.borrower;
    CommitApplications(db, staging);
    if staging.isNew { StagesPending(db, staging); }
    hide Committable, DocumentMap;
    if OpensSecond(db, staging) {
      var b :| IsOpenFor(db, borrower, b);
      TwoOpen(Committed(db, staging), id, b);
    } else if staging.isNew {
      forall b | b in db.applications && Open(db.applications[b].status) ensures db.applications[b].borrower != borrower {
        assert !IsOpenFor(db, borrower, b);
      }
    }
  }

  lemma {:induction false} StagesPending(db: Db, staging: Staging)
    requires Committable(db, staging) && staging.isNew
    ensures staging.application.status == PendingDocs && staging.applicationId !in db.applications
  {
    hide KeyCommitted;
    assert staging.applicationId in OwnIds(staging);
    assert forall a | a in db.applications :: a in IdsIn(db);
  }

  /** The status written opens a finished application while the borrower has another open one. */
  ghost predicate Reopens(db: Db, a: Uuid, status: Status) {
    && a in db.applications && !Open(db.applications[a].status) && Open(status)
    && exists b :: b != a && IsOpenFor(db, db.applications[a].borrower, b)
  }

  lemma {:induction false} AssignedBreaks(db: Db, a: Uuid, seen: Status, status: Status)
    requires OneOpenEach(db)
    ensures OneOpenEach(Assigned(db, a, seen, status)) <==> !(status != seen && Reopens(db, a, status))
  {
    var db' := Assigned(db, a, seen, status);
    if status != seen && Reopens(db, a, status) {
      var b :| b != a && IsOpenFor(db, db.applications[a].borrower, b);
      TwoOpen(db', a, b);
    } else if db' != db && Open(status) && !Open(db.applications[a].status) {
      forall b | b in db.applications && b != a && Open(db.applications[b].status)
        ensures db.applications[b].borrower != db.applications[a].borrower
      {
        assert IsOpenFor(db, db.applications[b].borrower, b);
      }
    }
  }

  lemma {:induction false} TwoOpen(db: Db, a: Uuid, b: Uuid)
    requires a != b && a in db.applications && b in db.applications && db.applications[a].borrower == db.applications[b].borrower
    requires Open(db.applications[a].status) && Open(db.applications[b].status)
    ensures !OneOpenEach(db)
  {
  }

  lemma {:induction false} SameApplications(db: Db, db': Db)
    requires db'.applications == db.applications
    ensures OneOpenEach(db') == OneOpenEach(db)
  {
  }

  /** The steps that break it, by what their guard sees before they are taken. */
  ghost predicate Breaks(s: State, step: Step) {
    match step
    case CommitMessage(r) =>
      && RequestAt(s, r) && s.requests[r].state.Prepared?
      && !KeyCommitted(s.db, s.requests[r].state.staging) && OpensSecond(s.db, s.requests[r].state.staging)
    case Extract(k, outcome) =>
      && RunAt(s, k) && s.runs[k].state.AtExtract? && s.runs[k].state.sources != [] && outcome.Failed?
      && s.runs[k].seen != ManualReview && Reopens(s.db, s.runs[k].application, ManualReview)
    case CommitChase(k, _, _) =>
      && RunAt(s, k) && s.runs[k].state.AtChaseCommit?
      && s.runs[k].seen != FinalStatus(s.runs[k].state.decision.missing)
      && Reopens(s.db, s.runs[k].application, FinalStatus(s.runs[k].state.decision.missing))
    case _ => false
  }

  lemma {:induction false} CommitStepBreaks(cfg: Config, rt: Runtime, s: State, r: nat)
    requires Sound(cfg, s) && OneOpenEach(s.db) && Enabled(cfg, rt, s, CommitMessage(r))
    ensures OneOpenEach(Apply(cfg, rt, s, CommitMessage(r)).db) <==> !Breaks(s, CommitMessage(r))
  {
    hide OneOpenEach, OpensSecond, TablesOk, AllSeparate, CacheOk, EveryRowWon, RunsKnown, Winners, RequestOk, StagingFits, StillPrivate, Committed, KeyCommitted;
    var q := s.requests[r];
    PreparedFacts(cfg, s, r);
    hide AllRequestsOk;
    if !KeyCommitted(s.db, q.state.staging) {
      FitsCommittable(cfg, s.db, q, q.state.staging);
      CommitBreaks(s.db, q.state.staging);
    }
  }

  lemma {:induction false} ExtractStepBreaks(cfg: Config, rt: Runtime, s: State, k: nat, outcome: Outcome)
    requires OneOpenEach(s.db) && Enabled(cfg, rt, s, Extract(k, outcome))
    ensures OneOpenEach(Apply(cfg, rt, s, Extract(k, outcome)).db) <==> !Breaks(s, Extract(k, outcome))
  {
    hide OneOpenEach, Reopens, Assigned, Redaction.DegradedExcerpt, FactsFrom, Excerpt, WithoutFactsOf;
    var run, s' := s.runs[k], Apply(cfg, rt, s, Extract(k, outcome));
    AssignedBreaks(s.db, run.application, run.seen, ManualReview);
    if run.state.sources != [] && outcome.Failed? {
      SameApplications(Assigned(s.db, run.application, run.seen, ManualReview), s'.db);
    } else {
      SameApplications(s.db, s'.db);
    }
  }

  lemma {:induction false} ChaseStepBreaks(cfg: Config, rt: Runtime, s: State, k: nat, id: Uuid, now: int)
    requires OneOpenEach(s.db) && Enabled(cfg, rt, s, CommitChase(k, id, now))
    ensures OneOpenEach(Apply(cfg, rt, s, CommitChase(k, id, now)).db) <==> !Breaks(s, CommitChase(k, id, now))
  {
    hide OneOpenEach, Reopens, Assigned, FinalStatus;
    var run := s.runs[k];
    var status := FinalStatus(run.state.decision.missing);
    AssignedBreaks(s.db, run.application, run.seen, status);
    SameApplications(Assigned(s.db, run.application, run.seen, status), Apply(cfg, rt, s, CommitChase(k, id, now)).db);
  }

  lemma {:induction false} StartStepKeeps(cfg: Config, rt: Runtime, s: State, a: Uuid)
    requires OneOpenEach(s.db) && Enabled(cfg, rt, s, StartRun(a))
    ensures OneOpenEach(Apply(cfg, rt, s, StartRun(a)).db)
  {
    hide OneOpenEach, Assigned;
    if a in s.db.applications {
      var status := s.db.applications[a].status;
      AssignedBreaks(s.db, a, status, EnteredStatus(status));
    }
  }

  lemma {:induction false} OtherStepKeeps(cfg: Config, rt: Runtime, s: State, step: Step)
    requires Enabled(cfg, rt, s, step)
    requires !step.CommitMessage? && !step.Extract? && !step.CommitChase? && !step.StartRun?
    ensures Apply(cfg, rt, s, step).db.applications == s.db.applications
  {
    hide StageMessage, ReplayAck, KeyFor, NewestOpen, NewDraw, Enumerates, Decide, LoadAll, SourcesOf, FreshTexts, ParseFailures, AnomalyAudits,
         ChatRows, PickedChannel;
  }

  /** From tables with at most one open application each, a step leaves such tables
      exactly when it is not one of the breaking ones. */
  lemma {:induction false} StepBreaks(cfg: Config, rt: Runtime, s: State, step: Step)
    requires Sound(cfg, s) && OneOpenEach(s.db) && Enabled(cfg, rt, s, step)
    ensures OneOpenEach(Apply(cfg, rt, s, step).db) <==> !Breaks(s, step)
  {
    hide Sound, OneOpenEach, Apply, Enabled, OpensSecond, Reopens;
    match step
    case CommitMessage(r) => CommitStepBreaks(cfg, rt, s, r);
    case Extract(k, outcome) => ExtractStepBreaks(cfg, rt, s, k, outcome);
    case CommitChase(k, id, now) => ChaseStepBreaks(cfg, rt, s, k, id, now);
    case StartRun(a) => StartStepKeeps(cfg, rt, s, a);
    case _ =>
      OtherStepKeeps(cfg, rt, s, step);
      SameApplications(s.db, Apply(cfg, rt, s, step).db);
  }

  /** At most one open application per borrower in every state the history passes. */
  ghost predicate AlwaysOneOpen(cfg: Config, rt: Runtime, s: State, steps: seq<Step>)
    requires Runs(cfg, rt, s, steps)
    decreases |steps|
  {
    OneOpenEach(s.db) && (steps == [] || AlwaysOneOpen(cfg, rt, Apply(cfg, rt, s, steps[0]), steps[1..]))
  }

  ghost predicate NeverBreaks(cfg: Config, rt: Runtime, s: State, steps: seq<Step>)
    requires Runs(cfg, rt, s, steps)
    decreases |steps|
  {
    steps == [] || (!Breaks(s, steps[0]) && NeverBreaks(cfg, rt, Apply(cfg, rt, s, steps[0]), steps[1..]))
  }

  lemma {:induction false} HistoryBreaks(cfg: Config, rt: Runtime, s: State, steps: seq<Step>)
    requires Sound(cfg, s) && OneOpenEach(s.db) && Runs(cfg, rt, s, steps)
    ensures AlwaysOneOpen(cfg, rt, s, steps) <==> NeverBreaks(cfg, rt, s, steps)
    decreases |steps|
  {
    hide Sound, OneOpenEach, Enabled, Apply, Breaks;
    if steps != [] {
      var next := Apply(cfg, rt, s, steps[0]);
      StepKeepsSound(cfg, rt, s, steps[0]);
      StepBreaks(cfg, rt, s, steps[0]);
      if OneOpenEach(next.db) { HistoryBreaks(cfg, rt, next, steps[1..]); }
    }
  }

  /** Whatever the interleaving: every borrower has at most one open application throughout
      a history exactly when none of its steps is a breaking one. */
  lemma {:induction false} OneOpenExactly(cfg: Config, rt: Runtime, steps: seq<Step>)
    requires Runs(cfg, rt, INIT, steps)
    ensures AlwaysOneOpen(cfg, rt, INIT, steps) <==> NeverBreaks(cfg, rt, INIT, steps)
  {
    assert OneOpenEach(INIT.db);
    hide Runs, AlwaysOneOpen, NeverBreaks, OneOpenEach, Sound;
    InitSound(cfg);
    HistoryBreaks(cfg, rt, INIT, steps);
  }
}
