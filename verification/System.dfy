/** The running system: webhook requests and pipeline runs over one database and one
    cache, interleaved step by step. A step reads one state of the tables and writes at
    most one commit: Prepare, ReconcileFacts and DecideChase each stand for several awaited
    queries answered from the same state. */
module System {
  import opened Basics
  import opened Prompt
  import opened Reconcile
  import opened Tables
  import opened Intake
  import opened Nodes

  datatype RequestState =
    | Arrived
    | Missed
    | Prepared(staging: Staging)
    | Conflicted
    | Acked(ack: Ack)
    | Stored(ack: Ack)
    | Answered(ack: Ack)
    | Rejected(error: IntakeError)

  /** `won` remembers the staging this request committed. */
  datatype Request = Request(message: Message, header: Option<string>, state: RequestState, won: Option<Staging>)

  datatype RunState =
    | AtIngest
    | AtIngestCommit(loaded: seq<Loaded>)
    | AtExtract(sources: seq<SourceText>)
    | AtReconcile
    | AtChase
    | AtChaseCommit(decision: Decision)
    | Done

  datatype Run = Run(application: Uuid, seen: Status, state: RunState)

  /** `drawn` holds every identifier drawn so far; `degraded` remembers, per application,
      whether its last completed run was degraded. */
  datatype State = State(db: Db, cache: map<string, Ack>, requests: seq<Request>, pending: multiset<Uuid>,
                         runs: seq<Run>, drawn: set<Uuid>, degraded: map<Uuid, bool>)

  const INIT := State(EMPTY_DB, map[], [], multiset{}, [], {}, map[])

  datatype Step =
    | Arrive(message: Message, header: Option<string>)
    | CheckKey(r: nat, hit: bool)
    | Prepare(r: nat, chosen: Option<Uuid>, draw: Draw)
    | CommitMessage(r: nat)
    | Replay(r: nat, order: seq<Uuid>)
    | StoreAnswer(r: nat, reachable: bool)
    | QueueRun(r: nat)
    | LoseEntries(keys: set<string>)
    | StartRun(application: Uuid)
    | LoadDocuments(k: nat, order: seq<Uuid>)
    | CommitIngest(k: nat, rows: seq<Communication>)
    | Extract(k: nat, outcome: Outcome)
    | ReconcileFacts(k: nat, anomalies: seq<Anomaly>)
    | DecideChase(k: nat, channel: Channel)
    | CommitChase(k: nat, id: Uuid, now: int)

  predicate IsRequestStep(step: Step) {
    step.Arrive? || step.CheckKey? || step.Prepare? || step.CommitMessage? || step.Replay? || step.StoreAnswer?
    || step.QueueRun? || step.LoseEntries?
  }

  function KeyFor(cfg: Config, q: Request): string { Scoped(q.message.userId, KeyOf(cfg, q.message, q.header)) }

  predicate TooLong(q: Request) { q.header.Some? && |q.header.value| > MAX_KEY_LENGTH }

  function DrawnBy(draw: Draw): set<Uuid> { {draw.application, draw.communication} + set d | d in draw.documents }

  /** uuid4 never repeats: new identifiers differ from each other and from all drawn before. */
  ghost predicate NewDraw(drawn: set<Uuid>, draw: Draw) {
    && DrawnBy(draw) !! drawn
    && draw.application != draw.communication
    && draw.application !in draw.documents && draw.communication !in draw.documents
    && forall i, j | 0 <= i < j < |draw.documents| :: draw.documents[i] != draw.documents[j]
  }

  predicate RequestAt(s: State, r: nat) { r < |s.requests| }

  predicate RunAt(s: State, k: nat) { k < |s.runs| }

  predicate RunOver(s: State, k: nat) { RunAt(s, k) && s.runs[k].state.Done? }

  ghost predicate Enabled(cfg: Config, rt: Runtime, s: State, step: Step) {
    match step
    case Arrive(_, _) => true
    case CheckKey(r, hit) =>
      && RequestAt(s, r) && s.requests[r].state.Arrived?
      && (hit ==> !TooLong(s.requests[r]) && KeyFor(cfg, s.requests[r]) in s.cache)
    case Prepare(r, chosen, draw) =>
      && RequestAt(s, r) && s.requests[r].state.Missed?
      && |draw.documents| == |s.requests[r].message.attachments|
      && NewestOpen(s.db, Strip(s.requests[r].message.userId), chosen)
      && NewDraw(s.drawn, draw)
    case CommitMessage(r) => RequestAt(s, r) && s.requests[r].state.Prepared?
    case Replay(r, order) =>
      && RequestAt(s, r) && s.requests[r].state.Conflicted?
      && (match FindByKey(s.db.communications, KeyFor(cfg, s.requests[r]))
          case None => true
          case Some(row) => Enumerates(order, DocsOf(s.db, row.application)))
    case StoreAnswer(r, _) => RequestAt(s, r) && s.requests[r].state.Acked?
    case QueueRun(r) => RequestAt(s, r) && s.requests[r].state.Stored?
    case LoseEntries(_) => true
    case StartRun(application) => application in s.pending
    case LoadDocuments(k, order) =>
      RunAt(s, k) && s.runs[k].state.AtIngest? && Enumerates(order, DocsOf(s.db, s.runs[k].application))
    case CommitIngest(k, rows) =>
      RunAt(s, k) && s.runs[k].state.AtIngestCommit? && ChatRows(s.db, s.runs[k].application, rows)
    case Extract(k, outcome) => RunAt(s, k) && s.runs[k].state.AtExtract? && SchemaValid(outcome)
    case ReconcileFacts(k, anomalies) =>
      && RunAt(s, k) && s.runs[k].state.AtReconcile?
      && multiset(anomalies) == AllConflicts(rt.python, FactsOf(s.db, s.runs[k].application))
    case DecideChase(k, channel) =>
      RunAt(s, k) && s.runs[k].state.AtChase? && PickedChannel(s.db, s.runs[k].application, channel)
    case CommitChase(k, id, _) => RunAt(s, k) && s.runs[k].state.AtChaseCommit? && id !in s.drawn
  }

  function AtRequest(s: State, r: nat, state: RequestState): State
    requires RequestAt(s, r)
  {
    s.(requests := s.requests[r := s.requests[r].(state := state)])
  }

  function AtRun(s: State, k: nat, state: RunState): State
    requires RunAt(s, k)
  {
    s.(runs := s.runs[k := s.runs[k].(state := state)])
  }

  function WithSeen(s: State, k: nat, seen: Status): State
    requires RunAt(s, k)
  {
    s.(runs := s.runs[k := s.runs[k].(seen := seen)])
  }

  function Completed(s: State, k: nat, wasDegraded: bool): State
    requires RunAt(s, k)
  {
    AtRun(s, k, Done).(degraded := s.degraded[s.runs[k].application := wasDegraded])
  }

  function AfterCheck(cfg: Config, s: State, r: nat, hit: bool): State
    requires RequestAt(s, r)
    requires hit ==> KeyFor(cfg, s.requests[r]) in s.cache
  {
    if TooLong(s.requests[r]) then AtRequest(s, r, Rejected(KeyTooLong))
    else if hit then AtRequest(s, r, Answered(s.cache[KeyFor(cfg, s.requests[r])]))
    else AtRequest(s, r, Missed)
  }

  function AfterPrepare(cfg: Config, s: State, r: nat, chosen: Option<Uuid>, draw: Draw): State
    requires RequestAt(s, r) && |draw.documents| == |s.requests[r].message.attachments|
    requires chosen.Some? ==> chosen.value in s.db.applications
  {
    var q := s.requests[r];
    var next := match StageMessage(cfg, s.db, q.message, KeyOf(cfg, q.message, q.header), chosen, draw)
                case Ok(staging) => Prepared(staging)
                case Err(e) => Rejected(e);
    AtRequest(s, r, next).(drawn := s.drawn + DrawnBy(draw))
  }

  function AfterCommit(s: State, r: nat): State
    requires RequestAt(s, r) && s.requests[r].state.Prepared?
  {
    var staging := s.requests[r].state.staging;
    if KeyCommitted(s.db, staging) then AtRequest(s, r, Conflicted)
    else
      s.(db := Committed(s.db, staging),
         requests := s.requests[r := s.requests[r].(state := Acked(AckOf(staging)), won := Some(staging))])
  }

  function AfterReplay(cfg: Config, s: State, r: nat, order: seq<Uuid>): State
    requires RequestAt(s, r)
  {
    var q := s.requests[r];
    match ReplayAck(s.db, KeyFor(cfg, q), Strip(q.message.userId), order)
    case Some(ack) => AtRequest(s, r, Acked(ack))
    case None => AtRequest(s, r, Rejected(UniqueKeyConflict))
  }

  function AfterStore(cfg: Config, s: State, r: nat, reachable: bool): State
    requires RequestAt(s, r) && s.requests[r].state.Acked?
  {
    var ack := s.requests[r].state.ack;
    AtRequest(s, r, Stored(ack)).(cache := if reachable then s.cache[KeyFor(cfg, s.requests[r]) := ack] else s.cache)
  }

  function AfterStart(s: State, application: Uuid): State {
    var s' := s.(pending := s.pending - multiset{application});
    if application !in s.db.applications then s'
    else s'.(db := Entered(s.db, application),
             runs := s.runs + [Run(application, EnteredStatus(s.db.applications[application].status), AtIngest)])
  }

  function AfterExtract(rt: Runtime, s: State, k: nat, outcome: Outcome): State
    requires RunAt(s, k) && s.runs[k].state.AtExtract?
  {
    var run := s.runs[k];
    if run.state.sources == [] then AtRun(s, k, AtReconcile)
    else match outcome
      case Failed(errorClass, code, detail) =>
        Completed(WithSeen(s, k, ManualReview), k, true)
          .(db := DegradedDb(s.db, run.application, run.seen, errorClass, code, detail))
      case Extracted(entities, response) =>
        AtRun(s, k, AtReconcile)
          .(db := ExtractedDb(rt.python, s.db, run.application, run.state.sources, entities, response))
  }

  function AfterChase(s: State, k: nat, id: Uuid, now: int): State
    requires RunAt(s, k) && s.runs[k].state.AtChaseCommit?
  {
    var run := s.runs[k];
    var decision := run.state.decision;
    Completed(WithSeen(s, k, FinalStatus(decision.missing)), k, false)
      .(db := ChasedDb(s.db, run.application, run.seen, decision, id, now), drawn := s.drawn + {id})
  }

  lemma {:induction false} EnumeratedDocuments(db: Db, application: Uuid, order: seq<Uuid>)
    requires Enumerates(order, DocsOf(db, application))
    ensures forall d | d in order :: d in db.documents && db.documents[d].application == application
  {
    forall d | d in order ensures d in DocsOf(db, application) {
      var members := set x | x in order;
      assert d in members && members == DocsOf(db, application);
    }
  }

  ghost function Apply(cfg: Config, rt: Runtime, s: State, step: Step): State
    requires Enabled(cfg, rt, s, step)
  {
    match step
    case Arrive(message, header) => s.(requests := s.requests + [Request(message, header, Arrived, None)])
    case CheckKey(r, hit) => AfterCheck(cfg, s, r, hit)
    case Prepare(r, chosen, draw) => AfterPrepare(cfg, s, r, chosen, draw)
    case CommitMessage(r) => AfterCommit(s, r)
    case Replay(r, order) => AfterReplay(cfg, s, r, order)
    case StoreAnswer(r, reachable) => AfterStore(cfg, s, r, reachable)
    case QueueRun(r) =>
      AtRequest(s, r, Answered(s.requests[r].state.ack)).(pending := s.pending + multiset{s.requests[r].state.ack.application})
    case LoseEntries(keys) => s.(cache := s.cache - keys)
    case StartRun(application) => AfterStart(s, application)
    case LoadDocuments(k, order) =>
      EnumeratedDocuments(s.db, s.runs[k].application, order);
      AtRun(s, k, AtIngestCommit(LoadAll(rt, s.db.documents, order)))
    case CommitIngest(k, rows) =>
      var run := s.runs[k];
      AtRun(s, k, AtExtract(SourcesOf(run.state.loaded, rows))).(db := Ingested(s.db, run.application, run.state.loaded))
    case Extract(k, outcome) => AfterExtract(rt, s, k, outcome)
    case ReconcileFacts(k, anomalies) =>
      AtRun(s, k, AtChase).(db := ReconciledDb(rt, s.db, s.runs[k].application, anomalies))
    case DecideChase(k, channel) => AtRun(s, k, AtChaseCommit(Decide(s.db, s.runs[k].application, channel)))
    case CommitChase(k, id, now) => AfterChase(s, k, id, now)
  }

  // ----- Histories -----

  /** The steps can be taken one after the other from s. */
  ghost predicate Runs(cfg: Config, rt: Runtime, s: State, steps: seq<Step>)
    decreases |steps|
  {
    steps == [] || (Enabled(cfg, rt, s, steps[0]) && Runs(cfg, rt, Apply(cfg, rt, s, steps[0]), steps[1..]))
  }

  ghost function After(cfg: Config, rt: Runtime, s: State, steps: seq<Step>): State
    requires Runs(cfg, rt, s, steps)
    decreases |steps|
  {
    if steps == [] then s else After(cfg, rt, Apply(cfg, rt, s, steps[0]), steps[1..])
  }
}
