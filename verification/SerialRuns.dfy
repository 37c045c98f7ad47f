/** When runs of one application do not overlap: the status is decided by the facts, no
    message is sent twice, and at most fifteen are sent. */
module SerialRuns {
  import opened Basics
  import opened Facts
  import opened Tables
  import opened Intake
  import opened Nodes
  import opened System
  import opened ExactlyOnce
  import opened Traceability
  import opened AuditTrail
  import Prompt
  import Reconcile
  import Redaction

  ghost predicate Active(run: Run) { !run.state.Done? }

  /** No two unfinished runs of one application. */
  ghost predicate OneRunEach(runs: seq<Run>) {
    forall i, j | 0 <= i < j < |runs| && Active(runs[i]) && Active(runs[j]) :: runs[i].application != runs[j].application
  }

  ghost predicate Idle(runs: seq<Run>, application: Uuid) {
    forall run | run in runs && Active(run) :: run.application != application
  }

  /** A history in which runs of one application never overlap. */
  ghost predicate Serial(cfg: Config, rt: Runtime, s: State, steps: seq<Step>)
    requires Runs(cfg, rt, s, steps)
    decreases |steps|
  {
    OneRunEach(s.runs) && (steps == [] || Serial(cfg, rt, Apply(cfg, rt, s, steps[0]), steps[1..]))
  }

  // ----- The fifteen messages -----

  function MissingBy(id: bool, income: bool, address: bool): seq<string> {
    (if id then ["government_id"] else []) + (if income then ["monthly_income"] else []) + (if address then ["address"] else [])
  }

  function ChaseTexts(): seq<string> {
    [ChaseContent([], Sms),
     ChaseContent(MissingBy(true, false, false), Sms), ChaseContent(MissingBy(true, false, false), Email),
     ChaseContent(MissingBy(false, true, false), Sms), ChaseContent(MissingBy(false, true, false), Email),
     ChaseContent(MissingBy(false, false, true), Sms), ChaseContent(MissingBy(false, false, true), Email),
     ChaseContent(MissingBy(true, true, false), Sms), ChaseContent(MissingBy(true, true, false), Email),
     ChaseContent(MissingBy(true, false, true), Sms), ChaseContent(MissingBy(true, false, true), Email),
     ChaseContent(MissingBy(false, true, true), Sms), ChaseContent(MissingBy(false, true, true), Email),
     ChaseContent(MissingBy(true, true, true), Sms), ChaseContent(MissingBy(true, true, true), Email)]
  }

  lemma {:induction false} FifteenTexts()
    ensures |ChaseTexts()| == 15
  {
    hide ChaseContent, MissingBy;
  }

  lemma {:induction false} MissingIsSubset(present: set<string>)
    ensures Missing(present, REQUIRED_FACT_KEYS)
         == MissingBy("government_id" !in present, "monthly_income" !in present, "address" !in present)
  {
    var three := REQUIRED_FACT_KEYS;
    assert three[0] == "government_id" && three[1] == "monthly_income" && three[2] == "address";
    assert three[1..][0] == three[1] && three[1..][1..][0] == three[2] && three[1..][1..][1..] == [];
    assert Missing(present, three[1..][1..][1..]) == [];
    assert Missing(present, three[1..][1..]) == if "address" in present then [] else ["address"];
  }

  lemma {:induction false} ChaseTextListed(present: set<string>, channel: Channel)
    ensures ChaseContent(Missing(present, REQUIRED_FACT_KEYS), channel) in ChaseTexts()
  {
    MissingIsSubset(present);
    hide ChaseContent, Missing;
    var i, m, a := "government_id" !in present, "monthly_income" !in present, "address" !in present;
    var missing := MissingBy(i, m, a);
    if missing == [] {
      EmptyIgnoresChannel(channel);
      assert ChaseTexts()[0] == ChaseContent(missing, channel);
    } else {
      var n := (if i && m && a then 13 else if m && a then 11 else if i && a then 9 else if i && m then 7
                else if a then 5 else if m then 3 else 1) + (if channel == Sms then 0 else 1);
      assert ChaseTexts()[n] == ChaseContent(missing, channel);
    }
  }

  lemma {:induction false} EmptyIgnoresChannel(channel: Channel)
    ensures ChaseContent([], channel) == ChaseContent([], Sms)
  {
  }

  ghost predicate NoRepeat(s: seq<string>) { forall i, j | 0 <= i < j < |s| :: s[i] != s[j] }

  /** A list without repetition over a list of n values has at most n entries. */
  lemma {:induction false} Pigeonhole(s: seq<string>, values: seq<string>)
    requires NoRepeat(s) && forall x | x in s :: x in values
    ensures |s| <= |values|
    decreases |values|
  {
    if s != [] {
      assert s[0] in s && s[0] in values;
      var v := values[0];
      var rest := RemoveValue(s, v);
      assert values == [v] + values[1..];
      Pigeonhole(rest, values[1..]);
    }
  }

  lemma {:induction false} RemoveValue(s: seq<string>, v: string) returns (rest: seq<string>)
    requires NoRepeat(s)
    ensures NoRepeat(rest) && |rest| >= |s| - 1 && forall x | x in rest :: x in s && x != v
  {
    if v !in s {
      rest := s;
    } else {
      var k :| 0 <= k < |s| && s[k] == v;
      rest := s[..k] + s[k + 1..];
      RemoveAt(s, k, rest);
    }
  }

  lemma {:induction false} RemoveAt(s: seq<string>, k: nat, rest: seq<string>)
    requires NoRepeat(s) && k < |s| && rest == s[..k] + s[k + 1..]
    ensures NoRepeat(rest) && forall x | x in rest :: x in s && x != s[k]
  {
    var at := (i: int) => if i < k then i else i + 1;
    assert forall i | 0 <= i < |rest| :: rest[i] == s[at(i)];
    forall i, j | 0 <= i < j < |rest| ensures rest[i] != rest[j] { assert s[at(i)] != s[at(j)]; }
    forall x | x in rest ensures x in s && x != s[k] {
      var i :| 0 <= i < |rest| && rest[i] == x;
      assert s[at(i)] != s[k];
    }
  }

  // ----- The invariant -----

  ghost predicate MessagesOk(db: Db) {
    forall application ::
      && NoRepeat(SentContents(db.communications, application))
      && forall x | x in SentContents(db.communications, application) :: x in ChaseTexts()
  }

  ghost predicate FactsCapped(db: Db) {
    forall application :: |FactsOf(db, application)| <= MAX_ENTITIES
  }

  /** An unfinished run has seen the current status and, about to chase, the current state of affairs. */
  ghost predicate RunCurrent(db: Db, run: Run) {
    Active(run) ==>
      && run.application in db.applications && db.applications[run.application].status == run.seen
      && (run.state.AtChaseCommit? ==> run.state.decision == Decide(db, run.application, run.state.decision.channel))
  }

  ghost predicate RunsCurrent(db: Db, runs: seq<Run>) { forall run | run in runs :: RunCurrent(db, run) }

  /** Between runs the status says what the last completed run found. */
  ghost predicate Settled(db: Db, degraded: map<Uuid, bool>, application: Uuid)
    requires application in db.applications
  {
    db.applications[application].status ==
      if application !in degraded then PendingDocs
      else if degraded[application] then ManualReview
      else FinalStatus(MissingKeys(db, application))
  }

  ghost predicate IdleSettled(s: State) {
    forall a | a in s.db.applications && Idle(s.runs, a) :: Settled(s.db, s.degraded, a)
  }

  ghost predicate SerialInv(s: State) {
    && MessagesOk(s.db) && FactsCapped(s.db) && RunsCurrent(s.db, s.runs) && IdleSettled(s)
    && s.degraded.Keys <= s.db.applications.Keys
  }

  // ----- What one application's view consists of -----

  /** Nothing about this application changed that runs or readers of its status look at. */
  ghost predicate SameView(db: Db, db': Db, application: Uuid) {
    && application in db.applications && application in db'.applications
    && db'.applications[application].status == db.applications[application].status
    && PresentKeys(db', application) == PresentKeys(db, application)
    && SentContents(db'.communications, application) == SentContents(db.communications, application)
  }

  lemma {:induction false} ViewKeepsRun(db: Db, db': Db, run: Run)
    requires Active(run) ==> SameView(db, db', run.application)
    requires RunCurrent(db, run)
    ensures RunCurrent(db', run)
  {
    hide ChaseContent, Missing;
  }

  lemma {:induction false} ViewKeepsSettled(db: Db, db': Db, degraded: map<Uuid, bool>, degraded': map<Uuid, bool>, application: Uuid)
    requires SameView(db, db', application) && Settled(db, degraded, application)
    requires application in degraded <==> application in degraded'
    requires application in degraded ==> degraded'[application] == degraded[application]
    ensures Settled(db', degraded', application)
  {
    hide Missing;
  }

  // ----- Requests -----

  lemma {:induction false} CommitView(db: Db, staging: Staging)
    requires Committable(db, staging)
    ensures forall a | a in db.applications :: SameView(db, Committed(db, staging), a)
    ensures forall a | a in Committed(db, staging).applications && a !in db.applications ::
              Committed(db, staging).applications[a].status == PendingDocs
  {
    CommitApplications(db, staging);
    CommitSendsNothing(db, staging);
    hide StillPrivate, KeyCommitted, DocumentMap;
    assert Committed(db, staging).facts == db.facts;
  }

  lemma {:induction false} CommitKeepsSerial(s: State, s': State, staging: Staging)
    requires SerialInv(s) && RunsKnown(s) && Committable(s.db, staging)
    requires s'.db == Committed(s.db, staging) && s'.runs == s.runs && s'.degraded == s.degraded
    ensures SerialInv(s')
  {
    assert MessagesOk(s.db) && FactsCapped(s.db) && RunsCurrent(s.db, s.runs) && IdleSettled(s) && s.degraded.Keys <= s.db.applications.Keys;
    hide Committed, Committable, SameView, Settled, RunCurrent, ChaseTexts, FactsCapped, RunsCurrent, MessagesOk, IdleSettled, RunsKnown;
    CommitView(s.db, staging);
    CommitSendsNothing(s.db, staging);
    CommitGrows(s.db, staging);
    ViewsKeepRuns(s.db, s'.db, s.runs);
    ViewsKeepSettled(s, s');
    FactsSameCapped(s.db, s'.db);
    MessagesSame(s.db, s'.db);
  }

  lemma {:induction false} CommitGrows(db: Db, staging: Staging)
    requires Committable(db, staging)
    ensures db.applications.Keys <= Committed(db, staging).applications.Keys
  {
    CommitApplications(db, staging);
    hide Committed, Committable;
  }

  lemma {:induction false} MessagesSame(db: Db, db': Db)
    requires MessagesOk(db)
    requires forall application :: SentContents(db'.communications, application) == SentContents(db.communications, application)
    ensures MessagesOk(db')
  {
    hide ChaseTexts, NoRepeat;
  }

  lemma {:induction false} ViewsKeepRuns(db: Db, db': Db, runs: seq<Run>)
    requires RunsCurrent(db, runs) && forall a | a in db.applications :: SameView(db, db', a)
    ensures RunsCurrent(db', runs)
  {
    hide SameView;
    forall run | run in runs ensures RunCurrent(db', run) {
      assert RunCurrent(db, run);
      ViewKeepsRun(db, db', run);
    }
  }

  lemma {:induction false} ViewsKeepSettled(s: State, s': State)
    requires IdleSettled(s) && s'.runs == s.runs && s'.degraded == s.degraded && s.degraded.Keys <= s.db.applications.Keys
    requires forall a | a in s.db.applications :: SameView(s.db, s'.db, a)
    requires forall a | a in s'.db.applications && a !in s.db.applications :: s'.db.applications[a].status == PendingDocs
    ensures IdleSettled(s')
  {
    hide SameView, Settled, Idle;
    forall a | a in s'.db.applications && Idle(s'.runs, a) ensures Settled(s'.db, s'.degraded, a) {
      if a in s.db.applications {
        ViewKeepsSettled(s.db, s'.db, s.degraded, s'.degraded, a);
      } else {
        NewIsPending(s'.db, s'.degraded, a);
      }
    }
  }

  lemma {:induction false} NewIsPending(db: Db, degraded: map<Uuid, bool>, a: Uuid)
    requires a in db.applications && db.applications[a].status == PendingDocs && a !in degraded
    ensures Settled(db, degraded, a)
  {
  }

  lemma {:induction false} FactsSameCapped(db: Db, db': Db)
    requires FactsCapped(db) && db'.facts == db.facts
    ensures FactsCapped(db')
  {
    forall application ensures |FactsOf(db', application)| <= MAX_ENTITIES {
      assert FactsOf(db', application) == FactsOf(db, application);
    }
  }

  lemma {:induction false} RequestStepSerial(cfg: Config, rt: Runtime, s: State, step: Step)
    requires Sound(cfg, s) && SerialInv(s) && Enabled(cfg, rt, s, step) && IsRequestStep(step)
    ensures SerialInv(Apply(cfg, rt, s, step))
  {
    hide Apply, Enabled, Inv, Committed, Committable, SerialInv, RunsKnown, RunsCarriedOver;
    var s' := Apply(cfg, rt, s, step);
    RequestStepDb(cfg, rt, s, step);
    RequestStepCarriesRuns(cfg, rt, s, step);
    RequestStepVerdicts(cfg, rt, s, step);
    if s'.db == s.db {
      SameSerial(s, s');
    } else {
      var staging :| Committable(s.db, staging) && s'.db == Committed(s.db, staging);
      CommitKeepsSerial(s, s', staging);
    }
  }

  lemma {:induction false} RequestStepVerdicts(cfg: Config, rt: Runtime, s: State, step: Step)
    requires Enabled(cfg, rt, s, step) && IsRequestStep(step)
    ensures Apply(cfg, rt, s, step).degraded == s.degraded
  {
    hide StageMessage, Committed, ReplayAck, KeyFor, KeyCommitted, NewestOpen, NewDraw, Enumerates;
  }

  lemma {:induction false} SameSerial(s: State, s': State)
    requires SerialInv(s) && s'.db == s.db && s'.runs == s.runs && s'.degraded == s.degraded
    ensures SerialInv(s')
  {
    hide MessagesOk, FactsCapped, RunsCurrent, Settled, Idle;
  }

  // ----- Runs -----

  /** Only this application's verdict may have changed. */
  ghost predicate VerdictOf(degraded: map<Uuid, bool>, degraded': map<Uuid, bool>, application: Uuid) {
    degraded' == degraded || degraded' == degraded[application := true] || degraded' == degraded[application := false]
  }

  /** A step of run k leaves every other application's view alone. */
  ghost predicate OthersSame(db: Db, db': Db, application: Uuid) {
    && db'.applications.Keys == db.applications.Keys
    && forall b | b in db.applications && b != application :: SameView(db, db', b)
  }

  lemma {:induction false} OthersCurrent(s: State, s': State, k: nat)
    requires RunsCurrent(s.db, s.runs) && OneRunEach(s.runs) && RunAt(s, k) && Active(s.runs[k])
    requires OthersSame(s.db, s'.db, s.runs[k].application)
    requires |s'.runs| == |s.runs| && s'.runs == s.runs[k := s'.runs[k]]
    requires RunCurrent(s'.db, s'.runs[k])
    ensures RunsCurrent(s'.db, s'.runs)
  {
    hide SameView;
    forall run | run in s'.runs ensures RunCurrent(s'.db, run) {
      var i :| 0 <= i < |s'.runs| && s'.runs[i] == run;
      if i != k {
        assert run == s.runs[i] && RunCurrent(s.db, run);
        if Active(run) {
          assert i < k ==> s.runs[i].application != s.runs[k].application;
          assert k < i ==> s.runs[k].application != s.runs[i].application;
        }
        ViewKeepsRun(s.db, s'.db, run);
      }
    }
  }

  lemma {:induction false} OthersSettled(s: State, s': State, k: nat)
    requires IdleSettled(s) && OneRunEach(s.runs) && RunAt(s, k) && Active(s.runs[k])
    requires OthersSame(s.db, s'.db, s.runs[k].application)
    requires |s'.runs| == |s.runs| && s'.runs == s.runs[k := s'.runs[k]] && s'.runs[k].application == s.runs[k].application
    requires VerdictOf(s.degraded, s'.degraded, s.runs[k].application)
    requires !Active(s'.runs[k]) ==> s.runs[k].application in s'.db.applications && Settled(s'.db, s'.degraded, s.runs[k].application)
    ensures IdleSettled(s')
  {
    hide SameView, Settled;
    var application := s.runs[k].application;
    forall b | b in s'.db.applications && Idle(s'.runs, b) ensures Settled(s'.db, s'.degraded, b) {
      if b == application {
        assert s'.runs[k] in s'.runs;
      } else {
        IdleElsewhere(s.runs, s'.runs, k, b);
        ViewKeepsSettled(s.db, s'.db, s.degraded, s'.degraded, b);
      }
    }
  }

  lemma {:induction false} IdleElsewhere(runs: seq<Run>, runs': seq<Run>, k: nat, b: Uuid)
    requires k < |runs| == |runs'| && runs' == runs[k := runs'[k]] && runs[k].application != b && Idle(runs', b)
    ensures Idle(runs, b)
  {
    forall run | run in runs && Active(run) ensures run.application != b {
      var i :| 0 <= i < |runs| && runs[i] == run;
      assert runs'[i] in runs';
    }
  }

  /** Everything a run step has to show to keep the invariant. */
  lemma {:induction false} RunStepKeepsSerial(s: State, s': State, k: nat)
    requires SerialInv(s) && OneRunEach(s.runs) && RunAt(s, k) && Active(s.runs[k])
    requires OthersSame(s.db, s'.db, s.runs[k].application)
    requires |s'.runs| == |s.runs| && s'.runs == s.runs[k := s'.runs[k]] && s'.runs[k].application == s.runs[k].application
    requires RunCurrent(s'.db, s'.runs[k])
    requires VerdictOf(s.degraded, s'.degraded, s.runs[k].application)
    requires !Active(s'.runs[k]) ==> s.runs[k].application in s'.db.applications && Settled(s'.db, s'.degraded, s.runs[k].application)
    requires MessagesOk(s'.db) && FactsCapped(s'.db) && s'.degraded.Keys <= s'.db.applications.Keys
    ensures SerialInv(s')
  {
    hide MessagesOk, FactsCapped, RunsCurrent, IdleSettled, RunCurrent, Settled, OthersSame;
    OthersCurrent(s, s', k);
    OthersSettled(s, s', k);
  }

  // ----- What the single steps change -----

  /** Only rows of this application changed, and its outbound messages are all that matters of them. */
  ghost predicate Touches(db: Db, db': Db, application: Uuid) {
    && db'.applications.Keys == db.applications.Keys
    && (forall b | b in db.applications && b != application :: db'.applications[b].status == db.applications[b].status)
    && (forall f: Fact | f.application != application :: f in db'.facts <==> f in db.facts)
    && forall b | b != application :: SentContents(db'.communications, b) == SentContents(db.communications, b)
  }

  lemma {:induction false} TouchesOne(db: Db, db': Db, application: Uuid)
    requires Touches(db, db', application)
    ensures OthersSame(db, db', application)
  {
    hide SentContents;
    forall b | b in db.applications && b != application ensures SameView(db, db', b) {
      assert PresentKeys(db', b) == PresentKeys(db, b);
    }
  }

  lemma {:induction false} AssignedView(db: Db, application: Uuid, seen: Status, status: Status)
    requires application in db.applications && db.applications[application].status == seen
    ensures var db' := Assigned(db, application, seen, status);
            && Touches(db, db', application) && db'.applications[application].status == status
            && db' == db.(applications := db'.applications)
  {
    hide SentContents;
  }

  lemma {:induction false} SameFactsSamePresent(db: Db, db': Db, application: Uuid)
    requires db'.facts == db.facts
    ensures PresentKeys(db', application) == PresentKeys(db, application)
  {
  }

  /** Documents and audits are not part of any view. */
  lemma {:induction false} QuietView(db: Db, db': Db, application: Uuid)
    requires db' == db.(documents := db'.documents, audits := db'.audits)
    ensures Touches(db, db', application)
    ensures MessagesOk(db) ==> MessagesOk(db')
    ensures FactsCapped(db) ==> FactsCapped(db')
  {
    hide SentContents, NoRepeat, ChaseTexts;
    if FactsCapped(db) { FactsSameCapped(db, db'); }
  }

  lemma {:induction false} FactsFromOwn(py: Python, application: Uuid, entities: seq<Entity>, sources: seq<Prompt.SourceText>)
    ensures forall f | f in FactsFrom(py, application, entities, sources) :: f.application == application
  {
    hide Nodes.Traced;
    if entities != [] { FactsFromOwn(py, application, entities[..|entities| - 1], sources); }
  }

  lemma {:induction false} ExtractedView(py: Python, db: Db, application: Uuid, sources: seq<Prompt.SourceText>, entities: seq<Entity>, response: string)
    ensures Touches(db, ExtractedDb(py, db, application, sources, entities, response), application)
  {
    FactsFromOwn(py, application, entities, sources);
    WithoutFactsOfMembers(db.facts, {application});
    hide FactsFrom, Excerpt, SentContents, WithoutFactsOf;
  }

  /** Replacing the facts of one application: it has the new ones, the others keep theirs. */
  lemma {:induction false} FactsReplaced(db: Db, application: Uuid, more: seq<Fact>, b: Uuid)
    requires forall f | f in more :: f.application == application
    ensures FactsOf(db.(facts := WithoutFactsOf(db.facts, {application}) + more), b)
         == if b == application then more else FactsOf(db, b)
  {
    var own, other, kept := OfApplication(b), OutsideOf({application}), WithoutFactsOf(db.facts, {application});
    FilterAppend(own, kept, more);
    WithoutFactsOfMembers(db.facts, {application});
    if b == application {
      FilterNone(own, kept);
      FilterAll(own, more);
    } else {
      FilterFilter(own, other, db.facts);
      FilterNone(own, more);
      assert Filter(own, kept) + [] == Filter(own, kept);
    }
  }

  lemma {:induction false} ExtractedCap(py: Python, db: Db, application: Uuid, sources: seq<Prompt.SourceText>, entities: seq<Entity>, response: string)
    requires |entities| <= MAX_ENTITIES && FactsCapped(db)
    ensures FactsCapped(ExtractedDb(py, db, application, sources, entities, response))
  {
    var more := FactsFrom(py, application, entities, sources);
    FactsFromFilter(py, application, entities, sources);
    FactsFromOwn(py, application, entities, sources);
    hide FactsFrom, Excerpt, Filter, WithoutFactsOf, Nodes.Traced;
    var db' := ExtractedDb(py, db, application, sources, entities, response);
    forall b ensures |FactsOf(db', b)| <= MAX_ENTITIES {
      FactsReplaced(db, application, more, b);
      assert FactsOf(db', b) == FactsOf(db.(facts := db'.facts), b);
    }
  }

  lemma {:induction false} DegradedView(db: Db, application: Uuid, seen: Status, errorClass: string, code: string, detail: string)
    requires application in db.applications && db.applications[application].status == seen
    ensures var db' := DegradedDb(db, application, seen, errorClass, code, detail);
            && Touches(db, db', application) && db'.applications[application].status == ManualReview
            && db' == db.(applications := db'.applications, audits := db'.audits)
  {
    AssignedView(db, application, seen, ManualReview);
    hide Assigned, SentContents, Redaction.DegradedExcerpt;
  }

  /** A text sent to an application appears at the end of its texts and in no other's. */
  lemma {:induction false} SentView(communications: seq<Communication>, c: Communication)
    requires c.direction == Outbound && c.content.Some?
    ensures SentContents(communications + [c], c.application) == SentContents(communications, c.application) + [c.content.value]
    ensures forall b | b != c.application :: SentContents(communications + [c], b) == SentContents(communications, b)
  {
    hide SentContents;
    SentStep(communications, c, c.application);
    forall b | b != c.application ensures SentContents(communications + [c], b) == SentContents(communications, b) {
      SentStep(communications, c, b);
    }
  }

  lemma {:induction false} ChasedView(db: Db, application: Uuid, seen: Status, decision: Decision, id: Uuid, now: int)
    requires application in db.applications && db.applications[application].status == seen
    ensures var db' := ChasedDb(db, application, seen, decision, id, now);
            && Touches(db, db', application) && db'.facts == db.facts
            && db'.applications[application].status == FinalStatus(decision.missing)
            && SentContents(db'.communications, application)
               == SentContents(db.communications, application) + (if decision.alreadySent then [] else [decision.content])
  {
    hide Assigned, FinalStatus, SentContents;
    AssignedView(db, application, seen, FinalStatus(decision.missing));
    SentView(db.communications, Communication(id, application, decision.channel, Outbound, Some(decision.content), now, None));
  }

  lemma {:induction false} MessageAdded(db: Db, db': Db, application: Uuid, text: string)
    requires MessagesOk(db) && text in ChaseTexts() && text !in SentContents(db.communications, application)
    requires Touches(db, db', application)
    requires SentContents(db'.communications, application) == SentContents(db.communications, application) + [text]
    ensures MessagesOk(db')
  {
    hide ChaseTexts, SentContents;
  }

  lemma {:induction false} ChasedMessages(db: Db, application: Uuid, seen: Status, channel: Channel, id: Uuid, now: int)
    requires application in db.applications && db.applications[application].status == seen && MessagesOk(db)
    ensures MessagesOk(ChasedDb(db, application, seen, Decide(db, application, channel), id, now))
  {
    var decision := Decide(db, application, channel);
    var db' := ChasedDb(db, application, seen, decision, id, now);
    ChasedView(db, application, seen, decision, id, now);
    ChaseTextListed(PresentKeys(db, application), channel);
    hide ChasedDb, ChaseContent, Missing, ChaseTexts, SentContents, NoRepeat, MessagesOk;
    if decision.alreadySent {
      forall b ensures SentContents(db'.communications, b) == SentContents(db.communications, b) {}
      MessagesSame(db, db');
    } else {
      MessageAdded(db, db', application, decision.content);
    }
  }

  // ----- Every step of a run -----

  /** The step left the other applications alone and moved run k to a state that sees the tables as they are. */
  ghost predicate RunStepOk(s: State, s': State, k: nat)
    requires RunAt(s, k)
  {
    var application := s.runs[k].application;
    && OthersSame(s.db, s'.db, application)
    && |s'.runs| == |s.runs| && s'.runs == s.runs[k := s'.runs[k]] && s'.runs[k].application == application
    && RunCurrent(s'.db, s'.runs[k])
    && VerdictOf(s.degraded, s'.degraded, application)
    && (!Active(s'.runs[k]) ==> application in s'.db.applications && Settled(s'.db, s'.degraded, application))
    && MessagesOk(s'.db) && FactsCapped(s'.db) && s'.degraded.Keys <= s'.db.applications.Keys
  }

  lemma {:induction false} Assembled(s: State, s': State, k: nat, run: Run)
    requires RunAt(s, k) && s'.runs == s.runs[k := run] && run.application == s.runs[k].application
    requires OthersSame(s.db, s'.db, run.application) && RunCurrent(s'.db, run)
    requires VerdictOf(s.degraded, s'.degraded, run.application) && s'.degraded.Keys <= s'.db.applications.Keys
    requires !Active(run) ==> run.application in s'.db.applications && Settled(s'.db, s'.degraded, run.application)
    requires MessagesOk(s'.db) && FactsCapped(s'.db)
    ensures RunStepOk(s, s', k)
  {
    hide OthersSame, RunCurrent, VerdictOf, Settled, MessagesOk, FactsCapped;
  }

  lemma {:induction false} RunStepOkKeeps(s: State, s': State, k: nat)
    requires SerialInv(s) && OneRunEach(s.runs) && RunAt(s, k) && Active(s.runs[k]) && RunStepOk(s, s', k)
    ensures SerialInv(s')
  {
    hide MessagesOk, FactsCapped, RunsCurrent, IdleSettled, RunCurrent, Settled, OthersSame, VerdictOf;
    RunStepKeepsSerial(s, s', k);
  }

  /** What the invariant says about the run that moves. */
  lemma {:induction false} MovingRun(s: State, k: nat)
    requires SerialInv(s) && RunAt(s, k) && Active(s.runs[k])
    ensures RunCurrent(s.db, s.runs[k]) && MessagesOk(s.db) && FactsCapped(s.db) && s.degraded.Keys <= s.db.applications.Keys
  {
    assert s.runs[k] in s.runs;
    hide MessagesOk, FactsCapped, IdleSettled, RunCurrent;
  }

  /** A step that touches only documents and audits. */
  lemma {:induction false} QuietStep(s: State, s': State, k: nat, state: RunState)
    requires SerialInv(s) && RunAt(s, k) && Active(s.runs[k]) && !state.Done? && !state.AtChaseCommit?
    requires s' == AtRun(s, k, state).(db := s'.db)
    requires s'.db == s.db.(documents := s'.db.documents, audits := s'.db.audits)
    ensures RunStepOk(s, s', k)
  {
    hide MessagesOk, FactsCapped, SerialInv, Touches, OthersSame, Settled, RunCurrent;
    MovingRun(s, k);
    SeenStatus(s.db, s.runs[k]);
    QuietView(s.db, s'.db, s.runs[k].application);
    TouchesOne(s.db, s'.db, s.runs[k].application);
    StillCurrent(s'.db, s'.runs[k]);
    Assembled(s, s', k, s'.runs[k]);
  }

  lemma {:induction false} DecideStep(s: State, s': State, k: nat, channel: Channel)
    requires SerialInv(s) && RunAt(s, k) && s.runs[k].state.AtChase?
    requires s' == AtRun(s, k, AtChaseCommit(Decide(s.db, s.runs[k].application, channel)))
    ensures RunStepOk(s, s', k)
  {
    hide MessagesOk, FactsCapped, SerialInv, Touches, OthersSame, Decide, Settled, RunCurrent;
    MovingRun(s, k);
    DecidedCurrent(s.db, s.runs[k], channel);
    QuietView(s.db, s.db, s.runs[k].application);
    TouchesOne(s.db, s.db, s.runs[k].application);
    Assembled(s, s', k, s'.runs[k]);
  }

  lemma {:induction false} DecidedCurrent(db: Db, run: Run, channel: Channel)
    requires RunCurrent(db, run) && Active(run)
    ensures RunCurrent(db, run.(state := AtChaseCommit(Decide(db, run.application, channel))))
  {
    DecideKeepsChannel(db, run.application, channel);
    hide Decide;
  }

  lemma {:induction false} DecideKeepsChannel(db: Db, application: Uuid, channel: Channel)
    ensures Decide(db, application, channel).channel == channel
  {
  }

  lemma {:induction false} DegradedStep(s: State, s': State, k: nat, errorClass: string, code: string, detail: string)
    requires SerialInv(s) && RunAt(s, k) && Active(s.runs[k])
    requires var run := s.runs[k];
             s' == Completed(WithSeen(s, k, ManualReview), k, true).(db := DegradedDb(s.db, run.application, run.seen, errorClass, code, detail))
    ensures RunStepOk(s, s', k)
  {
    hide MessagesOk, FactsCapped, SerialInv, OthersSame, DegradedDb, Settled, RunCurrent;
    MovingRun(s, k);
    var run := s.runs[k];
    SeenStatus(s.db, run);
    DegradedSettled(s.db, run.application, run.seen, errorClass, code, detail, s'.degraded);
    DoneCurrent(s'.db, s'.runs[k]);
    Assembled(s, s', k, s'.runs[k]);
  }

  lemma {:induction false} SeenStatus(db: Db, run: Run)
    requires RunCurrent(db, run) && Active(run)
    ensures run.application in db.applications && db.applications[run.application].status == run.seen
  {
    hide Decide;
  }

  lemma {:induction false} DegradedSettled(db: Db, application: Uuid, seen: Status, errorClass: string, code: string, detail: string, degraded: map<Uuid, bool>)
    requires application in db.applications && db.applications[application].status == seen && MessagesOk(db) && FactsCapped(db)
    requires application in degraded && degraded[application]
    ensures var db' := DegradedDb(db, application, seen, errorClass, code, detail);
            && OthersSame(db, db', application) && MessagesOk(db') && FactsCapped(db')
            && db'.applications.Keys == db.applications.Keys && Settled(db', degraded, application)
  {
    var db' := DegradedDb(db, application, seen, errorClass, code, detail);
    DegradedView(db, application, seen, errorClass, code, detail);
    TouchesOne(db, db', application);
    hide DegradedDb, SentContents, MessagesOk, FactsCapped, SameView, Missing;
    FactsSameCapped(db, db');
    MessagesSame(db, db');
  }

  lemma {:induction false} ExtractedStep(rt: Runtime, s: State, s': State, k: nat, sources: seq<Prompt.SourceText>, entities: seq<Entity>, response: string)
    requires SerialInv(s) && RunAt(s, k) && Active(s.runs[k]) && |entities| <= MAX_ENTITIES
    requires s' == AtRun(s, k, AtReconcile).(db := ExtractedDb(rt.python, s.db, s.runs[k].application, sources, entities, response))
    ensures RunStepOk(s, s', k)
  {
    hide MessagesOk, FactsCapped, SerialInv, Touches, OthersSame, SentContents, FactsFrom, Excerpt, WithoutFactsOf, Settled, RunCurrent;
    MovingRun(s, k);
    var application := s.runs[k].application;
    SeenStatus(s.db, s.runs[k]);
    ExtractedView(rt.python, s.db, application, sources, entities, response);
    ExtractedCap(rt.python, s.db, application, sources, entities, response);
    TouchesOne(s.db, s'.db, application);
    MessagesSame(s.db, s'.db);
    StillCurrent(s'.db, s'.runs[k]);
    Assembled(s, s', k, s'.runs[k]);
  }

  lemma {:induction false} StillCurrent(db: Db, run: Run)
    requires run.application in db.applications && db.applications[run.application].status == run.seen && !run.state.AtChaseCommit?
    ensures RunCurrent(db, run)
  {
  }

  lemma {:induction false} ChaseStep(s: State, s': State, k: nat, id: Uuid, now: int)
    requires SerialInv(s) && RunAt(s, k) && s.runs[k].state.AtChaseCommit?
    requires var run := s.runs[k];
             s' == Completed(WithSeen(s, k, FinalStatus(run.state.decision.missing)), k, false)
                     .(db := ChasedDb(s.db, run.application, run.seen, run.state.decision, id, now), drawn := s'.drawn)
    ensures RunStepOk(s, s', k)
  {
    hide MessagesOk, FactsCapped, SerialInv, OthersSame, ChasedDb, Decide, FinalStatus, Settled, RunCurrent;
    MovingRun(s, k);
    var run := s.runs[k];
    ChasingCurrent(s.db, run);
    ChasedSettled(s.db, run.application, run.seen, run.state.decision.channel, id, now, s'.degraded);
    DoneCurrent(s'.db, s'.runs[k]);
    Assembled(s, s', k, s'.runs[k]);
  }

  lemma {:induction false} ChasingCurrent(db: Db, run: Run)
    requires RunCurrent(db, run) && run.state.AtChaseCommit?
    ensures run.application in db.applications && db.applications[run.application].status == run.seen
    ensures run.state.decision == Decide(db, run.application, run.state.decision.channel)
  {
    hide Decide;
  }

  lemma {:induction false} DoneCurrent(db: Db, run: Run)
    requires run.state.Done?
    ensures RunCurrent(db, run)
  {
  }

  lemma {:induction false} ChasedSettled(db: Db, application: Uuid, seen: Status, channel: Channel, id: Uuid, now: int, degraded: map<Uuid, bool>)
    requires application in db.applications && db.applications[application].status == seen && MessagesOk(db) && FactsCapped(db)
    requires application in degraded && !degraded[application]
    ensures var db' := ChasedDb(db, application, seen, Decide(db, application, channel), id, now);
            && OthersSame(db, db', application) && MessagesOk(db') && FactsCapped(db')
            && db'.applications.Keys == db.applications.Keys && Settled(db', degraded, application)
  {
    var decision := Decide(db, application, channel);
    var db' := ChasedDb(db, application, seen, decision, id, now);
    ChasedView(db, application, seen, decision, id, now);
    TouchesOne(db, db', application);
    DecideMissing(db, application, channel);
    hide ChasedDb, SentContents, Decide, FinalStatus, Missing, MessagesOk, FactsCapped, SameView;
    SameFactsSamePresent(db, db', application);
    ChasedMessages(db, application, seen, channel, id, now);
    FactsSameCapped(db, db');
  }

  lemma {:induction false} DecideMissing(db: Db, application: Uuid, channel: Channel)
    ensures Decide(db, application, channel).missing == MissingKeys(db, application)
  {
  }

  lemma {:induction false} StartStep(s: State, s': State, application: Uuid)
    requires SerialInv(s) && OneRunEach(s'.runs) && s' == AfterStart(s, application)
    ensures SerialInv(s')
  {
    hide MessagesOk, FactsCapped, IdleSettled, Settled, RunsCurrent;
    if application !in s.db.applications {
      SameSerial(s, s');
    } else {
      var status := s.db.applications[application].status;
      AssignedView(s.db, application, status, EnteredStatus(status));
      hide Assigned, EnteredStatus, SentContents, Touches, OthersSame, AfterStart;
      var run := Run(application, EnteredStatus(status), AtIngest);
      assert s'.db == Assigned(s.db, application, status, EnteredStatus(status)) && s'.runs == s.runs + [run] by { NewRun(s, s', application); }
      TouchesOne(s.db, s'.db, application);
      FactsSameCapped(s.db, s'.db);
      MessagesSame(s.db, s'.db);
      StartedCurrent(s, s', run);
      StartedSettled(s, s', run);
      assert s'.degraded == s.degraded by { NewRun(s, s', application); }
    }
  }

  lemma {:induction false} NewRun(s: State, s': State, application: Uuid)
    requires s' == AfterStart(s, application) && application in s.db.applications
    ensures var status := s.db.applications[application].status;
            && s'.db == Assigned(s.db, application, status, EnteredStatus(status))
            && s'.runs == s.runs + [Run(application, EnteredStatus(status), AtIngest)] && s'.degraded == s.degraded
  {
  }

  lemma {:induction false} StartedCurrent(s: State, s': State, run: Run)
    requires RunsCurrent(s.db, s.runs) && OneRunEach(s'.runs) && s'.runs == s.runs + [run] && run.state == AtIngest
    requires OthersSame(s.db, s'.db, run.application) && RunCurrent(s'.db, run)
    ensures RunsCurrent(s'.db, s'.runs)
  {
    hide SameView;
    forall r | r in s'.runs ensures RunCurrent(s'.db, r) {
      var i :| 0 <= i < |s'.runs| && s'.runs[i] == r;
      if i < |s.runs| {
        assert s'.runs[|s.runs|] == run && r in s.runs;
        ViewKeepsRun(s.db, s'.db, r);
      }
    }
  }

  lemma {:induction false} StartedSettled(s: State, s': State, run: Run)
    requires IdleSettled(s) && s'.runs == s.runs + [run] && run.state == AtIngest && s'.degraded == s.degraded
    requires OthersSame(s.db, s'.db, run.application)
    ensures IdleSettled(s')
  {
    hide SameView, Settled;
    assert run in s'.runs;
    forall b | b in s'.db.applications && Idle(s'.runs, b) ensures Settled(s'.db, s'.degraded, b) {
      assert forall r | r in s.runs :: r in s'.runs;
      ViewKeepsSettled(s.db, s'.db, s.degraded, s'.degraded, b);
    }
  }

  lemma {:induction false} LoadSerial(cfg: Config, rt: Runtime, s: State, k: nat, order: seq<Uuid>)
    requires SerialInv(s) && Enabled(cfg, rt, s, LoadDocuments(k, order))
    ensures RunAt(s, k) && Active(s.runs[k]) && RunStepOk(s, Apply(cfg, rt, s, LoadDocuments(k, order)), k)
  {
    hide SerialInv, RunStepOk, Decide, Enumerates, ChatRows, PickedChannel, ChasedDb, DegradedDb, ExtractedDb, LoadAll, SourcesOf, FreshTexts, ParseFailures, AnomalyAudits;
    var s' := Apply(cfg, rt, s, LoadDocuments(k, order));
    QuietStep(s, s', k, s'.runs[k].state);
  }

  lemma {:induction false} IngestSerial(cfg: Config, rt: Runtime, s: State, k: nat, rows: seq<Communication>)
    requires SerialInv(s) && Enabled(cfg, rt, s, CommitIngest(k, rows))
    ensures RunAt(s, k) && Active(s.runs[k]) && RunStepOk(s, Apply(cfg, rt, s, CommitIngest(k, rows)), k)
  {
    hide SerialInv, RunStepOk, Decide, Enumerates, ChatRows, PickedChannel, ChasedDb, DegradedDb, ExtractedDb, LoadAll, SourcesOf, FreshTexts, ParseFailures, AnomalyAudits;
    var s' := Apply(cfg, rt, s, CommitIngest(k, rows));
    QuietStep(s, s', k, s'.runs[k].state);
  }

  lemma {:induction false} ExtractSerial(cfg: Config, rt: Runtime, s: State, k: nat, outcome: Outcome)
    requires SerialInv(s) && Enabled(cfg, rt, s, Extract(k, outcome))
    ensures RunAt(s, k) && Active(s.runs[k]) && RunStepOk(s, Apply(cfg, rt, s, Extract(k, outcome)), k)
  {
    hide SerialInv, RunStepOk, Decide, Enumerates, ChatRows, PickedChannel, ChasedDb, DegradedDb, ExtractedDb, LoadAll, SourcesOf, FreshTexts, ParseFailures, AnomalyAudits;
    var s' := Apply(cfg, rt, s, Extract(k, outcome));
    var sources := s.runs[k].state.sources;
    if sources == [] {
      QuietStep(s, s', k, AtReconcile);
    } else if outcome.Failed? {
      DegradedStep(s, s', k, outcome.errorClass, outcome.code, outcome.detail);
    } else {
      ExtractedStep(rt, s, s', k, sources, outcome.entities, outcome.response);
    }
  }

  lemma {:induction false} ReconcileSerial(cfg: Config, rt: Runtime, s: State, k: nat, anomalies: seq<Reconcile.Anomaly>)
    requires SerialInv(s) && Enabled(cfg, rt, s, ReconcileFacts(k, anomalies))
    ensures RunAt(s, k) && Active(s.runs[k]) && RunStepOk(s, Apply(cfg, rt, s, ReconcileFacts(k, anomalies)), k)
  {
    hide SerialInv, RunStepOk, Decide, Enumerates, ChatRows, PickedChannel, ChasedDb, DegradedDb, ExtractedDb, LoadAll, SourcesOf, FreshTexts, ParseFailures, AnomalyAudits;
    var s' := Apply(cfg, rt, s, ReconcileFacts(k, anomalies));
    QuietStep(s, s', k, AtChase);
  }

  lemma {:induction false} DecideSerial(cfg: Config, rt: Runtime, s: State, k: nat, channel: Channel)
    requires SerialInv(s) && Enabled(cfg, rt, s, DecideChase(k, channel))
    ensures RunAt(s, k) && Active(s.runs[k]) && RunStepOk(s, Apply(cfg, rt, s, DecideChase(k, channel)), k)
  {
    hide SerialInv, RunStepOk, Decide, Enumerates, ChatRows, PickedChannel, ChasedDb, DegradedDb, ExtractedDb, LoadAll, SourcesOf, FreshTexts, ParseFailures, AnomalyAudits;
    var s' := Apply(cfg, rt, s, DecideChase(k, channel));
    DecideStep(s, s', k, channel);
  }

  lemma {:induction false} ChaseSerial(cfg: Config, rt: Runtime, s: State, k: nat, id: Uuid, now: int)
    requires SerialInv(s) && Enabled(cfg, rt, s, CommitChase(k, id, now))
    ensures RunAt(s, k) && Active(s.runs[k]) && RunStepOk(s, Apply(cfg, rt, s, CommitChase(k, id, now)), k)
  {
    hide SerialInv, RunStepOk, Decide, Enumerates, ChatRows, PickedChannel, ChasedDb, DegradedDb, ExtractedDb, LoadAll, SourcesOf, FreshTexts, ParseFailures, AnomalyAudits;
    var s' := Apply(cfg, rt, s, CommitChase(k, id, now));
    ChaseStep(s, s', k, id, now);
  }

  lemma {:induction false} StartSerial(cfg: Config, rt: Runtime, s: State, application: Uuid)
    requires SerialInv(s) && Enabled(cfg, rt, s, StartRun(application)) && OneRunEach(Apply(cfg, rt, s, StartRun(application)).runs)
    ensures SerialInv(Apply(cfg, rt, s, StartRun(application)))
  {
    hide SerialInv, OneRunEach, AfterStart;
    StartStep(s, Apply(cfg, rt, s, StartRun(application)), application);
  }

  lemma {:induction false} RunStepSerial(cfg: Config, rt: Runtime, s: State, step: Step)
    requires SerialInv(s) && OneRunEach(s.runs) && Enabled(cfg, rt, s, step) && !IsRequestStep(step)
    requires OneRunEach(Apply(cfg, rt, s, step).runs)
    ensures SerialInv(Apply(cfg, rt, s, step))
  {
    hide Apply, Enabled, SerialInv, OneRunEach, RunStepOk, Active;
    if step.StartRun? {
      StartSerial(cfg, rt, s, step.application);
    } else {
      match step {
        case LoadDocuments(k, order) => LoadSerial(cfg, rt, s, k, order);
        case CommitIngest(k, rows) => IngestSerial(cfg, rt, s, k, rows);
        case Extract(k, outcome) => ExtractSerial(cfg, rt, s, k, outcome);
        case ReconcileFacts(k, anomalies) => ReconcileSerial(cfg, rt, s, k, anomalies);
        case DecideChase(k, channel) => DecideSerial(cfg, rt, s, k, channel);
        case CommitChase(k, id, now) => ChaseSerial(cfg, rt, s, k, id, now);
        case _ =>
      }
      RunStepOkKeeps(s, Apply(cfg, rt, s, step), step.k);
    }
  }

  // ----- Histories -----

  lemma {:induction false} HistorySerial(cfg: Config, rt: Runtime, s: State, steps: seq<Step>)
    requires Sound(cfg, s) && SerialInv(s) && Runs(cfg, rt, s, steps) && Serial(cfg, rt, s, steps)
    ensures SerialInv(After(cfg, rt, s, steps))
    decreases |steps|
  {
    hide Sound, SerialInv, Enabled, Apply, OneRunEach;
    if steps != [] {
      var next := Apply(cfg, rt, s, steps[0]);
      assert OneRunEach(next.runs);
      StepKeepsSound(cfg, rt, s, steps[0]);
      if IsRequestStep(steps[0]) { RequestStepSerial(cfg, rt, s, steps[0]); } else { RunStepSerial(cfg, rt, s, steps[0]); }
      HistorySerial(cfg, rt, next, steps[1..]);
    }
  }

  lemma {:induction false} InitSerial()
    ensures SerialInv(INIT)
  {
    hide ChaseContent;
    assert forall a :: FactsOf(INIT.db, a) == [] && SentContents(INIT.db.communications, a) == [];
  }

  lemma {:induction false} SerialAfter(cfg: Config, rt: Runtime, steps: seq<Step>)
    requires Runs(cfg, rt, INIT, steps) && Serial(cfg, rt, INIT, steps)
    ensures SerialInv(After(cfg, rt, INIT, steps))
  {
    hide SerialInv, Sound, After, Runs, Serial;
    InitSound(cfg);
    InitSerial();
    HistorySerial(cfg, rt, INIT, steps);
  }

  /** After every history in which runs of one application do not overlap: an application
      without an unfinished run is in manual review exactly when its last run was degraded,
      otherwise ready exactly when no required fact is missing, and otherwise pending. */
  lemma {:induction false} StatusFollowsFacts(cfg: Config, rt: Runtime, steps: seq<Step>, application: Uuid)
    requires Runs(cfg, rt, INIT, steps) && Serial(cfg, rt, INIT, steps)
    requires var s := After(cfg, rt, INIT, steps);
             application in s.db.applications && application in s.degraded && Idle(s.runs, application)
    ensures var s := After(cfg, rt, INIT, steps);
            var status := s.db.applications[application].status;
            && (status == ManualReview <==> s.degraded[application])
            && (status == ReadyForLos <==> !s.degraded[application] && HasAllRequired(s.db, application))
            && (status == PendingDocs <==> !s.degraded[application] && !HasAllRequired(s.db, application))
  {
    hide After, Runs, Serial, SerialInv, Idle, HasAllRequired;
    SerialAfter(cfg, rt, steps);
    StatusIs(After(cfg, rt, INIT, steps), application);
  }

  lemma {:induction false} StatusIs(s: State, application: Uuid)
    requires SerialInv(s) && application in s.db.applications && application in s.degraded && Idle(s.runs, application)
    ensures s.db.applications[application].status
         == if s.degraded[application] then ManualReview
            else if HasAllRequired(s.db, application) then ReadyForLos else PendingDocs
  {
    hide MessagesOk, FactsCapped, RunsCurrent, Idle, Missing, HasAllRequired;
    assert Settled(s.db, s.degraded, application);
    NothingMissing(s.db, application);
  }

  ghost predicate HasFact(db: Db, application: Uuid, key: string) {
    exists f | f in db.facts :: f.application == application && f.key == key && f.value != Null
  }

  ghost predicate HasAllRequired(db: Db, application: Uuid) {
    forall key | key in {"government_id", "monthly_income", "address"} :: HasFact(db, application, key)
  }

  lemma {:induction false} NothingMissing(db: Db, application: Uuid)
    ensures MissingKeys(db, application) == [] <==> HasAllRequired(db, application)
  {
    MissingIsSubset(PresentKeys(db, application));
    hide Missing;
    assert forall key :: key in PresentKeys(db, application) <==> HasFact(db, application, key);
    assert "government_id" in {"government_id", "monthly_income", "address"} && "monthly_income" in {"government_id", "monthly_income", "address"}
           && "address" in {"government_id", "monthly_income", "address"};
  }

  /** No text is sent twice to an application, and at most fifteen are sent in its life. */
  lemma {:induction false} MessagesBounded(cfg: Config, rt: Runtime, steps: seq<Step>, application: Uuid)
    requires Runs(cfg, rt, INIT, steps) && Serial(cfg, rt, INIT, steps)
    ensures var sent := SentContents(After(cfg, rt, INIT, steps).db.communications, application);
            NoRepeat(sent) && |sent| <= 15
  {
    hide After, Runs, Serial, SerialInv, SentContents, NoRepeat, ChaseTexts;
    SerialAfter(cfg, rt, steps);
    FifteenTexts();
    SentListed(After(cfg, rt, INIT, steps), application);
    Pigeonhole(SentContents(After(cfg, rt, INIT, steps).db.communications, application), ChaseTexts());
  }

  lemma {:induction false} SentListed(s: State, application: Uuid)
    requires SerialInv(s)
    ensures var sent := SentContents(s.db.communications, application); NoRepeat(sent) && forall x | x in sent :: x in ChaseTexts()
  {
    hide FactsCapped, RunsCurrent, IdleSettled, SentContents, NoRepeat, ChaseTexts;
  }

  const EXPORTED_FACTS := 50

  function ExportedFacts(facts: seq<Fact>): seq<Fact> {
    if |facts| <= EXPORTED_FACTS then facts else facts[..EXPORTED_FACTS]
  }

  /** What the export guard lets through between completed runs has every required fact,
      and the export's cap drops none of its facts. */
  lemma {:induction false} ExportIsComplete(cfg: Config, rt: Runtime, steps: seq<Step>, application: Uuid)
    requires Runs(cfg, rt, INIT, steps) && Serial(cfg, rt, INIT, steps)
    requires var s := After(cfg, rt, INIT, steps);
             application in s.db.applications && Idle(s.runs, application) && s.db.applications[application].status == ReadyForLos
    ensures var s := After(cfg, rt, INIT, steps);
            HasAllRequired(s.db, application) && |FactsOf(s.db, application)| <= 50
            && ExportedFacts(FactsOf(s.db, application)) == FactsOf(s.db, application)
  {
    SerialAfter(cfg, rt, steps);
    hide After, Runs, Serial, SerialInv, Idle, HasAllRequired, FactsOf, ExportedFacts;
    ReadyIsComplete(After(cfg, rt, INIT, steps), application);
  }

  lemma {:induction false} ReadyIsComplete(s: State, application: Uuid)
    requires SerialInv(s) && application in s.db.applications && Idle(s.runs, application)
    requires s.db.applications[application].status == ReadyForLos
    ensures HasAllRequired(s.db, application) && |FactsOf(s.db, application)| <= 50
            && ExportedFacts(FactsOf(s.db, application)) == FactsOf(s.db, application)
  {
    hide MessagesOk, RunsCurrent, Idle, Missing, HasAllRequired;
    assert Settled(s.db, s.degraded, application);
    NothingMissing(s.db, application);
  }
}
