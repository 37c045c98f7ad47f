/** When a text goes out twice: exactly the sends that break distinctness, and a history
    in which overlapping runs do it. */
module Messages {
  import opened Basics
  import opened Tables
  import opened Intake
  import opened Nodes
  import opened System
  import opened ExactlyOnce
  import opened Traceability
  import opened AuditTrail
  import opened SerialRuns
  import opened Histories
  import opened WholeRun
  import opened Rerun
  import opened Scenarios
  import Prompt
  import Reconcile
  import Redaction

  // ----- Exactly which sends repeat a text -----

  ghost predicate AllDistinct(db: Db) { forall application :: NoRepeat(SentContents(db.communications, application)) }

  /** A send decided when its text was not there yet, although by now it is. */
  ghost predicate SendsAgain(s: State, step: Step) {
    && step.CommitChase? && RunAt(s, step.k) && s.runs[step.k].state.AtChaseCommit?
    && var run := s.runs[step.k];
       !run.state.decision.alreadySent && run.state.decision.content in SentContents(s.db.communications, run.application)
  }

  lemma {:induction false} SendRepeats(db: Db, application: Uuid, seen: Status, decision: Decision, id: Uuid, now: int)
    requires AllDistinct(db)
    ensures AllDistinct(ChasedDb(db, application, seen, decision, id, now))
       <==> decision.alreadySent || decision.content !in SentContents(db.communications, application)
  {
    var db' := ChasedDb(db, application, seen, decision, id, now);
    ChaseSendsTo(db, application, seen, decision, id, now);
    hide ChasedDb, SentContents;
    var sent, sent' := SentContents(db.communications, application), SentContents(db'.communications, application);
    assert NoRepeat(sent);
    if !decision.alreadySent && decision.content in sent {
      var i :| 0 <= i < |sent| && sent[i] == decision.content;
      assert sent'[i] == sent'[|sent|];
      assert !NoRepeat(sent');
    } else {
      forall b ensures NoRepeat(SentContents(db'.communications, b)) { assert NoRepeat(SentContents(db.communications, b)); }
    }
  }

  lemma {:induction false} ChaseSendsTo(db: Db, application: Uuid, seen: Status, decision: Decision, id: Uuid, now: int)
    ensures forall b :: SentContents(ChasedDb(db, application, seen, decision, id, now).communications, b)
              == SentContents(db.communications, b) + if b == application && !decision.alreadySent then [decision.content] else []
  {
    AssignedRows(db, application, seen, FinalStatus(decision.missing));
    var c := Communication(id, application, decision.channel, Outbound, Some(decision.content), now, None);
    forall b { SentStep(db.communications, c, b); }
    hide SentContents, Assigned, FinalStatus;
  }

  lemma {:induction false} SameSent(db: Db, db': Db)
    requires forall application :: SentContents(db'.communications, application) == SentContents(db.communications, application)
    ensures AllDistinct(db') == AllDistinct(db)
  {
    hide SentContents, NoRepeat;
    if AllDistinct(db') {
      forall b ensures NoRepeat(SentContents(db.communications, b)) { assert NoRepeat(SentContents(db'.communications, b)); }
    }
  }

  lemma {:induction false} OtherStepsSendNothing(cfg: Config, rt: Runtime, s: State, step: Step)
    requires Enabled(cfg, rt, s, step) && !IsRequestStep(step) && !step.CommitChase?
    ensures Apply(cfg, rt, s, step).db.communications == s.db.communications
  {
    hide Decide, LoadAll, SourcesOf, FreshTexts, ParseFailures, AnomalyAudits, Enumerates, ChatRows, PickedChannel, Redaction.DegradedExcerpt,
         FactsFrom, Excerpt, WithoutFactsOf;
  }

  lemma {:induction false} RequestsSendNothing(cfg: Config, rt: Runtime, s: State, step: Step)
    requires Sound(cfg, s) && Enabled(cfg, rt, s, step) && IsRequestStep(step)
    ensures forall application ::
              SentContents(Apply(cfg, rt, s, step).db.communications, application) == SentContents(s.db.communications, application)
  {
    hide Sound, Apply, Enabled, Committed, Committable, SentContents;
    RequestStepDb(cfg, rt, s, step);
    var s' := Apply(cfg, rt, s, step);
    if s'.db != s.db {
      var staging :| Committable(s.db, staging) && s'.db == Committed(s.db, staging);
      CommitSendsNothing(s.db, staging);
    }
  }

  lemma {:induction false} ChaseRepeats(cfg: Config, rt: Runtime, s: State, k: nat, id: Uuid, now: int)
    requires AllDistinct(s.db) && Enabled(cfg, rt, s, CommitChase(k, id, now))
    ensures AllDistinct(Apply(cfg, rt, s, CommitChase(k, id, now)).db) <==> !SendsAgain(s, CommitChase(k, id, now))
  {
    hide AllDistinct, SentContents, ChasedDb, FinalStatus;
    SendRepeats(s.db, s.runs[k].application, s.runs[k].seen, s.runs[k].state.decision, id, now);
  }

  /** From distinct texts a step leaves distinct texts exactly when it is no such send. */
  lemma {:induction false} StepRepeats(cfg: Config, rt: Runtime, s: State, step: Step)
    requires Sound(cfg, s) && AllDistinct(s.db) && Enabled(cfg, rt, s, step)
    ensures AllDistinct(Apply(cfg, rt, s, step).db) <==> !SendsAgain(s, step)
  {
    hide Sound, Enabled, Apply, AllDistinct, SentContents;
    if step.CommitChase? {
      ChaseRepeats(cfg, rt, s, step.k, step.id, step.now);
    } else {
      if IsRequestStep(step) { RequestsSendNothing(cfg, rt, s, step); } else { OtherStepsSendNothing(cfg, rt, s, step); }
      SameSent(s.db, Apply(cfg, rt, s, step).db);
    }
  }

  ghost predicate AlwaysDistinct(cfg: Config, rt: Runtime, s: State, steps: seq<Step>)
    requires Runs(cfg, rt, s, steps)
    decreases |steps|
  {
    AllDistinct(s.db) && (steps == [] || AlwaysDistinct(cfg, rt, Apply(cfg, rt, s, steps[0]), steps[1..]))
  }

  ghost predicate NeverRepeats(cfg: Config, rt: Runtime, s: State, steps: seq<Step>)
    requires Runs(cfg, rt, s, steps)
    decreases |steps|
  {
    steps == [] || (!SendsAgain(s, steps[0]) && NeverRepeats(cfg, rt, Apply(cfg, rt, s, steps[0]), steps[1..]))
  }

  lemma {:induction false} HistoryRepeats(cfg: Config, rt: Runtime, s: State, steps: seq<Step>)
    requires Sound(cfg, s) && AllDistinct(s.db) && Runs(cfg, rt, s, steps)
    ensures AlwaysDistinct(cfg, rt, s, steps) <==> NeverRepeats(cfg, rt, s, steps)
    decreases |steps|
  {
    hide Sound, AllDistinct, Enabled, Apply, SendsAgain;
    if steps != [] {
      var next := Apply(cfg, rt, s, steps[0]);
      StepKeepsSound(cfg, rt, s, steps[0]);
      StepRepeats(cfg, rt, s, steps[0]);
      if AllDistinct(next.db) { HistoryRepeats(cfg, rt, next, steps[1..]); }
    }
  }

  /** Whatever the interleaving: no application ever holds one text twice exactly when no
      send of the history was decided before the same text went out. */
  lemma {:induction false} MessagesExactly(cfg: Config, rt: Runtime, steps: seq<Step>)
    requires Runs(cfg, rt, INIT, steps)
    ensures AlwaysDistinct(cfg, rt, INIT, steps) <==> NeverRepeats(cfg, rt, INIT, steps)
  {
    assert forall a :: SentContents(INIT.db.communications, a) == [];
    assert AllDistinct(INIT.db);
    hide Runs, AlwaysDistinct, NeverRepeats, AllDistinct, Sound;
    InitSound(cfg);
    HistoryRepeats(cfg, rt, INIT, steps);
  }

  // ----- What overlapping runs can do -----

  function Overlap(i: nat, j: nat, channel: Channel, first: Uuid, second: Uuid, now: int): seq<Step> {
    [DecideChase(i, channel), DecideChase(j, channel), CommitChase(i, first, now), CommitChase(j, second, now)]
  }

  /** Two runs of one application that both look for the message before either has sent it, both send it. */
  lemma {:induction false} OverlappingRunsRepeat(cfg: Config, rt: Runtime, s: State, i: nat, j: nat, channel: Channel,
                                                 first: Uuid, second: Uuid, now: int)
    requires RunAt(s, i) && RunAt(s, j) && i != j && s.runs[i].application == s.runs[j].application
    requires s.runs[i].state.AtChase? && s.runs[j].state.AtChase? && PickedChannel(s.db, s.runs[i].application, channel)
    requires first !in s.drawn && second !in s.drawn && first != second
    requires !Decide(s.db, s.runs[i].application, channel).alreadySent
    ensures var application := s.runs[i].application;
            var text := Decide(s.db, application, channel).content;
            && Runs(cfg, rt, s, Overlap(i, j, channel, first, second, now))
            && SentContents(After(cfg, rt, s, Overlap(i, j, channel, first, second, now)).db.communications, application)
               == SentContents(s.db.communications, application) + [text] + [text]
  {
    hide Decide, SentContents, ChasedDb;
    var a, decision := s.runs[i].application, Decide(s.db, s.runs[i].application, channel);
    var s2 := BothDecided(cfg, rt, s, i, j, channel, decision);
    var s3 := OneCommits(cfg, rt, s2, i, decision, first, now);
    hide PickedChannel, Apply, Enabled;
    var s4 := OneCommits(cfg, rt, s3, j, decision, second, now);
    FourSteps(cfg, rt, s, AtRun(s, i, AtChaseCommit(decision)), s2, s3, s4, i, j, channel, first, second, now);
  }

  lemma {:induction false} BothDecided(cfg: Config, rt: Runtime, s: State, i: nat, j: nat, channel: Channel, decision: Decision) returns (s2: State)
    requires RunAt(s, i) && RunAt(s, j) && i != j && s.runs[i].application == s.runs[j].application
    requires s.runs[i].state.AtChase? && s.runs[j].state.AtChase? && PickedChannel(s.db, s.runs[i].application, channel)
    requires decision == Decide(s.db, s.runs[i].application, channel)
    ensures Enabled(cfg, rt, s, DecideChase(i, channel))
    ensures var s1 := AtRun(s, i, AtChaseCommit(decision));
            && Apply(cfg, rt, s, DecideChase(i, channel)) == s1
            && Enabled(cfg, rt, s1, DecideChase(j, channel)) && Apply(cfg, rt, s1, DecideChase(j, channel)) == s2
    ensures s2.db == s.db && s2.drawn == s.drawn && |s2.runs| == |s.runs|
    ensures s2.runs[i] == s.runs[i].(state := AtChaseCommit(decision)) && s2.runs[j] == s.runs[j].(state := AtChaseCommit(decision))
  {
    hide Decide, PickedChannel;
    var s1 := AtRun(s, i, AtChaseCommit(decision));
    s2 := AtRun(s1, j, AtChaseCommit(decision));
  }

  lemma {:induction false} OneCommits(cfg: Config, rt: Runtime, s: State, k: nat, decision: Decision, id: Uuid, now: int) returns (s': State)
    requires RunAt(s, k) && s.runs[k].state == AtChaseCommit(decision) && !decision.alreadySent && id !in s.drawn
    ensures Enabled(cfg, rt, s, CommitChase(k, id, now)) && s' == Apply(cfg, rt, s, CommitChase(k, id, now))
    ensures s'.drawn == s.drawn + {id} && |s'.runs| == |s.runs| && forall m | 0 <= m < |s.runs| && m != k :: s'.runs[m] == s.runs[m]
    ensures var a := s.runs[k].application;
            SentContents(s'.db.communications, a) == SentContents(s.db.communications, a) + [decision.content]
  {
    hide SentContents, ChasedDb, FinalStatus;
    s' := AfterChase(s, k, id, now);
    ChaseSends(s.db, s.runs[k].application, s.runs[k].seen, decision, id, now);
  }

  lemma {:induction false} ChaseSends(db: Db, application: Uuid, seen: Status, decision: Decision, id: Uuid, now: int)
    requires !decision.alreadySent
    ensures SentContents(ChasedDb(db, application, seen, decision, id, now).communications, application)
         == SentContents(db.communications, application) + [decision.content]
  {
    AssignedRows(db, application, seen, FinalStatus(decision.missing));
    SentStep(db.communications, Communication(id, application, decision.channel, Outbound, Some(decision.content), now, None), application);
    hide SentContents, Assigned;
  }

  lemma {:induction false} FourSteps(cfg: Config, rt: Runtime, s: State, s1: State, s2: State, s3: State, s4: State, i: nat, j: nat,
                                     channel: Channel, first: Uuid, second: Uuid, now: int)
    requires var steps := Overlap(i, j, channel, first, second, now);
             && Enabled(cfg, rt, s, steps[0]) && Apply(cfg, rt, s, steps[0]) == s1
             && Enabled(cfg, rt, s1, steps[1]) && Apply(cfg, rt, s1, steps[1]) == s2
             && Enabled(cfg, rt, s2, steps[2]) && Apply(cfg, rt, s2, steps[2]) == s3
             && Enabled(cfg, rt, s3, steps[3]) && Apply(cfg, rt, s3, steps[3]) == s4
    ensures Runs(cfg, rt, s, Overlap(i, j, channel, first, second, now))
         && After(cfg, rt, s, Overlap(i, j, channel, first, second, now)) == s4
  {
    hide Enabled, Apply;
    var steps := Overlap(i, j, channel, first, second, now);
    OneStep(cfg, rt, s4, []);
    OneMore(cfg, rt, s3, steps[3], []);
    OneMore(cfg, rt, s2, steps[2], [steps[3]]);
    OneMore(cfg, rt, s1, steps[1], [steps[2], steps[3]]);
    OneMore(cfg, rt, s, steps[0], [steps[1], steps[2], steps[3]]);
  }

  // ----- Overlapping runs, from empty tables -----

  function StepsToChase(k: nat, a: Uuid, x: RunInput): seq<Step> {
    [StartRun(a), LoadDocuments(k, x.order), CommitIngest(k, x.rows), Extract(k, x.outcome), ReconcileFacts(k, x.anomalies)]
  }

  /** A run stopped just before it looks for the message to send. */
  lemma {:induction false} RunToChase(cfg: Config, rt: Runtime, s: State, a: Uuid, x: RunInput)
    requires a in s.pending && Possible(rt, s.db, a, x) && !DegradedBy(rt, s.db, x)
    ensures var steps := StepsToChase(|s.runs|, a, x);
            && Runs(cfg, rt, s, steps) && After(cfg, rt, s, steps).db == AfterReconcile(rt, s.db, a, x)
            && After(cfg, rt, s, steps).runs == s.runs + [Run(a, SeenBy(s.db, a), AtChase)]
            && After(cfg, rt, s, steps).drawn == s.drawn
            && Around(s.(pending := s.pending - multiset{a}), After(cfg, rt, s, steps))
  {
    hide Enabled, Apply, Ran, AfterTrace, SeenBy, AfterExtract, Enumerates, ChatRows, PickedChannel, Reconcile.AllConflicts, FactsOf, DegradedBy,
         SourcesBy, AfterIngest, ReconciledDb;
    var k := |s.runs|;
    var s1, s2, s3 := StepsIngested(cfg, rt, s, a, x);
    Extracts(cfg, rt, s3, k, x.outcome);
    StepsTraced(rt, s, s3, a, x);
    var s4 := AfterExtract(rt, s3, k, x.outcome);
    Reconciles(cfg, rt, s4, k, x.anomalies);
    var s5 := AtRun(s4, k, AtChase).(db := ReconciledDb(rt, s4.db, a, x.anomalies));
    var five := [ReconcileFacts(k, x.anomalies)];
    OneStep(cfg, rt, s5, []);
    OneMore(cfg, rt, s4, ReconcileFacts(k, x.anomalies), []);
    OneMore(cfg, rt, s3, Extract(k, x.outcome), five);
    OneMore(cfg, rt, s2, CommitIngest(k, x.rows), [Extract(k, x.outcome)] + five);
    OneMore(cfg, rt, s1, LoadDocuments(k, x.order), [CommitIngest(k, x.rows)] + ([Extract(k, x.outcome)] + five));
    OneMore(cfg, rt, s, StartRun(a), [LoadDocuments(k, x.order)] + ([CommitIngest(k, x.rows)] + ([Extract(k, x.outcome)] + five)));
    hide Runs, After;
    assert [ReconcileFacts(k, x.anomalies)] + [] == five;
    assert StepsToChase(k, a, x) == [StartRun(a)] + ([LoadDocuments(k, x.order)] + ([CommitIngest(k, x.rows)] + ([Extract(k, x.outcome)] + five)));
  }

  function SilentInput(rows: seq<Communication>, channel: Channel, id: Uuid): RunInput {
    RunInput([], rows, Extracted([], ""), [], channel, id, 0)
  }

  lemma {:induction false} SilentRun(rt: Runtime, db: Db, a: Uuid, x: RunInput)
    requires a in db.applications && DocsOf(db, a) == {} && x.order == [] && ChatRows(db, a, x.rows) && PickedChannel(db, a, x.channel)
    requires x.outcome == Extracted([], "") && x.anomalies == [] && db.facts == []
    ensures Possible(rt, db, a, x) && !DegradedBy(rt, db, x)
    ensures var db' := AfterReconcile(rt, db, a, x);
            && db'.communications == db.communications && DocsOf(db', a) == DocsOf(db, a) && a in db'.applications && db'.facts == []
  {
    NoFactsAfter(rt, db, a, x);
    hide AfterTrace, FactsAfter, ChatRows, PickedChannel, DocsOf;
    ChatRunPossible(rt, db, a, x);
    TraceKeepsCommunications(rt, db, a, x);
    SilentTables(rt, db, a, x);
  }

  lemma {:induction false} NoFactsAfter(rt: Runtime, db: Db, a: Uuid, x: RunInput)
    requires x.order == [] && x.outcome == Extracted([], "") && db.facts == []
    ensures Listed(db, x.order) && !DegradedBy(rt, db, x) && FactsAfter(rt, db, a, x) == []
  {
    hide SourcesBy;
  }

  lemma {:induction false} SilentTables(rt: Runtime, db: Db, a: Uuid, x: RunInput)
    requires a in db.applications && x.order == [] && x.outcome == Extracted([], "") && db.facts == []
    ensures var db' := AfterReconcile(rt, db, a, x); DocsOf(db', a) == DocsOf(db, a) && a in db'.applications && db'.facts == []
  {
    hide AnomalyAudits, Excerpt, Prompt.UserPrompt;
    assert LoadAll(rt, db.documents, []) == [];
    NothingReplaced(a);
    IngestNothing(db, a);
    EnteredKeeps(db, a);
  }

  lemma {:induction false} NothingReplaced(a: Uuid)
    ensures WithoutFactsOf([], {a}) + [] == []
  {
  }

  lemma {:induction false} IngestNothing(db: Db, a: Uuid)
    ensures Ingested(db, a, []).documents == db.documents
  {
  }

  /** From empty tables: two messages queue two runs, both runs decide before either sends,
      and the borrower gets one text twice. */
  lemma {:induction false} RepeatReached(cfg: Config, rt: Runtime, message: Message, d1: Draw, d2: Draw, first: Uuid, second: Uuid)
    returns (steps: seq<Step>)
    requires message.attachments == [] && message.text.Some? && message.sentAt.Some? && TwoDraws(d1, d2)
    requires first !in DrawnBy(d1) + DrawnBy(d2) && second !in DrawnBy(d1) + DrawnBy(d2) && first != second
    ensures Runs(cfg, rt, INIT, steps) && !AllDistinct(After(cfg, rt, INIT, steps).db)
  {
    hide Runs, After, NewDraw, Strip, DrawnBy, Scoped, Possible, PickedChannel, ChatRows, AfterReconcile, DegradedBy, Decide, SentContents, SeenBy, AllDistinct;
    var db, a, rows := TwoTables(message, d1, d2), d1.application, TwoRows(message, d1, d2);
    var x := SilentInput(rows, message.channel, first);
    var delivered := TwoMessages(cfg, rt, message, d1, d2);
    var s0 := After(cfg, rt, INIT, delivered);
    TwoRowsAreChat(message, d1, d2);
    TwoRowsChannel(message, d1, d2);
    assert DocsOf(db, a) == {};
    SilentRun(rt, db, a, x);
    RunToChase(cfg, rt, s0, a, x);
    var one := StepsToChase(0, a, x);
    var s1 := After(cfg, rt, s0, one);
    SameCommunicationsSameChannel(db, s1.db, a, message.channel);
    SameCommunicationsSameChat(db, s1.db, a, rows);
    SilentRun(rt, s1.db, a, x);
    RunToChase(cfg, rt, s1, a, x);
    var two := StepsToChase(1, a, x);
    var s2 := After(cfg, rt, s1, two);
    SameCommunicationsSameChannel(db, s2.db, a, message.channel);
    NothingSent(s2.db, a, message, d1, d2);
    FirstSend(s2.db, a, message.channel);
    OverlappingRunsRepeat(cfg, rt, s2, 0, 1, message.channel, first, second, 0);
    var last := Overlap(0, 1, message.channel, first, second, 0);
    TwiceRepeats(After(cfg, rt, s2, last).db, a, Decide(s2.db, a, message.channel).content);
    RunsAppend(cfg, rt, INIT, delivered, one);
    RunsAppend(cfg, rt, INIT, delivered + one, two);
    RunsAppend(cfg, rt, INIT, delivered + one + two, last);
    steps := delivered + one + two + last;
  }

  lemma {:induction false} NothingSent(db: Db, a: Uuid, message: Message, d1: Draw, d2: Draw)
    requires db.communications == TwoRows(message, d1, d2)
    ensures SentContents(db.communications, a) == []
  {
    hide Scoped;
    var rows := TwoRows(message, d1, d2);
    SentStep([rows[0]], rows[1], a);
    SentStep([], rows[0], a);
    assert [] + [rows[0]] == [rows[0]] && [rows[0]] + [rows[1]] == rows;
  }

  lemma {:induction false} FirstSend(db: Db, a: Uuid, channel: Channel)
    requires SentContents(db.communications, a) == []
    ensures !Decide(db, a, channel).alreadySent
  {
    hide ChaseContent, Missing;
  }

  lemma {:induction false} TwiceRepeats(db: Db, a: Uuid, text: string)
    requires SentContents(db.communications, a) == [] + [text] + [text]
    ensures !AllDistinct(db)
  {
    hide SentContents;
    var sent := SentContents(db.communications, a);
    assert sent[0] == sent[1];
    assert !NoRepeat(sent);
  }
}
