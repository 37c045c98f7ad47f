/** Histories in which a borrower comes to have two open applications. */
module OpenRaces {
  import opened Basics
  import opened Tables
  import opened Intake
  import opened Nodes
  import opened System
  import opened Histories
  import opened OneOpen
  import opened WholeRun
  import opened Rerun
  import opened Scenarios
  import Redaction

  // ----- What interleaved requests can do -----

  function Race(first: nat, second: nat, d1: Draw, d2: Draw): seq<Step> {
    [Prepare(first, None, d1), Prepare(second, None, d2), CommitMessage(first), CommitMessage(second)]
  }

  /** Both requests look for the borrower's open application before either has created one. */
  ghost predicate Racing(cfg: Config, s: State, first: nat, second: nat, d1: Draw, d2: Draw) {
    && first != second && RequestAt(s, first) && RequestAt(s, second)
    && s.requests[first].state.Missed? && s.requests[second].state.Missed?
    && |d1.documents| == |s.requests[first].message.attachments| && |d2.documents| == |s.requests[second].message.attachments|
    && NewestOpen(s.db, Strip(s.requests[first].message.userId), None)
    && Strip(s.requests[second].message.userId) == Strip(s.requests[first].message.userId)
    && NewDraw(s.drawn, d1) && NewDraw(s.drawn + DrawnBy(d1), d2)
    && StagedFor(cfg, s.db, s.requests[first], None, d1).Ok? && StagedFor(cfg, s.db, s.requests[second], None, d2).Ok?
    && KeyFor(cfg, s.requests[first]) != KeyFor(cfg, s.requests[second])
    && FindByKey(s.db.communications, KeyFor(cfg, s.requests[first])).None?
    && FindByKey(s.db.communications, KeyFor(cfg, s.requests[second])).None?
  }

  lemma {:induction false} StagedNew(cfg: Config, db: Db, q: Request, draw: Draw)
    requires |draw.documents| == |q.message.attachments| && StagedFor(cfg, db, q, None, draw).Ok?
    ensures var staging := StagedFor(cfg, db, q, None, draw).value;
            && staging.isNew && staging.applicationId == draw.application && staging.communication.key == Some(KeyFor(cfg, q))
            && staging.application == Application(Strip(q.message.userId), PendingDocs, draw.now)
  {
    hide Strip, BuildDocuments;
  }

  lemma {:induction false} FindByKeyAppend(communications: seq<Communication>, c: Communication, key: string)
    requires FindByKey(communications, key).None? && c.key != Some(key)
    ensures FindByKey(communications + [c], key).None?
  {
    FindByKeyFinds(communications, key);
    FindByKeyFinds(communications + [c], key);
  }

  /** Each then opens an application of its own. */
  lemma {:induction false} RaceOpensTwo(cfg: Config, rt: Runtime, s: State, first: nat, second: nat, d1: Draw, d2: Draw)
    requires Racing(cfg, s, first, second, d1, d2)
    ensures Runs(cfg, rt, s, Race(first, second, d1, d2))
         && !OneOpenEach(After(cfg, rt, s, Race(first, second, d1, d2)).db)
  {
    hide StagedFor, KeyFor, NewDraw, NewestOpen, Strip, FindByKey, DocumentMap, OneOpenEach, Apply, Enabled, KeyCommitted;
    var st1, st2 := StagedFor(cfg, s.db, s.requests[first], None, d1).value, StagedFor(cfg, s.db, s.requests[second], None, d2).value;
    StagedNew(cfg, s.db, s.requests[first], d1);
    StagedNew(cfg, s.db, s.requests[second], d2);
    assert d1.application != d2.application by { DrawsApart(s.drawn, d1, d2); }
    FindByKeyAppend(s.db.communications, st1.communication, KeyFor(cfg, s.requests[second]));
    var s1 := AtRequest(s, first, Prepared(st1)).(drawn := s.drawn + DrawnBy(d1));
    var s2 := AtRequest(s1, second, Prepared(st2)).(drawn := s1.drawn + DrawnBy(d2));
    var s3 := s2.(db := Committed(s.db, st1), requests := s2.requests[first := s2.requests[first].(state := Acked(AckOf(st1)), won := Some(st1))]);
    var s4 := s3.(db := Committed(s3.db, st2), requests := s3.requests[second := s3.requests[second].(state := Acked(AckOf(st2)), won := Some(st2))]);
    Prepares(cfg, rt, s, first, None, d1);
    Prepares(cfg, rt, s1, second, None, d2);
    FreeKey(s.db, st1);
    FreeKey(s3.db, st2);
    Commits(cfg, rt, s2, first, st1);
    Commits(cfg, rt, s3, second, st2);
    assert !OneOpenEach(s4.db) by { TwoOpen(s4.db, d1.application, d2.application); }
    hide Committed;
    RaceRuns(cfg, rt, s, s1, s2, s3, s4, first, second, d1, d2);
  }

  lemma {:induction false} DrawsApart(drawn: set<Uuid>, d1: Draw, d2: Draw)
    requires NewDraw(drawn, d1) && NewDraw(drawn + DrawnBy(d1), d2)
    ensures d1.application != d2.application
  {
    assert d1.application in DrawnBy(d1) && d2.application in DrawnBy(d2);
  }

  lemma {:induction false} FreeKey(db: Db, staging: Staging)
    requires staging.communication.key.Some? && FindByKey(db.communications, staging.communication.key.value).None?
    ensures !KeyCommitted(db, staging)
  {
    hide FindByKey;
  }

  lemma {:induction false} RaceRuns(cfg: Config, rt: Runtime, s: State, s1: State, s2: State, s3: State, s4: State, first: nat, second: nat, d1: Draw, d2: Draw)
    requires var steps := Race(first, second, d1, d2);
             && Enabled(cfg, rt, s, steps[0]) && Apply(cfg, rt, s, steps[0]) == s1
             && Enabled(cfg, rt, s1, steps[1]) && Apply(cfg, rt, s1, steps[1]) == s2
             && Enabled(cfg, rt, s2, steps[2]) && Apply(cfg, rt, s2, steps[2]) == s3
             && Enabled(cfg, rt, s3, steps[3]) && Apply(cfg, rt, s3, steps[3]) == s4
    ensures Runs(cfg, rt, s, Race(first, second, d1, d2)) && After(cfg, rt, s, Race(first, second, d1, d2)) == s4
  {
    hide Enabled, Apply;
    var steps := Race(first, second, d1, d2);
    OneStep(cfg, rt, s4, []);
    OneMore(cfg, rt, s3, steps[3], []);
    OneMore(cfg, rt, s2, steps[2], [steps[3]]);
    OneMore(cfg, rt, s1, steps[1], [steps[2], steps[3]]);
    OneMore(cfg, rt, s, steps[0], [steps[1], steps[2], steps[3]]);
  }

  // Two first messages of one borrower, arriving together, race.

  function TogetherArrived(message: Message): seq<Request> {
    [Request(message, Some("1"), Arrived, None), Request(message, Some("2"), Arrived, None)]
  }

  function TogetherMissed(message: Message): seq<Request> {
    [Request(message, Some("1"), Missed, None), Request(message, Some("2"), Missed, None)]
  }

  lemma {:induction false} RaceReached(cfg: Config, rt: Runtime, message: Message, d1: Draw, d2: Draw)
    requires message.attachments == [] && d1.documents == [] && d2.documents == []
    requires NewDraw({}, d1) && NewDraw(DrawnBy(d1), d2)
    ensures var steps := [Arrive(message, Some("1")), Arrive(message, Some("2")), CheckKey(0, false), CheckKey(1, false)];
            Runs(cfg, rt, INIT, steps) && Racing(cfg, After(cfg, rt, INIT, steps), 0, 1, d1, d2)
  {
    var s := INIT.(requests := TogetherMissed(message));
    assert Racing(cfg, s, 0, 1, d1, d2) by { RaceHere(cfg, s, message, d1, d2); }
    hide Racing, KeyFor, NewDraw;
    FourArrivals(cfg, rt, message, s);
  }

  lemma {:induction false} RaceHere(cfg: Config, s: State, message: Message, d1: Draw, d2: Draw)
    requires message.attachments == [] && d1.documents == [] && d2.documents == []
    requires NewDraw({}, d1) && NewDraw(DrawnBy(d1), d2) && s == INIT.(requests := TogetherMissed(message))
    ensures Racing(cfg, s, 0, 1, d1, d2)
  {
    hide Strip, NewDraw;
    var u := Strip(message.userId);
    assert KeyFor(cfg, s.requests[0]) == u + ":" + "1" && KeyFor(cfg, s.requests[1]) == u + ":" + "2";
    assert (u + ":" + "1")[|u| + 1] == '1' && (u + ":" + "2")[|u| + 1] == '2';
    assert s.drawn == {} && s.drawn + DrawnBy(d1) == DrawnBy(d1);
  }

  lemma {:induction false} FourArrivals(cfg: Config, rt: Runtime, message: Message, s: State)
    requires s == INIT.(requests := TogetherMissed(message))
    ensures var steps := [Arrive(message, Some("1")), Arrive(message, Some("2")), CheckKey(0, false), CheckKey(1, false)];
            Runs(cfg, rt, INIT, steps) && After(cfg, rt, INIT, steps) == s
  {
    var one, two := Arrive(message, Some("1")), Arrive(message, Some("2"));
    var s1 := INIT.(requests := [Request(message, Some("1"), Arrived, None)]);
    var s2 := INIT.(requests := TogetherArrived(message));
    var s3 := AtRequest(s2, 0, Missed);
    assert Enabled(cfg, rt, INIT, one) && Apply(cfg, rt, INIT, one) == s1;
    assert Enabled(cfg, rt, s1, two) && Apply(cfg, rt, s1, two) == s2;
    Misses(cfg, rt, s2, 0);
    Misses(cfg, rt, s3, 1);
    assert s == AtRequest(s3, 1, Missed);
    hide Enabled, Apply;
    OneStep(cfg, rt, s, []);
    OneMore(cfg, rt, s3, CheckKey(1, false), []);
    OneMore(cfg, rt, s2, CheckKey(0, false), [CheckKey(1, false)]);
    OneMore(cfg, rt, s1, two, [CheckKey(0, false), CheckKey(1, false)]);
    OneMore(cfg, rt, INIT, one, [two, CheckKey(0, false), CheckKey(1, false)]);
  }

  /** A late run that degrades reopens a finished application beside the borrower's new one. */
  lemma {:induction false} LateRunReopens(cfg: Config, rt: Runtime, s: State, k: nat, other: Uuid, outcome: Outcome)
    requires RunAt(s, k) && s.runs[k].state.AtExtract? && s.runs[k].state.sources != [] && outcome.Failed?
    requires s.runs[k].seen == ReadyForLos && s.runs[k].application in s.db.applications && other != s.runs[k].application
    requires other in s.db.applications && Open(s.db.applications[other].status)
    requires s.db.applications[other].borrower == s.db.applications[s.runs[k].application].borrower
    ensures Enabled(cfg, rt, s, Extract(k, outcome)) && !OneOpenEach(Apply(cfg, rt, s, Extract(k, outcome)).db)
  {
    hide OneOpenEach, Redaction.DegradedExcerpt;
    TwoOpen(Apply(cfg, rt, s, Extract(k, outcome)).db, s.runs[k].application, other);
  }

  // ----- The late run, from empty tables -----

  /** Rows a run adds come last, go out and carry no key. */
  ghost predicate SendsOnly(db: Db, db': Db) {
    db.communications <= db'.communications
    && forall i | |db.communications| <= i < |db'.communications| ::
         db'.communications[i].direction == Outbound && db'.communications[i].key == None
  }

  /** A run changes no application but its own, and no row that carries a key. */
  lemma {:induction false} RunTouchesOne(rt: Runtime, db: Db, a: Uuid, x: RunInput)
    requires a in db.applications && Listed(db, x.order)
    ensures OnlyStatusOf(db, Ran(rt, db, a, x), a) && SendsOnly(db, Ran(rt, db, a, x))
  {
    hide AfterTrace, DegradedBy, Decide, AfterReconcile, SeenBy;
    TraceTouchesOne(rt, db, a, x);
    TraceKeepsCommunications(rt, db, a, x);
    if !DegradedBy(rt, db, x) {
      var d := AfterReconcile(rt, db, a, x);
      var decision := Decide(d, a, x.channel);
      ReconcileKeepsApplications(rt, db, a, x);
      ChasedStatus(d, a, SeenBy(db, a), decision, x.id, x.now);
      ChaseSendsOnly(d, a, SeenBy(db, a), decision, x.id, x.now);
      hide ChasedDb;
      OnlyTwice(db, d, Ran(rt, db, a, x), a);
    }
  }

  lemma {:induction false} ReconcileKeepsApplications(rt: Runtime, db: Db, a: Uuid, x: RunInput)
    requires a in db.applications && Listed(db, x.order)
    ensures AfterReconcile(rt, db, a, x).applications == AfterTrace(rt, db, a, x).applications
  {
    hide AfterTrace, AnomalyAudits;
  }

  lemma {:induction false} ChaseSendsOnly(db: Db, a: Uuid, seen: Status, decision: Decision, id: Uuid, now: int)
    ensures SendsOnly(db, ChasedDb(db, a, seen, decision, id, now))
  {
    AssignedKeepsCommunications(db, a, seen, FinalStatus(decision.missing));
    hide Assigned, FinalStatus;
  }

  lemma {:induction false} OnlyTwice(db: Db, middle: Db, db': Db, a: Uuid)
    requires OnlyStatusOf(db, middle, a) && OnlyStatusOf(middle, db', a)
    ensures OnlyStatusOf(db, db', a)
  {
  }

  lemma {:induction false} TraceTouchesOne(rt: Runtime, db: Db, a: Uuid, x: RunInput)
    requires a in db.applications && Listed(db, x.order)
    ensures OnlyStatusOf(db, AfterTrace(rt, db, a, x), a)
  {
    var ingested, sources := AfterIngest(rt, db, a, x), SourcesBy(rt, db, x);
    IngestTouchesOne(rt, db, a, x);
    hide AfterIngest, SourcesBy, SeenBy, DegradedDb, ExtractedDb, OnlyStatusOf;
    if sources != [] {
      match x.outcome {
        case Failed(errorClass, code, detail) => DegradedStatus(ingested, a, SeenBy(db, a), errorClass, code, detail);
        case Extracted(entities, response) => ExtractedStatus(rt, ingested, a, sources, entities, response);
      }
      OnlyTwice(db, ingested, AfterTrace(rt, db, a, x), a);
    }
  }

  lemma {:induction false} IngestTouchesOne(rt: Runtime, db: Db, a: Uuid, x: RunInput)
    requires a in db.applications && Listed(db, x.order)
    ensures OnlyStatusOf(db, AfterIngest(rt, db, a, x), a)
  {
    AssignedStatus(db, a, db.applications[a].status, SeenBy(db, a));
    hide Assigned, EnteredStatus, WithRawTexts, FreshTexts, ParseFailures, LoadAll;
  }

  /** What the run of the first two messages starts from and leaves behind. */
  function ReadyInput(message: Message, d1: Draw, d2: Draw, id: Uuid): RunInput {
    RunInput([], TwoRows(message, d1, d2), ThreeFacts(if message.text.Some? then message.text.value else ""), [], message.channel, id, 0)
  }

  function FailedInput(message: Message, d1: Draw, d2: Draw, id: Uuid): RunInput {
    RunInput([], TwoRows(message, d1, d2), Failed("LLMTimeoutError", "llm_timeout", ""), [], message.channel, id, 0)
  }

  ghost predicate PlainMessage(message: Message) {
    message.attachments == [] && message.text.Some? && message.text.value != "" && message.sentAt.Some?
  }

  lemma {:induction false} FirstRunReady(rt: Runtime, message: Message, d1: Draw, d2: Draw, id: Uuid)
    requires PlainMessage(message)
    ensures var db, a, x := TwoTables(message, d1, d2), d1.application, ReadyInput(message, d1, d2, id);
            && Possible(rt, db, a, x) && !DegradedBy(rt, db, x)
            && a in Ran(rt, db, a, x).applications && Ran(rt, db, a, x).applications[a].status == ReadyForLos
  {
    var db, a, x := TwoTables(message, d1, d2), d1.application, ReadyInput(message, d1, d2, id);
    hide Scoped, Strip, StatusAfter, FactsAfter, SentAfter, DegradedBy, Ran, Possible, ThreeFacts, AfterIngest, FactsOf, SentContents;
    TwoRowsAreChat(message, d1, d2);
    TwoRowsChannel(message, d1, d2);
    ThreeFactsReady(rt, db, a, x, TwoRows(message, d1, d2)[0], message.text.value);
    ThreeFactsValid(message.text.value);
    assert DocsOf(db, a) == {};
    hide ChatRows, PickedChannel;
    ChatRunPossible(rt, db, a, x);
    RunLeaves(rt, db, a, x);
  }

  lemma {:induction false} ThreeFactsValid(text: string)
    ensures SchemaValid(ThreeFacts(text))
  {
  }

  /** Rows that are none of the application's inbound texts leave its texts as they were. */
  lemma {:induction false} ChatUnchanged(db: Db, db': Db, a: Uuid, rows: seq<Communication>)
    requires ChatRows(db, a, rows) && db.communications <= db'.communications
    requires forall c | c in db'.communications[|db.communications|..] :: !IsChat(a, c)
    ensures ChatRows(db', a, rows)
  {
    hide IsChat;
    var n, chat := |db.communications|, (c: Communication) => IsChat(a, c);
    assert db'.communications == db.communications + db'.communications[n..];
    FilterAppend(chat, db.communications, db'.communications[n..]);
    FilterNone(chat, db'.communications[n..]);
  }

  /** The tables between the runs: the first application finished, a second one open. */
  ghost predicate InBetween(message: Message, d1: Draw, d2: Draw, d3: Draw, db1: Db, db2: Db) {
    var db, a := TwoTables(message, d1, d2), d1.application;
    && db1.applications.Keys == {a} && db1.applications[a].status == ReadyForLos && db1.applications[a].borrower == Strip(message.userId)
    && SendsOnly(db, db1) && DocsOf(db1, a) == {}
    && db2 == db1.(applications := db1.applications[d3.application := FirstRow(message, d3)],
                   communications := db1.communications + [PlainRow(message, "3", d3.application, d3)])
    && d3.application != a
  }

  lemma {:induction false} NoOpenLeft(message: Message, d1: Draw, d2: Draw, db1: Db)
    requires db1.applications.Keys == {d1.application} && db1.applications[d1.application].status == ReadyForLos
    requires SendsOnly(TwoTables(message, d1, d2), db1)
    ensures forall b :: !IsOpenFor(db1, Strip(message.userId), b)
    ensures forall c | c in db1.communications :: c.key != Some(Scoped(message.userId, "3"))
  {
    hide Strip, Scoped;
    assert |"1"| == 1 && |"2"| == 1 && |"3"| == 1 && "1"[0] != "3"[0] && "2"[0] != "3"[0];
    KeysDiffer(message.userId, "1", "3");
    KeysDiffer(message.userId, "2", "3");
    var before := TwoRows(message, d1, d2);
    forall c | c in db1.communications ensures c.key != Some(Scoped(message.userId, "3")) {
      var i :| 0 <= i < |db1.communications| && db1.communications[i] == c;
      if i < 2 { assert db1.communications[i] == before[i]; }
    }
  }

  lemma {:induction false} SecondRunFails(rt: Runtime, message: Message, d1: Draw, d2: Draw, d3: Draw, db1: Db, db2: Db, id: Uuid)
    requires PlainMessage(message) && InBetween(message, d1, d2, d3, db1, db2)
    ensures var a, x := d1.application, FailedInput(message, d1, d2, id);
            && Possible(rt, db2, a, x) && DegradedBy(rt, db2, x)
            && !OneOpenEach(Ran(rt, db2, a, x))
  {
    var db, a, x := TwoTables(message, d1, d2), d1.application, FailedInput(message, d1, d2, id);
    hide Scoped, Strip, StatusAfter, FactsAfter, SentAfter, Ran, Possible, AfterIngest, FactsOf, SentContents, Reopens;
    TwoRowsAreChat(message, d1, d2);
    BetweenTexts(message, d1, d2, d3, db1, db2);
    hide ChatRows, PickedChannel;
    ChatSourced(rt, db2, x);
    assert DocsOf(db2, a) == DocsOf(db1, a);
    hide SourcesBy, DocsOf;
    ChatRunPossible(rt, db2, a, x);
    RunLeaves(rt, db2, a, x);
    RunTouchesOne(rt, db2, a, x);
    assert StatusAfter(rt, db2, a, x) == ManualReview by { DegradedIsManual(rt, db2, a, x); }
    TwoOpen(Ran(rt, db2, a, x), a, d3.application);
  }

  lemma {:induction false} DegradedIsManual(rt: Runtime, db: Db, a: Uuid, x: RunInput)
    requires Listed(db, x.order) && DegradedBy(rt, db, x)
    ensures StatusAfter(rt, db, a, x) == ManualReview
  {
    hide DegradedBy;
  }

  lemma {:induction false} BetweenTexts(message: Message, d1: Draw, d2: Draw, d3: Draw, db1: Db, db2: Db)
    requires InBetween(message, d1, d2, d3, db1, db2)
    requires ChatRows(TwoTables(message, d1, d2), d1.application, TwoRows(message, d1, d2))
    ensures ChatRows(db2, d1.application, TwoRows(message, d1, d2))
  {
    hide ChatRows, Strip, Scoped;
    var db, a := TwoTables(message, d1, d2), d1.application;
    forall c | c in db2.communications[2..] ensures !IsChat(a, c) {
      var i :| 0 <= i < |db2.communications[2..]| && db2.communications[2..][i] == c;
      assert db2.communications[2 + i] == c;
    }
    ChatUnchanged(db, db2, a, TwoRows(message, d1, d2));
  }

  /** The identifiers drawn along the way are new each time. */
  ghost predicate LateDraws(d1: Draw, d2: Draw, d3: Draw, first: Uuid, second: Uuid) {
    var early := DrawnBy(d1) + DrawnBy(d2);
    && TwoDraws(d1, d2) && first !in early && d3.documents == [] && NewDraw(early + {first}, d3)
    && second !in early + {first} + DrawnBy(d3)
  }

  lemma {:induction false} FewerDrawn(drawn: set<Uuid>, more: set<Uuid>, draw: Draw)
    requires drawn <= more && NewDraw(more, draw)
    ensures NewDraw(drawn, draw)
  {
  }

  /** From empty tables: two messages queue two runs, the first run completes ready, a third
      message opens a second application, and the late run degrades the first one. */
  lemma {:induction false} LateRunReached(cfg: Config, rt: Runtime, message: Message, d1: Draw, d2: Draw, d3: Draw, first: Uuid, second: Uuid)
    returns (steps: seq<Step>)
    requires PlainMessage(message) && LateDraws(d1, d2, d3, first, second)
    ensures Runs(cfg, rt, INIT, steps) && !OneOpenEach(After(cfg, rt, INIT, steps).db)
  {
    var s2;
    steps, s2 := OneReady(cfg, rt, message, d1, d2, d3, first, second);
    var a, y := d1.application, FailedInput(message, d1, d2, second);
    hide Runs, After, NewDraw, Strip, DrawnBy, Scoped, Possible, Ran, TwoTables, OneOpenEach, DegradedBy, InBetween;
    var db1 :| InBetween(message, d1, d2, d3, db1, s2.db);
    SecondRunFails(rt, message, d1, d2, d3, db1, s2.db, second);
    UninterruptedRun(cfg, rt, s2, a, y);
    var more := RunSteps(|s2.runs|, a, y, DegradedBy(rt, s2.db, y));
    RunsAppend(cfg, rt, INIT, steps, more);
    steps := steps + more;
  }

  lemma {:induction false} OneReady(cfg: Config, rt: Runtime, message: Message, d1: Draw, d2: Draw, d3: Draw, first: Uuid, second: Uuid)
    returns (steps: seq<Step>, s: State)
    requires PlainMessage(message) && LateDraws(d1, d2, d3, first, second)
    ensures Runs(cfg, rt, INIT, steps) && After(cfg, rt, INIT, steps) == s
    ensures d1.application in s.pending && second !in s.drawn
    ensures exists db1 :: InBetween(message, d1, d2, d3, db1, s.db)
  {
    hide Runs, After, NewDraw, Strip, DrawnBy, Scoped, Possible, Ran;
    var db, a, x := TwoTables(message, d1, d2), d1.application, ReadyInput(message, d1, d2, first);
    var delivered := TwoMessages(cfg, rt, message, d1, d2);
    var s0 := After(cfg, rt, INIT, delivered);
    FirstRunReady(rt, message, d1, d2, first);
    UninterruptedRun(cfg, rt, s0, a, x);
    var run := RunSteps(|s0.runs|, a, x, DegradedBy(rt, s0.db, x));
    var s1 := After(cfg, rt, s0, run);
    RunTouchesOne(rt, db, a, x);
    RunKeepsDocsOf(rt, db, a, x);
    NoOpenLeft(message, d1, d2, s1.db);
    FewerDrawn(s1.drawn, DrawnBy(d1) + DrawnBy(d2) + {first}, d3);
    assert |"3"| == 1;
    DeliversFirst(cfg, rt, s1, message, "3", d3);
    var third := DeliverySteps(|s1.requests|, Arrival(message, "3"), None, d3);
    RunsAppend(cfg, rt, INIT, delivered, run);
    RunsAppend(cfg, rt, INIT, delivered + run, third);
    steps := delivered + run + third;
    s := After(cfg, rt, INIT, steps);
    OtherApplication(d1, d2, d3, first, second);
    assert InBetween(message, d1, d2, d3, s1.db, s.db);
  }

  lemma {:induction false} OtherApplication(d1: Draw, d2: Draw, d3: Draw, first: Uuid, second: Uuid)
    requires LateDraws(d1, d2, d3, first, second)
    ensures d3.application != d1.application
  {
    assert d1.application in DrawnBy(d1) && d3.application in DrawnBy(d3);
  }
}
