/** Concrete beginnings of histories: messages delivered to empty tables, and what a run
    finds in them. */
module Scenarios {
  import opened Basics
  import opened Facts
  import opened Tables
  import opened Intake
  import opened Nodes
  import opened System
  import opened Histories
  import opened SerialRuns
  import opened WholeRun
  import opened Rerun
  import Prompt
  import Reconcile
  import Words

  function Arrival(message: Message, key: string): Request { Request(message, Some(key), Arrived, None) }

  /** What is staged for a message without attachments. */
  function PlainRow(message: Message, key: string, a: Uuid, draw: Draw): Communication {
    Communication(draw.communication, a, message.channel, Inbound, message.text,
                  if message.sentAt.Some? then message.sentAt.value else draw.now, Some(Scoped(message.userId, key)))
  }

  function FirstRow(message: Message, draw: Draw): Application { Application(Strip(message.userId), PendingDocs, draw.now) }

  lemma {:induction false} PlainStaged(cfg: Config, db: Db, message: Message, key: string, chosen: Option<Uuid>, draw: Draw)
    requires message.attachments == [] && draw.documents == [] && (chosen.Some? ==> chosen.value in db.applications)
    ensures var a := if chosen.Some? then chosen.value else draw.application;
            StagedFor(cfg, db, Arrival(message, key), chosen, draw)
            == Ok(Staging(a, chosen.None?, if chosen.Some? then db.applications[a] else FirstRow(message, draw),
                          PlainRow(message, key, a, draw), []))
  {
    hide Strip, Scoped;
  }

  lemma {:induction false} NothingCommitted(db: Db, staging: Staging)
    requires forall c | c in db.communications :: c.key.None? || c.key != staging.communication.key
    ensures !KeyCommitted(db, staging)
  {
    if staging.communication.key.Some? { NoRowOfKey(db.communications, staging.communication.key.value); }
  }

  lemma {:induction false} NoRowOfKey(communications: seq<Communication>, key: string)
    requires forall c | c in communications :: c.key != Some(key)
    ensures FindByKey(communications, key).None?
  {
    FindByKeyFinds(communications, key);
  }

  lemma {:induction false} KeysDiffer(userId: string, x: string, y: string)
    requires x != y
    ensures Scoped(userId, x) != Scoped(userId, y)
  {
    hide Strip;
    var u := Strip(userId) + ":";
    assert (u + x)[|u|..] == x && (u + y)[|u|..] == y;
  }

  /** The message alone, from a borrower without an open application. */
  lemma {:induction false} DeliversFirst(cfg: Config, rt: Runtime, s: State, message: Message, key: string, draw: Draw)
    requires message.attachments == [] && draw.documents == [] && |key| <= MAX_KEY_LENGTH && NewDraw(s.drawn, draw)
    requires forall b :: !IsOpenFor(s.db, Strip(message.userId), b)
    requires forall c | c in s.db.communications :: c.key != Some(Scoped(message.userId, key))
    ensures var steps, s' := DeliverySteps(|s.requests|, Arrival(message, key), None, draw), DeliveredPlain(s, message, key, None, draw);
            && Runs(cfg, rt, s, steps) && SameRunState(After(cfg, rt, s, steps), s')
  {
    hide Strip, NewDraw, Runs, After, Scoped;
    PlainStaged(cfg, s.db, message, key, None, draw);
    var staging := StagedFor(cfg, s.db, Arrival(message, key), None, draw).value;
    hide StagedFor;
    NothingCommitted(s.db, staging);
    Delivers(cfg, rt, s, Arrival(message, key), None, draw);
    PlainDocuments(s.db.documents);
  }

  lemma {:induction false} PlainDocuments(documents: map<Uuid, Document>)
    ensures documents + DocumentMap([]) == documents
  {
  }

  /** The message joins the borrower's open application. */
  lemma {:induction false} DeliversNext(cfg: Config, rt: Runtime, s: State, message: Message, key: string, a: Uuid, draw: Draw)
    requires message.attachments == [] && draw.documents == [] && |key| <= MAX_KEY_LENGTH && NewDraw(s.drawn, draw)
    requires NewestOpen(s.db, Strip(message.userId), Some(a))
    requires forall c | c in s.db.communications :: c.key != Some(Scoped(message.userId, key))
    ensures var steps, s' := DeliverySteps(|s.requests|, Arrival(message, key), Some(a), draw), DeliveredPlain(s, message, key, Some(a), draw);
            && Runs(cfg, rt, s, steps) && SameRunState(After(cfg, rt, s, steps), s')
  {
    hide Strip, NewDraw, Runs, After, Scoped;
    PlainStaged(cfg, s.db, message, key, Some(a), draw);
    var staging := StagedFor(cfg, s.db, Arrival(message, key), Some(a), draw).value;
    hide StagedFor;
    NothingCommitted(s.db, staging);
    Delivers(cfg, rt, s, Arrival(message, key), Some(a), draw);
    PlainDocuments(s.db.documents);
  }

  /** The tables, runs, queue and drawn identifiers after such a delivery. */
  function DeliveredPlain(s: State, message: Message, key: string, chosen: Option<Uuid>, draw: Draw): State {
    var a := if chosen.Some? then chosen.value else draw.application;
    s.(db := s.db.(applications := if chosen.Some? then s.db.applications else s.db.applications[a := FirstRow(message, draw)],
                   communications := s.db.communications + [PlainRow(message, key, a, draw)]),
       pending := s.pending + multiset{a}, drawn := s.drawn + DrawnBy(draw))
  }

  ghost predicate SameRunState(s: State, s': State) {
    s.db == s'.db && s.runs == s'.runs && s.pending == s'.pending && s.drawn == s'.drawn
  }

  // ----- Two messages of one borrower, two queued runs -----

  ghost predicate TwoDraws(d1: Draw, d2: Draw) {
    d1.documents == [] && d2.documents == [] && NewDraw({}, d1) && NewDraw(DrawnBy(d1), d2)
  }

  function TwoRows(message: Message, d1: Draw, d2: Draw): seq<Communication> {
    [PlainRow(message, "1", d1.application, d1), PlainRow(message, "2", d1.application, d2)]
  }

  function TwoTables(message: Message, d1: Draw, d2: Draw): Db {
    Db(map[d1.application := FirstRow(message, d1)], TwoRows(message, d1, d2), map[], [], [])
  }

  lemma {:induction false} TwoMessages(cfg: Config, rt: Runtime, message: Message, d1: Draw, d2: Draw) returns (steps: seq<Step>)
    requires message.attachments == [] && TwoDraws(d1, d2)
    ensures Runs(cfg, rt, INIT, steps)
    ensures var s := After(cfg, rt, INIT, steps);
            && s.db == TwoTables(message, d1, d2) && s.runs == []
            && s.pending == multiset{d1.application, d1.application} && s.drawn == DrawnBy(d1) + DrawnBy(d2)
  {
    hide Runs, After, NewDraw, Strip, DrawnBy, Scoped, NewestOpen;
    assert |"1"| == 1;
    DeliversFirst(cfg, rt, INIT, message, "1", d1);
    var first := DeliverySteps(|INIT.requests|, Arrival(message, "1"), None, d1);
    var s := After(cfg, rt, INIT, first);
    assert s.drawn == DrawnBy(d1) && s.db.communications == [PlainRow(message, "1", d1.application, d1)];
    assert |"1"| == 1 && |"2"| == 1 && "1"[0] != "2"[0];
    OneApplication(s.db, message, d1);
    KeysDiffer(message.userId, "1", "2");
    DeliversNext(cfg, rt, s, message, "2", d1.application, d2);
    var second := DeliverySteps(|s.requests|, Arrival(message, "2"), Some(d1.application), d2);
    RunsAppend(cfg, rt, INIT, first, second);
    steps := first + second;
    assert [PlainRow(message, "1", d1.application, d1)] + [PlainRow(message, "2", d1.application, d2)] == TwoRows(message, d1, d2);
  }

  lemma {:induction false} OneApplication(db: Db, message: Message, d1: Draw)
    requires db.applications == map[d1.application := FirstRow(message, d1)]
    ensures NewestOpen(db, Strip(message.userId), Some(d1.application))
  {
    hide Strip;
  }

  // ----- Runs over chat messages alone -----

  lemma {:induction false} ConflictsNeedDocuments(py: Python, keys: set<string>, outer: seq<Fact>, inner: seq<Fact>)
    requires forall f | f in inner :: f.documentId.None?
    ensures Reconcile.Conflicts(py, keys, outer, inner) == multiset{}
  {
    hide Reconcile.ConflictsWith;
    if outer != [] {
      ConflictsNeedDocuments(py, keys, outer[..|outer| - 1], inner);
      Reconcile.ChatOnly(py, outer[|outer| - 1], inner);
    }
  }

  /** A run over an application without documents, whose facts come from chat. */
  lemma {:induction false} ChatRunPossible(rt: Runtime, db: Db, a: Uuid, x: RunInput)
    requires a in db.applications && DocsOf(db, a) == {} && x.order == [] && ChatRows(db, a, x.rows) && SchemaValid(x.outcome)
    requires !DegradedBy(rt, db, x) ==>
               && x.anomalies == [] && PickedChannel(db, a, x.channel)
               && forall f | f in FactsAfter(rt, db, a, x) :: f.documentId.None?
    ensures Possible(rt, db, a, x)
  {
    assert Enumerates(x.order, DocsOf(db, a)) by { assert (set d | d in x.order) == {}; }
    hide DegradedBy, AfterTrace, FactsAfter, ChatRows, PickedChannel, FactsOf, Enumerates, SchemaValid;
    if !DegradedBy(rt, db, x) {
      TraceLeaves(rt, db, a, x);
      var facts := FactsOf(AfterTrace(rt, db, a, x), a);
      ConflictsNeedDocuments(rt.python, Reconcile.KeysOf(facts), facts, facts);
    }
  }

  lemma {:induction false} ChatSourced(rt: Runtime, db: Db, x: RunInput)
    requires x.order == [] && x.rows != []
    ensures Listed(db, x.order) && SourcesBy(rt, db, x) != []
  {
    hide DocumentSources;
    assert |ChatSources(x.rows)| == |x.rows|;
  }

  lemma {:induction false} TwoRowsAreChat(message: Message, d1: Draw, d2: Draw)
    requires message.text.Some? && (message.sentAt.Some? || d1.now <= d2.now)
    ensures ChatRows(TwoTables(message, d1, d2), d1.application, TwoRows(message, d1, d2))
  {
    hide Scoped, Strip, Filter;
    FilterAll((c: Communication) => IsChat(d1.application, c), TwoRows(message, d1, d2));
  }

  lemma {:induction false} TwoRowsChannel(message: Message, d1: Draw, d2: Draw)
    requires message.sentAt.Some? || d1.now <= d2.now
    ensures PickedChannel(TwoTables(message, d1, d2), d1.application, message.channel)
  {
    hide Scoped, Strip;
    var db, a, rows := TwoTables(message, d1, d2), d1.application, TwoRows(message, d1, d2);
    var c := rows[1];
    assert c in db.communications && IsInbound(a, c);
    assert IsNewestInbound(db, a, c);
  }

  // An extraction that finds the three required facts in one chat text.

  function QuotedFact(key: string, text: string): Entity { Entity(key, Num(1.0), 1.0, Some(text), None) }

  function ThreeFacts(text: string): Outcome {
    Extracted([QuotedFact("government_id", text), QuotedFact("monthly_income", text), QuotedFact("address", text)], "")
  }

  lemma {:induction false} QuotedFactTraced(key: string, text: string, sources: seq<Prompt.SourceText>, source: Prompt.SourceText)
    requires key in KNOWN_FACT_KEYS && text != "" && source in sources && source.text == text && source.documentId.None?
    ensures Traced(QuotedFact(key, text), sources)
  {
    assert "" + text + "" == text;
    Words.VerbatimQuoteAccepted("", text, "");
    hide Words.Contains;
    assert QuotedInChat(source, text);
  }

  lemma {:induction false} AllTracedFacts(py: Python, a: Uuid, entities: seq<Entity>, sources: seq<Prompt.SourceText>)
    requires forall e | e in entities :: Traced(e, sources)
    ensures var facts := FactsFrom(py, a, entities, sources);
            |facts| == |entities| && forall i | 0 <= i < |entities| :: entities[i].sourceQuote.Some? && facts[i] == FactFrom(py, a, entities[i])
  {
    FactsFromFilter(py, a, entities, sources);
    assert forall e | e in entities :: e.sourceQuote.Some?;
    hide Traced;
    FilterAll(TracedIn(sources), entities);
  }

  lemma {:induction false} ThreeFactsTraced(rt: Runtime, db: Db, x: RunInput, c: Communication, text: string)
    requires x.order == [] && c in x.rows && c.content == Some(text) && text != ""
    ensures Listed(db, x.order) && SourcesBy(rt, db, x) != []
    ensures forall e | e in ThreeFacts(text).entities :: Traced(e, SourcesBy(rt, db, x))
  {
    ChatSourced(rt, db, x);
    var sources := SourcesBy(rt, db, x);
    var i :| 0 <= i < |x.rows| && x.rows[i] == c;
    assert ChatSources(x.rows)[i] == ChatSource(c);
    assert ChatSources(x.rows)[i] in sources;
    hide SourcesBy, Traced;
    QuotedFactTraced("government_id", text, sources, ChatSource(c));
    QuotedFactTraced("monthly_income", text, sources, ChatSource(c));
    QuotedFactTraced("address", text, sources, ChatSource(c));
  }

  lemma {:induction false} QuotedFactGives(py: Python, a: Uuid, key: string, text: string)
    ensures FactFrom(py, a, QuotedFact(key, text)) == Fact(a, key, Num(1.0), 1.0, None, text)
  {
  }

  lemma {:induction false} ThreePresent(facts: seq<Fact>)
    requires |facts| == 3 && forall f | f in facts :: f.value != Null
    requires facts[0].key == "government_id" && facts[1].key == "monthly_income" && facts[2].key == "address"
    ensures Missing(PresentIn(facts), REQUIRED_FACT_KEYS) == []
  {
    assert facts[0] in facts && facts[1] in facts && facts[2] in facts;
    MissingIsSubset(PresentIn(facts));
    hide Missing;
  }

  function ThreeStored(a: Uuid, text: string): seq<Fact> {
    [Fact(a, "government_id", Num(1.0), 1.0, None, text), Fact(a, "monthly_income", Num(1.0), 1.0, None, text),
     Fact(a, "address", Num(1.0), 1.0, None, text)]
  }

  lemma {:induction false} ThreeFactsStored(rt: Runtime, db: Db, a: Uuid, x: RunInput, c: Communication, text: string)
    requires x.order == [] && c in x.rows && c.content == Some(text) && text != "" && x.outcome == ThreeFacts(text)
    ensures Listed(db, x.order) && !DegradedBy(rt, db, x) && FactsAfter(rt, db, a, x) == ThreeStored(a, text)
  {
    hide Traced, SourcesBy, FactsFrom, FactFrom, FactsOf;
    ThreeFactsTraced(rt, db, x, c, text);
    AllTracedFacts(rt.python, a, ThreeFacts(text).entities, SourcesBy(rt, db, x));
    QuotedFactGives(rt.python, a, "government_id", text);
    QuotedFactGives(rt.python, a, "monthly_income", text);
    QuotedFactGives(rt.python, a, "address", text);
  }

  /** Such a run ends ready, with no fact from a document. */
  lemma {:induction false} ThreeFactsReady(rt: Runtime, db: Db, a: Uuid, x: RunInput, c: Communication, text: string)
    requires x.order == [] && c in x.rows && c.content == Some(text) && text != "" && x.outcome == ThreeFacts(text)
    ensures Listed(db, x.order) && !DegradedBy(rt, db, x) && StatusAfter(rt, db, a, x) == ReadyForLos
    ensures forall f | f in FactsAfter(rt, db, a, x) :: f.documentId.None?
  {
    hide FactsAfter, DegradedBy, ThreeFacts;
    ThreeFactsStored(rt, db, a, x, c, text);
    ThreePresent(ThreeStored(a, text));
    hide Missing, PresentIn;
  }
}
