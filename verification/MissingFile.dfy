/** A linked document whose file is missing: the borrower learns the application from the
    first answer, links a path below it, and the row that reports the missing file holds
    what the path says. */
module MissingFile {
  import opened Basics
  import opened ObjectStore
  import opened Tables
  import opened Intake
  import opened Nodes
  import opened System
  import opened Histories
  import opened WholeRun
  import opened Scenarios
  import opened AuditRows
  import opened AuditWitnesses
  import opened CleanPieces
  import Redaction

  // ----- The link -----

  function LinkTo(a: Uuid): string { S3_PREFIX + a + "/" + SSN }

  function Linked(message: Message, a: Uuid): Message {
    message.(attachments := [Attachment("text/plain", None, None, Some(LinkTo(a)))])
  }

  function LinkRow(a: Uuid): Document { Document(a, "text/plain", Some(LinkTo(a)), None) }

  lemma {:induction false} NeverIn(piece: string, s: string)
    requires piece != "" && piece[0] !in s
    ensures !Substring(piece, s)
  {
    forall i | 0 <= i <= |s| - |piece| ensures !OccursAt(piece, s, i) {
      assert s[i..i + |piece|][0] == s[i];
    }
  }

  lemma {:induction false} LinkChars(a: Uuid)
    ensures '.' !in LinkTo(a) && '%' !in Lower(LinkTo(a))
  {
    assert forall c | c in S3_PREFIX || c in "/" || c in SSN :: c != '.' && LowerChar(c) != '%';
    var link := LinkTo(a);
    forall c | c in link ensures c != '.' && LowerChar(c) != '%' {
      assert c in S3_PREFIX || c in a || c in "/" || c in SSN;
    }
    forall c | c in Lower(link) ensures c != '%' {
      var i :| 0 <= i < |link| && Lower(link)[i] == c;
      assert link[i] in link;
    }
  }

  lemma {:induction false} LinkAccepted(cfg: Config, message: Message, a: Uuid, d: Uuid)
    ensures BuildDocument(cfg, Linked(message, a).attachments[0], a, d) == Ok(LinkRow(a))
  {
    LinkChars(a);
    hide LinkTo;
    NeverIn("..", LinkTo(a));
    NeverIn("%2e", Lower(LinkTo(a)));
    hide Substring, Lower;
  }

  lemma {:induction false} SsnIsName()
    ensures '/' !in SSN && IsName(SSN)
  {
  }

  /** The link leads to a file named by the number, in the application's own directory. */
  lemma {:induction false} LinkLeads(root: Location, a: Uuid)
    ensures LocalDocumentPath(root, a, Some(LinkTo(a))) == Some(root + [a, SSN])
  {
    hide LocalDocumentPath, Split, IsName, SSN;
    SsnIsName();
    OwnPath(root, a, SSN);
    SplitSingle(SSN);
    WalkName(root + [a], SSN, []);
    assert [SSN] + [] == [SSN] && root + [a] + [SSN] == root + [a, SSN];
  }

  lemma {:induction false} LinkFails(rt: Runtime, a: Uuid)
    requires rt.readFile(rt.root + [a, SSN]) == None
    ensures ParseDocument(rt, LinkRow(a)) == Err(ParseFailure("malformed_pdf", MISSING_FILE + PathText(rt.root + [a, SSN])))
  {
    LinkLeads(rt.root, a);
    hide LocalDocumentPath, LinkTo, PathText, SSN, MISSING_FILE;
  }

  // ----- The two messages -----

  ghost predicate TwoDeliveries(d1: Draw, d2: Draw) {
    d1.documents == [] && |d2.documents| == 1 && NewDraw({}, d1) && NewDraw(DrawnBy(d1), d2)
  }

  function LinkedTables(message: Message, d1: Draw, d2: Draw): Db
    requires |d2.documents| == 1
  {
    TwoTables(message, d1, d2).(documents := map[d2.documents[0] := LinkRow(d1.application)])
  }

  lemma {:induction false} LinkStaged(cfg: Config, db: Db, message: Message, a: Uuid, draw: Draw)
    requires |draw.documents| == 1 && a in db.applications
    ensures StagedFor(cfg, db, Arrival(Linked(message, a), "2"), Some(a), draw)
         == Ok(Staging(a, false, db.applications[a], PlainRow(message, "2", a, draw), [NewDocument(draw.documents[0], LinkRow(a))]))
  {
    hide Strip, Scoped, BuildDocument, LinkTo;
    LinkAccepted(cfg, message, a, draw.documents[0]);
    var attachments, d := Linked(message, a).attachments, draw.documents[0];
    assert attachments[..0] == [] && draw.documents[..0] == [];
    NoDocuments(cfg, a);
    BuildDocumentsStep(cfg, attachments, a, draw.documents, 0);
    assert attachments[..1] == attachments && draw.documents[..1] == draw.documents;
    var built := NewDocument(d, LinkRow(a));
    assert [] + [built] == [built];
  }

  lemma {:induction false} LinkDelivered(cfg: Config, rt: Runtime, message: Message, d1: Draw, d2: Draw) returns (steps: seq<Step>)
    requires message.attachments == [] && TwoDeliveries(d1, d2)
    ensures Runs(cfg, rt, INIT, steps)
    ensures var s := After(cfg, rt, INIT, steps);
            && s.db == LinkedTables(message, d1, d2) && s.runs == []
            && d1.application in s.pending && s.drawn == DrawnBy(d1) + DrawnBy(d2)
  {
    hide Runs, After, NewDraw, Strip, DrawnBy, Scoped, NewestOpen, StagedFor, LinkRow, Committed, KeyCommitted;
    var a := d1.application;
    assert |"1"| == 1 && |"2"| == 1 && "1"[0] != "2"[0];
    DeliversFirst(cfg, rt, INIT, message, "1", d1);
    var first := DeliverySteps(|INIT.requests|, Arrival(message, "1"), None, d1);
    var s := After(cfg, rt, INIT, first);
    assert s.drawn == DrawnBy(d1) && s.db.communications == [PlainRow(message, "1", a, d1)];
    assert s.db == FirstTables(message, d1);
    SecondDeliverable(cfg, s, message, d1, d2);
    LinkStaged(cfg, s.db, message, a, d2);
    var staging := StagedFor(cfg, s.db, Arrival(Linked(message, a), "2"), Some(a), d2).value;
    Delivers(cfg, rt, s, Arrival(Linked(message, a), "2"), Some(a), d2);
    var second := DeliverySteps(|s.requests|, Arrival(Linked(message, a), "2"), Some(a), d2);
    RunsAppend(cfg, rt, INIT, first, second);
    steps := first + second;
    LinkCommitted(message, d1, d2);
  }

  function FirstTables(message: Message, d1: Draw): Db {
    Db(map[d1.application := FirstRow(message, d1)], [PlainRow(message, "1", d1.application, d1)], map[], [], [])
  }

  lemma {:induction false} SecondDeliverable(cfg: Config, s: State, message: Message, d1: Draw, d2: Draw)
    requires s.db == FirstTables(message, d1) && s.drawn == DrawnBy(d1) && TwoDeliveries(d1, d2)
    ensures Deliverable(cfg, s, Arrival(Linked(message, d1.application), "2"), Some(d1.application), d2)
  {
    hide NewDraw, Strip, DrawnBy, Scoped, NewestOpen, StagedFor, LinkRow, LinkTo;
    var a := d1.application;
    OneApplication(s.db, message, d1);
    LinkStaged(cfg, s.db, message, a, d2);
    assert |"1"| == 1 && |"2"| == 1 && "1"[0] != "2"[0];
    KeysDiffer(message.userId, "1", "2");
    NothingCommitted(s.db, StagedFor(cfg, s.db, Arrival(Linked(message, a), "2"), Some(a), d2).value);
    hide KeyCommitted;
  }

  lemma {:induction false} LinkCommitted(message: Message, d1: Draw, d2: Draw)
    requires |d2.documents| == 1
    ensures var a := d1.application;
            Committed(FirstTables(message, d1), Staging(a, false, FirstRow(message, d1), PlainRow(message, "2", a, d2),
                                                        [NewDocument(d2.documents[0], LinkRow(a))]))
            == LinkedTables(message, d1, d2)
  {
    hide Strip, Scoped, LinkRow, DocumentMap;
    OneDocument(d2.documents[0], LinkRow(d1.application));
    assert [PlainRow(message, "1", d1.application, d1)] + [PlainRow(message, "2", d1.application, d2)] == TwoRows(message, d1, d2);
  }

  // ----- The run that finds the file missing -----

  function LinkInput(message: Message, d1: Draw, d2: Draw, outcome: Outcome, id: Uuid): RunInput {
    RunInput(d2.documents, TwoRows(message, d1, d2), outcome, [], message.channel, id, 0)
  }

  lemma {:induction false} LinkRunPossible(rt: Runtime, message: Message, d1: Draw, d2: Draw, outcome: Outcome, id: Uuid)
    requires |d2.documents| == 1 && message.text.Some? && (message.sentAt.Some? || d1.now <= d2.now) && outcome.Failed?
    ensures var x := LinkInput(message, d1, d2, outcome, id);
            var db := LinkedTables(message, d1, d2);
            && d1.application in db.applications && Listed(db, x.order)
            && Possible(rt, db, d1.application, x) && DegradedBy(rt, db, x)
  {
    hide Strip, Scoped, LinkRow, SourcesBy, Filter;
    var db, a, x := LinkedTables(message, d1, d2), d1.application, LinkInput(message, d1, d2, outcome, id);
    TwoRowsAreChat(message, d1, d2);
    ChatMakesSources(rt, db, x);
    assert LinkRow(a).application == a by { LinkOwner(a); }
    assert (set d | d in x.order) == {d2.documents[0]} == DocsOf(db, a);
  }

  lemma {:induction false} LinkOwner(a: Uuid)
    ensures LinkRow(a).application == a && !HasText(LinkRow(a))
  {
  }

  lemma {:induction false} LinkLoaded(rt: Runtime, message: Message, d1: Draw, d2: Draw)
    requires |d2.documents| == 1
    ensures Listed(LinkedTables(message, d1, d2), d2.documents)
    ensures LoadAll(rt, LinkedTables(message, d1, d2).documents, d2.documents)
         == [Loaded(d2.documents[0], ParseDocument(rt, LinkRow(d1.application)), true)]
  {
    hide ParseDocument, Strip, Scoped, LinkRow;
    LinkOwner(d1.application);
    var documents, d := LinkedTables(message, d1, d2).documents, d2.documents[0];
    assert documents[d] == LinkRow(d1.application) && d2.documents == [d];
    assert LoadOne(rt, d, documents[d]) == Loaded(d, ParseDocument(rt, LinkRow(d1.application)), true);
    hide LoadOne, LinkedTables;
  }

  lemma {:induction false} ReportUnclean(root: Location, a: Uuid)
    ensures !Redaction.Clean(MISSING_FILE + PathText(root + [a, SSN]))
  {
    hide Redaction.Clean, MISSING_FILE, PathText, SSN;
    SsnUnclean();
    MissingFileClean(root + [a, SSN]);
    assert (root + [a, SSN])[|root| + 1] == SSN;
  }

  /** From empty tables: the row of a missing file holds the social security number its
      link was named by. */
  lemma {:induction false} MissingFileExposes(cfg: Config, rt: Runtime, message: Message, d1: Draw, d2: Draw, outcome: Outcome, id: Uuid)
    returns (steps: seq<Step>, row: Audit)
    requires message.attachments == [] && message.text.Some? && (message.sentAt.Some? || d1.now <= d2.now)
    requires TwoDeliveries(d1, d2) && outcome.Failed? && id !in DrawnBy(d1) + DrawnBy(d2)
    requires rt.readFile(rt.root + [d1.application, SSN]) == None
    ensures EndsHolding(cfg, rt, steps, row) && row.action == "ingest.parse_failed" && !RowClean(row)
  {
    hide Runs, After, NewDraw, DrawnBy, Redaction.Clean, SSN, LinkRow, LinkedTables, MISSING_FILE, PathText, Possible, AfterTrace, DegradedBy,
         ParseDocument, Ran;
    var db, a, x := LinkedTables(message, d1, d2), d1.application, LinkInput(message, d1, d2, outcome, id);
    LinkRunPossible(rt, message, d1, d2, outcome, id);
    var delivered := LinkDelivered(cfg, rt, message, d1, d2);
    var s := After(cfg, rt, INIT, delivered);
    UninterruptedRun(cfg, rt, s, a, x);
    var run := RunSteps(|s.runs|, a, x, DegradedBy(rt, s.db, x));
    RunsAppend(cfg, rt, INIT, delivered, run);
    steps := delivered + run;
    LinkFails(rt, a);
    LinkLoaded(rt, message, d1, d2);
    var loaded := LoadAll(rt, db.documents, x.order);
    row := Audit(a, "ingest.parse_failed", None, Some(MISSING_FILE + PathText(rt.root + [a, SSN])), Some("malformed_pdf"));
    FailureRow(a, loaded);
    DegradedRunKeeps(rt, db, a, x, row);
    ReportUnclean(rt.root, a);
  }

  lemma {:induction false} DegradedRunKeeps(rt: Runtime, db: Db, a: Uuid, x: RunInput, row: Audit)
    requires a in db.applications && Listed(db, x.order) && DegradedBy(rt, db, x)
    requires row in ParseFailures(a, LoadAll(rt, db.documents, x.order))
    ensures row in Ran(rt, db, a, x).audits
  {
    TraceKeepsRows(rt, db, a, x, row);
    hide AfterTrace, DegradedBy;
  }
}
