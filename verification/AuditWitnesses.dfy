/** Histories from empty tables that store an audit row with an identifier in it, one for
    each kind of row that can hold one. */
module AuditWitnesses {
  import opened Basics
  import opened Facts
  import opened ObjectStore
  import opened Tables
  import opened Intake
  import opened Nodes
  import opened System
  import opened Histories
  import opened WholeRun
  import opened Rerun
  import opened Scenarios
  import opened AuditRows
  import opened CleanPieces
  import opened Json
  import opened Patterns
  import opened Redaction
  import Prompt
  import Reconcile
  import Words

  // ----- A social security number between non-word characters -----

  const SSN := "123-45-6789"

  lemma {:induction false} SsnShape()
    ensures |SSN| == 11 && Shape(SsnHyphen, SSN) && IsWord(SSN[0]) && IsWord(SSN[10])
  {
  }

  lemma {:induction false} SsnUnclean()
    ensures !Clean(SSN)
  {
    SsnShape();
    hide Shape;
    assert SSN[0..11] == SSN && MatchAt(SsnHyphen, SSN, 0, 11);
    assert !Free(SsnHyphen, SSN);
  }

  // ----- One delivered message with one uploaded text file -----

  ghost predicate Uploads(cfg: Config, message: Message, draw: Draw) {
    && |message.attachments| == 1 && |draw.documents| == 1 && NewDraw({}, draw) && message.text.Some?
    && var att := message.attachments[0];
       && att.fileType == "text/plain" && att.contentBase64.Some?
       && cfg.decode(att.contentBase64.value).Some? && |cfg.decode(att.contentBase64.value).value| <= cfg.maxAttachmentBytes
  }

  function UploadRow(message: Message, draw: Draw): Document
    requires |message.attachments| == 1 && |draw.documents| == 1
  {
    Document(draw.application, "text/plain",
             Some(StoragePath(draw.application, draw.documents[0], UploadName(message.attachments[0]))), None)
  }

  function UploadLocation(rt: Runtime, message: Message, draw: Draw): Location
    requires |message.attachments| == 1 && |draw.documents| == 1
  {
    Target(rt.root, draw.application, draw.documents[0], UploadName(message.attachments[0]))
  }

  function UploadTables(message: Message, draw: Draw): Db
    requires |message.attachments| == 1 && |draw.documents| == 1
  {
    Db(map[draw.application := FirstRow(message, draw)], [PlainRow(message, "1", draw.application, draw)],
       map[draw.documents[0] := UploadRow(message, draw)], [], [])
  }

  lemma {:induction false} UploadStaged(cfg: Config, message: Message, draw: Draw)
    requires Uploads(cfg, message, draw)
    ensures StagedFor(cfg, INIT.db, Arrival(message, "1"), None, draw)
         == Ok(Staging(draw.application, true, FirstRow(message, draw), PlainRow(message, "1", draw.application, draw),
                       [NewDocument(draw.documents[0], UploadRow(message, draw))]))
  {
    hide Strip, Scoped, StoragePath, UploadName, NewDraw, BuildDocument;
    var a, att, d := draw.application, message.attachments[0], draw.documents[0];
    UploadBuilt(cfg, message, draw);
    assert message.attachments[..0] == [] && draw.documents[..0] == [];
    NoDocuments(cfg, a);
    BuildDocumentsStep(cfg, message.attachments, a, draw.documents, 0);
    assert message.attachments[..1] == message.attachments && draw.documents[..1] == draw.documents;
    var built := NewDocument(d, UploadRow(message, draw));
    assert [] + [built] == [built];
  }

  lemma {:induction false} UploadBuilt(cfg: Config, message: Message, draw: Draw)
    requires Uploads(cfg, message, draw)
    ensures BuildDocument(cfg, message.attachments[0], draw.application, draw.documents[0]) == Ok(UploadRow(message, draw))
  {
    hide StoragePath, UploadName, NewDraw;
  }

  lemma {:induction false} UploadDelivered(cfg: Config, rt: Runtime, message: Message, draw: Draw) returns (steps: seq<Step>)
    requires Uploads(cfg, message, draw)
    ensures Runs(cfg, rt, INIT, steps)
    ensures var s := After(cfg, rt, INIT, steps);
            s.db == UploadTables(message, draw) && s.runs == [] && s.pending == multiset{draw.application} && s.drawn == DrawnBy(draw)
  {
    hide Runs, After, NewDraw, Strip, Scoped, DrawnBy, UploadRow, StagedFor, Committed, UploadTables;
    UploadStaged(cfg, message, draw);
    var staging := StagedFor(cfg, INIT.db, Arrival(message, "1"), None, draw).value;
    NothingCommitted(INIT.db, staging);
    assert |"1"| == 1;
    Delivers(cfg, rt, INIT, Arrival(message, "1"), None, draw);
    steps := DeliverySteps(|INIT.requests|, Arrival(message, "1"), None, draw);
    UploadCommitted(message, draw);
  }

  lemma {:induction false} UploadCommitted(message: Message, draw: Draw)
    requires |message.attachments| == 1 && |draw.documents| == 1
    ensures Committed(INIT.db, Staging(draw.application, true, FirstRow(message, draw), PlainRow(message, "1", draw.application, draw),
                                       [NewDocument(draw.documents[0], UploadRow(message, draw))])) == UploadTables(message, draw)
  {
    hide Strip, Scoped, UploadRow, DocumentMap;
    OneDocument(draw.documents[0], UploadRow(message, draw));
  }

  lemma {:induction false} OneDocument(d: Uuid, row: Document)
    ensures map[] + DocumentMap([NewDocument(d, row)]) == map[d := row]
  {
    var documents := [NewDocument(d, row)];
    assert documents[..0] == [];
    assert DocumentMap(documents) == DocumentMap([])[d := row];
  }

  // ----- What a run finds there -----

  function UploadRows(message: Message, draw: Draw): seq<Communication> { [PlainRow(message, "1", draw.application, draw)] }

  lemma {:induction false} UploadFound(rt: Runtime, message: Message, draw: Draw)
    requires |message.attachments| == 1 && |draw.documents| == 1 && message.text.Some?
    ensures var db := UploadTables(message, draw);
            && Listed(db, draw.documents) && DocsOf(db, draw.application) == {draw.documents[0]}
            && Enumerates(draw.documents, DocsOf(db, draw.application))
            && ChatRows(db, draw.application, UploadRows(message, draw))
            && PickedChannel(db, draw.application, message.channel)
  {
    hide Strip, Scoped, StoragePath, Filter;
    var db, a, rows := UploadTables(message, draw), draw.application, UploadRows(message, draw);
    FilterAll((c: Communication) => IsChat(a, c), rows);
    assert (set d | d in draw.documents) == {draw.documents[0]};
    assert rows[0] in db.communications && IsNewestInbound(db, a, rows[0]);
  }

  /** The stored file is what was uploaded, and parses as this text. */
  ghost predicate UploadReads(cfg: Config, rt: Runtime, message: Message, draw: Draw, fileText: string)
    requires Uploads(cfg, message, draw)
  {
    var payload := cfg.decode(message.attachments[0].contentBase64.value).value;
    rt.readFile(UploadLocation(rt, message, draw)) == Some(payload) && rt.parseBytes("text/plain", payload) == Ok(fileText)
  }

  lemma {:induction false} UploadParsed(cfg: Config, rt: Runtime, message: Message, draw: Draw, fileText: string)
    requires Uploads(cfg, message, draw) && UploadReads(cfg, rt, message, draw, fileText)
    ensures ParseDocument(rt, UploadRow(message, draw)) == Ok(fileText)
  {
    StoragePathReadsBack(rt.root, draw.application, draw.documents[0], UploadName(message.attachments[0]));
    hide StoragePath, Target, LocalDocumentPath, UploadName, NewDraw;
  }

  // ----- The first run over the upload -----

  function FailingInput(message: Message, draw: Draw, outcome: Outcome, id: Uuid): RunInput {
    RunInput(draw.documents, UploadRows(message, draw), outcome, [], message.channel, id, 0)
  }

  ghost predicate EndsHolding(cfg: Config, rt: Runtime, steps: seq<Step>, row: Audit) {
    Runs(cfg, rt, INIT, steps) && row in After(cfg, rt, INIT, steps).db.audits
  }

  /** The first run over the upload, its extraction failing. */
  lemma {:induction false} FailingRun(cfg: Config, rt: Runtime, message: Message, draw: Draw, outcome: Outcome, id: Uuid) returns (steps: seq<Step>)
    requires Uploads(cfg, message, draw) && outcome.Failed? && id !in DrawnBy(draw)
    ensures var x := FailingInput(message, draw, outcome, id);
            && Listed(UploadTables(message, draw), x.order) && Runs(cfg, rt, INIT, steps)
            && After(cfg, rt, INIT, steps).db == AfterTrace(rt, UploadTables(message, draw), draw.application, x)
            && SourcesBy(rt, UploadTables(message, draw), x) != []
  {
    hide Runs, After, NewDraw, Strip, Scoped, DrawnBy, AfterTrace, ChatRows, PickedChannel, Enumerates, UploadRow, DocsOf;
    var db, a, x := UploadTables(message, draw), draw.application, FailingInput(message, draw, outcome, id);
    UploadFound(rt, message, draw);
    ChatMakesSources(rt, db, x);
    hide SourcesBy;
    assert Possible(rt, db, a, x);
    var delivered := UploadDelivered(cfg, rt, message, draw);
    var s := After(cfg, rt, INIT, delivered);
    UninterruptedRun(cfg, rt, s, a, x);
    var run := RunSteps(|s.runs|, a, x, DegradedBy(rt, s.db, x));
    RunsAppend(cfg, rt, INIT, delivered, run);
    steps := delivered + run;
  }

  lemma {:induction false} ChatMakesSources(rt: Runtime, db: Db, x: RunInput)
    requires Listed(db, x.order) && x.rows != []
    ensures SourcesBy(rt, db, x) != []
  {
    hide DocumentSources, LoadAll;
    assert |ChatSources(x.rows)| == |x.rows|;
  }

  lemma {:induction false} FailureRow(application: Uuid, loaded: seq<Loaded>)
    requires |loaded| == 1 && loaded[0].text.Err?
    ensures ParseFailures(application, loaded)
         == [Audit(application, "ingest.parse_failed", None, Some(loaded[0].text.error.message), Some(loaded[0].text.error.code))]
  {
    assert loaded[..0] == [];
  }

  lemma {:induction false} TraceKeepsRows(rt: Runtime, db: Db, a: Uuid, x: RunInput, row: Audit)
    requires a in db.applications && Listed(db, x.order) && row in ParseFailures(a, LoadAll(rt, db.documents, x.order))
    ensures row in AfterTrace(rt, db, a, x).audits
  {
    hide ParseFailures, LoadAll, FreshTexts, Assigned, EnteredStatus, FactsFrom, Excerpt, WithoutFactsOf, DegradedExcerpt, Prompt.UserPrompt, SourcesOf;
    var ingested := AfterIngest(rt, db, a, x);
    assert row in ingested.audits;
    if x.outcome.Failed? {
      AuditTrailRows(ingested, a, SeenBy(db, a));
    }
  }

  lemma {:induction false} AuditTrailRows(db: Db, a: Uuid, seen: Status)
    ensures Assigned(db, a, seen, ManualReview).audits == db.audits
  {
  }

  // ----- Degradations -----

  /** A degradation is stored redacted and then cut: the row holds no identifier exactly
      when the cut exposes none. */
  lemma {:induction false} DegradationStored(cfg: Config, rt: Runtime, message: Message, draw: Draw, outcome: Outcome, id: Uuid)
    returns (steps: seq<Step>, row: Audit)
    requires Uploads(cfg, message, draw) && outcome.Failed? && id !in DrawnBy(draw)
    ensures EndsHolding(cfg, rt, steps, row) && row.action == "extract.degraded"
    ensures RowClean(row) <==> !CutExposes(Redact(outcome.errorClass + ": " + outcome.detail).text)
  {
    hide Runs, After, NewDraw, DrawnBy, Clean, Redact, CutExposes, DegradedExcerpt;
    steps := FailingRun(cfg, rt, message, draw, outcome, id);
    var raw := outcome.errorClass + ": " + outcome.detail;
    row := Audit(draw.application, "extract.degraded", None, Some(DegradedExcerpt(raw)), Some(outcome.code));
    DegradedExcerptClean(raw);
    TraceAddsRow(rt, UploadTables(message, draw), draw.application, FailingInput(message, draw, outcome, id));
  }

  lemma {:induction false} TraceAddsRow(rt: Runtime, db: Db, a: Uuid, x: RunInput)
    requires a in db.applications && Listed(db, x.order) && x.outcome.Failed? && SourcesBy(rt, db, x) != []
    ensures Audit(a, "extract.degraded", None, Some(DegradedExcerpt(x.outcome.errorClass + ": " + x.outcome.detail)), Some(x.outcome.code))
            in AfterTrace(rt, db, a, x).audits
  {
    hide AfterIngest, Assigned, DegradedExcerpt, SourcesBy;
  }

  /** What precedes the number: digit-free text up to eleven characters before the cut. */
  ghost predicate Pads(pad: string) {
    |pad| == EXCERPT - 11 && pad[|pad| - 1] == ' ' && forall c | c in pad :: !IsDigit(c)
  }

  const LONG_NUMBER := "123-45-67890"

  lemma {:induction false} PaddedNumber(pad: string)
    requires Pads(pad)
    ensures var s, n := pad + LONG_NUMBER, |pad|;
            && |s| == n + 12 && s[n - 1] == ' ' && (forall i | 0 <= i < n :: !IsDigit(s[i]))
            && s[n..n + 11] == SSN && s[n + 10] == '9' && s[n + 11] == '0' && IsDigit(s[n]) && IsDigit(s[n + 1]) && |SSN| == 11
            && forall i | n <= i < n + 12 :: !IsUpper(s[i])
  {
    assert LONG_NUMBER[..11] == SSN;
    assert forall c | c in LONG_NUMBER :: !IsUpper(c);
  }

  lemma {:induction false} PaddedClean(pad: string)
    requires Pads(pad)
    ensures Clean(pad + LONG_NUMBER)
  {
    PaddedNumber(pad);
    var s := pad + LONG_NUMBER;
    hide LONG_NUMBER, Pads, Shape;
    forall p: Pattern, i: nat, j: nat ensures !MatchAt(p, s, i, j) {
      if MatchAt(p, s, i, j) { NoPaddedMatch(p, s, |pad|, i, j); }
    }
  }

  /** No match: the number is too long for one pattern and too short for the others. */
  lemma {:induction false} NoPaddedMatch(p: Pattern, s: string, n: nat, i: nat, j: nat)
    requires |s| == n + 12 && n > 0 && s[n - 1] == ' ' && (forall k | 0 <= k < n :: !IsDigit(s[k]))
    requires s[n + 10] == '9' && s[n + 11] == '0' && IsDigit(s[n]) && IsDigit(s[n + 1]) && forall k | n <= k < n + 12 :: !IsUpper(s[k])
    ensures !MatchAt(p, s, i, j)
  {
    if i <= j <= |s| && Shape(p, s[i..j]) {
      var w := s[i..j];
      match p
      case SsnHyphen => SsnPlace(w, Hyphen);
      case SsnSpace => SsnPlace(w, Space);
      case Account => AccountPlace(w);
      case Iban => IbanPlace(w);
    }
  }

  lemma {:induction false} SsnPlace(w: string, sep: Class)
    requires Matches(w, SsnClasses(sep))
    ensures |w| == 11 && IsDigit(w[0])
  {
    assert InClass(w[0], SsnClasses(sep)[0]);
  }

  lemma {:induction false} AccountPlace(w: string)
    requires Shape(Account, w)
    ensures |w| >= 13 && IsDigit(w[0])
  {
    DigitsFit(w);
  }

  lemma {:induction false} DigitsFit(w: string)
    ensures DigitCount(w) <= |w|
  {
    if w != "" { DigitsFit(w[1..]); }
  }

  lemma {:induction false} IbanPlace(w: string)
    requires Shape(Iban, w)
    ensures |w| >= 15 && IsUpper(w[1]) && IsDigit(w[2])
  {
    var head := w[..4];
    assert InClass(head[1], [Upper, Upper, Digit, Digit][1]) && InClass(head[2], [Upper, Upper, Digit, Digit][2]);
  }

  /** A text that is clean as it stands and holds an identifier once it is cut. */
  lemma {:induction false} CutCanExpose(pad: string)
    requires Pads(pad)
    ensures CutExposes(Redact(pad + LONG_NUMBER).text)
  {
    PaddedNumber(pad);
    PaddedClean(pad);
    var s := pad + LONG_NUMBER;
    RedactCount(s);
    SsnShape();
    hide Redact, LONG_NUMBER, Shape, Clean;
    assert s[|pad|..EXCERPT] == SSN;
    assert Boundary(s, |pad|);
  }

  /** A provider error long enough that the cut to 8000 characters ends inside its number. */
  function LongDetail(): string { ERROR_TEXT + Spaces(7951) + LONG_NUMBER }

  const ERROR_CLASS := "LLMProviderError"
  const ERROR_TEXT := "LLM provider error: "

  function Spaces(n: nat): string { seq(n, _ => ' ') }

  lemma {:induction false} ErrorTextsDigitless()
    ensures |ERROR_CLASS| == 16 && |ERROR_TEXT| == 20
    ensures (forall c | c in ERROR_CLASS :: !IsDigit(c)) && forall c | c in ERROR_TEXT :: !IsDigit(c)
  {
  }

  lemma {:induction false} LongDetailPads()
    ensures exists pad :: Pads(pad) && ERROR_CLASS + ": " + LongDetail() == pad + LONG_NUMBER
  {
    ErrorTextsDigitless();
    hide LONG_NUMBER, ERROR_CLASS, ERROR_TEXT, Pads;
    var spaces := Spaces(7951);
    PadsWith(ERROR_CLASS, ERROR_TEXT, spaces);
    hide Spaces;
    var pad := ERROR_CLASS + ": " + ERROR_TEXT + spaces;
    assert ERROR_CLASS + ": " + (ERROR_TEXT + spaces + LONG_NUMBER) == pad + LONG_NUMBER;
  }

  lemma {:induction false} PadsWith(a: string, b: string, spaces: string)
    requires |a| == 16 && |b| == 20 && |spaces| == 7951
    requires forall c | c in a || c in b :: !IsDigit(c)
    requires forall c | c in spaces :: c == ' '
    ensures Pads(a + ": " + b + spaces)
  {
    var pad := a + ": " + b + spaces;
    assert spaces[7950] in spaces && pad[|pad| - 1] == spaces[7950];
    forall c | c in pad ensures !IsDigit(c) {
      assert c in a || c == ':' || c == ' ' || c in b || c in spaces;
    }
  }

  /** From empty tables: a degraded row with a social security number in it. */
  lemma {:induction false} DegradationExposes(cfg: Config, rt: Runtime, message: Message, draw: Draw, id: Uuid)
    returns (steps: seq<Step>, row: Audit)
    requires Uploads(cfg, message, draw) && id !in DrawnBy(draw)
    ensures EndsHolding(cfg, rt, steps, row) && row.action == "extract.degraded" && !RowClean(row)
  {
    hide Runs, After, NewDraw, DrawnBy, Clean, Redact, CutExposes, LONG_NUMBER, LongDetail, Pads, EndsHolding, RowClean, ERROR_CLASS;
    LongDetailPads();
    var pad :| Pads(pad) && ERROR_CLASS + ": " + LongDetail() == pad + LONG_NUMBER;
    CutCanExpose(pad);
    steps, row := DegradationStored(cfg, rt, message, draw, Failed(ERROR_CLASS, "llm_provider_error", LongDetail()), id);
  }

  // ----- Anomalies -----

  function Claimed(text: string): Entity { Entity("government_id", Text(SSN), 1.0, Some(text), None) }

  function Documented(d: Uuid, text: string): Entity { Entity("government_id", Text("X"), 1.0, Some(text), Some(d)) }

  function ClaimedFact(a: Uuid, text: string): Fact { Fact(a, "government_id", Text(SSN), 1.0, None, text) }

  function DocumentedFact(a: Uuid, d: Uuid, text: string): Fact { Fact(a, "government_id", Text("X"), 1.0, Some(d), text) }

  function TwoEntities(message: Message, draw: Draw, fileText: string): Outcome
    requires |draw.documents| == 1 && message.text.Some?
  {
    Extracted([Claimed(message.text.value), Documented(draw.documents[0], fileText)], "")
  }

  function ConflictInput(message: Message, draw: Draw, fileText: string, anomalies: seq<Reconcile.Anomaly>, id: Uuid): RunInput
    requires |draw.documents| == 1 && message.text.Some?
  {
    RunInput(draw.documents, UploadRows(message, draw), TwoEntities(message, draw, fileText), anomalies, message.channel, id, 0)
  }

  lemma {:induction false} WholeTextQuoted(text: string)
    requires text != ""
    ensures Words.Contains(text, text)
  {
    assert "" + text + "" == text;
    Words.VerbatimQuoteAccepted("", text, "");
  }

  lemma {:induction false} BothTraced(cfg: Config, rt: Runtime, message: Message, draw: Draw, fileText: string, x: RunInput)
    requires Uploads(cfg, message, draw) && message.text.value != "" && fileText != "" && UploadReads(cfg, rt, message, draw, fileText)
    requires x.order == draw.documents && x.rows == UploadRows(message, draw)
    ensures Listed(UploadTables(message, draw), x.order)
    ensures var sources := SourcesBy(rt, UploadTables(message, draw), x);
            && Traced(Claimed(message.text.value), sources) && Traced(Documented(draw.documents[0], fileText), sources)
  {
    hide UploadReads, UploadLocation, StoragePath, Strip, Scoped, ParseDocument, NewDraw;
    var db, d := UploadTables(message, draw), draw.documents[0];
    assert |d| == 36 && db.documents[d] == UploadRow(message, draw) && !HasText(db.documents[d]);
    UploadParsed(cfg, rt, message, draw, fileText);
    DocumentTextIsListed(rt, db.documents, x.order, d);
    ChatNamesNoDocument(DocumentSources(LoadAll(rt, db.documents, x.order)), x.rows, d);
    assert ListedText(rt, db.documents, x.order, d) == Some(fileText);
    WholeTextQuoted(fileText);
    WholeTextQuoted(message.text.value);
    hide Words.Contains, DocumentSources, LoadAll, DocumentText;
    var row := UploadRows(message, draw)[0];
    assert ChatSources(x.rows)[0] == ChatSource(row);
    assert ChatSources(x.rows)[0] in SourcesBy(rt, db, x);
    assert QuotedInChat(ChatSource(row), message.text.value);
  }

  lemma {:induction false} LastMatters(s: string, suffix: string)
    requires suffix != ""
    ensures EndsWith(s, suffix) ==> s != "" && s[|s| - 1] == suffix[|suffix| - 1]
  {
    if EndsWith(s, suffix) { assert s[|s| - |suffix|..][|suffix| - 1] == s[|s| - 1]; }
  }

  lemma {:induction false} KeptAsText(py: Python, s: string)
    ensures CoerceValue(py, "government_id", Text(s)) == Text(s)
  {
    var key := "government_id";
    assert key[|key| - 1] == 'd' && "_income"[6] == 'e' && "_amount"[6] == 't' && "_balance"[7] == 'e';
    LastMatters(key, "_income");
    LastMatters(key, "_amount");
    LastMatters(key, "_balance");
  }

  lemma {:induction false} BothStored(cfg: Config, rt: Runtime, message: Message, draw: Draw, fileText: string, x: RunInput)
    requires Uploads(cfg, message, draw) && message.text.value != "" && fileText != "" && UploadReads(cfg, rt, message, draw, fileText)
    requires x.order == draw.documents && x.rows == UploadRows(message, draw) && x.outcome == TwoEntities(message, draw, fileText)
    ensures var db, a := UploadTables(message, draw), draw.application;
            && Listed(db, x.order) && SourcesBy(rt, db, x) != []
            && FactsAfter(rt, db, a, x) == [ClaimedFact(a, message.text.value), DocumentedFact(a, draw.documents[0], fileText)]
  {
    hide Traced, SourcesBy, FactsFrom, FactsOf, UploadReads, UploadTables, CoerceValue, NewDraw;
    BothTraced(cfg, rt, message, draw, fileText, x);
    ChatMakesSources(rt, UploadTables(message, draw), x);
    var sources := SourcesBy(rt, UploadTables(message, draw), x);
    AllTracedFacts(rt.python, draw.application, x.outcome.entities, sources);
    KeptAsText(rt.python, SSN);
    KeptAsText(rt.python, "X");
    assert |draw.documents[0]| == 36;
  }

  lemma {:induction false} TheyConflict(py: Python, a: Uuid, d: Uuid, text: string, fileText: string)
    requires py.parseFloat(NumberText(SSN)) == None
    ensures Reconcile.Conflict(py, ClaimedFact(a, text), DocumentedFact(a, d, fileText))
    ensures var report := Reconcile.Report(py, ClaimedFact(a, text), DocumentedFact(a, d, fileText));
            report == Reconcile.Anomaly("government_id", Text(SSN), Text("X"), d, None)
  {
    hide NumberText;
    assert |"government_id"| == 13 && |"monthly_income"| == 14 && "government_id"[0] == 'g' && "annual_income"[0] == 'a';
    assert "government_id" !in NUMERIC_KEYS;
    StripsNothing(SSN);
    StripsNothing("X");
    assert |Lower(SSN)| == 11 && |Lower("X")| == 1;
  }

  lemma {:induction false} StripsNothing(s: string)
    requires s != "" && !IsSpace(s[0]) && !IsSpace(s[|s| - 1])
    ensures Strip(s) == s
  {
  }

  lemma {:induction false} InConflictsWith(py: Python, s: Fact, facts: seq<Fact>, i: nat)
    requires i < |facts| && facts[i].documentId.Some? && Reconcile.Conflict(py, s, facts[i])
    ensures Reconcile.Report(py, s, facts[i]) in Reconcile.ConflictsWith(py, s, facts)
  {
    hide Reconcile.Conflict, Reconcile.Report;
    if i < |facts| - 1 { InConflictsWith(py, s, facts[..|facts| - 1], i); }
  }

  lemma {:induction false} InAllConflicts(py: Python, facts: seq<Fact>)
    requires |facts| == 2 && facts[1].documentId.Some? && Reconcile.Conflict(py, facts[0], facts[1])
    ensures Reconcile.Report(py, facts[0], facts[1]) in Reconcile.AllConflicts(py, facts)
  {
    InConflictsWith(py, facts[0], facts, 1);
    hide Reconcile.Conflict, Reconcile.Report, Reconcile.ConflictsWith;
    var first := facts[..1];
    assert facts[0] in facts && first[..0] == [];
    assert Reconcile.Conflicts(py, Reconcile.KeysOf(facts), first, facts) == Reconcile.ConflictsWith(py, facts[0], facts) by {
      assert Reconcile.Conflicts(py, Reconcile.KeysOf(facts), first[..0], facts) == multiset{};
    }
  }

  lemma {:induction false} ListsMultiset<T>(m: multiset<T>) returns (s: seq<T>)
    ensures multiset(s) == m
    decreases |m|
  {
    if m == multiset{} {
      s := [];
    } else {
      var x :| x in m;
      var rest := ListsMultiset(m - multiset{x});
      s := rest + [x];
    }
  }

  lemma {:induction false} ReconcileAddsRow(rt: Runtime, db: Db, a: Uuid, x: RunInput, anomaly: Reconcile.Anomaly)
    requires a in db.applications && Listed(db, x.order) && anomaly in x.anomalies && !DegradedBy(rt, db, x)
    ensures Audit(a, "reconcile.anomaly", None, Some(AnomalyText(rt.python, anomaly)), None) in Ran(rt, db, a, x).audits
  {
    hide AfterTrace, DegradedBy, Decide, SeenBy;
    var row := Audit(a, "reconcile.anomaly", None, Some(AnomalyText(rt.python, anomaly)), None);
    var i :| 0 <= i < |x.anomalies| && x.anomalies[i] == anomaly;
    assert AnomalyAudits(rt, a, x.anomalies)[i] == row;
    var d := AfterReconcile(rt, db, a, x);
    assert row in d.audits;
    var decision := Decide(d, a, x.channel);
    AuditsAssigned(d, a, SeenBy(db, a), FinalStatus(decision.missing));
    hide Assigned, FinalStatus, AfterReconcile;
  }

  lemma {:induction false} AuditsAssigned(db: Db, a: Uuid, seen: Status, status: Status)
    ensures Assigned(db, a, seen, status).audits == db.audits
  {
  }

  /** From empty tables: a chat message claims a number, the uploaded file says otherwise,
      and the anomaly row shows the number. */
  lemma {:induction false} AnomalyExposes(cfg: Config, rt: Runtime, message: Message, draw: Draw, fileText: string, id: Uuid)
    returns (steps: seq<Step>, row: Audit)
    requires Uploads(cfg, message, draw) && message.text.value != "" && fileText != "" && id !in DrawnBy(draw)
    requires UploadReads(cfg, rt, message, draw, fileText) && rt.python.parseFloat(NumberText(SSN)) == None
    ensures EndsHolding(cfg, rt, steps, row) && row.action == "reconcile.anomaly" && !RowClean(row)
  {
    hide Runs, After, NewDraw, DrawnBy, Clean, UploadReads, Strip, Scoped, UploadRow, Ran, Possible, AfterTrace, FactsAfter, FactsOf,
         SourcesBy, ChatRows, PickedChannel, Enumerates, DocsOf, NumberText, SSN, Reconcile.AllConflicts, TwoEntities, AnomalyText;
    var db, a := UploadTables(message, draw), draw.application;
    var x, anomaly := ConflictFound(cfg, rt, message, draw, fileText, id);
    var delivered := UploadDelivered(cfg, rt, message, draw);
    var s := After(cfg, rt, INIT, delivered);
    UninterruptedRun(cfg, rt, s, a, x);
    var run := RunSteps(|s.runs|, a, x, DegradedBy(rt, s.db, x));
    RunsAppend(cfg, rt, INIT, delivered, run);
    steps := delivered + run;
    row := Audit(a, "reconcile.anomaly", None, Some(AnomalyText(rt.python, anomaly)), None);
    ReconcileAddsRow(rt, db, a, x, anomaly);
    NumberShown(rt.python, draw.documents[0]);
  }

  lemma {:induction false} NumberShown(py: Python, d: Uuid)
    ensures !Clean(AnomalyText(py, Reconcile.Anomaly("government_id", Text(SSN), Text("X"), d, None)))
  {
    hide Clean, AnomalyText, Escaped;
    AnomalyTextClean(py, Reconcile.Anomaly("government_id", Text(SSN), Text("X"), d, None));
    PlainStays(SSN);
    SsnUnclean();
  }

  lemma {:induction false} ConflictFound(cfg: Config, rt: Runtime, message: Message, draw: Draw, fileText: string, id: Uuid)
    returns (x: RunInput, anomaly: Reconcile.Anomaly)
    requires Uploads(cfg, message, draw) && message.text.value != "" && fileText != ""
    requires UploadReads(cfg, rt, message, draw, fileText) && rt.python.parseFloat(NumberText(SSN)) == None
    ensures anomaly == Reconcile.Anomaly("government_id", Text(SSN), Text("X"), draw.documents[0], None)
    ensures var db, a := UploadTables(message, draw), draw.application;
            x.id == id && anomaly in x.anomalies && Listed(db, x.order) && Possible(rt, db, a, x) && !DegradedBy(rt, db, x)
  {
    hide NewDraw, UploadReads, Strip, Scoped, UploadRow, AfterTrace, FactsAfter, FactsOf, SourcesBy, ChatRows, PickedChannel, Enumerates,
         DocsOf, NumberText, SSN, Reconcile.AllConflicts, Reconcile.Conflict, Reconcile.Report;
    var db, a, d := UploadTables(message, draw), draw.application, draw.documents[0];
    UploadFound(rt, message, draw);
    var x0 := ConflictInput(message, draw, fileText, [], id);
    BothStored(cfg, rt, message, draw, fileText, x0);
    TraceLeaves(rt, db, a, x0);
    var facts := FactsOf(AfterTrace(rt, db, a, x0), a);
    TheyConflict(rt.python, a, d, message.text.value, fileText);
    assert facts == [ClaimedFact(a, message.text.value), DocumentedFact(a, d, fileText)];
    InAllConflicts(rt.python, facts);
    var anomalies := ListsMultiset(Reconcile.AllConflicts(rt.python, facts));
    x := x0.(anomalies := anomalies);
    InputUnused(rt, db, a, x0, x);
    anomaly := Reconcile.Report(rt.python, facts[0], facts[1]);
    assert anomaly in multiset(anomalies);
  }
}
