/** What each node of the pipeline does to the tables: ingest_route.py, extract_trace.py,
    reconcile.py, chase.py and the entry step of pipeline.py, one commit at a time. */
module Nodes {
  import opened Basics
  import opened Facts
  import opened Json
  import opened ObjectStore
  import opened Prompt
  import opened Reconcile
  import opened Tables
  import Casing
  import Redaction
  import Words

  datatype ParseFailure = ParseFailure(code: string, message: string)

  /** The stored files and foreign code: what is at a location, parsers by file type, number texts. */
  datatype Runtime = Runtime(root: Location, readFile: Location -> Option<Bytes>,
                             parseBytes: (string, Bytes) -> Result<string, ParseFailure>, python: Python)

  // ----- Entering a run -----

  /** The application row is read once and `seen` is the status it then had. A later
      assignment is written only where it differs from what the session has seen. */
  function Assigned(db: Db, application: Uuid, seen: Status, status: Status): Db {
    if status == seen || application !in db.applications then db
    else db.(applications := db.applications[application := db.applications[application].(status := status)])
  }

  function EnteredStatus(status: Status): Status { if status == PendingDocs then Processing else status }

  function Entered(db: Db, application: Uuid): Db
    requires application in db.applications
  {
    var status := db.applications[application].status;
    Assigned(db, application, status, EnteredStatus(status))
  }

  // ----- ingest_route -----

  const UNTRUSTED_PATH :=
    "Document is remotely hosted " + "or its storage path is " + "untrusted; fetch " + "not supported in " + "MVP."

  const MISSING_FILE := "Stored file missing " + "on disk" + ": "

  /** The stored file is read first; only then does its type decide how to parse it. */
  function ParseDocument(rt: Runtime, document: Document): Result<string, ParseFailure> {
    match LocalDocumentPath(rt.root, document.application, document.s3Path)
    case None => Err(ParseFailure("malformed_pdf", UNTRUSTED_PATH))
    case Some(location) =>
      match rt.readFile(location)
      case None => Err(ParseFailure("malformed_pdf", MISSING_FILE + PathText(location)))
      case Some(payload) =>
        if document.fileType in {"application/pdf", "text/plain", "image/jpeg", "image/png"}
        then rt.parseBytes(document.fileType, payload)
        else Err(ParseFailure("malformed_pdf", "Unsupported file_type '" + document.fileType + "'."))
  }

  datatype Loaded = Loaded(id: Uuid, text: Result<string, ParseFailure>, isNew: bool)

  predicate HasText(document: Document) { document.rawText.Some? && document.rawText.value != "" }

  function LoadOne(rt: Runtime, id: Uuid, document: Document): Loaded {
    if HasText(document) then Loaded(id, Ok(document.rawText.value), false)
    else Loaded(id, ParseDocument(rt, document), true)
  }

  function LoadAll(rt: Runtime, documents: map<Uuid, Document>, order: seq<Uuid>): seq<Loaded>
    requires forall d | d in order :: d in documents
  {
    seq(|order|, i requires 0 <= i < |order| => LoadOne(rt, order[i], documents[order[i]]))
  }

  function FreshTexts(loaded: seq<Loaded>): map<Uuid, string> {
    if loaded == [] then map[]
    else
      var l := loaded[|loaded| - 1];
      var rest := FreshTexts(loaded[..|loaded| - 1]);
      if l.isNew && l.text.Ok? then rest[l.id := l.text.value] else rest
  }

  function ParseFailures(application: Uuid, loaded: seq<Loaded>): seq<Audit> {
    if loaded == [] then []
    else
      var l := loaded[|loaded| - 1];
      ParseFailures(application, loaded[..|loaded| - 1])
      + (if l.text.Err?
         then [Audit(application, "ingest.parse_failed", None, Some(l.text.error.message), Some(l.text.error.code))] else [])
  }

  function DocumentSources(loaded: seq<Loaded>): seq<SourceText> {
    if loaded == [] then []
    else
      var l := loaded[|loaded| - 1];
      DocumentSources(loaded[..|loaded| - 1]) + (if l.text.Ok? then [SourceText(l.id, Some(l.id), l.text.value)] else [])
  }

  predicate IsChat(application: Uuid, c: Communication) {
    c.application == application && c.direction == Inbound && c.content.Some?
  }

  /** `rows` answers the query for the application's inbound texts, oldest first. */
  ghost predicate ChatRows(db: Db, application: Uuid, rows: seq<Communication>) {
    && multiset(rows) == multiset(Filter((c: Communication) => IsChat(application, c), db.communications))
    && forall i, j | 0 <= i < j < |rows| :: rows[i].timestamp <= rows[j].timestamp
  }

  /** The chats of a run are exactly the borrower's own messages with a text. */
  lemma {:induction false} ChatsAreInbound(db: Db, application: Uuid, rows: seq<Communication>)
    requires ChatRows(db, application, rows)
    ensures forall c :: c in rows <==> c in db.communications && c.application == application && c.direction == Inbound && c.content.Some?
  {
    var chat := (c: Communication) => IsChat(application, c);
    FilterMembers(chat, db.communications);
    hide Filter;
    assert forall c :: c in rows <==> c in multiset(rows);
    assert forall c :: c in Filter(chat, db.communications) <==> c in multiset(Filter(chat, db.communications));
  }

  function ChatSource(c: Communication): SourceText {
    SourceText("chat:" + c.id, None, if c.content.Some? then c.content.value else "")
  }

  function ChatSources(rows: seq<Communication>): seq<SourceText> {
    seq(|rows|, i requires 0 <= i < |rows| => ChatSource(rows[i]))
  }

  function SourcesOf(loaded: seq<Loaded>, rows: seq<Communication>): seq<SourceText> {
    DocumentSources(loaded) + ChatSources(rows)
  }

  function Ingested(db: Db, application: Uuid, loaded: seq<Loaded>): Db {
    db.(documents := WithRawTexts(db.documents, FreshTexts(loaded)),
        audits := db.audits + ParseFailures(application, loaded))
  }

  // ----- extract_trace -----

  /** What the extractor answers: a typed failure, or at most 50 entities and its raw text. */
  datatype Outcome = Failed(errorClass: string, code: string, detail: string) | Extracted(entities: seq<Entity>, response: string)

  const MAX_ENTITIES := 50

  predicate SchemaValid(outcome: Outcome) { outcome.Extracted? ==> |outcome.entities| <= MAX_ENTITIES }

  predicate NamesDocument(id: Option<string>) { id.Some? && id.value != "" }

  /** `doc_texts.get(id)`: the last source of that document. */
  function DocumentText(sources: seq<SourceText>, id: string): Option<string> {
    if sources == [] then None
    else
      var source := sources[|sources| - 1];
      if NamesDocument(source.documentId) && source.documentId.value == id then Some(source.text)
      else DocumentText(sources[..|sources| - 1], id)
  }

  predicate QuotedFrom(text: Option<string>, quote: string) {
    text.Some? && text.value != "" && Words.Contains(text.value, quote)
  }

  predicate QuotedInChat(source: SourceText, quote: string) {
    !NamesDocument(source.documentId) && Words.Contains(source.text, quote)
  }

  /** The entity's quote is found in the document it names or, naming none, in some chat text. */
  predicate Traced(entity: Entity, sources: seq<SourceText>) {
    && entity.key in KNOWN_FACT_KEYS
    && entity.sourceQuote.Some? && entity.sourceQuote.value != ""
    && (if NamesDocument(entity.documentId)
        then QuotedFrom(DocumentText(sources, entity.documentId.value), entity.sourceQuote.value)
        else exists source | source in sources :: QuotedInChat(source, entity.sourceQuote.value))
  }

  function TracedIn(sources: seq<SourceText>): Entity -> bool { (e: Entity) => Traced(e, sources) }

  function FactFrom(py: Python, application: Uuid, entity: Entity): Fact
    requires entity.sourceQuote.Some?
  {
    Fact(application, entity.key, CoerceValue(py, entity.key, entity.value), entity.confidence,
         if NamesDocument(entity.documentId) then entity.documentId else None, entity.sourceQuote.value)
  }

  function FactsFrom(py: Python, application: Uuid, entities: seq<Entity>, sources: seq<SourceText>): seq<Fact> {
    if entities == [] then []
    else
      var e := entities[|entities| - 1];
      FactsFrom(py, application, entities[..|entities| - 1], sources)
      + (if Traced(e, sources) then [FactFrom(py, application, e)] else [])
  }

  function Excerpt(text: string): Option<string> {
    if text == "" then None else Some(Redaction.AuditExcerpt(text))
  }

  function ExtractedDb(py: Python, db: Db, application: Uuid, sources: seq<SourceText>, entities: seq<Entity>, response: string): Db {
    db.(facts := WithoutFactsOf(db.facts, {application}) + FactsFrom(py, application, entities, sources),
        audits := db.audits + [Audit(application, "extract.trace", Excerpt(UserPrompt(sources)), Excerpt(response), None)])
  }

  function DegradedDb(db: Db, application: Uuid, seen: Status, errorClass: string, code: string, detail: string): Db {
    var updated := Assigned(db, application, seen, ManualReview);
    updated.(audits := updated.audits + [Audit(application, "extract.degraded", None,
                          Some(Redaction.DegradedExcerpt(errorClass + ": " + detail)), Some(code))])
  }

  // ----- reconcile -----

  function AnomalyAudits(rt: Runtime, application: Uuid, anomalies: seq<Anomaly>): seq<Audit> {
    seq(|anomalies|, i requires 0 <= i < |anomalies| =>
      Audit(application, "reconcile.anomaly", None, Some(AnomalyText(rt.python, anomalies[i])), None))
  }

  function ReconciledDb(rt: Runtime, db: Db, application: Uuid, anomalies: seq<Anomaly>): Db {
    db.(audits := db.audits + AnomalyAudits(rt, application, anomalies))
  }

  // ----- chase -----

  function PresentKeys(db: Db, application: Uuid): set<string> {
    set f | f in db.facts && f.application == application && f.value != Null :: f.key
  }

  function Missing(present: set<string>, required: seq<string>): seq<string> {
    if required == [] then []
    else (if required[0] in present then [] else [required[0]]) + Missing(present, required[1..])
  }

  function MissingKeys(db: Db, application: Uuid): seq<string> {
    Missing(PresentKeys(db, application), REQUIRED_FACT_KEYS)
  }

  /** The channel of a newest inbound communication; SMS without any. */
  ghost predicate PickedChannel(db: Db, application: Uuid, channel: Channel) {
    if exists c | c in db.communications :: IsInbound(application, c)
    then exists c | c in db.communications :: IsNewestInbound(db, application, c) && c.channel == channel
    else channel == Sms
  }

  predicate IsInbound(application: Uuid, c: Communication) { c.application == application && c.direction == Inbound }

  predicate IsNewestInbound(db: Db, application: Uuid, c: Communication) {
    IsInbound(application, c)
    && forall d | d in db.communications && IsInbound(application, d) :: d.timestamp <= c.timestamp
  }

  function MissingText(key: string): string {
    if key == "government_id" then "a government-issued photo " + "ID (passport or " + "driver's license)"
    else if key == "monthly_income" then "proof of income (recent " + "payslip, bank statement, " + "or tax return)"
    else if key == "address" then "proof of address (utility bill, " + "lease agreement, or bank " + "statement dated within " + "90 days)"
    else key
  }

  function JoinTexts(front: string, separator: string, keys: seq<string>): string {
    if keys == [] then ""
    else front + MissingText(keys[0]) + (if |keys| == 1 then "" else separator) + JoinTexts(front, separator, keys[1..])
  }

  const SMS_OPENING := "Hi! " + "We still need: "
  const SMS_CLOSING := ". " + "Please reply with the " + "requested information."
  const EMAIL_OPENING :=
    "Hello,\n\n" + "Thank you for starting " + "your application. " + "We're missing the following " + "documents:\n"
  const EMAIL_CLOSING :=
    "\n\n" + "Please reply with the " + "requested documents at " + "your earliest convenience."
  const READY_TEXT :=
    "All required documents " + "have been received. " + "Your application is " + "ready for review."

  function ChaseContent(missing: seq<string>, channel: Channel): string {
    if missing == [] then READY_TEXT
    else if channel == Sms then
      SMS_OPENING + JoinTexts("", ", ", missing) + SMS_CLOSING
    else
      EMAIL_OPENING + JoinTexts("\U{2022} ", "\n", missing) + EMAIL_CLOSING
  }

  predicate IsOutbound(application: Uuid, c: Communication) {
    c.application == application && c.direction == Outbound && c.content.Some?
  }

  /** The texts sent to the borrower of an application, in order. */
  function SentContents(communications: seq<Communication>, application: Uuid): seq<string> {
    if communications == [] then []
    else
      var c := communications[|communications| - 1];
      SentContents(communications[..|communications| - 1], application)
      + (if IsOutbound(application, c) then [c.content.value] else [])
  }

  datatype Decision = Decision(missing: seq<string>, channel: Channel, content: string, alreadySent: bool)

  function Decide(db: Db, application: Uuid, channel: Channel): Decision {
    var missing := MissingKeys(db, application);
    var content := ChaseContent(missing, channel);
    Decision(missing, channel, content, content in SentContents(db.communications, application))
  }

  function FinalStatus(missing: seq<string>): Status { if missing == [] then ReadyForLos else PendingDocs }

  function ChasedDb(db: Db, application: Uuid, seen: Status, decision: Decision, id: Uuid, now: int): Db {
    var updated := Assigned(db, application, seen, FinalStatus(decision.missing));
    if decision.alreadySent then updated
    else updated.(communications := updated.communications
                     + [Communication(id, application, decision.channel, Outbound, Some(decision.content), now, None)],
                   audits := updated.audits
                     + [Audit(application, "chase.sent", None, Some(decision.content), None)])
  }

  // ----- Verbatim quotes survive validation -----

  /** A known-key entity quoting from the document it names, or from some chat text when
      it names none, is kept, whatever the case of the letters it quotes. */
  lemma {:induction false} VerbatimEntityTraced(entity: Entity, sources: seq<SourceText>, source: SourceText, before: string, piece: string, after: string,
                             quote: string)
    requires entity.key in KNOWN_FACT_KEYS && quote != "" && entity.sourceQuote == Some(quote) && Casing.UpToCase(piece, quote)
    requires source in sources && source.text == before + piece + after
    requires if entity.documentId == None || entity.documentId == Some("")
             then source.documentId == None || source.documentId == Some("")
             else DocumentText(sources, entity.documentId.value) == Some(source.text)
    ensures Traced(entity, sources)
  {
    Casing.QuoteInAnyCase(before, piece, after, quote);
    hide Words.Contains, Casing.UpToCase;
  }

  /** The fact says what the entity says: its key, its value as a number where it has to
      be one, its confidence, its quote and the document it names. */
  predicate SaysTheSame(py: Python, application: Uuid, entity: Entity, fact: Fact) {
    && fact.application == application && fact.key == entity.key && fact.value == CoerceValue(py, entity.key, entity.value)
    && fact.confidence == entity.confidence && entity.sourceQuote == Some(fact.sourceSnippet)
    && fact.documentId == if entity.documentId == Some("") then None else entity.documentId
  }

  /** Validation keeps exactly the traced entities, in their order, one fact each. */
  lemma {:induction false} FactsFromFilter(py: Python, application: Uuid, entities: seq<Entity>, sources: seq<SourceText>)
    ensures var kept := Filter(TracedIn(sources), entities);
            var facts := FactsFrom(py, application, entities, sources);
            && |facts| == |kept| <= |entities|
            && forall i | 0 <= i < |kept| ::
                 Traced(kept[i], sources) && facts[i] == FactFrom(py, application, kept[i]) && SaysTheSame(py, application, kept[i], facts[i])
  {
    if entities != [] {
      var n := |entities| - 1;
      FactsFromFilter(py, application, entities[..n], sources);
      assert entities == entities[..n] + [entities[n]];
      FilterAppend(TracedIn(sources), entities[..n], [entities[n]]);
      assert [entities[n]][1..] == [];
      hide FactFrom, SaysTheSame, CoerceValue;
      if Traced(entities[n], sources) { FactSays(py, application, entities[n]); }
      hide Traced;
    }
  }

  lemma {:induction false} FactSays(py: Python, application: Uuid, entity: Entity)
    requires entity.sourceQuote.Some?
    ensures SaysTheSame(py, application, entity, FactFrom(py, application, entity))
  {
    hide CoerceValue;
  }

  lemma {:induction false} DocumentSourcesNamed(loaded: seq<Loaded>)
    ensures forall source | source in DocumentSources(loaded) :: FromUuids(source)
  {
    if loaded != [] {
      DocumentSourcesNamed(loaded[..|loaded| - 1]);
      var l := loaded[|loaded| - 1];
      if l.text.Ok? { assert FromUuids(SourceText(l.id, Some(l.id), l.text.value)); }
      hide FromUuids;
    }
  }

  lemma {:induction false} ChatNamed(c: Communication)
    ensures var name := ChatSource(c).sourceLabel; FromUuids(ChatSource(c)) && |name| == 41 && name[5..] == c.id
  {
    var name := "chat:" + c.id;
    assert name[..5] == "chat:" && name[5..] == c.id;
  }

  /** Sources are labelled by their document, or by `chat:` and their message. */
  lemma {:induction false} SourcesNamed(loaded: seq<Loaded>, rows: seq<Communication>)
    ensures forall source | source in SourcesOf(loaded, rows) :: FromUuids(source)
    ensures var chats := SourcesOf(loaded, rows)[|DocumentSources(loaded)|..];
            |chats| == |rows| && forall i | 0 <= i < |rows| :: |chats[i].sourceLabel| == 41 && chats[i].sourceLabel[5..] == rows[i].id
  {
    DocumentSourcesNamed(loaded);
    forall i | 0 <= i < |rows|
      ensures FromUuids(ChatSources(rows)[i]) && |ChatSources(rows)[i].sourceLabel| == 41 && ChatSources(rows)[i].sourceLabel[5..] == rows[i].id
    {
      ChatNamed(rows[i]);
    }
    hide DocumentSources, FromUuids, ChatSources;
    assert SourcesOf(loaded, rows)[|DocumentSources(loaded)|..] == ChatSources(rows);
  }

  /** Coercion never makes a value out of nothing, nor nothing out of a value. */
  lemma {:induction false} CoerceKeepsNull(py: Python, key: string, v: Value)
    ensures CoerceValue(py, key, v) == Null <==> v == Null
  {
  }
}
