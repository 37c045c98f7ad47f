/** Running the pipeline again on the same evidence, with the same extraction outcome,
    changes neither status, nor facts, nor what was sent. */
module Rerun {
  import opened Basics
  import opened Facts
  import opened Prompt
  import opened Tables
  import opened Nodes
  import opened SerialRuns
  import opened WholeRun
  import AuditTrail
  import Words

  // ----- What extraction looks at -----

  /** The text a run sees of a document. */
  function TextOf(rt: Runtime, document: Document): Result<string, ParseFailure> {
    if HasText(document) then Ok(document.rawText.value) else ParseDocument(rt, document)
  }

  /** The text of a listed document, looked up by name. */
  function ListedText(rt: Runtime, documents: map<Uuid, Document>, order: seq<Uuid>, id: string): Option<string>
    requires forall d | d in order :: d in documents
  {
    if id !in order then None
    else match TextOf(rt, documents[id])
      case Ok(text) => Some(text)
      case Err(_) => None
  }

  lemma {:induction false} LoadAllStep(rt: Runtime, documents: map<Uuid, Document>, order: seq<Uuid>)
    requires order != [] && forall d | d in order :: d in documents
    ensures var n := |order| - 1;
            LoadAll(rt, documents, order) == LoadAll(rt, documents, order[..n]) + [LoadOne(rt, order[n], documents[order[n]])]
  {
    hide LoadOne;
  }

  /** Looking up in a list whose last source is a document. */
  lemma {:induction false} LookupLast(before: seq<SourceText>, document: Uuid, text: string, id: string)
    ensures DocumentText(before + [SourceText(document, Some(document), text)], id)
         == if document == id then Some(text) else DocumentText(before, id)
  {
    var all := before + [SourceText(document, Some(document), text)];
    assert all[..|all| - 1] == before && |document| == 36;
  }

  /** The sources of one more document. */
  lemma {:induction false} DocumentSourcesStep(loaded: seq<Loaded>, l: Loaded)
    ensures DocumentSources(loaded + [l])
         == DocumentSources(loaded) + (if l.text.Ok? then [SourceText(l.id, Some(l.id), l.text.value)] else [])
  {
    assert (loaded + [l])[..|loaded|] == loaded;
  }

  lemma {:induction false} ListedTextStep(rt: Runtime, documents: map<Uuid, Document>, order: seq<Uuid>, d: Uuid, id: string)
    requires d in documents && forall e | e in order :: e in documents
    ensures ListedText(rt, documents, order + [d], id)
         == match TextOf(rt, documents[d])
            case Ok(text) => if d == id then Some(text) else ListedText(rt, documents, order, id)
            case Err(_) => ListedText(rt, documents, order, id)
  {
    hide TextOf;
  }

  lemma {:induction false} DocumentTextIsListed(rt: Runtime, documents: map<Uuid, Document>, order: seq<Uuid>, id: string)
    requires forall d | d in order :: d in documents
    ensures DocumentText(DocumentSources(LoadAll(rt, documents, order)), id) == ListedText(rt, documents, order, id)
  {
    if order != [] {
      var n := |order| - 1;
      var front, d := order[..n], order[n];
      LoadAllStep(rt, documents, order);
      DocumentTextIsListed(rt, documents, front, id);
      assert order == front + [d];
      assert LoadOne(rt, d, documents[d]).text == TextOf(rt, documents[d]);
      hide TextOf, LoadAll, DocumentText, DocumentSources, LoadOne;
      var loaded, l := LoadAll(rt, documents, front), LoadOne(rt, d, documents[d]);
      DocumentSourcesStep(loaded, l);
      ListedTextStep(rt, documents, front, d, id);
      if l.text.Ok? {
        LookupLast(DocumentSources(loaded), d, l.text.value, id);
      } else {
        assert DocumentSources(loaded) + [] == DocumentSources(loaded);
      }
    }
  }

  /** Chat texts name no document. */
  lemma {:induction false} ChatNamesNoDocument(sources: seq<SourceText>, rows: seq<Communication>, id: string)
    ensures DocumentText(sources + ChatSources(rows), id) == DocumentText(sources, id)
  {
    if rows == [] {
      assert sources + ChatSources(rows) == sources;
    } else {
      var n := |rows| - 1;
      assert ChatSources(rows) == ChatSources(rows[..n]) + [ChatSource(rows[n])];
      var all := sources + ChatSources(rows);
      assert all[..|all| - 1] == sources + ChatSources(rows[..n]) && all[|all| - 1] == ChatSource(rows[n]);
      ChatNamesNoDocument(sources, rows[..n], id);
    }
  }

  lemma {:induction false} DocumentsNameThemselves(loaded: seq<Loaded>)
    ensures forall source | source in DocumentSources(loaded) :: NamesDocument(source.documentId)
  {
    if loaded != [] {
      DocumentsNameThemselves(loaded[..|loaded| - 1]);
    }
  }

  ghost predicate QuotedInRows(rows: seq<Communication>, quote: string) {
    exists c | c in rows :: Words.Contains(ChatSource(c).text, quote)
  }

  lemma {:induction false} ChatQuotes(loaded: seq<Loaded>, rows: seq<Communication>, quote: string)
    ensures (exists source | source in SourcesOf(loaded, rows) :: QuotedInChat(source, quote)) <==> QuotedInRows(rows, quote)
  {
    hide Words.Contains, DocumentSources;
    DocumentsNameThemselves(loaded);
    if source :| source in SourcesOf(loaded, rows) && QuotedInChat(source, quote) {
      var i :| 0 <= i < |ChatSources(rows)| && source == ChatSources(rows)[i];
      assert rows[i] in rows && source == ChatSource(rows[i]);
    }
    if c :| c in rows && Words.Contains(ChatSource(c).text, quote) {
      var i :| 0 <= i < |rows| && rows[i] == c;
      assert ChatSources(rows)[i] == ChatSource(c);
      assert ChatSources(rows)[i] in SourcesOf(loaded, rows) && QuotedInChat(ChatSource(c), quote);
    }
  }

  /** Two runs see the same evidence: the same texts by document and the same chat messages. */
  ghost predicate SameInputs(rt: Runtime, db: Db, x: RunInput, db': Db, y: RunInput) {
    && Listed(db, x.order) && Listed(db', y.order)
    && (forall d :: d in x.order <==> d in y.order)
    && (forall d | d in x.order :: TextOf(rt, db'.documents[d]) == TextOf(rt, db.documents[d]))
    && forall c :: c in x.rows <==> c in y.rows
  }

  lemma {:induction false} SameTraced(rt: Runtime, db: Db, x: RunInput, db': Db, y: RunInput, e: Entity)
    requires SameInputs(rt, db, x, db', y)
    ensures Traced(e, SourcesBy(rt, db', y)) == Traced(e, SourcesBy(rt, db, x))
  {
    hide Words.Contains, TextOf, LoadAll, ChatSources;
    if e.sourceQuote.Some? {
      ChatQuotes(LoadAll(rt, db.documents, x.order), x.rows, e.sourceQuote.value);
      ChatQuotes(LoadAll(rt, db'.documents, y.order), y.rows, e.sourceQuote.value);
    }
    if NamesDocument(e.documentId) {
      SameTexts(rt, db, x, db', y, e.documentId.value);
    }
  }

  lemma {:induction false} SameTexts(rt: Runtime, db: Db, x: RunInput, db': Db, y: RunInput, id: string)
    requires SameInputs(rt, db, x, db', y)
    ensures DocumentText(SourcesBy(rt, db', y), id) == DocumentText(SourcesBy(rt, db, x), id)
  {
    hide TextOf, LoadAll;
    DocumentTextIsListed(rt, db.documents, x.order, id);
    DocumentTextIsListed(rt, db'.documents, y.order, id);
    ChatNamesNoDocument(DocumentSources(LoadAll(rt, db.documents, x.order)), x.rows, id);
    ChatNamesNoDocument(DocumentSources(LoadAll(rt, db'.documents, y.order)), y.rows, id);
  }

  lemma {:induction false} SameFacts(rt: Runtime, db: Db, x: RunInput, db': Db, y: RunInput, a: Uuid, entities: seq<Entity>)
    requires SameInputs(rt, db, x, db', y)
    ensures FactsFrom(rt.python, a, entities, SourcesBy(rt, db', y)) == FactsFrom(rt.python, a, entities, SourcesBy(rt, db, x))
  {
    hide Traced, SourcesBy, SameInputs, FactFrom;
    if entities != [] {
      var n := |entities| - 1;
      SameFacts(rt, db, x, db', y, a, entities[..n]);
      SameTraced(rt, db, x, db', y, entities[n]);
    }
  }

  lemma {:induction false} NoDocumentSource(loaded: seq<Loaded>)
    ensures DocumentSources(loaded) == [] <==> forall l | l in loaded :: l.text.Err?
  {
    if loaded != [] {
      var n := |loaded| - 1;
      NoDocumentSource(loaded[..n]);
      assert loaded == loaded[..n] + [loaded[n]];
    }
  }

  lemma {:induction false} NoTexts(rt: Runtime, documents: map<Uuid, Document>, order: seq<Uuid>)
    requires forall d | d in order :: d in documents
    ensures (forall l | l in LoadAll(rt, documents, order) :: l.text.Err?) <==> forall d | d in order :: TextOf(rt, documents[d]).Err?
  {
    hide TextOf, LoadOne;
    if order != [] {
      var n := |order| - 1;
      LoadAllStep(rt, documents, order);
      NoTexts(rt, documents, order[..n]);
      LoadsText(rt, order[n], documents[order[n]]);
      assert order == order[..n] + [order[n]];
    }
  }

  lemma {:induction false} LoadsText(rt: Runtime, id: Uuid, document: Document)
    ensures LoadOne(rt, id, document).text == TextOf(rt, document)
  {
    hide ParseDocument;
  }

  lemma {:induction false} NoSources(rt: Runtime, db: Db, x: RunInput)
    requires Listed(db, x.order)
    ensures SourcesBy(rt, db, x) == [] <==> x.rows == [] && forall d | d in x.order :: TextOf(rt, db.documents[d]).Err?
  {
    var loaded := LoadAll(rt, db.documents, x.order);
    NoDocumentSource(loaded);
    NoTexts(rt, db.documents, x.order);
    hide DocumentSources, TextOf, LoadAll;
  }

  lemma {:induction false} SameSourcesEmpty(rt: Runtime, db: Db, x: RunInput, db': Db, y: RunInput)
    requires SameInputs(rt, db, x, db', y)
    ensures SourcesBy(rt, db', y) == [] <==> SourcesBy(rt, db, x) == []
  {
    NoSources(rt, db, x);
    NoSources(rt, db', y);
    hide SourcesBy, TextOf;
    if x.rows != [] { assert x.rows[0] in x.rows; }
    if y.rows != [] { assert y.rows[0] in y.rows; }
  }

  // ----- What one run leaves behind -----

  function PresentIn(facts: seq<Fact>): set<string> { set f | f in facts && f.value != Null :: f.key }

  lemma {:induction false} PresentFromFacts(db: Db, a: Uuid)
    ensures PresentKeys(db, a) == PresentIn(FactsOf(db, a))
  {
    FilterMembers(OfApplication(a), db.facts);
    hide Filter;
  }

  function FactsAfter(rt: Runtime, db: Db, a: Uuid, x: RunInput): seq<Fact>
    requires Listed(db, x.order)
  {
    if SourcesBy(rt, db, x) == [] || x.outcome.Failed? then FactsOf(db, a)
    else FactsFrom(rt.python, a, x.outcome.entities, SourcesBy(rt, db, x))
  }

  function MissingAfter(rt: Runtime, db: Db, a: Uuid, x: RunInput): seq<string>
    requires Listed(db, x.order)
  {
    Missing(PresentIn(FactsAfter(rt, db, a, x)), REQUIRED_FACT_KEYS)
  }

  function StatusAfter(rt: Runtime, db: Db, a: Uuid, x: RunInput): Status
    requires Listed(db, x.order)
  {
    if DegradedBy(rt, db, x) then ManualReview else FinalStatus(MissingAfter(rt, db, a, x))
  }

  function SentAfter(rt: Runtime, db: Db, a: Uuid, x: RunInput): seq<string>
    requires Listed(db, x.order)
  {
    var sent, text := SentContents(db.communications, a), ChaseContent(MissingAfter(rt, db, a, x), x.channel);
    if DegradedBy(rt, db, x) || text in sent then sent else sent + [text]
  }

  lemma {:induction false} SameFactsOf(db: Db, db': Db, a: Uuid)
    requires db'.facts == db.facts
    ensures FactsOf(db', a) == FactsOf(db, a)
  {
  }

  lemma {:induction false} IngestLeaves(rt: Runtime, db: Db, a: Uuid, x: RunInput)
    requires a in db.applications && Listed(db, x.order)
    ensures var db' := AfterIngest(rt, db, a, x);
            && db'.facts == db.facts && db'.communications == db.communications
            && db'.documents == WithRawTexts(db.documents, FreshTexts(LoadAll(rt, db.documents, x.order)))
            && a in db'.applications && db'.applications[a].status == SeenBy(db, a)
  {
    EnteredKeeps(db, a);
    AssignedView(db, a, db.applications[a].status, SeenBy(db, a));
    hide LoadAll, FreshTexts, ParseFailures, EnteredStatus, Assigned, WithRawTexts, Touches;
  }

  lemma {:induction false} TraceLeaves(rt: Runtime, db: Db, a: Uuid, x: RunInput)
    requires a in db.applications && Listed(db, x.order)
    ensures var db' := AfterTrace(rt, db, a, x);
            && FactsOf(db', a) == FactsAfter(rt, db, a, x) && db'.communications == db.communications
            && db'.documents == AfterIngest(rt, db, a, x).documents
            && a in db'.applications && db'.applications[a].status == if DegradedBy(rt, db, x) then ManualReview else SeenBy(db, a)
  {
    IngestLeaves(rt, db, a, x);
    TraceKeepsCommunications(rt, db, a, x);
    var ingested, sources := AfterIngest(rt, db, a, x), SourcesBy(rt, db, x);
    SameFactsOf(db, ingested, a);
    hide AfterIngest, SourcesBy, SeenBy, FactsOf, SentContents;
    if sources != [] {
      match x.outcome
      case Failed(errorClass, code, detail) =>
        DegradedLeaves(ingested, a, SeenBy(db, a), errorClass, code, detail);
        hide DegradedDb;
        SameFactsOf(ingested, AfterTrace(rt, db, a, x), a);
      case Extracted(entities, response) =>
        ExtractedLeaves(rt, ingested, a, sources, entities, response);
    }
  }

  lemma {:induction false} DegradedLeaves(db: Db, a: Uuid, seen: Status, errorClass: string, code: string, detail: string)
    requires a in db.applications && db.applications[a].status == seen
    ensures var db' := DegradedDb(db, a, seen, errorClass, code, detail);
            && db'.facts == db.facts && db'.documents == db.documents && a in db'.applications && db'.applications[a].status == ManualReview
  {
    DegradedView(db, a, seen, errorClass, code, detail);
    hide DegradedDb, Touches;
  }

  lemma {:induction false} ExtractedLeaves(rt: Runtime, db: Db, a: Uuid, sources: seq<SourceText>, entities: seq<Entity>, response: string)
    ensures var db' := ExtractedDb(rt.python, db, a, sources, entities, response);
            && FactsOf(db', a) == FactsFrom(rt.python, a, entities, sources)
            && db'.documents == db.documents && db'.applications == db.applications
  {
    FactsFromOwn(rt.python, a, entities, sources);
    FactsReplaced(db, a, FactsFrom(rt.python, a, entities, sources), a);
    hide FactsFrom, Excerpt, WithoutFactsOf;
    var db' := ExtractedDb(rt.python, db, a, sources, entities, response);
    SameFactsOf(db.(facts := db'.facts), db', a);
  }

  /** Status, facts and messages of the application after one run. */
  lemma {:induction false} RunLeaves(rt: Runtime, db: Db, a: Uuid, x: RunInput)
    requires a in db.applications && Listed(db, x.order)
    ensures var db' := Ran(rt, db, a, x);
            && a in db'.applications && db'.applications[a].status == StatusAfter(rt, db, a, x)
            && FactsOf(db', a) == FactsAfter(rt, db, a, x)
            && SentContents(db'.communications, a) == SentAfter(rt, db, a, x)
            && db'.documents == AfterIngest(rt, db, a, x).documents
  {
    TraceLeaves(rt, db, a, x);
    hide AfterTrace, AfterIngest, SeenBy, FactsAfter, DegradedBy, FactsOf, SentContents, Missing, ChaseContent;
    if !DegradedBy(rt, db, x) {
      var d := AfterReconcile(rt, db, a, x);
      SameFactsOf(AfterTrace(rt, db, a, x), d, a);
      PresentFromFacts(d, a);
      var decision := Decide(d, a, x.channel);
      assert decision.missing == MissingAfter(rt, db, a, x);
      ChasedView(d, a, SeenBy(db, a), decision, x.id, x.now);
      ChasedDocuments(d, a, SeenBy(db, a), decision, x.id, x.now);
      hide ChasedDb, Touches, AfterReconcile;
      SameFactsOf(d, Ran(rt, db, a, x), a);
    }
  }

  lemma {:induction false} ChasedDocuments(db: Db, a: Uuid, seen: Status, decision: Decision, id: Uuid, now: int)
    ensures ChasedDb(db, a, seen, decision, id, now).documents == db.documents
  {
  }

  /** A run adds no inbound message. */
  lemma {:induction false} RunAddsNoInbound(rt: Runtime, db: Db, a: Uuid, x: RunInput)
    requires a in db.applications && Listed(db, x.order)
    ensures forall c: Communication | c.direction == Inbound :: c in Ran(rt, db, a, x).communications <==> c in db.communications
  {
    hide AfterTrace, AfterIngest, SeenBy, DegradedBy, AfterReconcile, ChasedDb, Decide;
    TraceKeepsCommunications(rt, db, a, x);
    if !DegradedBy(rt, db, x) {
      var d := AfterReconcile(rt, db, a, x);
      ChaseAddsNoInbound(d, a, SeenBy(db, a), Decide(d, a, x.channel), x.id, x.now);
    }
  }

  lemma {:induction false} ChaseAddsNoInbound(db: Db, a: Uuid, seen: Status, decision: Decision, id: Uuid, now: int)
    ensures forall c: Communication | c.direction == Inbound ::
              c in ChasedDb(db, a, seen, decision, id, now).communications <==> c in db.communications
  {
    AuditTrail.AssignedRows(db, a, seen, FinalStatus(decision.missing));
    hide Assigned, FinalStatus;
  }

  // ----- The evidence after the run is the evidence before -----

  lemma {:induction false} FreshAreParsed(rt: Runtime, documents: map<Uuid, Document>, order: seq<Uuid>)
    requires forall d | d in order :: d in documents
    ensures forall d | d in FreshTexts(LoadAll(rt, documents, order)) ::
              d in documents && !HasText(documents[d]) && ParseDocument(rt, documents[d]) == Ok(FreshTexts(LoadAll(rt, documents, order))[d])
  {
    hide ParseDocument, LoadAll, HasText;
    if order == [] {
      assert LoadAll(rt, documents, order) == [] by { EmptyLoad(rt, documents, order); }
    } else {
      var n := |order| - 1;
      LoadAllStep(rt, documents, order);
      FreshAreParsed(rt, documents, order[..n]);
      var before, l := LoadAll(rt, documents, order[..n]), LoadOne(rt, order[n], documents[order[n]]);
      assert (before + [l])[..|before|] == before;
    }
  }

  lemma {:induction false} EmptyLoad(rt: Runtime, documents: map<Uuid, Document>, order: seq<Uuid>)
    requires order == []
    ensures LoadAll(rt, documents, order) == []
  {
  }

  lemma {:induction false} IngestKeepsText(rt: Runtime, documents: map<Uuid, Document>, order: seq<Uuid>, d: Uuid)
    requires d in documents && forall e | e in order :: e in documents
    ensures var after := WithRawTexts(documents, FreshTexts(LoadAll(rt, documents, order)));
            d in after && after[d].application == documents[d].application && TextOf(rt, after[d]) == TextOf(rt, documents[d])
  {
    FreshAreParsed(rt, documents, order);
    hide LoadAll, FreshTexts;
    var texts := FreshTexts(LoadAll(rt, documents, order));
    var after := WithRawTexts(documents, texts)[d];
    assert ParseDocument(rt, after) == ParseDocument(rt, documents[d]);
    hide ParseDocument;
  }

  /** Nobody else touched the application between the runs, and no message came in. */
  ghost predicate Undisturbed(db: Db, db': Db, a: Uuid) {
    && a in db.applications && a in db'.applications && db'.applications[a].status == db.applications[a].status
    && DocsOf(db', a) == DocsOf(db, a) && (forall d | d in DocsOf(db, a) :: db'.documents[d] == db.documents[d])
    && (forall c | IsInbound(a, c) :: c in db'.communications <==> c in db.communications)
    && FactsOf(db', a) == FactsOf(db, a)
    && SentContents(db'.communications, a) == SentContents(db.communications, a)
  }

  lemma {:induction false} SameOwners(db: Db, db': Db, a: Uuid)
    requires db'.documents.Keys == db.documents.Keys
    requires forall d | d in db.documents :: db'.documents[d].application == db.documents[d].application
    ensures DocsOf(db', a) == DocsOf(db, a)
  {
  }

  lemma {:induction false} RunKeepsDocsOf(rt: Runtime, db: Db, a: Uuid, x: RunInput)
    requires a in db.applications && Listed(db, x.order)
    ensures DocsOf(Ran(rt, db, a, x), a) == DocsOf(db, a)
    ensures forall d | d in DocsOf(db, a) :: d in db.documents && TextOf(rt, Ran(rt, db, a, x).documents[d]) == TextOf(rt, db.documents[d])
  {
    hide Ran, AfterIngest, StatusAfter, FactsAfter, SentAfter, FactsOf, SentContents, TextOf, WithRawTexts, SeenBy, LoadAll, FreshTexts, DocsOf;
    RunLeaves(rt, db, a, x);
    IngestLeaves(rt, db, a, x);
    var after := Ran(rt, db, a, x);
    KeysKept(db.documents, FreshTexts(LoadAll(rt, db.documents, x.order)));
    forall d | d in db.documents
      ensures after.documents[d].application == db.documents[d].application
      ensures TextOf(rt, after.documents[d]) == TextOf(rt, db.documents[d])
    {
      IngestKeepsText(rt, db.documents, x.order, d);
    }
    SameOwners(db, after, a);
    DocsAreDocuments(db, a);
  }

  lemma {:induction false} DocsAreDocuments(db: Db, a: Uuid)
    ensures forall d | d in DocsOf(db, a) :: d in db.documents
  {
  }

  lemma {:induction false} KeysKept(documents: map<Uuid, Document>, texts: map<Uuid, string>)
    ensures WithRawTexts(documents, texts).Keys == documents.Keys
  {
  }

  lemma {:induction false} OrderIs(db: Db, a: Uuid, order: seq<Uuid>)
    requires Enumerates(order, DocsOf(db, a))
    ensures forall d :: d in order <==> d in DocsOf(db, a)
  {
    hide DocsOf;
    var members := set d | d in order;
    assert forall d :: d in order <==> d in members;
  }

  lemma {:induction false} SameEvidenceAgain(rt: Runtime, db: Db, a: Uuid, x: RunInput, db2: Db, y: RunInput)
    requires Possible(rt, db, a, x) && Undisturbed(Ran(rt, db, a, x), db2, a) && Possible(rt, db2, a, y)
    ensures SameInputs(rt, db, x, db2, y)
  {
    hide Ran, DegradedBy, PickedChannel, AfterTrace, FactsOf, SentContents, TextOf, SchemaValid;
    RunKeepsDocsOf(rt, db, a, x);
    RunAddsNoInbound(rt, db, a, x);
    ChatsAreInbound(db, a, x.rows);
    ChatsAreInbound(db2, a, y.rows);
    hide ChatRows, Enumerates, DocsOf;
    OrderIs(db, a, x.order);
    OrderIs(db2, a, y.order);
  }

  // ----- The second run -----

  lemma {:induction false} SameVerdict(rt: Runtime, db: Db, a: Uuid, x: RunInput, db2: Db, y: RunInput)
    requires SameInputs(rt, db, x, db2, y) && y.outcome == x.outcome && FactsOf(db2, a) == FactsAfter(rt, db, a, x)
    ensures DegradedBy(rt, db2, y) == DegradedBy(rt, db, x)
    ensures FactsAfter(rt, db2, a, y) == FactsAfter(rt, db, a, x)
  {
    hide SourcesBy, SameInputs, FactsOf, FactsFrom;
    SameSourcesEmpty(rt, db, x, db2, y);
    if x.outcome.Extracted? { SameFacts(rt, db, x, db2, y, a, x.outcome.entities); }
  }

  /** After a completed run, a second run on the same evidence with the same extraction
      outcome leaves status and facts as they are. */
  lemma {:induction false} RerunKeepsStatusAndFacts(rt: Runtime, db: Db, a: Uuid, x: RunInput, db2: Db, y: RunInput)
    requires Possible(rt, db, a, x) && Undisturbed(Ran(rt, db, a, x), db2, a) && Possible(rt, db2, a, y) && y.outcome == x.outcome
    ensures var db1, db3 := Ran(rt, db, a, x), Ran(rt, db2, a, y);
            && a in db3.applications && db3.applications[a].status == db1.applications[a].status
            && FactsOf(db3, a) == FactsOf(db1, a)
  {
    hide Ran, DegradedBy, PickedChannel, FactsOf, SentContents, Enumerates, ChatRows, SameInputs, FactsAfter, DocsOf, AfterTrace, SentAfter, SchemaValid;
    SameEvidenceAgain(rt, db, a, x, db2, y);
    RunLeaves(rt, db, a, x);
    RunLeaves(rt, db2, a, y);
    SameVerdict(rt, db, a, x, db2, y);
  }

  lemma {:induction false} SecondChar(a: string, b: string, c: string)
    requires |a| > 1
    ensures (a + b + c)[1] == a[1]
  {
  }

  lemma {:induction false} ChannelsDiffer(missing: seq<string>)
    requires missing != []
    ensures ChaseContent(missing, Sms) != ChaseContent(missing, Email)
  {
    hide JoinTexts;
    SecondChar(SMS_OPENING, JoinTexts("", ", ", missing), SMS_CLOSING);
    SecondChar(EMAIL_OPENING, JoinTexts("\U{2022} ", "\n", missing), EMAIL_CLOSING);
    assert SMS_OPENING[1] == 'i' && EMAIL_OPENING[1] == 'e';
  }

  /** The second run sends nothing exactly when it picks the channel of the first, or
      nothing is missing, or that text had been sent before the first run already. */
  lemma {:induction false} RerunMessages(rt: Runtime, db: Db, a: Uuid, x: RunInput, db2: Db, y: RunInput)
    requires Possible(rt, db, a, x) && Undisturbed(Ran(rt, db, a, x), db2, a) && Possible(rt, db2, a, y) && y.outcome == x.outcome
    requires !DegradedBy(rt, db, x)
    ensures var sent, missing := SentContents(Ran(rt, db, a, x).communications, a), MissingAfter(rt, db, a, x);
            SentContents(Ran(rt, db2, a, y).communications, a) == sent
            <==> y.channel == x.channel || missing == [] || ChaseContent(missing, y.channel) in SentContents(db.communications, a)
  {
    hide Ran, DegradedBy, PickedChannel, FactsOf, SentContents, Enumerates, ChatRows, SameInputs, FactsAfter, DocsOf, AfterTrace, SchemaValid, ChaseContent, Missing;
    SameEvidenceAgain(rt, db, a, x, db2, y);
    RunLeaves(rt, db, a, x);
    RunLeaves(rt, db2, a, y);
    SameVerdict(rt, db, a, x, db2, y);
    var missing := MissingAfter(rt, db, a, x);
    assert MissingAfter(rt, db2, a, y) == missing;
    EmptyIgnoresChannel(x.channel);
    EmptyIgnoresChannel(y.channel);
    hide MissingAfter;
    if missing != [] { ChannelsDiffer(missing); }
  }

  /** Newest inbound messages, should there be several, came over one channel. */
  ghost predicate OneNewestChannel(db: Db, a: Uuid) {
    forall c, d | c in db.communications && d in db.communications && IsNewestInbound(db, a, c) && IsNewestInbound(db, a, d) ::
      c.channel == d.channel
  }

  ghost predicate DistinctTimestamps(db: Db, a: Uuid) {
    forall c, d | c in db.communications && d in db.communications && IsInbound(a, c) && IsInbound(a, d) && c.timestamp == d.timestamp ::
      c == d
  }

  lemma {:induction false} DistinctGivesOneChannel(db: Db, a: Uuid)
    requires DistinctTimestamps(db, a)
    ensures OneNewestChannel(db, a)
  {
    forall c, d | c in db.communications && d in db.communications && IsNewestInbound(db, a, c) && IsNewestInbound(db, a, d)
      ensures c.channel == d.channel
    {
      assert IsInbound(a, c) && IsInbound(a, d) && c.timestamp == d.timestamp;
    }
  }

  lemma {:induction false} SameChannelPicked(db: Db, db2: Db, a: Uuid, first: Channel, second: Channel)
    requires OneNewestChannel(db, a) && PickedChannel(db, a, first) && PickedChannel(db2, a, second)
    requires forall c | IsInbound(a, c) :: c in db2.communications <==> c in db.communications
    ensures second == first
  {
    if c :| c in db.communications && IsInbound(a, c) {
      var d :| d in db.communications && IsNewestInbound(db, a, d) && d.channel == first;
      var e :| e in db2.communications && IsNewestInbound(db2, a, e) && e.channel == second;
      assert IsNewestInbound(db, a, e);
    }
  }

  /** With distinct timestamps a second run changes nothing: status, facts, messages. */
  lemma {:induction false} RerunChangesNothing(rt: Runtime, db: Db, a: Uuid, x: RunInput, db2: Db, y: RunInput)
    requires Possible(rt, db, a, x) && Undisturbed(Ran(rt, db, a, x), db2, a) && Possible(rt, db2, a, y) && y.outcome == x.outcome
    requires DistinctTimestamps(db, a)
    ensures var db1, db3 := Ran(rt, db, a, x), Ran(rt, db2, a, y);
            && a in db3.applications && db3.applications[a].status == db1.applications[a].status
            && FactsOf(db3, a) == FactsOf(db1, a)
            && SentContents(db3.communications, a) == SentContents(db1.communications, a)
  {
    RerunKeepsStatusAndFacts(rt, db, a, x, db2, y);
    hide Ran, DegradedBy, PickedChannel, FactsOf, SentContents, Enumerates, ChatRows, SameInputs, FactsAfter, DocsOf, AfterTrace, SchemaValid, DistinctTimestamps, ChaseContent, Missing;
    if DegradedBy(rt, db, x) {
      SameEvidenceAgain(rt, db, a, x, db2, y);
      RunLeaves(rt, db, a, x);
      RunLeaves(rt, db2, a, y);
      SameVerdict(rt, db, a, x, db2, y);
    } else {
      SameVerdictOnly(rt, db, a, x, db2, y);
      DistinctGivesOneChannel(db, a);
      RunAddsNoInbound(rt, db, a, x);
      SameChannelPicked(db, db2, a, x.channel, y.channel);
      RerunMessages(rt, db, a, x, db2, y);
    }
  }

  lemma {:induction false} SameVerdictOnly(rt: Runtime, db: Db, a: Uuid, x: RunInput, db2: Db, y: RunInput)
    requires Possible(rt, db, a, x) && Undisturbed(Ran(rt, db, a, x), db2, a) && Possible(rt, db2, a, y) && y.outcome == x.outcome
    ensures DegradedBy(rt, db2, y) == DegradedBy(rt, db, x)
  {
    hide Ran, DegradedBy, PickedChannel, FactsOf, SentContents, Enumerates, ChatRows, SameInputs, FactsAfter, DocsOf, AfterTrace, SchemaValid, StatusAfter, SentAfter;
    SameEvidenceAgain(rt, db, a, x, db2, y);
    RunLeaves(rt, db, a, x);
    SameVerdict(rt, db, a, x, db2, y);
  }
}
