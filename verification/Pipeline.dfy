/** The pipeline as the code runs it: an agent holds one database session and one
    application row, every node queries, stages and commits, and the graph drives the
    nodes (pipeline.py, builder.py and the nodes). */
module Pipeline {
  import opened Basics
  import opened Facts
  import opened Json
  import opened Prompt
  import opened Reconcile
  import opened Tables
  import opened Nodes
  import opened WholeRun
  import AuditTrail
  import Redaction
  import Words

  // ----- The graph -----

  datatype Node = IngestRoute | ExtractTrace | ReconcileFacts | Chase | End

  function NextNode(node: Node, degraded: bool): Node {
    match node
    case IngestRoute => ExtractTrace
    case ExtractTrace => if degraded then End else ReconcileFacts
    case ReconcileFacts => Chase
    case Chase => End
    case End => End
  }

  function Ahead(node: Node): nat {
    match node
    case IngestRoute => 4
    case ExtractTrace => 3
    case ReconcileFacts => 2
    case Chase => 1
    case End => 0
  }

  // ----- What a commit writes -----

  lemma {:induction false} NoStatuses(applications: map<Uuid, Application>)
    ensures WithStatuses(applications + map[], map[]) == applications
  {
  }

  lemma {:induction false} NoTextsStaged(documents: map<Uuid, Document>)
    ensures WithRawTexts(documents + map[], map[]) == documents
  {
  }

  lemma {:induction false} NoFactsReplaced(facts: seq<Fact>)
    ensures WithoutFactsOf(facts, {}) + [] == facts
  {
    FilterAll(OutsideOf({}), facts);
  }

  /** Statuses staged by an assignment, given the status the session has seen. */
  function StatusRow(application: Uuid, seen: Status, status: Status): map<Uuid, Status> {
    if status == seen then map[] else map[application := status]
  }

  lemma {:induction false} StatusWritten(db: Db, application: Uuid, seen: Status, status: Status)
    ensures WithStatuses(db.applications + map[], StatusRow(application, seen, status)) == Assigned(db, application, seen, status).applications
  {
  }

  lemma {:induction false} IngestFlushed(db: Db, application: Uuid, loaded: seq<Loaded>)
    ensures Flushed(db, NOTHING_STAGED.(rawTexts := FreshTexts(loaded), audits := ParseFailures(application, loaded))) == Ingested(db, application, loaded)
  {
    hide WithStatuses, WithRawTexts, WithoutFactsOf, FreshTexts, ParseFailures;
    NoStatuses(db.applications);
    NoFactsReplaced(db.facts);
    assert db.documents + map[] == db.documents;
    assert db.communications + [] == db.communications;
  }

  lemma {:induction false} ExtractFlushed(py: Python, db: Db, application: Uuid, sources: seq<SourceText>, entities: seq<Entity>, response: string)
    ensures Flushed(db, NOTHING_STAGED.(factsReplaced := {application}, facts := FactsFrom(py, application, entities, sources),
                        audits := [Audit(application, "extract.trace", Excerpt(UserPrompt(sources)), Excerpt(response), None)]))
         == ExtractedDb(py, db, application, sources, entities, response)
  {
    hide WithStatuses, WithRawTexts, WithoutFactsOf, FactsFrom, Excerpt;
    NoStatuses(db.applications);
    NoTextsStaged(db.documents);
    assert db.communications + [] == db.communications;
  }

  lemma {:induction false} DegradedFlushed(db: Db, application: Uuid, seen: Status, errorClass: string, code: string, detail: string)
    ensures Flushed(db, NOTHING_STAGED.(statuses := StatusRow(application, seen, ManualReview),
                        audits := [Audit(application, "extract.degraded", None, Some(Redaction.DegradedExcerpt(errorClass + ": " + detail)), Some(code))]))
         == DegradedDb(db, application, seen, errorClass, code, detail)
  {
    StatusWritten(db, application, seen, ManualReview);
    AuditTrail.AssignedRows(db, application, seen, ManualReview);
    hide WithStatuses, WithRawTexts, WithoutFactsOf, Redaction.DegradedExcerpt, Assigned, StatusRow;
    NoTextsStaged(db.documents);
    NoFactsReplaced(db.facts);
    assert db.communications + [] == db.communications;
  }

  lemma {:induction false} ReconcileFlushed(rt: Runtime, db: Db, application: Uuid, anomalies: seq<Anomaly>)
    ensures Flushed(db, NOTHING_STAGED.(audits := AnomalyAudits(rt, application, anomalies))) == ReconciledDb(rt, db, application, anomalies)
  {
    hide WithStatuses, WithRawTexts, WithoutFactsOf, AnomalyAudits;
    NoStatuses(db.applications);
    NoTextsStaged(db.documents);
    NoFactsReplaced(db.facts);
    assert db.communications + [] == db.communications;
  }

  /** What the chase node stages. */
  function ChaseRows(application: Uuid, seen: Status, decision: Decision, id: Uuid, now: int): Staged {
    var rows := NOTHING_STAGED.(statuses := StatusRow(application, seen, FinalStatus(decision.missing)));
    if decision.alreadySent then rows
    else rows.(communications := [Communication(id, application, decision.channel, Outbound, Some(decision.content), now, None)],
               audits := [Audit(application, "chase.sent", None, Some(decision.content), None)])
  }

  lemma {:induction false} ChaseFlushed(db: Db, application: Uuid, seen: Status, decision: Decision, id: Uuid, now: int)
    ensures Flushed(db, ChaseRows(application, seen, decision, id, now)) == ChasedDb(db, application, seen, decision, id, now)
  {
    StatusWritten(db, application, seen, FinalStatus(decision.missing));
    AuditTrail.AssignedRows(db, application, seen, FinalStatus(decision.missing));
    hide WithStatuses, WithRawTexts, WithoutFactsOf, Assigned, StatusRow, FinalStatus;
    NoTextsStaged(db.documents);
    NoFactsReplaced(db.facts);
    assert db.communications + [] == db.communications && db.audits + [] == db.audits;
  }

  // ----- Validation -----

  /** Texts by document identifier; a later source replaces an earlier one. */
  ghost predicate TextsOf(docTexts: map<string, string>, sources: seq<SourceText>) {
    forall id: string :: (if id in docTexts then Some(docTexts[id]) else None) == DocumentText(sources, id)
  }

  ghost predicate ChatsOf(chatTexts: seq<string>, sources: seq<SourceText>) {
    forall quote :: SomeText(chatTexts, quote) <==> SomeChat(sources, quote)
  }

  predicate SomeText(texts: seq<string>, quote: string) { exists t | t in texts :: Words.Contains(t, quote) }

  ghost predicate SomeChat(sources: seq<SourceText>, quote: string) { exists source | source in sources :: QuotedInChat(source, quote) }

  method SplitSources(sources: seq<SourceText>) returns (docTexts: map<string, string>, chatTexts: seq<string>)
    ensures TextsOf(docTexts, sources) && ChatsOf(chatTexts, sources)
  {
    docTexts, chatTexts := map[], [];
    assert TextsOf(docTexts, sources[..0]) && ChatsOf(chatTexts, sources[..0]);
    hide TextsOf, ChatsOf;
    for i := 0 to |sources|
      invariant TextsOf(docTexts, sources[..i]) && ChatsOf(chatTexts, sources[..i])
    {
      SplitStep(docTexts, chatTexts, sources[..i], sources[i]);
      assert sources[..i + 1] == sources[..i] + [sources[i]];
      if NamesDocument(sources[i].documentId) {
        docTexts := docTexts[sources[i].documentId.value := sources[i].text];
      } else {
        chatTexts := chatTexts + [sources[i].text];
      }
    }
    assert sources[..|sources|] == sources;
  }

  lemma {:induction false} SplitStep(docTexts: map<string, string>, chatTexts: seq<string>, sources: seq<SourceText>, source: SourceText)
    requires TextsOf(docTexts, sources) && ChatsOf(chatTexts, sources)
    ensures TextsOf(if NamesDocument(source.documentId) then docTexts[source.documentId.value := source.text] else docTexts, sources + [source])
    ensures ChatsOf(if NamesDocument(source.documentId) then chatTexts else chatTexts + [source.text], sources + [source])
  {
    hide DocumentText, TextsOf, ChatsOf;
    TextStep(docTexts, sources, source);
    ChatStep(chatTexts, sources, source);
  }

  lemma {:induction false} DocumentTextStep(sources: seq<SourceText>, source: SourceText, id: string)
    ensures DocumentText(sources + [source], id)
         == if NamesDocument(source.documentId) && source.documentId.value == id then Some(source.text) else DocumentText(sources, id)
  {
    assert (sources + [source])[..|sources|] == sources;
  }

  lemma {:induction false} TextStep(docTexts: map<string, string>, sources: seq<SourceText>, source: SourceText)
    requires TextsOf(docTexts, sources)
    ensures TextsOf(if NamesDocument(source.documentId) then docTexts[source.documentId.value := source.text] else docTexts, sources + [source])
  {
    hide DocumentText;
    var texts := if NamesDocument(source.documentId) then docTexts[source.documentId.value := source.text] else docTexts;
    forall id: string ensures (if id in texts then Some(texts[id]) else None) == DocumentText(sources + [source], id) {
      DocumentTextStep(sources, source, id);
      assert (if id in docTexts then Some(docTexts[id]) else None) == DocumentText(sources, id);
    }
  }

  lemma {:induction false} ChatStep(chatTexts: seq<string>, sources: seq<SourceText>, source: SourceText)
    requires ChatsOf(chatTexts, sources)
    ensures ChatsOf(if NamesDocument(source.documentId) then chatTexts else chatTexts + [source.text], sources + [source])
  {
    hide Words.Contains;
    var texts := if NamesDocument(source.documentId) then chatTexts else chatTexts + [source.text];
    forall quote ensures SomeText(texts, quote) <==> SomeChat(sources + [source], quote) {
      assert SomeText(chatTexts, quote) <==> SomeChat(sources, quote);
      assert SomeChat(sources + [source], quote) <==> SomeChat(sources, quote) || QuotedInChat(source, quote);
      if texts != chatTexts { assert SomeText(texts, quote) <==> SomeText(chatTexts, quote) || Words.Contains(source.text, quote); }
    }
  }

  predicate Keep(entity: Entity, docTexts: map<string, string>, chatTexts: seq<string>) {
    && entity.key in KNOWN_FACT_KEYS
    && if NamesDocument(entity.documentId) then
         && entity.documentId.value in docTexts && docTexts[entity.documentId.value] != ""
         && entity.sourceQuote.Some? && entity.sourceQuote.value != ""
         && Words.Contains(docTexts[entity.documentId.value], entity.sourceQuote.value)
       else
         && entity.sourceQuote.Some? && entity.sourceQuote.value != ""
         && SomeText(chatTexts, entity.sourceQuote.value)
  }

  lemma {:induction false} KeepIsTraced(entity: Entity, docTexts: map<string, string>, chatTexts: seq<string>, sources: seq<SourceText>)
    requires TextsOf(docTexts, sources) && ChatsOf(chatTexts, sources)
    ensures Keep(entity, docTexts, chatTexts) <==> Traced(entity, sources)
  {
    hide Words.Contains, DocumentText, SomeText;
    if entity.sourceQuote.Some? {
      assert SomeText(chatTexts, entity.sourceQuote.value) <==> SomeChat(sources, entity.sourceQuote.value);
    }
    if NamesDocument(entity.documentId) {
      assert (if entity.documentId.value in docTexts then Some(docTexts[entity.documentId.value]) else None)
          == DocumentText(sources, entity.documentId.value);
    }
  }

  /** Exactly the traced entities, in their order. */
  method ValidateEntities(entities: seq<Entity>, sources: seq<SourceText>) returns (kept: seq<Entity>)
    ensures kept == Filter(TracedIn(sources), entities)
  {
    hide Traced, TextsOf, ChatsOf, Keep, Filter;
    var docTexts, chatTexts := SplitSources(sources);
    kept := [];
    ghost var traced := TracedIn(sources);
    FilterNothing(traced);
    assert entities[..0] == [];
    for i := 0 to |entities|
      invariant kept == Filter(traced, entities[..i])
    {
      KeepIsTraced(entities[i], docTexts, chatTexts, sources);
      FilterOneMore(traced, entities, i);
      if Keep(entities[i], docTexts, chatTexts) { kept := kept + [entities[i]]; }
    }
    assert entities[..|entities|] == entities;
  }

  lemma {:induction false} FilterNothing<T>(keep: T -> bool)
    ensures Filter(keep, []) == []
  {
  }

  lemma {:induction false} FilterOneMore<T>(keep: T -> bool, s: seq<T>, i: nat)
    requires i < |s|
    ensures Filter(keep, s[..i + 1]) == Filter(keep, s[..i]) + if keep(s[i]) then [s[i]] else []
  {
    assert s[..i + 1] == s[..i] + [s[i]];
    FilterAppend(keep, s[..i], [s[i]]);
    assert [s[i]][1..] == [];
  }

  // ----- The agent -----

  class Agent {
    const rt: Runtime
    const application: Uuid
    const session: Session
    // The status of the application row as this session holds it.
    var seen: Status

    constructor (rt: Runtime, session: Session, application: Uuid, seen: Status)
      ensures this.rt == rt && this.session == session && this.application == application && this.seen == seen
    {
      this.rt, this.session, this.application, this.seen := rt, session, application, seen;
    }

    /** `application.status = status`: staged only where it differs from what the session holds. */
    method AssignStatus(status: Status)
      requires session.staged.statuses == map[]
      modifies this`seen, session`staged
      ensures seen == status
      ensures session.staged == old(session.staged).(statuses := StatusRow(application, old(seen), status))
    {
      if status != seen {
        session.SetStatus(application, status);
        seen := status;
      }
    }

    method IngestRoute(order: seq<Uuid>, rows: seq<Communication>) returns (sources: seq<SourceText>)
      requires session.staged == NOTHING_STAGED && Listed(session.db, order)
      modifies session
      ensures session.staged == NOTHING_STAGED
      ensures sources == SourcesOf(LoadAll(rt, old(session.db).documents, order), rows)
      ensures session.db == Ingested(old(session.db), application, LoadAll(rt, old(session.db).documents, order))
    {
      hide Flushed, Ingested, LoadAll, DocumentSources, ChatSources, FreshTexts, ParseFailures;
      IngestFlushed(session.db, application, LoadAll(rt, session.db.documents, order));
      var parsed := ParseDocuments(order);
      var stated := GatherChat(rows);
      Commit();
      sources := parsed + stated;
    }

    method ParseDocuments(order: seq<Uuid>) returns (parsed: seq<SourceText>)
      requires session.staged == NOTHING_STAGED && Listed(session.db, order)
      modifies session`staged
      ensures var loaded := LoadAll(rt, session.db.documents, order);
              && parsed == DocumentSources(loaded)
              && session.staged == NOTHING_STAGED.(rawTexts := FreshTexts(loaded), audits := ParseFailures(application, loaded))
    {
      ghost var loaded := LoadAll(rt, session.db.documents, order);
      hide LoadAll, DocumentSources, FreshTexts, ParseFailures, ParseDocument;
      NothingLoaded(application);
      assert loaded[..0] == [];
      parsed := [];
      for i := 0 to |order|
        invariant i <= |loaded| && parsed == DocumentSources(loaded[..i])
        invariant session.staged == NOTHING_STAGED.(rawTexts := FreshTexts(loaded[..i]), audits := ParseFailures(application, loaded[..i]))
      {
        var id, document := order[i], session.db.documents[order[i]];
        LoadedAt(rt, session.db.documents, order, i);
        LoadedStep(application, loaded, i);
        if HasText(document) {
          parsed := parsed + [SourceText(id, Some(id), document.rawText.value)];
          continue;
        }
        var text := ParseDocument(rt, document);
        if text.Err? {
          session.AddAudit(Audit(application, "ingest.parse_failed", None, Some(text.error.message), Some(text.error.code)));
          continue;
        }
        session.SetRawText(id, text.value);
        parsed := parsed + [SourceText(id, Some(id), text.value)];
      }
      LoadsEach(rt, session.db.documents, order);
      assert loaded[..|order|] == loaded;
    }

    method GatherChat(rows: seq<Communication>) returns (stated: seq<SourceText>)
      ensures stated == ChatSources(rows)
    {
      hide ChatSource;
      stated := [];
      for i := 0 to |rows|
        invariant stated == ChatSources(rows[..i])
      {
        stated := stated + [ChatSource(rows[i])];
      }
      assert rows[..|rows|] == rows;
    }

    /** Pipeline rows carry no idempotency key, so their commits are never refused. */
    method Commit()
      requires forall c | c in session.staged.communications :: c.key.None?
      modifies session
      ensures session.db == Flushed(old(session.db), old(session.staged)) && session.staged == NOTHING_STAGED
    {
      var ok := session.Commit();
    }

    method ExtractTrace(sources: seq<SourceText>, outcome: Outcome) returns (degraded: bool)
      requires session.staged == NOTHING_STAGED
      modifies this`seen, session
      ensures session.staged == NOTHING_STAGED && degraded == (sources != [] && outcome.Failed?)
      ensures session.db == if sources == [] then old(session.db) else match outcome
                case Failed(errorClass, code, detail) => DegradedDb(old(session.db), application, old(seen), errorClass, code, detail)
                case Extracted(entities, response) => ExtractedDb(rt.python, old(session.db), application, sources, entities, response)
      ensures seen == if degraded then ManualReview else old(seen)
    {
      hide DegradedDb, ExtractedDb;
      if sources == [] { return false; }
      match outcome {
        case Failed(errorClass, code, detail) =>
          Degrade(errorClass, code, detail);
          degraded := true;
        case Extracted(entities, response) =>
          StoreFacts(sources, entities, response);
          degraded := false;
      }
    }

    method Degrade(errorClass: string, code: string, detail: string)
      requires session.staged == NOTHING_STAGED
      modifies this`seen, session
      ensures session.staged == NOTHING_STAGED && seen == ManualReview
      ensures session.db == DegradedDb(old(session.db), application, old(seen), errorClass, code, detail)
    {
      hide Flushed, DegradedDb, StatusRow, Redaction.DegradedExcerpt;
      DegradedFlushed(session.db, application, seen, errorClass, code, detail);
      AssignStatus(ManualReview);
      RecordDegradedAudit(errorClass, code, detail);
      assert session.staged.audits
          == [Audit(application, "extract.degraded", None, Some(Redaction.DegradedExcerpt(errorClass + ": " + detail)), Some(code))];
      Commit();
    }

    method StoreFacts(sources: seq<SourceText>, entities: seq<Entity>, response: string)
      requires session.staged == NOTHING_STAGED
      modifies session
      ensures session.staged == NOTHING_STAGED
      ensures session.db == ExtractedDb(rt.python, old(session.db), application, sources, entities, response)
    {
      hide Flushed, ExtractedDb, FactsFrom, UserPrompt, Excerpt, Filter, Traced;
      ExtractFlushed(rt.python, session.db, application, sources, entities, response);
      var kept := ValidateEntities(entities, sources);
      PersistFacts(kept, entities, sources);
      var prompt := BuildUserPrompt(sources);
      RecordExtractionAudit(prompt, response);
      assert session.staged.audits == [Audit(application, "extract.trace", Excerpt(prompt), Excerpt(response), None)];
      Commit();
    }

    method PersistFacts(kept: seq<Entity>, ghost entities: seq<Entity>, ghost sources: seq<SourceText>)
      requires session.staged == NOTHING_STAGED && kept == Filter(TracedIn(sources), entities)
      modifies session`staged
      ensures session.staged == NOTHING_STAGED.(factsReplaced := {application}, facts := FactsFrom(rt.python, application, entities, sources))
    {
      hide FactsFrom, Filter, Traced, FactFrom;
      FactsFromFilter(rt.python, application, entities, sources);
      session.DeleteFactsOf(application);
      ghost var facts := FactsFrom(rt.python, application, entities, sources);
      for i := 0 to |kept|
        invariant session.staged == NOTHING_STAGED.(factsReplaced := {application}, facts := facts[..i])
      {
        QuotedOf(kept[i], sources);
        session.AddFact(FactFrom(rt.python, application, kept[i]));
      }
      assert facts[..|kept|] == facts;
    }

    method RecordDegradedAudit(errorClass: string, code: string, detail: string)
      modifies session`staged
      ensures session.staged == old(session.staged).(audits := old(session.staged).audits
                + [Audit(application, "extract.degraded", None, Some(Redaction.DegradedExcerpt(errorClass + ": " + detail)), Some(code))])
    {
      var redacted := Redaction.RedactPii(errorClass + ": " + detail);
      session.AddAudit(Audit(application, "extract.degraded", None, Some(Cut(redacted.text, Redaction.EXCERPT)), Some(code)));
    }

    method RecordExtractionAudit(prompt: string, response: string)
      modifies session`staged
      ensures session.staged == old(session.staged).(audits := old(session.staged).audits
                + [Audit(application, "extract.trace", Excerpt(prompt), Excerpt(response), None)])
    {
      var promptExcerpt, responseExcerpt: Option<string> := None, None;
      if prompt != "" {
        var redacted := Redaction.RedactPii(Cut(prompt, Redaction.EXCERPT));
        promptExcerpt := Some(redacted.text);
      }
      if response != "" {
        var redacted := Redaction.RedactPii(Cut(response, Redaction.EXCERPT));
        responseExcerpt := Some(redacted.text);
      }
      session.AddAudit(Audit(application, "extract.trace", promptExcerpt, responseExcerpt, None));
    }

    method ReconcileFacts() returns (anomalies: seq<Anomaly>)
      requires session.staged == NOTHING_STAGED
      modifies session
      ensures session.staged == NOTHING_STAGED
      ensures multiset(anomalies) == AllConflicts(rt.python, FactsOf(old(session.db), application))
      ensures session.db == ReconciledDb(rt, old(session.db), application, anomalies)
    {
      ghost var db := session.db;
      hide AnomalyText, AnomalyAudits, AllConflicts, FactsOf, ReconciledDb;
      anomalies := FindAnomalies(rt.python, FactsOf(session.db, application));
      NoAnomalyAudits(rt, application);
      for i := 0 to |anomalies|
        invariant session.db == db
        invariant session.staged == NOTHING_STAGED.(audits := AnomalyAudits(rt, application, anomalies[..i]))
      {
        AnomalyAuditsStep(rt, application, anomalies, i);
        session.AddAudit(Audit(application, "reconcile.anomaly", None, Some(AnomalyText(rt.python, anomalies[i])), None));
      }
      assert anomalies[..|anomalies|] == anomalies;
      ReconcileFlushed(rt, db, application, anomalies);
      Commit();
    }

    method MissingRequirements() returns (missing: seq<string>)
      ensures missing == MissingKeys(session.db, application)
    {
      var present := PresentKeys(session.db, application);
      missing := [];
      assert REQUIRED_FACT_KEYS[..0] == [];
      hide PresentKeys;
      for i := 0 to |REQUIRED_FACT_KEYS|
        invariant missing == Missing(present, REQUIRED_FACT_KEYS[..i])
      {
        MissingStep(present, REQUIRED_FACT_KEYS, i);
        if REQUIRED_FACT_KEYS[i] !in present { missing := missing + [REQUIRED_FACT_KEYS[i]]; }
      }
      assert REQUIRED_FACT_KEYS[..|REQUIRED_FACT_KEYS|] == REQUIRED_FACT_KEYS;
    }

    /** The channel of a newest inbound communication. */
    method PickChannel() returns (channel: Channel)
      ensures PickedChannel(session.db, application, channel)
    {
      var rows := session.db.communications;
      var newest: Option<Communication> := None;
      for i := 0 to |rows|
        invariant newest.Some? ==> newest.value in rows[..i] && IsInbound(application, newest.value)
        invariant forall c | c in rows[..i] && IsInbound(application, c) :: newest.Some? && c.timestamp <= newest.value.timestamp
      {
        assert rows[..i + 1] == rows[..i] + [rows[i]];
        if IsInbound(application, rows[i]) && (newest.None? || rows[i].timestamp > newest.value.timestamp) {
          newest := Some(rows[i]);
        }
      }
      assert rows[..|rows|] == rows;
      channel := if newest.Some? then newest.value.channel else Sms;
      if newest.Some? { assert IsNewestInbound(session.db, application, newest.value); }
    }

    method ChaseAlreadySent(content: string) returns (sent: bool)
      ensures sent == (content in SentContents(session.db.communications, application))
    {
      SentMembers(session.db.communications, application, content);
      sent := exists c | c in session.db.communications :: IsOutbound(application, c) && c.content == Some(content);
    }

    method Chase(id: Uuid, now: int) returns (channel: Channel)
      requires session.staged == NOTHING_STAGED
      modifies this`seen, session
      ensures session.staged == NOTHING_STAGED && PickedChannel(old(session.db), application, channel)
      ensures session.db == ChasedDb(old(session.db), application, old(seen), Decide(old(session.db), application, channel), id, now)
      ensures seen == FinalStatus(MissingKeys(old(session.db), application))
    {
      var missing := MissingRequirements();
      channel := PickChannel();
      hide ChaseContent, MissingKeys, PickedChannel, Flushed, ChasedDb, SentContents;
      var content := ChaseContent(missing, channel);
      var alreadySent := ChaseAlreadySent(content);
      var decision := Decision(missing, channel, content, alreadySent);
      assert decision == Decide(session.db, application, channel);
      hide Decide;
      ChaseFlushed(session.db, application, seen, decision, id, now);
      StageChase(decision, id, now);
      Commit();
    }

    method StageChase(decision: Decision, id: Uuid, now: int)
      requires session.staged == NOTHING_STAGED
      modifies this`seen, session`staged
      ensures session.staged == ChaseRows(application, old(seen), decision, id, now) && seen == FinalStatus(decision.missing)
      ensures forall c | c in session.staged.communications :: c.key.None?
    {
      hide StatusRow;
      if !decision.alreadySent {
        session.AddCommunication(Communication(id, application, decision.channel, Outbound, Some(decision.content), now, None));
      }
      AssignStatus(if decision.missing == [] then ReadyForLos else PendingDocs);
      if !decision.alreadySent {
        session.AddAudit(Audit(application, "chase.sent", None, Some(decision.content), None));
      }
    }
  }

  lemma {:induction false} NothingLoaded(application: Uuid)
    ensures DocumentSources([]) == [] && FreshTexts([]) == map[] && ParseFailures(application, []) == []
  {
  }

  lemma {:induction false} LoadedAt(rt: Runtime, documents: map<Uuid, Document>, order: seq<Uuid>, i: nat)
    requires (forall d | d in order :: d in documents) && i < |order|
    ensures var loaded := LoadAll(rt, documents, order);
            |loaded| == |order| && loaded[i] == LoadOne(rt, order[i], documents[order[i]])
  {
  }

  lemma {:induction false} LoadsEach(rt: Runtime, documents: map<Uuid, Document>, order: seq<Uuid>)
    requires forall d | d in order :: d in documents
    ensures |LoadAll(rt, documents, order)| == |order|
  {
  }

  lemma {:induction false} LoadedStep(application: Uuid, loaded: seq<Loaded>, i: nat)
    requires i < |loaded|
    ensures DocumentSources(loaded[..i + 1])
         == DocumentSources(loaded[..i]) + if loaded[i].text.Ok? then [SourceText(loaded[i].id, Some(loaded[i].id), loaded[i].text.value)] else []
    ensures FreshTexts(loaded[..i + 1])
         == if loaded[i].isNew && loaded[i].text.Ok? then FreshTexts(loaded[..i])[loaded[i].id := loaded[i].text.value] else FreshTexts(loaded[..i])
    ensures ParseFailures(application, loaded[..i + 1])
         == ParseFailures(application, loaded[..i])
            + if loaded[i].text.Err?
              then [Audit(application, "ingest.parse_failed", None, Some(loaded[i].text.error.message), Some(loaded[i].text.error.code))] else []
  {
    assert loaded[..i + 1][..i] == loaded[..i];
  }

  lemma {:induction false} NoAnomalyAudits(rt: Runtime, application: Uuid)
    ensures AnomalyAudits(rt, application, []) == []
  {
  }

  lemma {:induction false} AnomalyAuditsStep(rt: Runtime, application: Uuid, anomalies: seq<Anomaly>, i: nat)
    requires i < |anomalies|
    ensures AnomalyAudits(rt, application, anomalies[..i + 1])
         == AnomalyAudits(rt, application, anomalies[..i])
            + [Audit(application, "reconcile.anomaly", None, Some(AnomalyText(rt.python, anomalies[i])), None)]
  {
    hide AnomalyText;
  }

  lemma {:induction false} QuotedOf(e: Entity, sources: seq<SourceText>)
    requires Traced(e, sources)
    ensures e.sourceQuote.Some?
  {
  }

  lemma {:induction false} MissingStep(present: set<string>, required: seq<string>, i: nat)
    requires i < |required|
    ensures Missing(present, required[..i + 1]) == Missing(present, required[..i]) + if required[i] in present then [] else [required[i]]
    decreases i
  {
    if i == 0 {
      assert required[..1][1..] == [];
    } else {
      MissingStep(present, required[1..], i - 1);
      assert required[..i + 1][1..] == required[1..][..i] && required[..i][1..] == required[1..][..i - 1];
    }
  }

  lemma {:induction false} SentMembers(communications: seq<Communication>, application: Uuid, content: string)
    ensures content in SentContents(communications, application)
        <==> exists c | c in communications :: IsOutbound(application, c) && c.content == Some(content)
  {
    if communications != [] {
      var n := |communications| - 1;
      SentMembers(communications[..n], application, content);
      assert communications == communications[..n] + [communications[n]];
    }
  }

  // ----- The whole run -----

  /** Entry step: a pending application is put in processing, in a commit of its own. */
  method EnterRun(rt: Runtime, session: Session, application: Uuid) returns (agent: Agent)
    requires session.staged == NOTHING_STAGED && application in session.db.applications
    modifies session
    ensures fresh(agent) && agent.rt == rt && agent.session == session && agent.application == application
    ensures session.staged == NOTHING_STAGED && session.db == Entered(old(session.db), application)
    ensures agent.seen == SeenBy(old(session.db), application)
  {
    hide Flushed, Entered;
    var status := session.db.applications[application].status;
    EnterFlushed(session.db, application);
    agent := new Agent(rt, session, application, status);
    if status == PendingDocs {
      agent.AssignStatus(Processing);
      agent.Commit();
    }
  }

  lemma {:induction false} EnterFlushed(db: Db, application: Uuid)
    requires application in db.applications
    ensures var status := db.applications[application].status;
            if status == PendingDocs
            then Flushed(db, NOTHING_STAGED.(statuses := StatusRow(application, status, Processing))) == Entered(db, application)
            else Entered(db, application) == db
  {
    var status := db.applications[application].status;
    StatusWritten(db, application, status, Processing);
    AuditTrail.AssignedRows(db, application, status, Processing);
    hide WithStatuses, WithRawTexts, WithoutFactsOf, StatusRow;
    NoTextsStaged(db.documents);
    NoFactsReplaced(db.facts);
    assert db.communications + [] == db.communications && db.audits + [] == db.audits;
  }

  /** One node, and the edge taken after it. */
  method RunNode(agent: Agent, node: Node, order: seq<Uuid>, rows: seq<Communication>, outcome: Outcome, id: Uuid, now: int,
                 ghost db: Db, ghost x: RunInput, sources: seq<SourceText>)
    returns (next: Node, sources': seq<SourceText>, ghost x': RunInput)
    requires agent.session.staged == NOTHING_STAGED && node != End
    requires x.order == order && x.rows == rows && x.outcome == outcome && x.id == id && x.now == now
    requires Reached(agent.rt, db, agent.application, x, node, agent.session.db, sources, agent.seen)
    modifies agent, agent.session
    ensures agent.session.staged == NOTHING_STAGED
    ensures x'.order == order && x'.rows == rows && x'.outcome == outcome && x'.id == id && x'.now == now
    ensures Reached(agent.rt, db, agent.application, x', next, agent.session.db, sources', agent.seen)
    ensures Ahead(next) < Ahead(node)
  {
    hide Reached, Ingested, ExtractedDb, DegradedDb, ReconciledDb, ChasedDb, Decide, AllConflicts, PickedChannel, FactsOf, LoadAll, SourcesOf, Listed;
    ghost var before, seen := agent.session.db, agent.seen;
    sources', x' := sources, x;
    var degraded := false;
    match node {
      case IngestRoute =>
        ReachedDocuments(agent.rt, db, agent.application, x, before, sources, seen);
        IngestReached(agent.rt, db, agent.application, x, before, sources, seen);
        sources' := agent.IngestRoute(order, rows);
      case ExtractTrace =>
        degraded := agent.ExtractTrace(sources, outcome);
        TraceReached(agent.rt, db, agent.application, x, before, sources, seen, agent.session.db, degraded, agent.seen);
      case ReconcileFacts =>
        var anomalies := agent.ReconcileFacts();
        ReconcileReached(agent.rt, db, agent.application, x, before, sources, seen, anomalies);
        x' := x.(anomalies := anomalies);
      case Chase =>
        var channel := agent.Chase(id, now);
        ChaseReached(agent.rt, db, agent.application, x, before, sources, seen, channel, agent.seen);
        x' := x.(channel := channel);
    }
    next := NextNode(node, degraded);
  }

  /** The graph driven from its entry to its end: the whole run, for inputs that answer
      the run's queries as the tables say. `order` and `rows` are the orders in which
      the database returns documents and messages. */
  method RunPipeline(rt: Runtime, session: Session, application: Uuid, order: seq<Uuid>, rows: seq<Communication>,
                     outcome: Outcome, id: Uuid, now: int) returns (ghost x: RunInput)
    requires session.staged == NOTHING_STAGED
    requires Enumerates(order, DocsOf(session.db, application)) && ChatRows(session.db, application, rows) && SchemaValid(outcome)
    modifies session
    ensures session.staged == NOTHING_STAGED
    ensures x.order == order && x.rows == rows && x.outcome == outcome
    ensures application !in old(session.db).applications ==> session.db == old(session.db)
    ensures application in old(session.db).applications ==>
              Possible(rt, old(session.db), application, x) && session.db == Ran(rt, old(session.db), application, x)
  {
    x := RunInput(order, rows, outcome, [], Sms, id, now);
    if application !in session.db.applications { return; }
    ghost var db := session.db;
    ListedDocs(db, application, order);
    var agent := EnterRun(rt, session, application);
    var node, sources := IngestRoute, [];
    EntryReached(rt, db, application, x, sources);
    hide Enumerates, ChatRows, DocsOf, Entered, SeenBy, Listed, Reached, Possible, Ran, SchemaValid, Ingested, ExtractedDb, DegradedDb,
         ReconciledDb, ChasedDb, Decide, AllConflicts, PickedChannel, FactsOf, LoadAll, SourcesOf;
    while node != End
      invariant agent.rt == rt && agent.session == session && agent.application == application && fresh(agent)
      invariant session.staged == NOTHING_STAGED
      invariant x.order == order && x.rows == rows && x.outcome == outcome && x.id == id && x.now == now
      invariant Reached(rt, db, application, x, node, session.db, sources, agent.seen)
      decreases Ahead(node)
    {
      node, sources, x := RunNode(agent, node, order, rows, outcome, id, now, db, x, sources);
    }
    EndReached(rt, db, application, x, session.db, sources, agent.seen);
  }

  /** Where the run stands before each node. */
  ghost predicate Reached(rt: Runtime, db: Db, a: Uuid, x: RunInput, node: Node, current: Db, sources: seq<SourceText>, seen: Status) {
    && a in db.applications && Listed(db, x.order)
    && Enumerates(x.order, DocsOf(db, a)) && ChatRows(db, a, x.rows) && SchemaValid(x.outcome)
    && (node != End ==> seen == SeenBy(db, a))
    && match node
       case IngestRoute => current == Entered(db, a)
       case ExtractTrace => current == AfterIngest(rt, db, a, x) && sources == SourcesBy(rt, db, x)
       case ReconcileFacts => current == AfterTrace(rt, db, a, x) && !DegradedBy(rt, db, x)
       case Chase => current == AfterReconcile(rt, db, a, x) && !DegradedBy(rt, db, x)
                     && multiset(x.anomalies) == AllConflicts(rt.python, FactsOf(AfterTrace(rt, db, a, x), a))
       case End => current == Ran(rt, db, a, x) && Possible(rt, db, a, x)
  }

  lemma {:induction false} EntryReached(rt: Runtime, db: Db, a: Uuid, x: RunInput, sources: seq<SourceText>)
    requires a in db.applications && Listed(db, x.order)
    requires Enumerates(x.order, DocsOf(db, a)) && ChatRows(db, a, x.rows) && SchemaValid(x.outcome)
    ensures Reached(rt, db, a, x, IngestRoute, Entered(db, a), sources, SeenBy(db, a))
  {
    hide Enumerates, ChatRows, DocsOf, Entered, SeenBy, SchemaValid;
  }

  lemma {:induction false} ReachedDocuments(rt: Runtime, db: Db, a: Uuid, x: RunInput, current: Db, sources: seq<SourceText>, seen: Status)
    requires Reached(rt, db, a, x, IngestRoute, current, sources, seen)
    ensures Listed(current, x.order)
  {
    EnteredKeeps(db, a);
    hide Enumerates, ChatRows, DocsOf, Entered, SeenBy, SchemaValid;
  }

  lemma {:induction false} IngestReached(rt: Runtime, db: Db, a: Uuid, x: RunInput, before: Db, sources: seq<SourceText>, seen: Status)
    requires Reached(rt, db, a, x, IngestRoute, before, sources, seen) && Listed(before, x.order)
    ensures var loaded := LoadAll(rt, before.documents, x.order);
            Reached(rt, db, a, x, ExtractTrace, Ingested(before, a, loaded), SourcesOf(loaded, x.rows), seen)
  {
    EnteredKeeps(db, a);
    hide Enumerates, ChatRows, DocsOf, Entered, SeenBy, SchemaValid, Listed, LoadAll, SourcesOf, Ingested;
  }

  lemma {:induction false} TraceReached(rt: Runtime, db: Db, a: Uuid, x: RunInput, before: Db, sources: seq<SourceText>, seen: Status,
                                        current: Db, degraded: bool, seen': Status)
    requires Reached(rt, db, a, x, ExtractTrace, before, sources, seen)
    requires degraded == (sources != [] && x.outcome.Failed?) && seen' == (if degraded then ManualReview else seen)
    requires current == if sources == [] then before else match x.outcome
               case Failed(errorClass, code, detail) => DegradedDb(before, a, seen, errorClass, code, detail)
               case Extracted(entities, response) => ExtractedDb(rt.python, before, a, sources, entities, response)
    ensures Reached(rt, db, a, x, NextNode(ExtractTrace, degraded), current, sources, seen')
  {
    hide Enumerates, ChatRows, DocsOf, SeenBy, SchemaValid, Listed, AfterIngest, SourcesBy, DegradedDb, ExtractedDb;
  }

  lemma {:induction false} ReconcileReached(rt: Runtime, db: Db, a: Uuid, x: RunInput, before: Db, sources: seq<SourceText>, seen: Status, anomalies: seq<Anomaly>)
    requires Reached(rt, db, a, x, ReconcileFacts, before, sources, seen)
    requires multiset(anomalies) == AllConflicts(rt.python, FactsOf(before, a))
    ensures Reached(rt, db, a, x.(anomalies := anomalies), Chase, ReconciledDb(rt, before, a, anomalies), sources, seen)
  {
    InputUnused(rt, db, a, x, x.(anomalies := anomalies));
    hide Enumerates, ChatRows, DocsOf, SeenBy, SchemaValid, Listed, AfterTrace, DegradedBy, ReconciledDb, AllConflicts, FactsOf;
  }

  lemma {:induction false} ChaseReached(rt: Runtime, db: Db, a: Uuid, x: RunInput, before: Db, sources: seq<SourceText>, seen: Status, channel: Channel, seen': Status)
    requires Reached(rt, db, a, x, Chase, before, sources, seen) && PickedChannel(before, a, channel)
    ensures Reached(rt, db, a, x.(channel := channel), End, ChasedDb(before, a, seen, Decide(before, a, channel), x.id, x.now), sources, seen')
  {
    hide Enumerates, ChatRows, DocsOf, SeenBy, SchemaValid, Listed, AfterTrace, AfterReconcile, DegradedBy, AllConflicts, FactsOf,
         PickedChannel, Decide, ChasedDb;
    InputUnused(rt, db, a, x, x.(channel := channel));
    ReconcileUnused(rt, db, a, x, channel);
    TraceKeepsCommunications(rt, db, a, x);
    SameCommunicationsSameChannel(before, db, a, channel);
  }

  lemma {:induction false} ReconcileUnused(rt: Runtime, db: Db, a: Uuid, x: RunInput, channel: Channel)
    requires a in db.applications && Listed(db, x.order)
    ensures AfterReconcile(rt, db, a, x.(channel := channel)) == AfterReconcile(rt, db, a, x)
  {
    InputUnused(rt, db, a, x, x.(channel := channel));
    hide AfterTrace, ReconciledDb;
  }

  lemma {:induction false} EndReached(rt: Runtime, db: Db, a: Uuid, x: RunInput, current: Db, sources: seq<SourceText>, seen: Status)
    requires Reached(rt, db, a, x, End, current, sources, seen)
    ensures a in db.applications && Possible(rt, db, a, x) && current == Ran(rt, db, a, x)
  {
    hide Enumerates, ChatRows, DocsOf, SchemaValid, Possible, Ran;
  }

  lemma {:induction false} ListedDocs(db: Db, application: Uuid, order: seq<Uuid>)
    requires Enumerates(order, DocsOf(db, application))
    ensures Listed(db, order)
  {
    var members := set d | d in order;
    assert forall d | d in order :: d in members;
  }
}
