/** Traceability over every history: facts stay backed by stored text, and the evidence
    for them is never overwritten. */
module Traceability {
  import opened Basics
  import opened Facts
  import opened Prompt
  import opened Tables
  import opened Intake
  import opened Nodes
  import opened System
  import opened ExactlyOnce
  import Redaction
  import Words

  // ----- Facts and their evidence -----

  /** The fact's snippet stands in the stored text of its document or, without one, in a stored inbound message. */
  ghost predicate Backed(db: Db, f: Fact) {
    && f.key in KNOWN_FACT_KEYS && f.sourceSnippet != ""
    && match f.documentId
       case Some(d) =>
         && d in db.documents && db.documents[d].application == f.application
         && db.documents[d].rawText.Some? && Words.Contains(db.documents[d].rawText.value, f.sourceSnippet)
       case None =>
         exists c | c in db.communications ::
           && c.application == f.application && c.direction == Inbound && c.content.Some?
           && Words.Contains(c.content.value, f.sourceSnippet)
  }

  ghost predicate FactsBacked(db: Db) { forall f | f in db.facts :: Backed(db, f) }

  /** Stored text is what parsing the stored file gives. */
  ghost predicate TextsParsed(rt: Runtime, documents: map<Uuid, Document>) {
    forall d | d in documents && documents[d].rawText.Some? && documents[d].rawText.value != "" ::
      ParseDocument(rt, documents[d]) == Ok(documents[d].rawText.value)
  }

  ghost predicate LoadedOk(rt: Runtime, documents: map<Uuid, Document>, application: Uuid, l: Loaded) {
    && l.id in documents && documents[l.id].application == application
    && ParseDocument(rt, documents[l.id]) == l.text
    && (!l.isNew ==> l.text.Ok? && l.text.value != "" && documents[l.id].rawText == Some(l.text.value))
  }

  ghost predicate SourceOk(db: Db, application: Uuid, source: SourceText) {
    match source.documentId
    case Some(d) =>
      && d in db.documents && db.documents[d].application == application
      && (source.text != "" ==> db.documents[d].rawText == Some(source.text))
    case None => exists c | c in db.communications :: IsChat(application, c) && c.content == Some(source.text)
  }

  ghost predicate RunOk(rt: Runtime, db: Db, run: Run) {
    match run.state
    case AtIngestCommit(loaded) => forall l | l in loaded :: LoadedOk(rt, db.documents, run.application, l)
    case AtExtract(sources) => forall source | source in sources :: SourceOk(db, run.application, source)
    case _ => true
  }

  ghost predicate AllRunsOk(rt: Runtime, db: Db, runs: seq<Run>) { forall run | run in runs :: RunOk(rt, db, run) }

  ghost predicate Traceable(rt: Runtime, s: State) {
    FactsBacked(s.db) && TextsParsed(rt, s.db.documents) && AllRunsOk(rt, s.db, s.runs)
  }

  /** Evidence only grows: messages stay, documents stay, and non-empty text is never replaced. */
  ghost predicate EvidenceKept(db: Db, db': Db) {
    && (forall c | c in db.communications :: c in db'.communications)
    && (forall d | d in db.documents :: d in db'.documents && Bare(db'.documents[d]) == Bare(db.documents[d]))
    && (forall d | d in db.documents && db.documents[d].rawText.Some? && db.documents[d].rawText.value != "" ::
          db'.documents[d].rawText == db.documents[d].rawText)
  }

  lemma {:induction false} KeptParses(rt: Runtime, a: Document, b: Document)
    requires Bare(a) == Bare(b)
    ensures ParseDocument(rt, a) == ParseDocument(rt, b)
  {
  }

  lemma {:induction false} EvidenceKeepsFact(db: Db, db': Db, f: Fact)
    requires EvidenceKept(db, db') && Backed(db, f)
    ensures Backed(db', f)
  {
    if f.documentId.Some? {
      var d := f.documentId.value;
      assert Bare(db'.documents[d]).application == Bare(db.documents[d]).application;
      NothingInEmpty(f.sourceSnippet);
    }
  }

  /** An empty text contains no quote, so a backed fact's document has text. */
  lemma {:induction false} NothingInEmpty(quote: string)
    ensures !Words.Contains("", quote)
  {
    if quote != "" {
      assert Lower("") == "";
      assert Words.Norm("") == "";
    }
  }

  lemma {:induction false} EvidenceKeepsRun(rt: Runtime, db: Db, db': Db, run: Run)
    requires EvidenceKept(db, db') && RunOk(rt, db, run)
    ensures RunOk(rt, db', run)
  {
    match run.state
    case AtIngestCommit(loaded) =>
      forall l | l in loaded ensures LoadedOk(rt, db'.documents, run.application, l) {
        assert LoadedOk(rt, db.documents, run.application, l);
        KeptParses(rt, db.documents[l.id], db'.documents[l.id]);
        assert Bare(db'.documents[l.id]).application == Bare(db.documents[l.id]).application;
      }
    case AtExtract(sources) =>
      forall source | source in sources ensures SourceOk(db', run.application, source) {
        assert SourceOk(db, run.application, source);
        if source.documentId.Some? {
          var d := source.documentId.value;
          assert Bare(db'.documents[d]).application == Bare(db.documents[d]).application;
        }
      }
    case _ =>
  }

  lemma {:induction false} EvidenceKeepsAll(rt: Runtime, db: Db, db': Db, runs: seq<Run>)
    requires EvidenceKept(db, db')
    ensures AllRunsOk(rt, db, runs) ==> AllRunsOk(rt, db', runs)
    ensures FactsBacked(db) && db'.facts == db.facts ==> FactsBacked(db')
  {
    hide EvidenceKept, RunOk, Backed;
    if AllRunsOk(rt, db, runs) {
      forall run | run in runs ensures RunOk(rt, db', run) { EvidenceKeepsRun(rt, db, db', run); }
    }
    if FactsBacked(db) && db'.facts == db.facts {
      forall f | f in db'.facts ensures Backed(db', f) { EvidenceKeepsFact(db, db', f); }
    }
  }

  // ----- Requests -----

  /** A request step leaves the tables alone or commits one staged message. */
  lemma {:induction false} RequestStepDb(cfg: Config, rt: Runtime, s: State, step: Step)
    requires Sound(cfg, s) && Enabled(cfg, rt, s, step) && IsRequestStep(step)
    ensures var s' := Apply(cfg, rt, s, step);
            s'.db == s.db || exists staging :: Committable(s.db, staging) && s'.db == Committed(s.db, staging)
  {
    hide StageMessage, ReplayAck, KeyFor, NewestOpen, NewDraw, Enumerates, KeyCommitted, Committed, Committable, RunsKnown,
         TablesOk, CacheOk, AllSeparate, EveryRowWon, Winners;
    if step.CommitMessage? {
      var q := s.requests[step.r];
      PreparedFacts(cfg, s, step.r);
      if !KeyCommitted(s.db, q.state.staging) {
        FitsCommittable(cfg, s.db, q, q.state.staging);
      }
    }
  }

  lemma {:induction false} PreparedFacts(cfg: Config, s: State, r: nat)
    requires AllRequestsOk(cfg, s.requests, s.db, s.drawn) && RequestAt(s, r) && s.requests[r].state.Prepared?
    ensures StagingFits(cfg, s.requests[r], s.requests[r].state.staging) && StillPrivate(s.db, s.requests[r].state.staging)
  {
    var q := s.requests[r];
    assert q in s.requests && RequestOk(cfg, Winners(s.requests), s.db, s.drawn, q);
    hide AnswerOk, IsCommitted, KeyIn, StillPrivate, OwnIds, StagingFits, KeyFor, Winners;
  }

  lemma {:induction false} CommitKeepsEvidence(rt: Runtime, db: Db, staging: Staging)
    requires Committable(db, staging) && TextsParsed(rt, db.documents)
    ensures EvidenceKept(db, Committed(db, staging)) && TextsParsed(rt, Committed(db, staging).documents)
    ensures Committed(db, staging).facts == db.facts
  {
    CommitRows(db, staging);
    hide Committable, IsCommitted, ParseDocument, DocumentMap;
  }

  lemma {:induction false} RequestStepTraceable(cfg: Config, rt: Runtime, s: State, step: Step)
    requires Sound(cfg, s) && Traceable(rt, s) && Enabled(cfg, rt, s, step) && IsRequestStep(step)
    ensures Traceable(rt, Apply(cfg, rt, s, step)) && EvidenceKept(s.db, Apply(cfg, rt, s, step).db)
  {
    RequestStepDb(cfg, rt, s, step);
    RequestStepCarriesRuns(cfg, rt, s, step);
    hide Apply, Enabled, Sound, Committed, Committable, FactsBacked, TextsParsed, AllRunsOk, RunsCarriedOver;
    var s' := Apply(cfg, rt, s, step);
    if s'.db == s.db {
      assert EvidenceKept(s.db, s.db);
    } else {
      var staging :| Committable(s.db, staging) && s'.db == Committed(s.db, staging);
      CommitKeepsEvidence(rt, s.db, staging);
      hide EvidenceKept;
      EvidenceKeepsAll(rt, s.db, s'.db, s.runs);
    }
  }

  // ----- Ingest -----

  lemma {:induction false} FreshTextsParsed(rt: Runtime, documents: map<Uuid, Document>, application: Uuid, loaded: seq<Loaded>)
    requires forall l | l in loaded :: LoadedOk(rt, documents, application, l)
    ensures forall d | d in FreshTexts(loaded) :: d in documents && ParseDocument(rt, documents[d]) == Ok(FreshTexts(loaded)[d])
    ensures forall l | l in loaded && l.isNew && l.text.Ok? :: l.id in FreshTexts(loaded)
  {
    hide ParseDocument;
    if loaded != [] {
      var n := |loaded| - 1;
      assert loaded == loaded[..n] + [loaded[n]];
      assert LoadedOk(rt, documents, application, loaded[n]);
      FreshTextsParsed(rt, documents, application, loaded[..n]);
    }
  }

  lemma {:induction false} IngestKeepsEvidence(rt: Runtime, db: Db, application: Uuid, loaded: seq<Loaded>)
    requires TextsParsed(rt, db.documents) && forall l | l in loaded :: LoadedOk(rt, db.documents, application, l)
    ensures var db' := Ingested(db, application, loaded);
            EvidenceKept(db, db') && TextsParsed(rt, db'.documents) && db'.facts == db.facts
  {
    hide TextsParsed, LoadedOk, FreshTexts, ParseFailures;
    FreshTextsParsed(rt, db.documents, application, loaded);
    WrittenTextsParsed(rt, db.documents, FreshTexts(loaded));
    hide ParseDocument;
  }

  /** Writing what parsing gives changes no text that was there. */
  lemma {:induction false} WrittenTextsParsed(rt: Runtime, documents: map<Uuid, Document>, texts: map<Uuid, string>)
    requires TextsParsed(rt, documents)
    requires forall d | d in texts :: d in documents && ParseDocument(rt, documents[d]) == Ok(texts[d])
    ensures var after := WithRawTexts(documents, texts);
            && TextsParsed(rt, after) && after.Keys == documents.Keys
            && forall d | d in documents ::
                 Bare(after[d]) == Bare(documents[d]) && (HasText(documents[d]) ==> after[d].rawText == documents[d].rawText)
  {
    hide ParseDocument;
    var after := WithRawTexts(documents, texts);
    forall d | d in documents
      ensures Bare(after[d]) == Bare(documents[d]) && ParseDocument(rt, after[d]) == ParseDocument(rt, documents[d])
    {
      KeptParses(rt, documents[d], after[d]);
    }
  }

  lemma {:induction false} RawTextAfter(documents: map<Uuid, Document>, texts: map<Uuid, string>, d: Uuid)
    requires d in documents
    ensures var after := WithRawTexts(documents, texts);
            && d in after && after[d].application == documents[d].application
            && after[d].rawText == if d in texts then Some(texts[d]) else documents[d].rawText
  {
  }

  /** After the commit every parsed text is the stored text of its document. */
  lemma {:induction false} IngestStoresSources(rt: Runtime, db: Db, application: Uuid, loaded: seq<Loaded>, l: Loaded)
    requires forall l | l in loaded :: LoadedOk(rt, db.documents, application, l)
    requires l in loaded && l.text.Ok?
    ensures SourceOk(Ingested(db, application, loaded), application, SourceText(l.id, Some(l.id), l.text.value))
  {
    hide WithRawTexts, FreshTexts, ParseFailures, ParseDocument;
    FreshTextsParsed(rt, db.documents, application, loaded);
    assert LoadedOk(rt, db.documents, application, l);
    RawTextAfter(db.documents, FreshTexts(loaded), l.id);
  }

  lemma {:induction false} DocumentSourcesFrom(loaded: seq<Loaded>)
    ensures forall source | source in DocumentSources(loaded) ::
              exists l | l in loaded :: l.text.Ok? && source == SourceText(l.id, Some(l.id), l.text.value)
  {
    if loaded != [] {
      var n := |loaded| - 1;
      assert loaded == loaded[..n] + [loaded[n]];
      DocumentSourcesFrom(loaded[..n]);
    }
  }

  lemma {:induction false} ChatSourceOk(db: Db, application: Uuid, rows: seq<Communication>, c: Communication)
    requires ChatRows(db, application, rows) && c in rows
    ensures IsChat(application, c) && c in db.communications && SourceOk(db, application, ChatSource(c))
  {
    FilterMembers((c: Communication) => IsChat(application, c), db.communications);
    assert c in multiset(rows);
    assert c in Filter((c: Communication) => IsChat(application, c), db.communications);
  }

  lemma {:induction false} IngestSourcesOk(rt: Runtime, db: Db, application: Uuid, loaded: seq<Loaded>, rows: seq<Communication>)
    requires TextsParsed(rt, db.documents) && forall l | l in loaded :: LoadedOk(rt, db.documents, application, l)
    requires ChatRows(db, application, rows)
    ensures forall source | source in SourcesOf(loaded, rows) :: SourceOk(Ingested(db, application, loaded), application, source)
  {
    hide TextsParsed, LoadedOk, ChatRows, ParseDocument;
    var db' := Ingested(db, application, loaded);
    DocumentSourcesFrom(loaded);
    forall source | source in SourcesOf(loaded, rows) ensures SourceOk(db', application, source) {
      if source in DocumentSources(loaded) {
        var l :| l in loaded && l.text.Ok? && source == SourceText(l.id, Some(l.id), l.text.value);
        IngestStoresSources(rt, db, application, loaded, l);
      } else {
        var i :| 0 <= i < |rows| && source == ChatSource(rows[i]);
        ChatSourceOk(db, application, rows, rows[i]);
        assert db'.communications == db.communications;
      }
    }
  }

  lemma {:induction false} LoadedAllOk(rt: Runtime, db: Db, application: Uuid, order: seq<Uuid>)
    requires TextsParsed(rt, db.documents) && Enumerates(order, DocsOf(db, application))
    requires forall d | d in order :: d in db.documents && db.documents[d].application == application
    ensures forall l | l in LoadAll(rt, db.documents, order) :: LoadedOk(rt, db.documents, application, l)
  {
    hide ParseDocument, Enumerates;
    forall l | l in LoadAll(rt, db.documents, order) ensures LoadedOk(rt, db.documents, application, l) {
      var i :| 0 <= i < |order| && l == LoadOne(rt, order[i], db.documents[order[i]]);
      assert order[i] in order;
    }
  }

  // ----- Extract -----

  lemma {:induction false} DocumentTextFrom(sources: seq<SourceText>, id: string)
    requires DocumentText(sources, id).Some?
    ensures exists source | source in sources :: source.documentId == Some(id) && source.text == DocumentText(sources, id).value
  {
    var n := |sources| - 1;
    var last := sources[n];
    if NamesDocument(last.documentId) && last.documentId.value == id {
      assert last in sources;
    } else {
      DocumentTextFrom(sources[..n], id);
      var source :| source in sources[..n] && source.documentId == Some(id) && source.text == DocumentText(sources[..n], id).value;
      assert source in sources;
    }
  }

  lemma {:induction false} TracedFactBacked(py: Python, db: Db, application: Uuid, sources: seq<SourceText>, e: Entity)
    requires Nodes.Traced(e, sources) && forall source | source in sources :: SourceOk(db, application, source)
    ensures Backed(db, FactFrom(py, application, e))
  {
    hide Words.Contains;
    var quote := e.sourceQuote.value;
    if NamesDocument(e.documentId) {
      var id := e.documentId.value;
      DocumentTextFrom(sources, id);
      var source :| source in sources && source.documentId == Some(id) && source.text == DocumentText(sources, id).value;
      assert SourceOk(db, application, source);
    } else {
      var source :| source in sources && QuotedInChat(source, quote);
      assert SourceOk(db, application, source);
      ChatHasNoDocument(db, application, source);
    }
  }

  /** Identifiers of stored documents are never empty. */
  lemma {:induction false} ChatHasNoDocument(db: Db, application: Uuid, source: SourceText)
    requires SourceOk(db, application, source) && !NamesDocument(source.documentId)
    ensures source.documentId.None?
  {
  }

  lemma {:induction false} ExtractedFactsBacked(py: Python, db: Db, application: Uuid, sources: seq<SourceText>, entities: seq<Entity>)
    requires forall source | source in sources :: SourceOk(db, application, source)
    ensures forall f | f in FactsFrom(py, application, entities, sources) :: Backed(db, f) && f.application == application
  {
    hide Backed, Nodes.Traced, SourceOk;
    if entities != [] {
      var n := |entities| - 1;
      ExtractedFactsBacked(py, db, application, sources, entities[..n]);
      if Nodes.Traced(entities[n], sources) { TracedFactBacked(py, db, application, sources, entities[n]); }
    }
  }

  lemma {:induction false} ExtractKeepsFacts(py: Python, db: Db, application: Uuid, sources: seq<SourceText>, entities: seq<Entity>, response: string)
    requires FactsBacked(db) && forall source | source in sources :: SourceOk(db, application, source)
    ensures FactsBacked(ExtractedDb(py, db, application, sources, entities, response))
  {
    hide FactsFrom, SourceOk, Excerpt, Backed, WithoutFactsOf;
    var db' := ExtractedDb(py, db, application, sources, entities, response);
    ExtractedFactsBacked(py, db, application, sources, entities);
    WithoutFactsOfMembers(db.facts, {application});
    forall f | f in db'.facts ensures Backed(db', f) {
      assert f in WithoutFactsOf(db.facts, {application}) || f in FactsFrom(py, application, entities, sources);
      BackedStays(db, db', f);
    }
  }

  lemma {:induction false} BackedStays(db: Db, db': Db, f: Fact)
    requires Backed(db, f) && db'.documents == db.documents && db'.communications == db.communications
    ensures Backed(db', f)
  {
  }

  // ----- Every step of a run -----

  /** The step moves run k to a state that is fine on the new tables. */
  lemma {:induction false} MovedRunOk(rt: Runtime, s: State, s': State, step: Step)
    requires !IsRequestStep(step) && RunMoved(s, s', step) && AllRunsOk(rt, s'.db, s.runs)
    requires step.StartRun? ==> |s'.runs| > |s.runs| ==> RunOk(rt, s'.db, s'.runs[|s.runs|])
    requires !step.StartRun? ==> RunOk(rt, s'.db, s'.runs[step.k])
    ensures AllRunsOk(rt, s'.db, s'.runs)
  {
    hide RunOk;
    forall run | run in s'.runs ensures RunOk(rt, s'.db, run) {
      var i :| 0 <= i < |s'.runs| && s'.runs[i] == run;
      if step.StartRun? {
        if i < |s.runs| && s'.runs != s.runs { assert run == s'.runs[..|s.runs|][i]; }
        assert i < |s.runs| ==> run in s.runs;
      } else if i != step.k {
        assert run == s.runs[i];
      }
    }
  }

  ghost predicate SameEvidenceTables(db: Db, db': Db) {
    db'.documents == db.documents && (forall c | c in db.communications :: c in db'.communications)
  }

  lemma {:induction false} SameTablesKeep(rt: Runtime, db: Db, db': Db, runs: seq<Run>)
    requires SameEvidenceTables(db, db') && TextsParsed(rt, db.documents) && AllRunsOk(rt, db, runs)
    ensures EvidenceKept(db, db') && TextsParsed(rt, db'.documents) && AllRunsOk(rt, db', runs)
    ensures FactsBacked(db) && db'.facts == db.facts ==> FactsBacked(db')
  {
    EvidenceKeepsAll(rt, db, db', runs);
    hide AllRunsOk, FactsBacked, ParseDocument;
  }

  lemma {:induction false} ChasedTables(db: Db, application: Uuid, seen: Status, decision: Decision, id: Uuid, now: int)
    ensures var db' := ChasedDb(db, application, seen, decision, id, now); SameEvidenceTables(db, db') && db'.facts == db.facts
  {
  }

  lemma {:induction false} DegradedTables(db: Db, application: Uuid, seen: Status, errorClass: string, code: string, detail: string)
    ensures var db' := DegradedDb(db, application, seen, errorClass, code, detail);
            SameEvidenceTables(db, db') && db'.facts == db.facts && db'.communications == db.communications
  {
    hide Redaction.DegradedExcerpt;
  }

  lemma {:induction false} ExtractStepTraceable(rt: Runtime, s: State, k: nat, outcome: Outcome)
    requires Traceable(rt, s) && RunAt(s, k) && s.runs[k].state.AtExtract?
    ensures var s' := AfterExtract(rt, s, k, outcome);
            && SameEvidenceTables(s.db, s'.db) && FactsBacked(s'.db)
            && (s'.runs[k].state.AtReconcile? || s'.runs[k].state.Done?)
  {
    var run, s' := s.runs[k], AfterExtract(rt, s, k, outcome);
    assert run in s.runs && RunOk(rt, s.db, run);
    hide SourceOk, Backed, TextsParsed, AllRunsOk, ExtractedDb, DegradedDb, FactsBacked;
    if run.state.sources != [] {
      match outcome
      case Failed(errorClass, code, detail) =>
        DegradedTables(s.db, run.application, run.seen, errorClass, code, detail);
        FactsUntouched(s.db, s'.db);
      case Extracted(entities, response) =>
        ExtractKeepsFacts(rt.python, s.db, run.application, run.state.sources, entities, response);
        ExtractedTables(rt.python, s.db, run.application, run.state.sources, entities, response);
    }
  }

  lemma {:induction false} ExtractedTables(py: Python, db: Db, application: Uuid, sources: seq<SourceText>, entities: seq<Entity>, response: string)
    ensures SameEvidenceTables(db, ExtractedDb(py, db, application, sources, entities, response))
  {
    hide FactsFrom, Excerpt;
  }

  lemma {:induction false} FactsUntouched(db: Db, db': Db)
    requires FactsBacked(db) && db'.facts == db.facts && db'.documents == db.documents && db'.communications == db.communications
    ensures FactsBacked(db')
  {
    hide Backed;
    forall f | f in db'.facts ensures Backed(db', f) { BackedStays(db, db', f); }
  }

  lemma {:induction false} IngestStepTraceable(rt: Runtime, s: State, k: nat, rows: seq<Communication>)
    requires Traceable(rt, s) && RunAt(s, k) && s.runs[k].state.AtIngestCommit? && ChatRows(s.db, s.runs[k].application, rows)
    ensures var run := s.runs[k];
            var db' := Ingested(s.db, run.application, run.state.loaded);
            && EvidenceKept(s.db, db') && TextsParsed(rt, db'.documents) && FactsBacked(db') && AllRunsOk(rt, db', s.runs)
            && RunOk(rt, db', run.(state := AtExtract(SourcesOf(run.state.loaded, rows))))
  {
    var run := s.runs[k];
    assert run in s.runs && RunOk(rt, s.db, run);
    hide ChatRows, AllRunsOk, FactsBacked, TextsParsed, LoadedOk, SourceOk, EvidenceKept, SourcesOf;
    IngestKeepsEvidence(rt, s.db, run.application, run.state.loaded);
    IngestSourcesOk(rt, s.db, run.application, run.state.loaded, rows);
    hide Ingested;
    EvidenceKeepsAll(rt, s.db, Ingested(s.db, run.application, run.state.loaded), s.runs);
  }

  lemma {:induction false} IngestTraceable(cfg: Config, rt: Runtime, s: State, k: nat, rows: seq<Communication>)
    requires Traceable(rt, s) && Enabled(cfg, rt, s, CommitIngest(k, rows))
    ensures Traceable(rt, Apply(cfg, rt, s, CommitIngest(k, rows))) && EvidenceKept(s.db, Apply(cfg, rt, s, CommitIngest(k, rows)).db)
  {
    RunStepRuns(cfg, rt, s, CommitIngest(k, rows));
    hide AllRunsOk, FactsBacked, TextsParsed, EvidenceKept, RunMoved, SameEvidenceTables, Decide, Enumerates, ChatRows, PickedChannel,
         ChasedDb, DegradedDb, ExtractedDb, Ingested, LoadedOk, SourceOk;
    var s' := Apply(cfg, rt, s, CommitIngest(k, rows));
    IngestStepTraceable(rt, s, k, rows);
    MovedRunOk(rt, s, s', CommitIngest(k, rows));
  }

  lemma {:induction false} ExtractTraceable(cfg: Config, rt: Runtime, s: State, k: nat, outcome: Outcome)
    requires Traceable(rt, s) && Enabled(cfg, rt, s, Extract(k, outcome))
    ensures Traceable(rt, Apply(cfg, rt, s, Extract(k, outcome))) && EvidenceKept(s.db, Apply(cfg, rt, s, Extract(k, outcome)).db)
  {
    RunStepRuns(cfg, rt, s, Extract(k, outcome));
    hide AllRunsOk, FactsBacked, TextsParsed, EvidenceKept, RunMoved, SameEvidenceTables, Decide, Enumerates, ChatRows, PickedChannel,
         ChasedDb, DegradedDb, ExtractedDb, Ingested, LoadedOk, SourceOk;
    var s' := Apply(cfg, rt, s, Extract(k, outcome));
    ExtractStepTraceable(rt, s, k, outcome);
    SameTablesKeep(rt, s.db, s'.db, s.runs);
    MovedRunOk(rt, s, s', Extract(k, outcome));
  }

  lemma {:induction false} LoadTraceable(cfg: Config, rt: Runtime, s: State, k: nat, order: seq<Uuid>)
    requires Traceable(rt, s) && Enabled(cfg, rt, s, LoadDocuments(k, order))
    ensures Traceable(rt, Apply(cfg, rt, s, LoadDocuments(k, order))) && EvidenceKept(s.db, Apply(cfg, rt, s, LoadDocuments(k, order)).db)
  {
    RunStepRuns(cfg, rt, s, LoadDocuments(k, order));
    hide AllRunsOk, FactsBacked, TextsParsed, EvidenceKept, RunMoved, SameEvidenceTables, Decide, Enumerates, ChatRows, PickedChannel,
         ChasedDb, DegradedDb, ExtractedDb, Ingested, LoadedOk, SourceOk;
    var s' := Apply(cfg, rt, s, LoadDocuments(k, order));
    EnumeratedDocuments(s.db, s.runs[k].application, order);
    LoadedAllOk(rt, s.db, s.runs[k].application, order);
    MovedRunOk(rt, s, s', LoadDocuments(k, order));
    SameDbKept(s.db);
  }

  lemma {:induction false} ChaseTraceable(cfg: Config, rt: Runtime, s: State, k: nat, id: Uuid, now: int)
    requires Traceable(rt, s) && Enabled(cfg, rt, s, CommitChase(k, id, now))
    ensures Traceable(rt, Apply(cfg, rt, s, CommitChase(k, id, now))) && EvidenceKept(s.db, Apply(cfg, rt, s, CommitChase(k, id, now)).db)
  {
    RunStepRuns(cfg, rt, s, CommitChase(k, id, now));
    hide AllRunsOk, FactsBacked, TextsParsed, EvidenceKept, RunMoved, SameEvidenceTables, Decide, Enumerates, ChatRows, PickedChannel,
         ChasedDb, DegradedDb, ExtractedDb, Ingested, LoadedOk, SourceOk;
    var s' := Apply(cfg, rt, s, CommitChase(k, id, now));
    ChasedTables(s.db, s.runs[k].application, s.runs[k].seen, s.runs[k].state.decision, id, now);
    SameTablesKeep(rt, s.db, s'.db, s.runs);
    MovedRunOk(rt, s, s', CommitChase(k, id, now));
  }

  lemma {:induction false} OtherTraceable(cfg: Config, rt: Runtime, s: State, step: Step)
    requires Traceable(rt, s) && Enabled(cfg, rt, s, step) && (step.StartRun? || step.ReconcileFacts? || step.DecideChase?)
    ensures Traceable(rt, Apply(cfg, rt, s, step)) && EvidenceKept(s.db, Apply(cfg, rt, s, step).db)
  {
    RunStepRuns(cfg, rt, s, step);
    OtherTables(cfg, rt, s, step);
    OtherRun(cfg, rt, s, step);
    hide Apply, Enabled, AllRunsOk, FactsBacked, TextsParsed, EvidenceKept, RunMoved, SameEvidenceTables;
    SameTablesKeep(rt, s.db, Apply(cfg, rt, s, step).db, s.runs);
    MovedRunOk(rt, s, Apply(cfg, rt, s, step), step);
  }

  /** These steps leave their run in a state that carries no texts. */
  lemma {:induction false} OtherRun(cfg: Config, rt: Runtime, s: State, step: Step)
    requires Enabled(cfg, rt, s, step) && (step.StartRun? || step.ReconcileFacts? || step.DecideChase?)
    ensures var s' := Apply(cfg, rt, s, step);
            && (step.StartRun? ==> |s'.runs| > |s.runs| ==> RunOk(rt, s'.db, s'.runs[|s.runs|]))
            && (!step.StartRun? ==> RunAt(s', step.k) && RunOk(rt, s'.db, s'.runs[step.k]))
  {
    hide AnomalyAudits, Decide, PickedChannel, Entered;
  }

  lemma {:induction false} RunStepTraceable(cfg: Config, rt: Runtime, s: State, step: Step)
    requires Traceable(rt, s) && Enabled(cfg, rt, s, step) && !IsRequestStep(step)
    ensures Traceable(rt, Apply(cfg, rt, s, step)) && EvidenceKept(s.db, Apply(cfg, rt, s, step).db)
  {
    hide Apply, Enabled, Traceable, EvidenceKept;
    match step
    case LoadDocuments(k, order) => LoadTraceable(cfg, rt, s, k, order);
    case CommitIngest(k, rows) => IngestTraceable(cfg, rt, s, k, rows);
    case Extract(k, outcome) => ExtractTraceable(cfg, rt, s, k, outcome);
    case CommitChase(k, id, now) => ChaseTraceable(cfg, rt, s, k, id, now);
    case _ => OtherTraceable(cfg, rt, s, step);
  }

  lemma {:induction false} SameDbKept(db: Db)
    ensures EvidenceKept(db, db)
  {
  }

  lemma {:induction false} OtherTables(cfg: Config, rt: Runtime, s: State, step: Step)
    requires Enabled(cfg, rt, s, step) && (step.StartRun? || step.ReconcileFacts? || step.DecideChase?)
    ensures var s' := Apply(cfg, rt, s, step); SameEvidenceTables(s.db, s'.db) && s'.db.facts == s.db.facts
  {
    hide AnomalyAudits, Decide, PickedChannel;
  }

  // ----- Histories -----

  lemma {:induction false} StepTraceable(cfg: Config, rt: Runtime, s: State, step: Step)
    requires Sound(cfg, s) && Traceable(rt, s) && Enabled(cfg, rt, s, step)
    ensures Traceable(rt, Apply(cfg, rt, s, step)) && EvidenceKept(s.db, Apply(cfg, rt, s, step).db)
  {
    hide Sound, Traceable, EvidenceKept, Enabled, Apply;
    if IsRequestStep(step) { RequestStepTraceable(cfg, rt, s, step); } else { RunStepTraceable(cfg, rt, s, step); }
  }

  lemma {:induction false} KeptTransitive(a: Db, b: Db, c: Db)
    requires EvidenceKept(a, b) && EvidenceKept(b, c)
    ensures EvidenceKept(a, c)
  {
    hide Bare;
  }

  lemma {:induction false} HistoryTraceable(cfg: Config, rt: Runtime, s: State, steps: seq<Step>)
    requires Sound(cfg, s) && Traceable(rt, s) && Runs(cfg, rt, s, steps)
    ensures Traceable(rt, After(cfg, rt, s, steps)) && EvidenceKept(s.db, After(cfg, rt, s, steps).db)
    decreases |steps|
  {
    hide Sound, Traceable, EvidenceKept, Enabled, Apply;
    if steps == [] {
      SameDbKept(s.db);
    } else {
      var next := Apply(cfg, rt, s, steps[0]);
      StepKeepsSound(cfg, rt, s, steps[0]);
      StepTraceable(cfg, rt, s, steps[0]);
      HistoryTraceable(cfg, rt, next, steps[1..]);
      KeptTransitive(s.db, next.db, After(cfg, rt, next, steps[1..]).db);
    }
  }

  lemma {:induction false} InitTraceable(rt: Runtime)
    ensures Traceable(rt, INIT)
  {
  }

  /** After every history, in every interleaving, every stored fact is backed by stored text. */
  lemma {:induction false} EveryFactBacked(cfg: Config, rt: Runtime, steps: seq<Step>)
    requires Runs(cfg, rt, INIT, steps)
    ensures FactsBacked(After(cfg, rt, INIT, steps).db)
  {
    InitSound(cfg);
    InitTraceable(rt);
    HistoryTraceable(cfg, rt, INIT, steps);
    hide After, Runs, FactsBacked;
  }

  /** From any reachable state on, messages, documents and non-empty text stay as they are. */
  lemma {:induction false} EvidencePersists(cfg: Config, rt: Runtime, before: seq<Step>, more: seq<Step>)
    requires Runs(cfg, rt, INIT, before) && Runs(cfg, rt, After(cfg, rt, INIT, before), more)
    ensures EvidenceKept(After(cfg, rt, INIT, before).db, After(cfg, rt, After(cfg, rt, INIT, before), more).db)
  {
    InitSound(cfg);
    InitTraceable(rt);
    HistoryKeepsSound(cfg, rt, INIT, before);
    HistoryTraceable(cfg, rt, INIT, before);
    hide After, Runs, EvidenceKept, Sound, Traceable;
    HistoryTraceable(cfg, rt, After(cfg, rt, INIT, before), more);
  }
}
