/** The side of one application: all that its runs read of the tables and write to them,
    its audit rows aside. */
module Sides {
  import opened Basics
  import opened Facts
  import opened Prompt
  import opened Reconcile
  import opened Tables
  import opened Intake
  import opened Nodes
  import opened ExactlyOnce
  import opened Rerun
  import AuditTrail
  import Redaction

  datatype Side = Side(status: Status, documents: map<Uuid, Document>, inbound: seq<Communication>, facts: seq<Fact>, sent: seq<string>)

  function InboundOf(a: Uuid): Communication -> bool { (c: Communication) => IsInbound(a, c) }

  function ChatOf(a: Uuid): Communication -> bool { (c: Communication) => IsChat(a, c) }

  function DocumentsOf(documents: map<Uuid, Document>, a: Uuid): map<Uuid, Document> {
    map d | d in documents && documents[d].application == a :: documents[d]
  }

  function SideOf(db: Db, a: Uuid): Side
    requires a in db.applications
  {
    Side(db.applications[a].status, DocumentsOf(db.documents, a), Filter(InboundOf(a), db.communications), FactsOf(db, a),
         SentContents(db.communications, a))
  }

  // ----- What a write does to a side -----

  lemma {:induction false} AssignedSide(db: Db, b: Uuid, seen: Status, status: Status, a: Uuid)
    requires a in db.applications
    ensures a in Assigned(db, b, seen, status).applications
    ensures SideOf(Assigned(db, b, seen, status), a)
         == if b == a && status != seen then SideOf(db, a).(status := status) else SideOf(db, a)
  {
    hide DocumentsOf, Filter, SentContents;
  }

  lemma {:induction false} TextsOnSide(documents: map<Uuid, Document>, texts: map<Uuid, string>, a: Uuid)
    ensures DocumentsOf(WithRawTexts(documents, texts), a) == WithRawTexts(DocumentsOf(documents, a), texts)
  {
  }

  lemma {:induction false} OtherTexts(documents: map<Uuid, Document>, texts: map<Uuid, string>, a: Uuid)
    requires forall d | d in texts :: d in documents && documents[d].application != a
    ensures WithRawTexts(DocumentsOf(documents, a), texts) == DocumentsOf(documents, a)
  {
  }

  lemma {:induction false} FactsOnSide(facts: seq<Fact>, b: Uuid, more: seq<Fact>, a: Uuid)
    requires forall f | f in more :: f.application == b
    ensures Filter(OfApplication(a), WithoutFactsOf(facts, {b}) + more) == if a == b then more else Filter(OfApplication(a), facts)
  {
    FilterAppend(OfApplication(a), WithoutFactsOf(facts, {b}), more);
    if a == b {
      WithoutFactsOfMembers(facts, {b});
      FilterNone(OfApplication(a), WithoutFactsOf(facts, {b}));
      FilterAll(OfApplication(a), more);
    } else {
      FilterFilter(OfApplication(a), OutsideOf({b}), facts);
      FilterNone(OfApplication(a), more);
    }
  }

  /** A message, in or out, as another side's application sees it. */
  lemma {:induction false} OtherMessage(communications: seq<Communication>, c: Communication, a: Uuid)
    requires c.application != a
    ensures Filter(InboundOf(a), communications + [c]) == Filter(InboundOf(a), communications)
    ensures SentContents(communications + [c], a) == SentContents(communications, a)
  {
    FilterAppend(InboundOf(a), communications, [c]);
    FilterNone(InboundOf(a), [c]);
    AuditTrail.SentStep(communications, c, a);
    hide Filter, SentContents;
  }

  lemma {:induction false} OwnMessage(communications: seq<Communication>, c: Communication)
    requires c.direction == Outbound && c.content.Some?
    ensures Filter(InboundOf(c.application), communications + [c]) == Filter(InboundOf(c.application), communications)
    ensures SentContents(communications + [c], c.application) == SentContents(communications, c.application) + [c.content.value]
  {
    FilterAppend(InboundOf(c.application), communications, [c]);
    FilterNone(InboundOf(c.application), [c]);
    AuditTrail.SentStep(communications, c, c.application);
    hide Filter, SentContents;
  }

  // ----- What a node's commit does to a side -----

  /** How the ingest of b's documents changes the side of a. */
  lemma {:induction false} IngestedSide(db: Db, b: Uuid, loaded: seq<Loaded>, a: Uuid)
    requires a in db.applications
    ensures SideOf(Ingested(db, b, loaded), a) == SideOf(db, a).(documents := WithRawTexts(SideOf(db, a).documents, FreshTexts(loaded)))
  {
    hide WithRawTexts, FreshTexts, ParseFailures, DocumentsOf, Filter, SentContents;
    TextsOnSide(db.documents, FreshTexts(loaded), a);
  }

  lemma {:induction false} AllFactsFrom(py: Python, b: Uuid, entities: seq<Entity>, sources: seq<SourceText>)
    ensures forall f | f in FactsFrom(py, b, entities, sources) :: f.application == b
  {
    hide Traced;
    if entities != [] { AllFactsFrom(py, b, entities[..|entities| - 1], sources); }
  }

  lemma {:induction false} ExtractedSide(py: Python, db: Db, b: Uuid, sources: seq<SourceText>, entities: seq<Entity>, response: string, a: Uuid)
    requires a in db.applications
    ensures SideOf(ExtractedDb(py, db, b, sources, entities, response), a)
         == if a == b then SideOf(db, a).(facts := FactsFrom(py, b, entities, sources)) else SideOf(db, a)
  {
    AllFactsFrom(py, b, entities, sources);
    hide FactsFrom, Excerpt, WithoutFactsOf, DocumentsOf, Filter, SentContents, OfApplication;
    FactsOnSide(db.facts, b, FactsFrom(py, b, entities, sources), a);
  }

  lemma {:induction false} DegradedSide(db: Db, b: Uuid, seen: Status, errorClass: string, code: string, detail: string, a: Uuid)
    requires a in db.applications
    ensures a in DegradedDb(db, b, seen, errorClass, code, detail).applications
    ensures SideOf(DegradedDb(db, b, seen, errorClass, code, detail), a)
         == if b == a && ManualReview != seen then SideOf(db, a).(status := ManualReview) else SideOf(db, a)
  {
    AssignedSide(db, b, seen, ManualReview, a);
    hide Assigned, Redaction.DegradedExcerpt, DocumentsOf, Filter, SentContents;
  }

  lemma {:induction false} ReconciledSide(rt: Runtime, db: Db, b: Uuid, anomalies: seq<Anomaly>, a: Uuid)
    requires a in db.applications
    ensures SideOf(ReconciledDb(rt, db, b, anomalies), a) == SideOf(db, a)
  {
    hide AnomalyAudits, DocumentsOf, Filter, SentContents;
  }

  lemma {:induction false} ChasedSide(db: Db, b: Uuid, seen: Status, decision: Decision, id: Uuid, now: int, a: Uuid)
    requires a in db.applications
    ensures a in ChasedDb(db, b, seen, decision, id, now).applications
    ensures var side, status := SideOf(db, a), FinalStatus(decision.missing);
            SideOf(ChasedDb(db, b, seen, decision, id, now), a)
            == if b != a then side
               else side.(status := if status == seen then side.status else status,
                          sent := side.sent + if decision.alreadySent then [] else [decision.content])
  {
    AssignedSide(db, b, seen, FinalStatus(decision.missing), a);
    AssignedTables(db, b, seen, FinalStatus(decision.missing));
    hide Assigned, FinalStatus, DocumentsOf, Filter, SentContents;
    var c := Communication(id, b, decision.channel, Outbound, Some(decision.content), now, None);
    if b == a { OwnMessage(db.communications, c); } else { OtherMessage(db.communications, c, a); }
  }

  lemma {:induction false} AssignedTables(db: Db, b: Uuid, seen: Status, status: Status)
    ensures var db' := Assigned(db, b, seen, status); db' == db.(applications := db'.applications)
  {
  }

  // ----- A message committed elsewhere -----

  lemma {:induction false} MapOfOthers(documents: seq<NewDocument>, a: Uuid)
    requires forall d | d in documents :: d.row.application != a
    ensures forall d | d in DocumentMap(documents) :: DocumentMap(documents)[d].application != a
    ensures forall d | d in DocumentMap(documents) :: d in IdsAmong(documents)
  {
    if documents != [] {
      var n := |documents| - 1;
      MapOfOthers(documents[..n], a);
      assert documents == documents[..n] + [documents[n]];
    }
  }

  function IdsAmong(documents: seq<NewDocument>): set<Uuid> { set d | d in documents :: d.id }

  lemma {:induction false} MoreDocuments(documents: map<Uuid, Document>, more: map<Uuid, Document>, a: Uuid)
    requires more.Keys !! documents.Keys && forall d | d in more :: more[d].application != a
    ensures DocumentsOf(documents + more, a) == DocumentsOf(documents, a)
  {
  }

  lemma {:induction false} CommittedSide(db: Db, staging: Staging, a: Uuid)
    requires Committable(db, staging) && a in db.applications && staging.applicationId != a
    requires forall d | d in staging.documents :: d.row.application != a
    ensures a in Committed(db, staging).applications && SideOf(Committed(db, staging), a) == SideOf(db, a)
  {
    OtherMessage(db.communications, staging.communication, a);
    MapOfOthers(staging.documents, a);
    NewIds(db, staging);
    MoreDocuments(db.documents, DocumentMap(staging.documents), a);
    hide Committable, DocumentMap, DocumentsOf, Filter, SentContents;
  }

  lemma {:induction false} NewIds(db: Db, staging: Staging)
    requires StillPrivate(db, staging)
    ensures IdsAmong(staging.documents) !! db.documents.Keys
  {
    forall d | d in staging.documents ensures d.id !in db.documents {
      assert d.id in OwnIds(staging);
    }
  }

  // ----- Queries see the side -----

  lemma {:induction false} SideKeys(db: Db, a: Uuid)
    requires a in db.applications
    ensures DocsOf(db, a) == SideOf(db, a).documents.Keys
    ensures forall d | d in DocsOf(db, a) :: d in db.documents && SideOf(db, a).documents[d] == db.documents[d]
  {
    hide Filter, SentContents;
  }

  /** What a run loads of its documents is decided by the side. */
  lemma {:induction false} SameLoaded(rt: Runtime, db: Db, db': Db, a: Uuid, order: seq<Uuid>)
    requires a in db.applications && a in db'.applications && SideOf(db, a) == SideOf(db', a)
    requires forall d | d in order :: d in DocsOf(db, a) && d in db.documents && d in db'.documents
    ensures LoadAll(rt, db'.documents, order) == LoadAll(rt, db.documents, order)
  {
    SideKeys(db, a);
    SideKeys(db', a);
    hide LoadOne, SideOf;
    forall i | 0 <= i < |order| ensures db'.documents[order[i]] == db.documents[order[i]] { assert order[i] in order; }
  }

  lemma {:induction false} ChatAmongInbound(communications: seq<Communication>, a: Uuid)
    ensures Filter(ChatOf(a), Filter(InboundOf(a), communications)) == Filter(ChatOf(a), communications)
  {
    FilterFilter(ChatOf(a), InboundOf(a), communications);
  }

  lemma {:induction false} ChatRowsAre(db: Db, a: Uuid, rows: seq<Communication>)
    ensures ChatRows(db, a, rows)
       <==> multiset(rows) == multiset(Filter(ChatOf(a), db.communications))
            && forall i, j | 0 <= i < j < |rows| :: rows[i].timestamp <= rows[j].timestamp
  {
    SameFilter(a, db.communications);
    hide Filter;
  }

  lemma {:induction false} SameFilter(a: Uuid, communications: seq<Communication>)
    ensures Filter((c: Communication) => IsChat(a, c), communications) == Filter(ChatOf(a), communications)
  {
    if communications != [] { SameFilter(a, communications[1..]); }
  }

  lemma {:induction false} SameChatRows(db: Db, db': Db, a: Uuid, rows: seq<Communication>)
    requires a in db.applications && a in db'.applications && SideOf(db, a) == SideOf(db', a) && ChatRows(db, a, rows)
    ensures ChatRows(db', a, rows)
  {
    ChatRowsAre(db, a, rows);
    ChatRowsAre(db', a, rows);
    ChatAmongInbound(db.communications, a);
    ChatAmongInbound(db'.communications, a);
    hide Filter, ChatRows, DocumentsOf, SentContents;
  }

  lemma {:induction false} SameInbound(db: Db, db': Db, a: Uuid)
    requires a in db.applications && a in db'.applications && SideOf(db, a) == SideOf(db', a)
    ensures forall c | IsInbound(a, c) :: c in db'.communications <==> c in db.communications
  {
    FilterMembers(InboundOf(a), db.communications);
    FilterMembers(InboundOf(a), db'.communications);
    hide Filter, DocumentsOf, SentContents;
    forall c | IsInbound(a, c) ensures c in db'.communications <==> c in db.communications {
      assert c in Filter(InboundOf(a), db.communications) <==> c in db.communications;
      assert c in Filter(InboundOf(a), db'.communications) <==> c in db'.communications;
    }
  }

  lemma {:induction false} SameChannel(db: Db, db': Db, a: Uuid, channel: Channel)
    requires forall c | IsInbound(a, c) :: c in db'.communications <==> c in db.communications
    requires PickedChannel(db, a, channel)
    ensures PickedChannel(db', a, channel)
  {
    if c :| c in db.communications && IsNewestInbound(db, a, c) && c.channel == channel {
      assert c in db'.communications && IsNewestInbound(db', a, c);
    }
  }

  lemma {:induction false} SameDecision(db: Db, db': Db, a: Uuid, channel: Channel)
    requires a in db.applications && a in db'.applications && SideOf(db, a) == SideOf(db', a)
    ensures Decide(db', a, channel) == Decide(db, a, channel)
  {
    PresentFromFacts(db, a);
    PresentFromFacts(db', a);
    hide PresentKeys, PresentIn, ChaseContent, Missing, DocumentsOf, Filter, SentContents;
  }
}
