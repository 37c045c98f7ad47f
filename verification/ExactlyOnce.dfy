/** Exactly-once intake: what holds of requests, cache and tables in every interleaving. */
module ExactlyOnce {
  import opened Basics
  import opened Tables
  import opened Intake
  import opened Nodes
  import opened System

  /** What a request has staged or committed. */
  function StagingOf(q: Request): Option<Staging> {
    if q.state.Prepared? then Some(q.state.staging) else q.won
  }

  function DocumentIds(documents: seq<NewDocument>): set<Uuid> { set d | d in documents :: d.id }

  function CommunicationIds(communications: seq<Communication>): set<Uuid> { set c | c in communications :: c.id }

  /** The identifiers a request drew for rows of its own. */
  function OwnIds(staging: Staging): set<Uuid> {
    DocumentIds(staging.documents) + {staging.communication.id}
    + (if staging.isNew then {staging.applicationId} else {})
  }

  function IdsIn(db: Db): set<Uuid> {
    db.applications.Keys + db.documents.Keys + CommunicationIds(db.communications)
  }

  function Bare(document: Document): Document { document.(rawText := None) }

  /** A staging made for this request. */
  ghost predicate StagingFits(cfg: Config, q: Request, staging: Staging) {
    && staging.communication.key == Some(KeyFor(cfg, q))
    && staging.communication.direction == Inbound
    && staging.communication.application == staging.applicationId
    && staging.communication.channel == q.message.channel && staging.communication.content == q.message.text
    && (q.message.sentAt.Some? ==> staging.communication.timestamp == q.message.sentAt.value)
    && staging.application.borrower == Strip(q.message.userId)
    && (staging.isNew ==> staging.application.status == PendingDocs)
    && |staging.documents| == |q.message.attachments|
    && (forall t | 0 <= t < |staging.documents| ::
          BuildDocument(cfg, q.message.attachments[t], staging.applicationId, staging.documents[t].id) == Ok(staging.documents[t].row))
    && forall i, j | 0 <= i < j < |staging.documents| :: staging.documents[i].id != staging.documents[j].id
  }

  /** Not committed yet: its own rows are new, the application it joins exists. */
  ghost predicate StillPrivate(db: Db, staging: Staging) {
    && OwnIds(staging) !! IdsIn(db)
    && (!staging.isNew ==> staging.applicationId in db.applications
                           && db.applications[staging.applicationId].borrower == staging.application.borrower)
  }

  ghost predicate IsCommitted(db: Db, staging: Staging) {
    && staging.communication in db.communications
    && staging.applicationId in db.applications
    && db.applications[staging.applicationId].borrower == staging.application.borrower
    && forall d | d in staging.documents :: d.id in db.documents && Bare(db.documents[d.id]) == d.row
  }

  ghost predicate KeyIn(db: Db, key: string) {
    exists c | c in db.communications :: c.key == Some(key)
  }

  /** The committed row of a key is the one this answer names. */
  ghost predicate NamesRow(db: Db, key: string, ack: Ack) {
    exists c | c in db.communications :: c.key == Some(key) && c.id == ack.communication && c.application == ack.application
  }

  /** The answer lists every document of the request that won the key. */
  ghost predicate ListsOriginal(winners: set<Staging>, key: string, ack: Ack) {
    forall w | w in winners && w.communication.key == Some(key) :: Lists(ack, w)
  }

  ghost predicate Lists(ack: Ack, staging: Staging) {
    forall d | d in staging.documents :: d.id in ack.documents
  }

  /** Everything ever committed by intake. */
  function Winners(requests: seq<Request>): set<Staging> {
    set q | q in requests && q.won.Some? :: q.won.value
  }

  ghost predicate AnswerOk(winners: set<Staging>, db: Db, key: string, ack: Ack) {
    NamesRow(db, key, ack) && ListsOriginal(winners, key, ack)
  }

  function AckIn(state: RequestState): Option<Ack> {
    match state
    case Acked(ack) => Some(ack)
    case Stored(ack) => Some(ack)
    case Answered(ack) => Some(ack)
    case _ => None
  }

  ghost predicate RequestOk(cfg: Config, winners: set<Staging>, db: Db, drawn: set<Uuid>, q: Request) {
    && (q.state.Prepared? ==> q.won == None && StillPrivate(db, q.state.staging))
    && (q.state.Conflicted? ==> KeyIn(db, KeyFor(cfg, q)))
    && (q.won.Some? ==> AckIn(q.state).Some? && IsCommitted(db, q.won.value))
    && (StagingOf(q).Some? ==> StagingFits(cfg, q, StagingOf(q).value) && OwnIds(StagingOf(q).value) <= drawn)
    && (AckIn(q.state).Some? ==> AnswerOk(winners, db, KeyFor(cfg, q), AckIn(q.state).value))
  }

  ghost predicate Separate(q1: Request, q2: Request) {
    StagingOf(q1).Some? && StagingOf(q2).Some? ==> OwnIds(StagingOf(q1).value) !! OwnIds(StagingOf(q2).value)
  }

  ghost predicate AllSeparate(requests: seq<Request>) {
    forall i, j | 0 <= i < j < |requests| :: Separate(requests[i], requests[j])
  }

  ghost predicate UniqueKeys(communications: seq<Communication>) {
    forall i, j | 0 <= i < j < |communications| :: communications[i].key.Some? ==> communications[i].key != communications[j].key
  }

  ghost predicate OwnedKey(db: Db, c: Communication) {
    && c.application in db.applications
    && (c.key.Some? ==> c.direction == Inbound && StartsWith(c.key.value, db.applications[c.application].borrower + ":"))
  }

  ghost predicate AllOwned(db: Db) { forall c | c in db.communications :: OwnedKey(db, c) }

  ghost predicate TablesOk(db: Db, drawn: set<Uuid>) {
    UniqueKeys(db.communications) && AllOwned(db) && IdsIn(db) <= drawn
  }

  // Every row comes from a request that won its key.

  ghost predicate CommunicationWon(winners: set<Staging>, c: Communication) {
    exists w | w in winners :: w.communication == c
  }

  ghost predicate DocumentWon(winners: set<Staging>, id: Uuid, document: Document) {
    exists w | w in winners :: NewDocument(id, Bare(document)) in w.documents
  }

  ghost predicate ApplicationWon(winners: set<Staging>, id: Uuid) {
    exists w | w in winners :: w.isNew && w.applicationId == id
  }

  ghost predicate EveryRowWon(winners: set<Staging>, db: Db) {
    && (forall c | c in db.communications && c.direction == Inbound :: CommunicationWon(winners, c))
    && (forall d | d in db.documents :: DocumentWon(winners, d, db.documents[d]))
    && (forall a | a in db.applications :: ApplicationWon(winners, a))
  }

  ghost predicate AllRequestsOk(cfg: Config, requests: seq<Request>, db: Db, drawn: set<Uuid>) {
    forall q | q in requests :: RequestOk(cfg, Winners(requests), db, drawn, q)
  }

  ghost predicate CacheOk(winners: set<Staging>, db: Db, cache: map<string, Ack>) {
    forall k | k in cache :: AnswerOk(winners, db, k, cache[k])
  }

  ghost predicate Inv(cfg: Config, s: State) {
    && TablesOk(s.db, s.drawn)
    && AllRequestsOk(cfg, s.requests, s.db, s.drawn)
    && AllSeparate(s.requests)
    && CacheOk(Winners(s.requests), s.db, s.cache)
    && EveryRowWon(Winners(s.requests), s.db)
  }

  // ----- What pipeline steps leave alone -----

  /** Intake sees nothing of a pipeline step but new outbound communications. */
  ghost predicate PipelineFrame(db: Db, db': Db, drawn: set<Uuid>) {
    && db'.applications.Keys == db.applications.Keys
    && (forall a | a in db.applications :: db'.applications[a].borrower == db.applications[a].borrower)
    && db'.documents.Keys == db.documents.Keys
    && (forall d | d in db.documents :: Bare(db'.documents[d]) == Bare(db.documents[d]))
    && db.communications <= db'.communications
    && forall i | |db.communications| <= i < |db'.communications| ::
         var c := db'.communications[i];
         c.key == None && c.direction == Outbound && c.application in db.applications && c.id !in drawn
  }

  lemma {:induction false} FrameIds(db: Db, db': Db, drawn: set<Uuid>)
    requires PipelineFrame(db, db', drawn)
    ensures forall id | id in IdsIn(db') && id in drawn :: id in IdsIn(db)
    ensures forall c | c in db.communications :: c in db'.communications
  {
    forall id | id in IdsIn(db') && id in drawn ensures id in IdsIn(db) {
      if id !in db'.applications.Keys && id !in db'.documents.Keys {
        var i :| 0 <= i < |db'.communications| && db'.communications[i].id == id;
        assert i < |db.communications|;
        assert db.communications[i] == db'.communications[i];
      }
    }
    forall c | c in db.communications ensures c in db'.communications {
      var i :| 0 <= i < |db.communications| && db.communications[i] == c;
      assert db'.communications[i] == c;
    }
  }

  lemma {:induction false} FrameKeepsRows(winners: set<Staging>, db: Db, db': Db, drawn: set<Uuid>)
    requires PipelineFrame(db, db', drawn)
    ensures forall key, ack :: AnswerOk(winners, db, key, ack) ==> AnswerOk(winners, db', key, ack)
    ensures forall st :: IsCommitted(db, st) ==> IsCommitted(db', st)
    ensures forall key :: KeyIn(db, key) ==> KeyIn(db', key)
    ensures forall st :: StillPrivate(db, st) && OwnIds(st) <= drawn ==> StillPrivate(db', st)
    ensures EveryRowWon(winners, db) ==> EveryRowWon(winners, db')
    ensures AllOwned(db) && UniqueKeys(db.communications) ==> AllOwned(db') && UniqueKeys(db'.communications)
  {
    hide OwnIds, IdsIn, ListsOriginal;
    FrameIds(db, db', drawn);
    if AllOwned(db) {
      forall c | c in db'.communications ensures OwnedKey(db', c) {
        if c in db.communications { assert OwnedKey(db, c); }
      }
    }
    forall d | d in db'.documents && DocumentWon(winners, d, db.documents[d]) ensures DocumentWon(winners, d, db'.documents[d]) {}
  }

  lemma {:induction false} FrameKeepsRequests(cfg: Config, requests: seq<Request>, db: Db, db': Db, drawn: set<Uuid>, drawn': set<Uuid>)
    requires PipelineFrame(db, db', drawn) && drawn <= drawn' && AllRequestsOk(cfg, requests, db, drawn)
    ensures AllRequestsOk(cfg, requests, db', drawn')
  {
    FrameKeepsRows(Winners(requests), db, db', drawn);
    hide PipelineFrame, AnswerOk, IsCommitted, KeyIn, StillPrivate, OwnIds, StagingFits, EveryRowWon, AllOwned, UniqueKeys, Winners, KeyFor;
  }

  lemma {:induction false} FrameKeepsTables(winners: set<Staging>, db: Db, db': Db, drawn: set<Uuid>, drawn': set<Uuid>)
    requires PipelineFrame(db, db', drawn) && TablesOk(db, drawn) && IdsIn(db') <= drawn' && EveryRowWon(winners, db)
    ensures TablesOk(db', drawn') && EveryRowWon(winners, db')
  {
    FrameKeepsRows(winners, db, db', drawn);
    hide EveryRowWon, AllOwned, UniqueKeys, IdsIn, PipelineFrame;
  }

  lemma {:induction false} FrameKeepsCache(winners: set<Staging>, db: Db, db': Db, drawn: set<Uuid>, cache: map<string, Ack>)
    requires PipelineFrame(db, db', drawn) && CacheOk(winners, db, cache)
    ensures CacheOk(winners, db', cache)
  {
    FrameKeepsRows(winners, db, db', drawn);
    hide AnswerOk, PipelineFrame;
  }

  lemma {:induction false} FrameKeepsInv(cfg: Config, s: State, s': State)
    requires Inv(cfg, s) && PipelineFrame(s.db, s'.db, s.drawn)
    requires s'.requests == s.requests && s'.cache == s.cache && s.drawn <= s'.drawn && IdsIn(s'.db) <= s'.drawn
    ensures Inv(cfg, s')
  {
    hide TablesOk, AllRequestsOk, AllSeparate, CacheOk, EveryRowWon, PipelineFrame, IdsIn, Winners;
    FrameKeepsRequests(cfg, s.requests, s.db, s'.db, s.drawn, s'.drawn);
    FrameKeepsTables(Winners(s.requests), s.db, s'.db, s.drawn, s'.drawn);
    FrameKeepsCache(Winners(s.requests), s.db, s'.db, s.drawn, s.cache);
  }

  // ----- Steps of one request that commit nothing -----

  lemma {:induction false} MoreDrawn(cfg: Config, winners: set<Staging>, db: Db, drawn: set<Uuid>, drawn': set<Uuid>, q: Request)
    requires RequestOk(cfg, winners, db, drawn, q) && drawn <= drawn'
    ensures RequestOk(cfg, winners, db, drawn', q)
  {
    hide AnswerOk, IsCommitted, KeyIn, StillPrivate, StagingFits, KeyFor, OwnIds;
  }

  /** Request r moves on: nothing is committed, the others see nothing. */
  lemma {:induction false} LocalChange(cfg: Config, s: State, s': State, r: nat, q: Request)
    requires Inv(cfg, s) && RequestAt(s, r)
    requires s'.db == s.db && s.drawn <= s'.drawn && s'.requests == s.requests[r := q] && q.won == s.requests[r].won
    requires RequestOk(cfg, Winners(s.requests), s.db, s'.drawn, q)
    requires forall i | 0 <= i < |s.requests| && i != r :: Separate(s.requests[i], q) && Separate(q, s.requests[i])
    requires CacheOk(Winners(s.requests), s.db, s'.cache)
    ensures Inv(cfg, s')
  {
    hide RequestOk, CacheOk, EveryRowWon, Separate, UniqueKeys, AllOwned, IdsIn;
    SameWinners(s.requests, r, q);
    forall p | p in s'.requests ensures RequestOk(cfg, Winners(s.requests), s.db, s'.drawn, p) {
      if p != q {
        var i :| 0 <= i < |s'.requests| && s'.requests[i] == p;
        assert p == s.requests[i];
        MoreDrawn(cfg, Winners(s.requests), s.db, s.drawn, s'.drawn, p);
      }
    }
  }

  lemma {:induction false} SameWinners(requests: seq<Request>, r: nat, q: Request)
    requires r < |requests| && q.won == requests[r].won
    ensures Winners(requests[r := q]) == Winners(requests)
  {
    var requests' := requests[r := q];
    forall w | w in Winners(requests) ensures w in Winners(requests') {
      var p :| p in requests && p.won == Some(w);
      var i :| 0 <= i < |requests| && requests[i] == p;
      assert requests'[i] in requests' && requests'[i].won == Some(w);
    }
    forall w | w in Winners(requests') ensures w in Winners(requests) {
      var p :| p in requests' && p.won == Some(w);
      var i :| 0 <= i < |requests'| && requests'[i] == p;
      assert requests[i] in requests && requests[i].won == Some(w);
    }
  }

  /** As before, and request r owns no other rows than before. */
  lemma {:induction false} MoveOn(cfg: Config, s: State, s': State, r: nat, state: RequestState)
    requires Inv(cfg, s) && RequestAt(s, r) && s.drawn <= s'.drawn
    requires s' == AtRequest(s, r, state).(cache := s'.cache, pending := s'.pending, drawn := s'.drawn)
    requires !state.Prepared? && CacheOk(Winners(s.requests), s.db, s'.cache)
    requires s.requests[r].won.Some? ==> AckIn(state).Some?
    requires state.Conflicted? ==> KeyIn(s.db, KeyFor(cfg, s.requests[r]))
    requires AckIn(state).Some? ==> AnswerOk(Winners(s.requests), s.db, KeyFor(cfg, s.requests[r]), AckIn(state).value)
    ensures Inv(cfg, s')
  {
    var q := s.requests[r].(state := state);
    assert s.requests[r] in s.requests && RequestOk(cfg, Winners(s.requests), s.db, s.drawn, s.requests[r]);
    SeparateShrinks(s.requests, r, q);
    assert RequestOk(cfg, Winners(s.requests), s.db, s.drawn, q) by {
      hide AnswerOk, IsCommitted, KeyIn, StillPrivate, StagingFits, Winners, CacheOk;
      assert KeyFor(cfg, q) == KeyFor(cfg, s.requests[r]);
      assert q.won.Some? ==> !s.requests[r].state.Prepared?;
      if q.won.Some? { FitsWhateverState(cfg, s.requests[r], q, q.won.value); }
    }
    hide RequestOk, CacheOk, Separate, Winners;
    MoreDrawn(cfg, Winners(s.requests), s.db, s.drawn, s'.drawn, q);
    LocalChange(cfg, s, s', r, q);
  }

  lemma {:induction false} FitsWhateverState(cfg: Config, q: Request, q': Request, staging: Staging)
    requires q'.message == q.message && q'.header == q.header
    ensures StagingFits(cfg, q', staging) == StagingFits(cfg, q, staging)
  {
  }

  lemma {:induction false} SeparateShrinks(requests: seq<Request>, r: nat, q: Request)
    requires r < |requests| && AllSeparate(requests)
    requires StagingOf(q).Some? ==> StagingOf(q) == StagingOf(requests[r])
    ensures forall i | 0 <= i < |requests| && i != r :: Separate(requests[i], q) && Separate(q, requests[i])
  {
    hide OwnIds;
    forall i | 0 <= i < |requests| && i != r ensures Separate(requests[i], q) && Separate(q, requests[i]) {
      assert i < r ==> Separate(requests[i], requests[r]);
      assert r < i ==> Separate(requests[r], requests[i]);
    }
  }

  // ----- Preparing -----

  lemma {:induction false} DocumentMapHolds(documents: seq<NewDocument>)
    requires forall i, j | 0 <= i < j < |documents| :: documents[i].id != documents[j].id
    ensures DocumentMap(documents).Keys == DocumentIds(documents)
    ensures forall d | d in documents :: DocumentMap(documents)[d.id] == d.row
  {
    if documents != [] {
      var n := |documents| - 1;
      DocumentMapHolds(documents[..n]);
      assert documents == documents[..n] + [documents[n]];
      forall d | d in documents[..n] ensures d.id != documents[n].id {
        var i :| 0 <= i < n && documents[i] == d;
      }
    }
  }

  lemma {:induction false} PreparedFits(cfg: Config, db: Db, q: Request, chosen: Option<Uuid>, draw: Draw, drawn: set<Uuid>, staging: Staging)
    requires |draw.documents| == |q.message.attachments|
    requires NewestOpen(db, Strip(q.message.userId), chosen) && NewDraw(drawn, draw)
    requires StageMessage(cfg, db, q.message, KeyOf(cfg, q.message, q.header), chosen, draw) == Ok(staging)
    ensures StagingFits(cfg, q, staging) && OwnIds(staging) <= DrawnBy(draw)
    ensures staging.isNew || (staging.applicationId in db.applications
                              && db.applications[staging.applicationId].borrower == staging.application.borrower)
  {
    BuiltDocuments(cfg, q.message.attachments, staging.applicationId, draw.documents);
    hide BuildDocument, Contained, Scoped, BuildDocuments;
    OwnIdsDrawn(staging, draw);
  }

  lemma {:induction false} OwnIdsDrawn(staging: Staging, draw: Draw)
    requires |staging.documents| == |draw.documents| && staging.communication.id == draw.communication
    requires forall t | 0 <= t < |staging.documents| :: staging.documents[t].id == draw.documents[t]
    requires staging.isNew ==> staging.applicationId == draw.application
    ensures OwnIds(staging) <= DrawnBy(draw)
  {
    forall d | d in staging.documents ensures d.id in draw.documents {
      var t :| 0 <= t < |staging.documents| && staging.documents[t] == d;
      assert draw.documents[t] == d.id;
    }
  }

  lemma {:induction false} PreparedRequest(cfg: Config, s: State, r: nat, q: Request, drawn: set<Uuid>, staging: Staging)
    requires AllSeparate(s.requests) && AllRequestsOk(cfg, s.requests, s.db, s.drawn) && RequestAt(s, r)
    requires IdsIn(s.db) <= s.drawn && OwnIds(staging) !! s.drawn && OwnIds(staging) <= drawn
    requires q.state == Prepared(staging) && q.won == None && StagingFits(cfg, q, staging)
    requires staging.isNew || (staging.applicationId in s.db.applications
                               && s.db.applications[staging.applicationId].borrower == staging.application.borrower)
    ensures RequestOk(cfg, Winners(s.requests), s.db, drawn, q)
    ensures forall i | 0 <= i < |s.requests| && i != r :: Separate(s.requests[i], q) && Separate(q, s.requests[i])
  {
    hide AnswerOk, IsCommitted, StagingFits, Winners, IdsIn, OwnIds, KeyFor;
    forall i | 0 <= i < |s.requests| && i != r ensures Separate(s.requests[i], q) && Separate(q, s.requests[i]) {
      assert RequestOk(cfg, Winners(s.requests), s.db, s.drawn, s.requests[i]);
    }
  }

  lemma {:induction false} PrepareKeepsInv(cfg: Config, s: State, r: nat, chosen: Option<Uuid>, draw: Draw)
    requires Inv(cfg, s) && RequestAt(s, r) && s.requests[r].state.Missed?
    requires |draw.documents| == |s.requests[r].message.attachments|
    requires NewestOpen(s.db, Strip(s.requests[r].message.userId), chosen) && NewDraw(s.drawn, draw)
    ensures Inv(cfg, AfterPrepare(cfg, s, r, chosen, draw))
  {
    hide CacheOk, Winners, AllSeparate, UniqueKeys, AllOwned, EveryRowWon, IdsIn, StagingFits, StageMessage, NewDraw, KeyFor;
    var q, s' := s.requests[r], AfterPrepare(cfg, s, r, chosen, draw);
    assert q.won == None by {
      assert q in s.requests && RequestOk(cfg, Winners(s.requests), s.db, s.drawn, q);
      hide AnswerOk, IsCommitted, KeyIn, StillPrivate, OwnIds;
    }
    hide RequestOk, AllRequestsOk, OwnIds;
    match StageMessage(cfg, s.db, q.message, KeyOf(cfg, q.message, q.header), chosen, draw)
    case Err(e) => MoveOn(cfg, s, s', r, Rejected(e));
    case Ok(staging) =>
      PreparedFits(cfg, s.db, q, chosen, draw, s.drawn, staging);
      var q' := q.(state := Prepared(staging));
      FitsWhateverState(cfg, q, q', staging);
      DrawIsNew(s.drawn, draw);
      PreparedRequest(cfg, s, r, q', s'.drawn, staging);
      LocalChange(cfg, s, s', r, q');
  }

  lemma {:induction false} DrawIsNew(drawn: set<Uuid>, draw: Draw)
    requires NewDraw(drawn, draw)
    ensures DrawnBy(draw) !! drawn
  {
  }

  // ----- Committing -----

  /** What a commit starts from. */
  ghost predicate Committable(db: Db, staging: Staging) {
    && StillPrivate(db, staging) && !KeyCommitted(db, staging)
    && staging.communication.key.Some? && staging.communication.direction == Inbound
    && staging.communication.application == staging.applicationId
    && StartsWith(staging.communication.key.value, staging.application.borrower + ":")
    && (staging.isNew ==> staging.application.status == PendingDocs)
    && (forall d | d in staging.documents :: d.row.rawText == None)
    && forall i, j | 0 <= i < j < |staging.documents| :: staging.documents[i].id != staging.documents[j].id
  }

  lemma {:induction false} FitsCommittable(cfg: Config, db: Db, q: Request, staging: Staging)
    requires StagingFits(cfg, q, staging) && StillPrivate(db, staging) && !KeyCommitted(db, staging)
    ensures Committable(db, staging)
  {
    hide StillPrivate, KeyCommitted, Strip;
    forall d | d in staging.documents ensures d.row.rawText == None {
      var t :| 0 <= t < |staging.documents| && staging.documents[t] == d;
      assert BuildDocument(cfg, q.message.attachments[t], staging.applicationId, staging.documents[t].id) == Ok(d.row);
      BuiltDocument(cfg, q.message.attachments[t], staging.applicationId, staging.documents[t].id);
    }
    var borrower, key := Strip(q.message.userId), KeyOf(cfg, q.message, q.header);
    assert borrower + ":" + key == (borrower + ":") + key;
  }

  lemma {:induction false} KeyIsNew(db: Db, staging: Staging)
    requires Committable(db, staging)
    ensures forall c | c in db.communications :: c.key != staging.communication.key
  {
    FindByKeyFinds(db.communications, staging.communication.key.value);
  }

  /** The rows after a commit are the rows before and the staged ones. */
  ghost predicate RowsAdded(db: Db, db': Db, staging: Staging) {
    && (forall c :: c in db'.communications <==> c in db.communications || c == staging.communication)
    && (forall a | a in db.applications :: a in db'.applications && db'.applications[a] == db.applications[a])
    && (forall d | d in db.documents :: d in db'.documents && db'.documents[d] == db.documents[d])
    && (forall d | d in db'.documents && d !in db.documents ::
          NewDocument(d, db'.documents[d]) in staging.documents && db'.documents[d].rawText == None)
    && (forall a | a in db'.applications && a !in db.applications :: staging.isNew && a == staging.applicationId)
    && staging.applicationId in db'.applications
    && db'.applications[staging.applicationId].borrower == staging.application.borrower
  }

  lemma {:induction false} CommitApplications(db: Db, staging: Staging)
    requires Committable(db, staging)
    ensures var before, after := db.applications, Committed(db, staging).applications;
            && (forall a | a in before :: a in after && after[a] == before[a])
            && (forall a | a in after && a !in before :: staging.isNew && a == staging.applicationId)
            && staging.applicationId in after && after[staging.applicationId].borrower == staging.application.borrower
            && after.Keys == before.Keys + if staging.isNew then {staging.applicationId} else {}
  {
    if staging.isNew {
      assert staging.applicationId in OwnIds(staging);
      assert forall a | a in db.applications :: a in IdsIn(db);
    }
  }

  lemma {:induction false} CommitDocuments(db: Db, staging: Staging)
    requires Committable(db, staging)
    ensures var before, after := db.documents, Committed(db, staging).documents;
            && (forall d | d in before :: d in after && after[d] == before[d])
            && (forall d | d in after && d !in before :: NewDocument(d, after[d]) in staging.documents && after[d].rawText == None)
            && (forall d | d in staging.documents :: d.id in after && Bare(after[d.id]) == d.row)
            && after.Keys == before.Keys + DocumentIds(staging.documents)
  {
    DocumentMapHolds(staging.documents);
    forall d | d in staging.documents ensures d.id !in db.documents {
      assert d.id in OwnIds(staging);
      assert forall e | e in db.documents :: e in IdsIn(db);
    }
    hide StillPrivate, KeyCommitted, DocumentMap;
  }

  lemma {:induction false} CommitAdds(db: Db, staging: Staging)
    requires Committable(db, staging)
    ensures RowsAdded(db, Committed(db, staging), staging)
  {
    hide Committable, Bare, OwnIds, IdsIn, DocumentMap;
    CommitApplications(db, staging);
    CommitDocuments(db, staging);
    var db' := Committed(db, staging);
    assert db'.communications == db.communications + [staging.communication];
    hide Committed;
    assert forall c :: c in db'.communications <==> c in db.communications || c == staging.communication;
  }

  lemma {:induction false} CommitRows(db: Db, staging: Staging)
    requires Committable(db, staging)
    ensures RowsAdded(db, Committed(db, staging), staging)
    ensures IsCommitted(Committed(db, staging), staging)
  {
    CommitAdds(db, staging);
    CommitDocuments(db, staging);
    hide Committable, Committed, Bare, OwnIds, IdsIn;
  }

  lemma {:induction false} Regroup<T>(a: set<T>, x: set<T>, d: set<T>, y: set<T>, c: set<T>, z: set<T>)
    ensures (a + x) + (d + y) + (c + z) == (a + d + c) + (y + z + x)
  {
  }

  lemma {:induction false} CommitIds(db: Db, staging: Staging)
    requires Committable(db, staging)
    ensures IdsIn(Committed(db, staging)) == IdsIn(db) + OwnIds(staging)
  {
    CommitApplications(db, staging);
    CommitDocuments(db, staging);
    IdsAppend(db.communications, staging.communication);
    hide Committable, RowsAdded, StillPrivate, DocumentIds, CommunicationIds, DocumentMap;
    Regroup(db.applications.Keys, if staging.isNew then {staging.applicationId} else {}, db.documents.Keys,
            DocumentIds(staging.documents), CommunicationIds(db.communications), {staging.communication.id});
  }

  lemma {:induction false} IdsAppend(communications: seq<Communication>, c: Communication)
    ensures CommunicationIds(communications + [c]) == CommunicationIds(communications) + {c.id}
  {
  }

  lemma {:induction false} CommitKeepsTables(db: Db, staging: Staging, drawn: set<Uuid>)
    requires Committable(db, staging) && TablesOk(db, drawn) && OwnIds(staging) <= drawn
    ensures TablesOk(Committed(db, staging), drawn)
  {
    var db' := Committed(db, staging);
    CommitRows(db, staging);
    CommitIds(db, staging);
    KeyIsNew(db, staging);
    hide StillPrivate, IdsIn, OwnIds, IsCommitted, DocumentMap, KeyCommitted;
    forall c | c in db'.communications ensures OwnedKey(db', c) {
      if c != staging.communication { assert OwnedKey(db, c); }
    }
    forall i, j | 0 <= i < j < |db'.communications| && db'.communications[i].key.Some?
      ensures db'.communications[i].key != db'.communications[j].key
    {
      assert db'.communications[i] in db.communications;
    }
  }

  lemma {:induction false} CommitKeepsWinners(db: Db, staging: Staging, winners: set<Staging>)
    requires Committable(db, staging) && EveryRowWon(winners, db)
    ensures EveryRowWon(winners + {staging}, Committed(db, staging))
  {
    hide Committable, Committed, IsCommitted, RowsAdded, EveryRowWon;
    CommitRows(db, staging);
    AddedCommunicationsWon(db, Committed(db, staging), staging, winners);
    AddedRowsWon(db, Committed(db, staging), staging, winners);
    WonEverything(winners + {staging}, Committed(db, staging));
  }

  lemma {:induction false} AddedCommunicationsWon(db: Db, db': Db, staging: Staging, winners: set<Staging>)
    requires RowsAdded(db, db', staging) && EveryRowWon(winners, db)
    ensures forall c | c in db'.communications && c.direction == Inbound :: CommunicationWon(winners + {staging}, c)
  {
    forall c | c in db'.communications && c.direction == Inbound ensures CommunicationWon(winners + {staging}, c) {
      if c != staging.communication { assert CommunicationWon(winners, c); }
    }
  }

  lemma {:induction false} AddedRowsWon(db: Db, db': Db, staging: Staging, winners: set<Staging>)
    requires RowsAdded(db, db', staging) && EveryRowWon(winners, db)
    ensures forall d | d in db'.documents :: DocumentWon(winners + {staging}, d, db'.documents[d])
    ensures forall a | a in db'.applications :: ApplicationWon(winners + {staging}, a)
  {
    forall d | d in db'.documents ensures DocumentWon(winners + {staging}, d, db'.documents[d]) {
      if d in db.documents {
        assert DocumentWon(winners, d, db.documents[d]);
      } else {
        assert Bare(db'.documents[d]) == db'.documents[d];
      }
    }
    forall a | a in db'.applications ensures ApplicationWon(winners + {staging}, a) {
      if a in db.applications { assert ApplicationWon(winners, a); }
    }
  }

  lemma {:induction false} WonEverything(winners: set<Staging>, db: Db)
    requires forall c | c in db.communications && c.direction == Inbound :: CommunicationWon(winners, c)
    requires forall d | d in db.documents :: DocumentWon(winners, d, db.documents[d])
    requires forall a | a in db.applications :: ApplicationWon(winners, a)
    ensures EveryRowWon(winners, db)
  {
  }

  lemma {:induction false} CommitKeepsStagings(db: Db, staging: Staging)
    requires Committable(db, staging)
    ensures forall w | IsCommitted(db, w) :: IsCommitted(Committed(db, staging), w)
    ensures forall key | KeyIn(db, key) :: KeyIn(Committed(db, staging), key)
    ensures forall w | StillPrivate(db, w) && OwnIds(w) !! OwnIds(staging) :: StillPrivate(Committed(db, staging), w)
  {
    CommitRows(db, staging);
    CommitIds(db, staging);
    hide Committable, Committed, OwnIds, IdsIn, Bare;
  }

  lemma {:induction false} CommitKeepsAnswer(db: Db, staging: Staging, winners: set<Staging>, key: string, ack: Ack)
    requires Committable(db, staging) && AnswerOk(winners, db, key, ack)
    ensures AnswerOk(winners + {staging}, Committed(db, staging), key, ack)
  {
    CommitRows(db, staging);
    KeyIsNew(db, staging);
    hide Committable, Committed, IsCommitted, Lists;
  }

  lemma {:induction false} ListsOwn(staging: Staging)
    ensures Lists(AckOf(staging), staging)
  {
    forall d | d in staging.documents ensures d.id in IdsOf(staging.documents) {
      var t :| 0 <= t < |staging.documents| && staging.documents[t] == d;
      assert IdsOf(staging.documents)[t] == d.id;
    }
  }

  lemma {:induction false} CommitAnswers(db: Db, staging: Staging, winners: set<Staging>)
    requires Committable(db, staging) && forall w | w in winners :: w.communication in db.communications
    ensures AnswerOk(winners + {staging}, Committed(db, staging), staging.communication.key.value, AckOf(staging))
  {
    var db' := Committed(db, staging);
    CommitRows(db, staging);
    KeyIsNew(db, staging);
    ListsOwn(staging);
    assert staging.communication.application == staging.applicationId && staging.communication.key.Some?;
    hide Committable, Committed, IsCommitted, Lists;
    assert NamesRow(db', staging.communication.key.value, AckOf(staging)) by {
      assert staging.communication in db'.communications;
    }
  }

  /** Another request looks the same after the commit. */
  lemma {:induction false} CommitKeepsRequest(cfg: Config, db: Db, staging: Staging, winners: set<Staging>, drawn: set<Uuid>, q: Request)
    requires Committable(db, staging) && RequestOk(cfg, winners, db, drawn, q)
    requires StagingOf(q).Some? ==> OwnIds(StagingOf(q).value) !! OwnIds(staging)
    ensures RequestOk(cfg, winners + {staging}, Committed(db, staging), drawn, q)
  {
    CommitKeepsStagings(db, staging);
    if AckIn(q.state).Some? { CommitKeepsAnswer(db, staging, winners, KeyFor(cfg, q), AckIn(q.state).value); }
    hide Committable, Committed, IsCommitted, KeyIn, StillPrivate, AnswerOk, OwnIds, StagingFits, KeyFor;
  }

  lemma {:induction false} FitsKey(cfg: Config, q: Request, q': Request, staging: Staging)
    requires StagingFits(cfg, q, staging) && q'.message == q.message && q'.header == q.header
    ensures staging.communication.key == Some(KeyFor(cfg, q')) && KeyFor(cfg, q') == KeyFor(cfg, q)
  {
  }

  /** The request that commits. */
  lemma {:induction false} CommitOwnRequest(cfg: Config, db: Db, staging: Staging, winners: set<Staging>, drawn: set<Uuid>, q: Request, q': Request)
    requires Committable(db, staging) && RequestOk(cfg, winners, db, drawn, q) && q.state == Prepared(staging)
    requires forall w | w in winners :: w.communication in db.communications
    requires q' == q.(state := Acked(AckOf(staging)), won := Some(staging))
    ensures RequestOk(cfg, winners + {staging}, Committed(db, staging), drawn, q')
  {
    hide Committable, Committed, IsCommitted, KeyIn, StillPrivate, AnswerOk, OwnIds, StagingFits, KeyFor, RowsAdded;
    CommitRows(db, staging);
    CommitAnswers(db, staging, winners);
    FitsWhateverState(cfg, q, q', staging);
    FitsKey(cfg, q, q', staging);
  }

  lemma {:induction false} OneMoreWinner(requests: seq<Request>, r: nat, q: Request, staging: Staging)
    requires r < |requests| && requests[r].won == None && q.won == Some(staging)
    ensures Winners(requests[r := q]) == Winners(requests) + {staging}
  {
    var requests' := requests[r := q];
    forall w | w in Winners(requests) + {staging} ensures w in Winners(requests') {
      if w != staging {
        var p :| p in requests && p.won == Some(w);
        var i :| 0 <= i < |requests| && requests[i] == p;
        assert requests'[i] in requests' && requests'[i].won == Some(w);
      } else {
        assert requests'[r] in requests';
      }
    }
    forall w | w in Winners(requests') ensures w in Winners(requests) + {staging} {
      var p :| p in requests' && p.won == Some(w);
      var i :| 0 <= i < |requests'| && requests'[i] == p;
      assert i != r ==> requests[i] in requests && requests[i].won == Some(w);
    }
  }

  lemma {:induction false} WinnersCommitted(cfg: Config, s: State)
    requires AllRequestsOk(cfg, s.requests, s.db, s.drawn)
    ensures forall w | w in Winners(s.requests) :: IsCommitted(s.db, w) && w.communication in s.db.communications
  {
    forall w | w in Winners(s.requests) ensures IsCommitted(s.db, w) {
      var q :| q in s.requests && q.won == Some(w);
      assert RequestOk(cfg, Winners(s.requests), s.db, s.drawn, q);
      hide AnswerOk, IsCommitted, KeyIn, StillPrivate, OwnIds, StagingFits, KeyFor;
    }
  }

  lemma {:induction false} CommitRequests(cfg: Config, s: State, s': State, r: nat, staging: Staging)
    requires AllRequestsOk(cfg, s.requests, s.db, s.drawn) && AllSeparate(s.requests)
    requires RequestAt(s, r) && s.requests[r].state == Prepared(staging) && Committable(s.db, staging)
    requires s'.db == Committed(s.db, staging) && s'.drawn == s.drawn
    requires s'.requests == s.requests[r := s.requests[r].(state := Acked(AckOf(staging)), won := Some(staging))]
    requires s.requests[r].won == None
    ensures Winners(s'.requests) == Winners(s.requests) + {staging}
    ensures AllRequestsOk(cfg, s'.requests, s'.db, s'.drawn) && AllSeparate(s'.requests)
  {
    WinnersCommitted(cfg, s);
    OneMoreWinner(s.requests, r, s'.requests[r], staging);
    hide Committable, Committed, IsCommitted, OwnIds, RequestOk, Winners;
    forall q | q in s'.requests ensures RequestOk(cfg, Winners(s.requests) + {staging}, s'.db, s'.drawn, q) {
      var i :| 0 <= i < |s'.requests| && s'.requests[i] == q;
      assert RequestOk(cfg, Winners(s.requests), s.db, s.drawn, s.requests[i]);
      if i == r {
        CommitOwnRequest(cfg, s.db, staging, Winners(s.requests), s.drawn, s.requests[r], q);
      } else {
        assert i < r ==> Separate(s.requests[i], s.requests[r]);
        assert r < i ==> Separate(s.requests[r], s.requests[i]);
        CommitKeepsRequest(cfg, s.db, staging, Winners(s.requests), s.drawn, q);
      }
    }
    forall i, j | 0 <= i < j < |s'.requests| ensures Separate(s'.requests[i], s'.requests[j]) {
      assert Separate(s.requests[i], s.requests[j]);
    }
  }

  lemma {:induction false} CommitCache(db: Db, staging: Staging, winners: set<Staging>, cache: map<string, Ack>)
    requires Committable(db, staging) && CacheOk(winners, db, cache)
    ensures CacheOk(winners + {staging}, Committed(db, staging), cache)
  {
    hide Committable, Committed, AnswerOk;
    forall k | k in cache ensures AnswerOk(winners + {staging}, Committed(db, staging), k, cache[k]) {
      CommitKeepsAnswer(db, staging, winners, k, cache[k]);
    }
  }

  lemma {:induction false} TakenKeyIsIn(cfg: Config, db: Db, q: Request, staging: Staging)
    requires StagingFits(cfg, q, staging) && KeyCommitted(db, staging)
    ensures KeyIn(db, KeyFor(cfg, q))
  {
    FindByKeyFinds(db.communications, KeyFor(cfg, q));
  }

  lemma {:induction false} CommitKeepsInv(cfg: Config, s: State, r: nat)
    requires Inv(cfg, s) && RequestAt(s, r) && s.requests[r].state.Prepared?
    ensures Inv(cfg, AfterCommit(s, r))
  {
    hide CacheOk, Winners, AllSeparate, UniqueKeys, AllOwned, EveryRowWon, IdsIn, KeyFor, Committed, KeyCommitted;
    var q, s', staging := s.requests[r], AfterCommit(s, r), s.requests[r].state.staging;
    assert q.won == None && StillPrivate(s.db, staging) && StagingFits(cfg, q, staging) && OwnIds(staging) <= s.drawn by {
      assert q in s.requests && RequestOk(cfg, Winners(s.requests), s.db, s.drawn, q);
      hide AnswerOk, IsCommitted, KeyIn, StillPrivate, OwnIds, StagingFits;
    }
    if KeyCommitted(s.db, staging) {
      TakenKeyIsIn(cfg, s.db, q, staging);
      hide TablesOk, AllRequestsOk, OwnIds, StagingFits, StillPrivate;
      MoveOn(cfg, s, s', r, Conflicted);
    } else {
      FitsCommittable(cfg, s.db, q, staging);
      hide TablesOk, AllRequestsOk, Committable, OwnIds, StagingFits, StillPrivate;
      CommitRequests(cfg, s, s', r, staging);
      CommitCache(s.db, staging, Winners(s.requests), s.cache);
      CommitKeepsWinners(s.db, staging, Winners(s.requests));
      CommitKeepsTables(s.db, staging, s.drawn);
    }
  }

  // ----- The other steps of a request -----

  lemma {:induction false} ArriveKeepsInv(cfg: Config, s: State, message: Message, header: Option<string>)
    requires Inv(cfg, s)
    ensures Inv(cfg, s.(requests := s.requests + [Request(message, header, Arrived, None)]))
  {
    hide CacheOk, UniqueKeys, AllOwned, EveryRowWon, IdsIn, RequestOk, OwnIds, TablesOk;
    var q := Request(message, header, Arrived, None);
    var requests' := s.requests + [q];
    assert Winners(requests') == Winners(s.requests);
    hide Winners;
    IdleRequestOk(cfg, Winners(s.requests), s.db, s.drawn, q);
    forall i, j | 0 <= i < j < |requests'| ensures Separate(requests'[i], requests'[j]) {
      if j < |s.requests| { assert Separate(s.requests[i], s.requests[j]); }
    }
  }

  lemma {:induction false} IdleRequestOk(cfg: Config, winners: set<Staging>, db: Db, drawn: set<Uuid>, q: Request)
    requires q.state.Arrived? && q.won == None
    ensures RequestOk(cfg, winners, db, drawn, q)
  {
  }

  lemma {:induction false} NotWonYet(cfg: Config, s: State, r: nat)
    requires AllRequestsOk(cfg, s.requests, s.db, s.drawn) && RequestAt(s, r)
    ensures var q := s.requests[r];
            && (AckIn(q.state).None? ==> q.won == None)
            && (AckIn(q.state).Some? ==> AnswerOk(Winners(s.requests), s.db, KeyFor(cfg, q), AckIn(q.state).value))
            && (q.state.Conflicted? ==> KeyIn(s.db, KeyFor(cfg, q)))
  {
    assert RequestOk(cfg, Winners(s.requests), s.db, s.drawn, s.requests[r]);
    hide AnswerOk, IsCommitted, KeyIn, StillPrivate, OwnIds, StagingFits, KeyFor;
  }

  lemma {:induction false} WonFacts(cfg: Config, s: State, r: nat)
    requires AllRequestsOk(cfg, s.requests, s.db, s.drawn) && RequestAt(s, r) && s.requests[r].won.Some?
    ensures var w := s.requests[r].won.value;
            && w in Winners(s.requests) && StagingOf(s.requests[r]) == Some(w)
            && w.communication in s.db.communications && w.communication.key == Some(KeyFor(cfg, s.requests[r]))
            && w.communication.id in OwnIds(w)
  {
    var q := s.requests[r];
    assert q in s.requests && RequestOk(cfg, Winners(s.requests), s.db, s.drawn, q);
    hide AnswerOk, KeyIn, StillPrivate, Winners;
    FitsKey(cfg, q, q, q.won.value);
  }

  lemma {:induction false} CheckKeepsInv(cfg: Config, s: State, r: nat, hit: bool)
    requires Inv(cfg, s) && RequestAt(s, r) && s.requests[r].state.Arrived?
    requires hit ==> !TooLong(s.requests[r]) && KeyFor(cfg, s.requests[r]) in s.cache
    ensures Inv(cfg, AfterCheck(cfg, s, r, hit))
  {
    hide Winners, AllSeparate, TablesOk, EveryRowWon, AllRequestsOk, AnswerOk, KeyFor;
    NotWonYet(cfg, s, r);
    var s' := AfterCheck(cfg, s, r, hit);
    MoveOn(cfg, s, s', r, s'.requests[r].state);
  }

  lemma {:induction false} WinnerRows(cfg: Config, s: State, w: Staging)
    requires AllRequestsOk(cfg, s.requests, s.db, s.drawn) && w in Winners(s.requests)
    ensures IsCommitted(s.db, w) && w.communication.application == w.applicationId && w.communication.key.Some?
    ensures exists q :: q in s.requests && q.won == Some(w) && StagingFits(cfg, q, w)
    ensures forall d | d in w.documents :: d.row.application == w.applicationId && Contained(cfg.root, d.row) && d.row.fileType in ALLOWED_FILE_TYPES
  {
    var q :| q in s.requests && q.won == Some(w);
    assert RequestOk(cfg, Winners(s.requests), s.db, s.drawn, q);
    hide AnswerOk, IsCommitted, KeyIn, StillPrivate, OwnIds, Winners;
    forall d | d in w.documents ensures d.row.application == w.applicationId && Contained(cfg.root, d.row) && d.row.fileType in ALLOWED_FILE_TYPES {
      var t :| 0 <= t < |w.documents| && w.documents[t] == d;
      assert BuildDocument(cfg, q.message.attachments[t], w.applicationId, w.documents[t].id) == Ok(d.row);
      BuiltDocument(cfg, q.message.attachments[t], w.applicationId, w.documents[t].id);
    }
  }

  lemma {:induction false} KeyDecidesRow(communications: seq<Communication>, c: Communication, d: Communication)
    requires UniqueKeys(communications) && c in communications && d in communications && c.key.Some? && c.key == d.key
    ensures c == d
  {
    var i :| 0 <= i < |communications| && communications[i] == c;
    var j :| 0 <= j < |communications| && communications[j] == d;
  }

  /** A replayed answer names the committed row and lists at least its request's documents. */
  lemma {:induction false} ReplayedAnswerOk(cfg: Config, s: State, key: string, borrower: string, order: seq<Uuid>)
    requires Inv(cfg, s) && ReplayAck(s.db, key, borrower, order).Some?
    requires FindByKey(s.db.communications, key).Some? ==>
               Enumerates(order, DocsOf(s.db, FindByKey(s.db.communications, key).value.application))
    ensures AnswerOk(Winners(s.requests), s.db, key, ReplayAck(s.db, key, borrower, order).value)
  {
    hide Winners, AllSeparate, CacheOk, EveryRowWon, AllRequestsOk, AllOwned, IdsIn, UniqueKeys;
    FindByKeyFinds(s.db.communications, key);
    var row, ack := FindByKey(s.db.communications, key).value, ReplayAck(s.db, key, borrower, order).value;
    forall w | w in Winners(s.requests) && w.communication.key == Some(key) ensures Lists(ack, w) {
      WinnerRows(cfg, s, w);
      KeyDecidesRow(s.db.communications, w.communication, row);
      forall d | d in w.documents ensures d.id in ack.documents {
        assert Bare(s.db.documents[d.id]) == d.row;
        assert d.id in DocsOf(s.db, row.application);
      }
    }
  }

  lemma {:induction false} ReplayKeepsInv(cfg: Config, s: State, r: nat, order: seq<Uuid>)
    requires Inv(cfg, s) && RequestAt(s, r) && s.requests[r].state.Conflicted?
    requires FindByKey(s.db.communications, KeyFor(cfg, s.requests[r])).Some? ==>
               Enumerates(order, DocsOf(s.db, FindByKey(s.db.communications, KeyFor(cfg, s.requests[r])).value.application))
    ensures Inv(cfg, AfterReplay(cfg, s, r, order))
  {
    hide Winners, AllSeparate, TablesOk, EveryRowWon, AllRequestsOk, AnswerOk, KeyFor, CacheOk, Enumerates, ReplayAck;
    NotWonYet(cfg, s, r);
    var q, s' := s.requests[r], AfterReplay(cfg, s, r, order);
    var replayed := ReplayAck(s.db, KeyFor(cfg, q), Strip(q.message.userId), order);
    if replayed.Some? {
      ReplayedAnswerOk(cfg, s, KeyFor(cfg, q), Strip(q.message.userId), order);
      MoveOn(cfg, s, s', r, Acked(replayed.value));
    } else {
      MoveOn(cfg, s, s', r, Rejected(UniqueKeyConflict));
    }
  }

  lemma {:induction false} StoreKeepsInv(cfg: Config, s: State, r: nat, reachable: bool)
    requires Inv(cfg, s) && RequestAt(s, r) && s.requests[r].state.Acked?
    ensures Inv(cfg, AfterStore(cfg, s, r, reachable))
  {
    hide Winners, AllSeparate, TablesOk, EveryRowWon, AllRequestsOk, AnswerOk, KeyFor;
    NotWonYet(cfg, s, r);
    MoveOn(cfg, s, AfterStore(cfg, s, r, reachable), r, Stored(s.requests[r].state.ack));
  }

  lemma {:induction false} QueueKeepsInv(cfg: Config, s: State, r: nat, s': State)
    requires Inv(cfg, s) && RequestAt(s, r) && s.requests[r].state.Stored?
    requires s' == AtRequest(s, r, Answered(s.requests[r].state.ack)).(pending := s'.pending)
    ensures Inv(cfg, s')
  {
    hide Winners, AllSeparate, TablesOk, EveryRowWon, AllRequestsOk, AnswerOk, KeyFor, CacheOk;
    NotWonYet(cfg, s, r);
    MoveOn(cfg, s, s', r, Answered(s.requests[r].state.ack));
  }

  lemma {:induction false} LoseKeepsInv(cfg: Config, s: State, keys: set<string>)
    requires Inv(cfg, s)
    ensures Inv(cfg, s.(cache := s.cache - keys))
  {
    hide Winners, AllSeparate, TablesOk, EveryRowWon, AllRequestsOk, AnswerOk;
  }

  // ----- The steps of a run -----

  lemma {:induction false} AssignedFrame(db: Db, application: Uuid, seen: Status, status: Status, drawn: set<Uuid>)
    ensures PipelineFrame(db, Assigned(db, application, seen, status), drawn)
    ensures IdsIn(Assigned(db, application, seen, status)) == IdsIn(db)
  {
  }

  lemma {:induction false} OnlyAudits(db: Db, db': Db, drawn: set<Uuid>)
    requires db' == db.(facts := db'.facts, audits := db'.audits)
    ensures PipelineFrame(db, db', drawn) && IdsIn(db') == IdsIn(db)
  {
  }

  lemma {:induction false} IngestedFrame(db: Db, application: Uuid, loaded: seq<Loaded>, drawn: set<Uuid>)
    ensures PipelineFrame(db, Ingested(db, application, loaded), drawn)
    ensures IdsIn(Ingested(db, application, loaded)) == IdsIn(db)
  {
    hide FreshTexts, ParseFailures;
    assert Ingested(db, application, loaded).documents.Keys == db.documents.Keys;
  }

  lemma {:induction false} DegradedFrame(db: Db, application: Uuid, seen: Status, errorClass: string, code: string, detail: string, drawn: set<Uuid>)
    ensures PipelineFrame(db, DegradedDb(db, application, seen, errorClass, code, detail), drawn)
    ensures IdsIn(DegradedDb(db, application, seen, errorClass, code, detail)) == IdsIn(db)
  {
    AssignedFrame(db, application, seen, ManualReview, drawn);
    AuditsAfter(db, Assigned(db, application, seen, ManualReview), DegradedDb(db, application, seen, errorClass, code, detail), drawn);
  }

  lemma {:induction false} AuditsAfter(db: Db, middle: Db, db': Db, drawn: set<Uuid>)
    requires PipelineFrame(db, middle, drawn) && db' == middle.(audits := db'.audits)
    ensures PipelineFrame(db, db', drawn) && IdsIn(db') == IdsIn(middle)
  {
  }

  lemma {:induction false} ChasedFrame(db: Db, application: Uuid, seen: Status, decision: Decision, id: Uuid, now: int, drawn: set<Uuid>)
    requires application in db.applications && id !in drawn
    ensures PipelineFrame(db, ChasedDb(db, application, seen, decision, id, now), drawn)
    ensures IdsIn(ChasedDb(db, application, seen, decision, id, now)) <= IdsIn(db) + {id}
  {
    AssignedFrame(db, application, seen, FinalStatus(decision.missing), drawn);
    if !decision.alreadySent {
      IdsAppend(db.communications, Communication(id, application, decision.channel, Outbound, Some(decision.content), now, None));
    }
  }

  ghost predicate RunsKnown(s: State) {
    forall k | 0 <= k < |s.runs| :: s.runs[k].application in s.db.applications
  }

  /** The tables change only where a run may change them, and nothing of the requests does. */
  ghost predicate InFrame(s: State, s': State) {
    && PipelineFrame(s.db, s'.db, s.drawn) && IdsIn(s'.db) <= s'.drawn
    && s'.requests == s.requests && s'.cache == s.cache && s.drawn <= s'.drawn
  }

  lemma {:induction false} StartFramed(cfg: Config, rt: Runtime, s: State, a: Uuid)
    requires Enabled(cfg, rt, s, StartRun(a)) && IdsIn(s.db) <= s.drawn
    ensures InFrame(s, Apply(cfg, rt, s, StartRun(a)))
  {
    hide PipelineFrame, IdsIn, Assigned, EnteredStatus;
    if a in s.db.applications {
      var status := s.db.applications[a].status;
      AssignedFrame(s.db, a, status, EnteredStatus(status), s.drawn);
    } else {
      OnlyAudits(s.db, s.db, s.drawn);
    }
  }

  lemma {:induction false} IngestFramed(cfg: Config, rt: Runtime, s: State, k: nat, rows: seq<Communication>)
    requires Enabled(cfg, rt, s, CommitIngest(k, rows)) && IdsIn(s.db) <= s.drawn
    ensures InFrame(s, Apply(cfg, rt, s, CommitIngest(k, rows)))
  {
    hide PipelineFrame, IdsIn, ChatRows, Ingested, SourcesOf;
    IngestedFrame(s.db, s.runs[k].application, s.runs[k].state.loaded, s.drawn);
  }

  lemma {:induction false} ExtractFramed(cfg: Config, rt: Runtime, s: State, k: nat, outcome: Outcome)
    requires Enabled(cfg, rt, s, Extract(k, outcome)) && IdsIn(s.db) <= s.drawn
    ensures InFrame(s, Apply(cfg, rt, s, Extract(k, outcome)))
  {
    hide PipelineFrame, IdsIn, DegradedDb, SchemaValid;
    var run, s' := s.runs[k], Apply(cfg, rt, s, Extract(k, outcome));
    if run.state.sources != [] && outcome.Failed? {
      DegradedFrame(s.db, run.application, run.seen, outcome.errorClass, outcome.code, outcome.detail, s.drawn);
    } else {
      OnlyAudits(s.db, s'.db, s.drawn);
    }
  }

  lemma {:induction false} ChaseFramed(cfg: Config, rt: Runtime, s: State, k: nat, id: Uuid, now: int)
    requires RunsKnown(s) && Enabled(cfg, rt, s, CommitChase(k, id, now)) && IdsIn(s.db) <= s.drawn
    ensures InFrame(s, Apply(cfg, rt, s, CommitChase(k, id, now)))
  {
    hide PipelineFrame, IdsIn, ChasedDb, FinalStatus;
    var run := s.runs[k];
    ChasedFrame(s.db, run.application, run.seen, run.state.decision, id, now, s.drawn);
  }

  lemma {:induction false} OtherFramed(cfg: Config, rt: Runtime, s: State, step: Step)
    requires Enabled(cfg, rt, s, step) && IdsIn(s.db) <= s.drawn && (step.LoadDocuments? || step.ReconcileFacts? || step.DecideChase?)
    ensures InFrame(s, Apply(cfg, rt, s, step))
  {
    hide PipelineFrame, IdsIn, LoadAll, Decide, AnomalyAudits, Enumerates, PickedChannel;
    OnlyAudits(s.db, Apply(cfg, rt, s, step).db, s.drawn);
  }

  lemma {:induction false} RunStepFrame(cfg: Config, rt: Runtime, s: State, step: Step)
    requires RunsKnown(s) && Enabled(cfg, rt, s, step) && !IsRequestStep(step) && IdsIn(s.db) <= s.drawn
    ensures var s' := Apply(cfg, rt, s, step);
            && PipelineFrame(s.db, s'.db, s.drawn) && IdsIn(s'.db) <= s'.drawn
            && s'.requests == s.requests && s'.cache == s.cache && s.drawn <= s'.drawn
  {
    hide Enabled, Apply, PipelineFrame, IdsIn, RunsKnown;
    match step
    case StartRun(a) => StartFramed(cfg, rt, s, a);
    case CommitIngest(k, rows) => IngestFramed(cfg, rt, s, k, rows);
    case Extract(k, outcome) => ExtractFramed(cfg, rt, s, k, outcome);
    case CommitChase(k, id, now) => ChaseFramed(cfg, rt, s, k, id, now);
    case _ => OtherFramed(cfg, rt, s, step);
  }

  lemma {:induction false} RunStepKeepsInv(cfg: Config, rt: Runtime, s: State, step: Step)
    requires Inv(cfg, s) && RunsKnown(s) && Enabled(cfg, rt, s, step) && !IsRequestStep(step)
    ensures Inv(cfg, Apply(cfg, rt, s, step))
  {
    hide Apply, Enabled, AllRequestsOk, AllSeparate, CacheOk, EveryRowWon, UniqueKeys, AllOwned, PipelineFrame, IdsIn, Winners;
    RunStepFrame(cfg, rt, s, step);
    FrameKeepsInv(cfg, s, Apply(cfg, rt, s, step));
  }

  /** Runs keep their applications, and applications are never removed. */
  ghost predicate RunsCarriedOver(s: State, s': State) {
    && s.db.applications.Keys <= s'.db.applications.Keys
    && |s.runs| <= |s'.runs|
    && (forall k | 0 <= k < |s.runs| :: s'.runs[k].application == s.runs[k].application)
    && (forall k | |s.runs| <= k < |s'.runs| :: s'.runs[k].application in s.db.applications)
  }

  lemma {:induction false} RequestStepCarriesRuns(cfg: Config, rt: Runtime, s: State, step: Step)
    requires Enabled(cfg, rt, s, step) && IsRequestStep(step)
    ensures RunsCarriedOver(s, Apply(cfg, rt, s, step)) && Apply(cfg, rt, s, step).runs == s.runs
  {
    hide StageMessage, DocumentMap, ReplayAck, KeyFor, KeyCommitted, NewestOpen, NewDraw, Enumerates;
  }

  /** A step of a run moves one run, or starts one for a known application. */
  ghost predicate RunMoved(s: State, s': State, step: Step)
    requires !IsRequestStep(step)
  {
    if step.StartRun? then
      s'.runs == s.runs || (|s'.runs| == |s.runs| + 1 && s'.runs[..|s.runs|] == s.runs
                            && s'.runs[|s.runs|].application in s.db.applications)
    else
      step.k < |s.runs| == |s'.runs| && s'.runs == s.runs[step.k := s'.runs[step.k]]
      && s'.runs[step.k].application == s.runs[step.k].application
  }

  lemma {:induction false} RunStepRuns(cfg: Config, rt: Runtime, s: State, step: Step)
    requires Enabled(cfg, rt, s, step) && !IsRequestStep(step)
    ensures RunMoved(s, Apply(cfg, rt, s, step), step)
  {
    hide Entered, Ingested, ExtractedDb, DegradedDb, ReconciledDb, ChasedDb, SourcesOf, LoadAll, Decide,
         NewestOpen, NewDraw, Enumerates, ChatRows, PickedChannel;
    match step
    case Extract(k, outcome) => ExtractRuns(rt, s, k, outcome);
    case LoadDocuments(k, _) => assert RunAt(s, k);
    case CommitIngest(k, _) => assert RunAt(s, k);
    case ReconcileFacts(k, _) => assert RunAt(s, k);
    case DecideChase(k, _) => assert RunAt(s, k);
    case CommitChase(k, _, _) => assert RunAt(s, k);
    case _ =>
  }

  lemma {:induction false} MovedRunsKnown(s: State, s': State, step: Step)
    requires RunsKnown(s) && !IsRequestStep(step) && RunMoved(s, s', step)
    requires s'.db.applications.Keys == s.db.applications.Keys
    ensures RunsKnown(s')
  {
    forall k | 0 <= k < |s'.runs| ensures s'.runs[k].application in s'.db.applications {
      if step.StartRun? && k < |s.runs| && s'.runs != s.runs { assert s'.runs[..|s.runs|][k] == s'.runs[k]; }
    }
  }

  lemma {:induction false} ExtractRuns(rt: Runtime, s: State, k: nat, outcome: Outcome)
    requires RunAt(s, k) && s.runs[k].state.AtExtract?
    ensures var s' := AfterExtract(rt, s, k, outcome);
            s'.runs == s.runs[k := s'.runs[k]] && s'.runs[k].application == s.runs[k].application
  {
    hide ExtractedDb, DegradedDb;
  }

  lemma {:induction false} RunsStayKnown(cfg: Config, rt: Runtime, s: State, step: Step)
    requires RunsKnown(s) && IdsIn(s.db) <= s.drawn && Enabled(cfg, rt, s, step)
    ensures RunsKnown(Apply(cfg, rt, s, step))
  {
    if IsRequestStep(step) {
      RequestStepCarriesRuns(cfg, rt, s, step);
      hide Apply, Enabled;
    } else {
      RunStepFrame(cfg, rt, s, step);
      RunStepRuns(cfg, rt, s, step);
      hide Apply, Enabled, IdsIn, RunMoved, RunsKnown;
      MovedRunsKnown(s, Apply(cfg, rt, s, step), step);
    }
  }

  ghost predicate Sound(cfg: Config, s: State) { Inv(cfg, s) && RunsKnown(s) }

  // One lemma for each step of a request, and one for all of them.

  lemma {:induction false} ArriveStepKeepsInv(cfg: Config, rt: Runtime, s: State, message: Message, header: Option<string>)
    requires Inv(cfg, s) && Enabled(cfg, rt, s, Arrive(message, header))
    ensures Inv(cfg, Apply(cfg, rt, s, Arrive(message, header)))
  {
    hide Inv;
    ArriveKeepsInv(cfg, s, message, header);
  }

  lemma {:induction false} CheckStepKeepsInv(cfg: Config, rt: Runtime, s: State, r: nat, hit: bool)
    requires Inv(cfg, s) && Enabled(cfg, rt, s, CheckKey(r, hit))
    ensures Inv(cfg, Apply(cfg, rt, s, CheckKey(r, hit)))
  {
    hide Inv, KeyFor;
    CheckKeepsInv(cfg, s, r, hit);
  }

  lemma {:induction false} PrepareStepKeepsInv(cfg: Config, rt: Runtime, s: State, r: nat, chosen: Option<Uuid>, draw: Draw)
    requires Inv(cfg, s) && Enabled(cfg, rt, s, Prepare(r, chosen, draw))
    ensures Inv(cfg, Apply(cfg, rt, s, Prepare(r, chosen, draw)))
  {
    hide Inv, NewestOpen, NewDraw;
    PrepareKeepsInv(cfg, s, r, chosen, draw);
  }

  lemma {:induction false} CommitStepKeepsInv(cfg: Config, rt: Runtime, s: State, r: nat)
    requires Inv(cfg, s) && Enabled(cfg, rt, s, CommitMessage(r))
    ensures Inv(cfg, Apply(cfg, rt, s, CommitMessage(r)))
  {
    hide Inv;
    CommitKeepsInv(cfg, s, r);
  }

  lemma {:induction false} ReplayStepKeepsInv(cfg: Config, rt: Runtime, s: State, r: nat, order: seq<Uuid>)
    requires Inv(cfg, s) && Enabled(cfg, rt, s, Replay(r, order))
    ensures Inv(cfg, Apply(cfg, rt, s, Replay(r, order)))
  {
    hide Inv, KeyFor, Enumerates, DocsOf, FindByKey;
    ReplayKeepsInv(cfg, s, r, order);
  }

  lemma {:induction false} StoreStepKeepsInv(cfg: Config, rt: Runtime, s: State, r: nat, reachable: bool)
    requires Inv(cfg, s) && Enabled(cfg, rt, s, StoreAnswer(r, reachable))
    ensures Inv(cfg, Apply(cfg, rt, s, StoreAnswer(r, reachable)))
  {
    hide Inv;
    StoreKeepsInv(cfg, s, r, reachable);
  }

  lemma {:induction false} QueueStepKeepsInv(cfg: Config, rt: Runtime, s: State, r: nat)
    requires Inv(cfg, s) && Enabled(cfg, rt, s, QueueRun(r))
    ensures Inv(cfg, Apply(cfg, rt, s, QueueRun(r)))
  {
    hide Inv;
    QueueKeepsInv(cfg, s, r, Apply(cfg, rt, s, QueueRun(r)));
  }

  lemma {:induction false} LoseStepKeepsInv(cfg: Config, rt: Runtime, s: State, keys: set<string>)
    requires Inv(cfg, s) && Enabled(cfg, rt, s, LoseEntries(keys))
    ensures Inv(cfg, Apply(cfg, rt, s, LoseEntries(keys)))
  {
    hide Inv;
    LoseKeepsInv(cfg, s, keys);
  }

  lemma {:induction false} StepKeepsInv(cfg: Config, rt: Runtime, s: State, step: Step)
    requires Inv(cfg, s) && RunsKnown(s) && Enabled(cfg, rt, s, step)
    ensures Inv(cfg, Apply(cfg, rt, s, step))
  {
    hide Inv, RunsKnown, Apply, Enabled;
    match step
    case Arrive(message, header) => ArriveStepKeepsInv(cfg, rt, s, message, header);
    case CheckKey(r, hit) => CheckStepKeepsInv(cfg, rt, s, r, hit);
    case Prepare(r, chosen, draw) => PrepareStepKeepsInv(cfg, rt, s, r, chosen, draw);
    case CommitMessage(r) => CommitStepKeepsInv(cfg, rt, s, r);
    case Replay(r, order) => ReplayStepKeepsInv(cfg, rt, s, r, order);
    case StoreAnswer(r, reachable) => StoreStepKeepsInv(cfg, rt, s, r, reachable);
    case QueueRun(r) => QueueStepKeepsInv(cfg, rt, s, r);
    case LoseEntries(keys) => LoseStepKeepsInv(cfg, rt, s, keys);
    case _ => RunStepKeepsInv(cfg, rt, s, step);
  }

  lemma {:induction false} InvTables(cfg: Config, s: State)
    requires Inv(cfg, s)
    ensures IdsIn(s.db) <= s.drawn
  {
    hide AllRequestsOk, AllSeparate, CacheOk, EveryRowWon, UniqueKeys, AllOwned, IdsIn, Winners;
  }

  lemma {:induction false} StepKeepsSound(cfg: Config, rt: Runtime, s: State, step: Step)
    requires Sound(cfg, s) && Enabled(cfg, rt, s, step)
    ensures Sound(cfg, Apply(cfg, rt, s, step))
  {
    hide Inv, RunsKnown, Apply, Enabled, IdsIn;
    InvTables(cfg, s);
    RunsStayKnown(cfg, rt, s, step);
    StepKeepsInv(cfg, rt, s, step);
  }

  /** The invariant holds after every history. */
  lemma {:induction false} HistoryKeepsSound(cfg: Config, rt: Runtime, s: State, steps: seq<Step>)
    requires Sound(cfg, s) && Runs(cfg, rt, s, steps)
    ensures Sound(cfg, After(cfg, rt, s, steps))
    decreases |steps|
  {
    hide Sound, Enabled, Apply;
    if steps != [] {
      StepKeepsSound(cfg, rt, s, steps[0]);
      HistoryKeepsSound(cfg, rt, Apply(cfg, rt, s, steps[0]), steps[1..]);
    }
  }

  lemma {:induction false} InitSound(cfg: Config)
    ensures Sound(cfg, INIT)
  {
  }

  // ----- What a reader of the system may rely on -----

  /** Two answers to one scoped key name the same communication and application, however
      they were served, and every cache entry names the one committed row of its key. */
  lemma {:induction false} AnswersAgree(cfg: Config, rt: Runtime, steps: seq<Step>)
    requires Runs(cfg, rt, INIT, steps)
    ensures var s := After(cfg, rt, INIT, steps);
            && (forall p, q | p in s.requests && q in s.requests && AckIn(p.state).Some? && AckIn(q.state).Some?
                              && KeyFor(cfg, p) == KeyFor(cfg, q) ::
                  && AckIn(p.state).value.communication == AckIn(q.state).value.communication
                  && AckIn(p.state).value.application == AckIn(q.state).value.application)
            && (forall k | k in s.cache :: NamesRow(s.db, k, s.cache[k]))
            && UniqueKeys(s.db.communications)
  {
    var s := After(cfg, rt, INIT, steps);
    InitSound(cfg);
    HistoryKeepsSound(cfg, rt, INIT, steps);
    hide After, Runs, Winners, AllSeparate, EveryRowWon, AllOwned, IdsIn, UniqueKeys, ListsOriginal, IsCommitted, StillPrivate, StagingFits, OwnIds, KeyFor, KeyIn;
    forall p, q | p in s.requests && q in s.requests && AckIn(p.state).Some? && AckIn(q.state).Some? && KeyFor(cfg, p) == KeyFor(cfg, q)
      ensures AckIn(p.state).value.communication == AckIn(q.state).value.communication
      ensures AckIn(p.state).value.application == AckIn(q.state).value.application
    {
      assert RequestOk(cfg, Winners(s.requests), s.db, s.drawn, p) && RequestOk(cfg, Winners(s.requests), s.db, s.drawn, q);
      SameRow(s.db, KeyFor(cfg, p), AckIn(p.state).value, AckIn(q.state).value);
    }
  }

  lemma {:induction false} SameRow(db: Db, key: string, a: Ack, b: Ack)
    requires UniqueKeys(db.communications) && NamesRow(db, key, a) && NamesRow(db, key, b)
    ensures a.communication == b.communication && a.application == b.application
  {
    var c :| c in db.communications && c.key == Some(key) && c.id == a.communication && c.application == a.application;
    var d :| d in db.communications && d.key == Some(key) && d.id == b.communication && d.application == b.application;
    KeyDecidesRow(db.communications, c, d);
  }

  /** Every answer lists all documents of the request whose commit won its key. */
  ghost predicate OriginalsListed(cfg: Config, s: State) {
    forall i, j | 0 <= i < |s.requests| && 0 <= j < |s.requests| && s.requests[i].won.Some? && AckIn(s.requests[j].state).Some?
                  && KeyFor(cfg, s.requests[i]) == KeyFor(cfg, s.requests[j]) ::
      Lists(AckIn(s.requests[j].state).value, s.requests[i].won.value)
  }

  lemma {:induction false} AnswersListOriginal(cfg: Config, rt: Runtime, steps: seq<Step>)
    requires Runs(cfg, rt, INIT, steps)
    ensures OriginalsListed(cfg, After(cfg, rt, INIT, steps))
  {
    InitSound(cfg);
    HistoryKeepsSound(cfg, rt, INIT, steps);
    hide After, Runs, Inv, OriginalsListed;
    ListedIn(cfg, After(cfg, rt, INIT, steps));
  }

  lemma {:induction false} ListedIn(cfg: Config, s: State)
    requires Inv(cfg, s)
    ensures OriginalsListed(cfg, s)
  {
    hide EveryRowWon, TablesOk, AllRequestsOk, CacheOk, KeyFor, Winners, OwnIds, RequestOk, AllSeparate, Lists;
    forall i, j | 0 <= i < |s.requests| && 0 <= j < |s.requests| && s.requests[i].won.Some? && AckIn(s.requests[j].state).Some?
                  && KeyFor(cfg, s.requests[i]) == KeyFor(cfg, s.requests[j])
      ensures Lists(AckIn(s.requests[j].state).value, s.requests[i].won.value)
    {
      WonFacts(cfg, s, i);
      NotWonYet(cfg, s, j);
    }
  }

  /** Different winning requests: different keys, different rows. */
  ghost predicate WinnersDiffer(cfg: Config, s: State) {
    forall i, j | 0 <= i < j < |s.requests| && s.requests[i].won.Some? && s.requests[j].won.Some? ::
      && KeyFor(cfg, s.requests[i]) != KeyFor(cfg, s.requests[j])
      && OwnIds(s.requests[i].won.value) !! OwnIds(s.requests[j].won.value)
  }

  ghost predicate WinnersStand(s: State) {
    forall w | w in Winners(s.requests) :: IsCommitted(s.db, w)
  }

  /** What a winning request committed was staged for its own message: its key, its text,
      and one document for each of its attachments. */
  ghost predicate WonOwnMessage(cfg: Config, s: State) {
    forall q | q in s.requests && q.won.Some? :: StagingFits(cfg, q, q.won.value)
  }

  /** A request without an answer, refused or losing its race among them, has committed nothing. */
  ghost predicate OnlyAnsweredWon(s: State) {
    forall q | q in s.requests && AckIn(q.state).None? :: q.won == None
  }

  /** Intake conserves: inbound communications, documents and applications are exactly what
      the winning requests staged for their own messages, each row from one of them, no key
      won twice, and only answered requests win. */
  lemma {:induction false} IntakeConserves(cfg: Config, rt: Runtime, steps: seq<Step>)
    requires Runs(cfg, rt, INIT, steps)
    ensures var s := After(cfg, rt, INIT, steps);
            && EveryRowWon(Winners(s.requests), s.db) && WinnersStand(s) && WinnersDiffer(cfg, s)
            && WonOwnMessage(cfg, s) && OnlyAnsweredWon(s)
  {
    InitSound(cfg);
    HistoryKeepsSound(cfg, rt, INIT, steps);
    hide After, Runs, EveryRowWon, WinnersStand, WinnersDiffer, WonOwnMessage, OnlyAnsweredWon, TablesOk, AllRequestsOk, AllSeparate, CacheOk, Winners;
    Conserved(cfg, After(cfg, rt, INIT, steps));
    WonFit(cfg, After(cfg, rt, INIT, steps));
  }

  lemma {:induction false} WonFit(cfg: Config, s: State)
    requires AllRequestsOk(cfg, s.requests, s.db, s.drawn)
    ensures WonOwnMessage(cfg, s) && OnlyAnsweredWon(s)
  {
    hide AnswerOk, IsCommitted, KeyIn, StillPrivate, OwnIds, StagingFits, KeyFor, Winners;
    forall q | q in s.requests && q.won.Some? ensures StagingFits(cfg, q, q.won.value) && AckIn(q.state).Some? {
      assert RequestOk(cfg, Winners(s.requests), s.db, s.drawn, q);
    }
  }

  lemma {:induction false} Conserved(cfg: Config, s: State)
    requires Inv(cfg, s)
    ensures WinnersStand(s) && WinnersDiffer(cfg, s)
  {
    WinnersCommitted(cfg, s);
    hide EveryRowWon, TablesOk, AllRequestsOk, CacheOk, KeyFor, Winners, OwnIds, AllSeparate, IsCommitted;
    forall i, j | 0 <= i < j < |s.requests| && s.requests[i].won.Some? && s.requests[j].won.Some?
      ensures KeyFor(cfg, s.requests[i]) != KeyFor(cfg, s.requests[j])
      ensures OwnIds(s.requests[i].won.value) !! OwnIds(s.requests[j].won.value)
    {
      TwoWinners(cfg, s, i, j);
    }
  }

  lemma {:induction false} TwoWinners(cfg: Config, s: State, i: nat, j: nat)
    requires Inv(cfg, s) && i < j < |s.requests| && s.requests[i].won.Some? && s.requests[j].won.Some?
    ensures KeyFor(cfg, s.requests[i]) != KeyFor(cfg, s.requests[j])
    ensures OwnIds(s.requests[i].won.value) !! OwnIds(s.requests[j].won.value)
  {
    hide EveryRowWon, TablesOk, AllRequestsOk, CacheOk, KeyFor, Winners, OwnIds, RequestOk, IdsIn, AllOwned;
    WonFacts(cfg, s, i);
    WonFacts(cfg, s, j);
    assert Separate(s.requests[i], s.requests[j]);
    var v, w := s.requests[i].won.value, s.requests[j].won.value;
    if KeyFor(cfg, s.requests[i]) == KeyFor(cfg, s.requests[j]) {
      TableKeys(s.db, s.drawn);
      KeyDecidesRow(s.db.communications, v.communication, w.communication);
    }
  }

  lemma {:induction false} TableKeys(db: Db, drawn: set<Uuid>)
    requires TablesOk(db, drawn)
    ensures UniqueKeys(db.communications)
  {
  }

  /** Every committed storage path leads nowhere or into its own application's directory. */
  lemma {:induction false} StoredPathsContained(cfg: Config, rt: Runtime, steps: seq<Step>)
    requires Runs(cfg, rt, INIT, steps)
    ensures var s := After(cfg, rt, INIT, steps);
            forall d | d in s.db.documents :: Contained(cfg.root, s.db.documents[d])
  {
    var s := After(cfg, rt, INIT, steps);
    InitSound(cfg);
    HistoryKeepsSound(cfg, rt, INIT, steps);
    hide After, Runs, AllSeparate, AllRequestsOk, AllOwned, IdsIn, CacheOk, Winners;
    forall d | d in s.db.documents ensures Contained(cfg.root, s.db.documents[d]) {
      assert DocumentWon(Winners(s.requests), d, s.db.documents[d]);
      var w :| w in Winners(s.requests) && NewDocument(d, Bare(s.db.documents[d])) in w.documents;
      WinnerRows(cfg, s, w);
      assert Contained(cfg.root, Bare(s.db.documents[d]));
    }
  }

  // ----- The cache in front -----

  /** A hit answers with the committed row of its key and lists every document of the
      request that won the key: what a commit or a replay of that key would answer. */
  lemma {:induction false} HitIsCommittedAnswer(cfg: Config, rt: Runtime, steps: seq<Step>, r: nat)
    requires Runs(cfg, rt, INIT, steps) && Enabled(cfg, rt, After(cfg, rt, INIT, steps), CheckKey(r, true))
    ensures var s := After(cfg, rt, INIT, steps);
            var key, s' := KeyFor(cfg, s.requests[r]), Apply(cfg, rt, s, CheckKey(r, true));
            && s'.requests[r].state.Answered? && s'.db == s.db
            && AnswerOk(Winners(s.requests), s.db, key, s'.requests[r].state.ack)
  {
    var s := After(cfg, rt, INIT, steps);
    InitSound(cfg);
    HistoryKeepsSound(cfg, rt, INIT, steps);
    hide After, Runs, Winners, AllSeparate, TablesOk, EveryRowWon, AllRequestsOk, AnswerOk, KeyFor, RunsKnown;
  }
}
