/** intake.py, idempotency.py and webhooks.py: staging an inbound message, committing
    it under its unique key, replaying a committed one, and the cache in front. */
module Intake {
  import opened Basics
  import opened ObjectStore
  import opened Tables

  datatype Attachment = Attachment(fileType: string, filename: Option<string>, contentBase64: Option<string>, url: Option<string>)

  datatype Message = Message(userId: string, channel: Channel, text: Option<string>, sentAt: Option<int>, attachments: seq<Attachment>)

  datatype IntakeError = KeyTooLong | UnsupportedMediaType | InvalidAttachment | PayloadTooLarge | UniqueKeyConflict

  datatype Ack = Ack(application: Uuid, status: Status, communication: Uuid, documents: seq<Uuid>)

  /** Settings and foreign code: base64 decoding and the hash of a message without a key. */
  datatype Config = Config(decode: string -> Option<Bytes>, maxAttachmentBytes: nat, root: Location,
                           fallbackKey: Message -> string)

  /** What one request draws from `uuid4` and the clock. */
  datatype Draw = Draw(application: Uuid, communication: Uuid, documents: seq<Uuid>, now: int)

  const ALLOWED_FILE_TYPES: set<string> := {"application/pdf", "text/plain", "image/jpeg", "image/png"}
  const MAX_KEY_LENGTH := 255

  function Scoped(userId: string, key: string): string { Strip(userId) + ":" + key }

  // ----- One attachment -----

  function BuildDocument(cfg: Config, attachment: Attachment, application: Uuid, document: Uuid): Result<Document, IntakeError> {
    if attachment.fileType !in ALLOWED_FILE_TYPES then Err(UnsupportedMediaType)
    else match attachment.contentBase64
      case Some(encoded) =>
        (match cfg.decode(encoded)
         case None => Err(InvalidAttachment)
         case Some(payload) =>
           if |payload| > cfg.maxAttachmentBytes then Err(PayloadTooLarge)
           else Ok(Document(application, attachment.fileType,
                            Some(StoragePath(application, document, UploadName(attachment))), None)))
      case None =>
        if attachment.url.None? then Err(InvalidAttachment)
        else if Substring("..", attachment.url.value) || Substring("%2e", Lower(attachment.url.value)) then Err(InvalidAttachment)
        else Ok(Document(application, attachment.fileType, attachment.url, None))
  }

  function UploadName(attachment: Attachment): string {
    if attachment.filename.Some? && attachment.filename.value != "" then attachment.filename.value else "upload.bin"
  }

  datatype NewDocument = NewDocument(id: Uuid, row: Document)

  /** The first attachment that is refused decides. */
  function BuildDocuments(cfg: Config, attachments: seq<Attachment>, application: Uuid, ids: seq<Uuid>): Result<seq<NewDocument>, IntakeError>
    requires |attachments| <= |ids|
  {
    if attachments == [] then Ok([])
    else
      var n := |attachments| - 1;
      match BuildDocuments(cfg, attachments[..n], application, ids[..n])
      case Err(e) => Err(e)
      case Ok(documents) =>
        match BuildDocument(cfg, attachments[n], application, ids[n])
        case Err(e) => Err(e)
        case Ok(row) => Ok(documents + [NewDocument(ids[n], row)])
  }

  /** A stored path leads nowhere or into its own application's directory. */
  ghost predicate Contained(root: Location, document: Document) {
    var local := LocalDocumentPath(root, document.application, document.s3Path);
    local.Some? ==> root + [document.application] <= local.value
  }

  lemma {:induction false} BuiltDocument(cfg: Config, attachment: Attachment, application: Uuid, id: Uuid)
    requires BuildDocument(cfg, attachment, application, id).Ok?
    ensures var document := BuildDocument(cfg, attachment, application, id).value;
            && document.application == application && document.rawText == None
            && document.fileType == attachment.fileType && document.fileType in ALLOWED_FILE_TYPES
            && Contained(cfg.root, document)
            && (attachment.contentBase64.None? || LocalDocumentPath(cfg.root, application, document.s3Path)
                                                  == Some(Target(cfg.root, application, id, UploadName(attachment))))
  {
    if attachment.contentBase64.Some? {
      StoragePathReadsBack(cfg.root, application, id, UploadName(attachment));
      assert cfg.root + [application] <= Target(cfg.root, application, id, UploadName(attachment));
    } else {
      PathStaysWithApplication(cfg.root, application, attachment.url.value);
    }
  }

  lemma {:induction false} BuiltDocuments(cfg: Config, attachments: seq<Attachment>, application: Uuid, ids: seq<Uuid>)
    requires |attachments| <= |ids| && BuildDocuments(cfg, attachments, application, ids).Ok?
    ensures var documents := BuildDocuments(cfg, attachments, application, ids).value;
            && |documents| == |attachments|
            && forall t | 0 <= t < |attachments| ::
                 && documents[t].id == ids[t]
                 && BuildDocument(cfg, attachments[t], application, ids[t]) == Ok(documents[t].row)
                 && documents[t].row.application == application && documents[t].row.rawText == None
                 && Contained(cfg.root, documents[t].row)
  {
    hide BuildDocument, Contained;
    if attachments != [] {
      var n := |attachments| - 1;
      BuiltDocuments(cfg, attachments[..n], application, ids[..n]);
      BuiltDocument(cfg, attachments[n], application, ids[n]);
    }
  }

  // ----- Staging -----

  /** `chosen` answers the query for the borrower's newest open application. */
  ghost predicate NewestOpen(db: Db, borrower: string, chosen: Option<Uuid>) {
    match chosen
    case Some(a) =>
      && IsOpenFor(db, borrower, a)
      && forall b :: IsOpenFor(db, borrower, b) ==> db.applications[b].created <= db.applications[a].created
    case None => forall b :: !IsOpenFor(db, borrower, b)
  }

  predicate IsOpenFor(db: Db, borrower: string, a: Uuid) {
    a in db.applications && db.applications[a].borrower == borrower && Open(db.applications[a].status)
  }

  /** A message joins its borrower's newest unfinished application, whether it waits for
      documents, is being processed or is under review; without any it opens a new one. */
  lemma {:induction false} JoinsUnfinished(db: Db, borrower: string, chosen: Option<Uuid>)
    requires NewestOpen(db, borrower, chosen)
    ensures match chosen
            case None => forall b | b in db.applications && db.applications[b].borrower == borrower :: db.applications[b].status == ReadyForLos
            case Some(a) =>
              && a in db.applications && db.applications[a].borrower == borrower
              && (db.applications[a].status == PendingDocs || db.applications[a].status == Processing || db.applications[a].status == ManualReview)
              && forall b | b in db.applications && db.applications[b].borrower == borrower
                            && db.applications[b].created > db.applications[a].created :: db.applications[b].status == ReadyForLos
  {
    if chosen == None {
      forall b | b in db.applications && db.applications[b].borrower == borrower ensures db.applications[b].status == ReadyForLos {
        assert !IsOpenFor(db, borrower, b);
      }
    } else {
      forall b | b in db.applications && db.applications[b].borrower == borrower && db.applications[b].created > db.applications[chosen.value].created
        ensures db.applications[b].status == ReadyForLos
      {
        assert !IsOpenFor(db, borrower, b);
      }
    }
  }

  datatype Staging = Staging(applicationId: Uuid, isNew: bool, application: Application, communication: Communication,
                             documents: seq<NewDocument>)

  function StageMessage(cfg: Config, db: Db, message: Message, key: string, chosen: Option<Uuid>, draw: Draw): Result<Staging, IntakeError>
    requires chosen.Some? ==> chosen.value in db.applications
    requires |draw.documents| == |message.attachments|
  {
    var borrower := Strip(message.userId);
    var id := if chosen.Some? then chosen.value else draw.application;
    var application := if chosen.Some? then db.applications[id] else Application(borrower, PendingDocs, draw.now);
    var receivedAt := if message.sentAt.Some? then message.sentAt.value else draw.now;
    var communication := Communication(draw.communication, id, message.channel, Inbound, message.text, receivedAt,
                                       Some(Scoped(message.userId, key)));
    match BuildDocuments(cfg, message.attachments, id, draw.documents)
    case Err(e) => Err(e)
    case Ok(documents) => Ok(Staging(id, chosen.None?, application, communication, documents))
  }

  function DocumentMap(documents: seq<NewDocument>): map<Uuid, Document> {
    if documents == [] then map[]
    else
      var d := documents[|documents| - 1];
      DocumentMap(documents[..|documents| - 1])[d.id := d.row]
  }

  function IdsOf(documents: seq<NewDocument>): seq<Uuid> {
    seq(|documents|, i requires 0 <= i < |documents| => documents[i].id)
  }

  function AckOf(staging: Staging): Ack {
    Ack(staging.applicationId, staging.application.status, staging.communication.id, IdsOf(staging.documents))
  }

  /** A fresh answer names the application joined with the status it was found in, or a new
      one waiting for documents, the message's own row and all its documents in order. */
  lemma {:induction false} FreshAnswer(cfg: Config, db: Db, message: Message, key: string, chosen: Option<Uuid>, draw: Draw)
    requires (chosen.Some? ==> chosen.value in db.applications) && |draw.documents| == |message.attachments|
    requires StageMessage(cfg, db, message, key, chosen, draw).Ok?
    ensures AckOf(StageMessage(cfg, db, message, key, chosen, draw).value)
         == match chosen
            case Some(a) => Ack(a, db.applications[a].status, draw.communication, draw.documents)
            case None => Ack(draw.application, PendingDocs, draw.communication, draw.documents)
  {
    var a := if chosen.Some? then chosen.value else draw.application;
    BuiltDocuments(cfg, message.attachments, a, draw.documents);
    hide BuildDocument, BuildDocuments, Contained, Strip, Scoped;
    assert IdsOf(StageMessage(cfg, db, message, key, chosen, draw).value.documents) == draw.documents;
  }

  predicate KeyCommitted(db: Db, staging: Staging) {
    staging.communication.key.Some? && FindByKey(db.communications, staging.communication.key.value).Some?
  }

  /** The tables after the commit of a staged message. */
  function Committed(db: Db, staging: Staging): Db
  {
    db.(applications := if staging.isNew then db.applications[staging.applicationId := staging.application] else db.applications,
        communications := db.communications + [staging.communication],
        documents := db.documents + DocumentMap(staging.documents))
  }

  /** The answer built from the committed row of a key; `order` is the order of the document rows. */
  function ReplayAck(db: Db, scopedKey: string, borrower: string, order: seq<Uuid>): Option<Ack> {
    match FindByKey(db.communications, scopedKey)
    case None => None
    case Some(row) =>
      if row.application !in db.applications || db.applications[row.application].borrower != borrower then None
      else Some(Ack(row.application, db.applications[row.application].status, row.id, order))
  }

  // ----- The code: sessions and loops -----

  method ResolveOpenApplication(db: Db, borrower: string) returns (chosen: Option<Uuid>)
    ensures NewestOpen(db, borrower, chosen)
  {
    chosen := None;
    var todo := db.applications.Keys;
    while todo != {}
      invariant todo <= db.applications.Keys
      invariant chosen.Some? ==> IsOpenFor(db, borrower, chosen.value)
      invariant forall b | IsOpenFor(db, borrower, b) && b !in todo ::
                  chosen.Some? && db.applications[b].created <= db.applications[chosen.value].created
      decreases todo
    {
      var a :| a in todo;
      if IsOpenFor(db, borrower, a) && (chosen.None? || db.applications[a].created > db.applications[chosen.value].created) {
        chosen := Some(a);
      }
      todo := todo - {a};
    }
  }

  function StagedRows(staging: Staging): Staged
  {
    NOTHING_STAGED.(applications := if staging.isNew then map[staging.applicationId := staging.application] else map[],
                    communications := [staging.communication],
                    documents := DocumentMap(staging.documents))
  }

  method StageInbound(session: Session, cfg: Config, message: Message, key: string, draw: Draw)
    returns (result: Result<Staging, IntakeError>, ghost chosen: Option<Uuid>)
    requires session.staged == NOTHING_STAGED && |draw.documents| == |message.attachments|
    modifies session`staged
    ensures NewestOpen(session.db, Strip(message.userId), chosen)
    ensures result == StageMessage(cfg, session.db, message, key, chosen, draw)
    ensures result.Ok? ==> session.staged == StagedRows(result.value)
    ensures result.Err? ==> session.staged == NOTHING_STAGED
  {
    var borrower := Strip(message.userId);
    var found := ResolveOpenApplication(session.db, borrower);
    chosen := found;
    var id, application := draw.application, Application(borrower, PendingDocs, draw.now);
    if found.Some? {
      id, application := found.value, session.db.applications[found.value];
    } else {
      session.AddApplication(id, application);
    }
    var receivedAt := if message.sentAt.Some? then message.sentAt.value else draw.now;
    var communication := Communication(draw.communication, id, message.channel, Inbound, message.text, receivedAt,
                                       Some(Scoped(message.userId, key)));
    session.AddCommunication(communication);
    var built := StageDocuments(session, cfg, message.attachments, id, draw.documents);
    if built.Err? {
      session.Rollback();
      result := Err(built.error);
      return;
    }
    result := Ok(Staging(id, found.None?, application, communication, built.value));
  }

  method StageDocuments(session: Session, cfg: Config, attachments: seq<Attachment>, application: Uuid, ids: seq<Uuid>)
    returns (result: Result<seq<NewDocument>, IntakeError>)
    requires |attachments| == |ids| && session.staged.documents == map[]
    modifies session`staged
    ensures result == BuildDocuments(cfg, attachments, application, ids)
    ensures result.Ok? ==> session.staged == old(session.staged).(documents := DocumentMap(result.value))
  {
    hide BuildDocument, BuildDocuments, DocumentMap;
    NoDocuments(cfg, application);
    var documents: seq<NewDocument> := [];
    assert attachments[..0] == [] && ids[..0] == [];
    for i := 0 to |attachments|
      invariant BuildDocuments(cfg, attachments[..i], application, ids[..i]) == Ok(documents)
      invariant session.staged == old(session.staged).(documents := DocumentMap(documents))
    {
      var built := BuildDocument(cfg, attachments[i], application, ids[i]);
      BuildDocumentsStep(cfg, attachments, application, ids, i);
      if built.Err? {
        FirstErrorDecides(cfg, attachments, application, ids, i + 1);
        return Err(built.error);
      }
      session.AddDocument(ids[i], built.value);
      DocumentMapStep(documents, NewDocument(ids[i], built.value));
      documents := documents + [NewDocument(ids[i], built.value)];
    }
    assert attachments[..|attachments|] == attachments && ids[..|ids|] == ids;
    result := Ok(documents);
  }

  lemma {:induction false} NoDocuments(cfg: Config, application: Uuid)
    ensures BuildDocuments(cfg, [], application, []) == Ok([]) && DocumentMap([]) == map[]
  {
  }

  lemma {:induction false} BuildDocumentsStep(cfg: Config, attachments: seq<Attachment>, application: Uuid, ids: seq<Uuid>, i: nat)
    requires i < |attachments| <= |ids|
    ensures BuildDocuments(cfg, attachments[..i + 1], application, ids[..i + 1])
         == match BuildDocuments(cfg, attachments[..i], application, ids[..i])
            case Err(e) => Err(e)
            case Ok(documents) =>
              match BuildDocument(cfg, attachments[i], application, ids[i])
              case Err(e) => Err(e)
              case Ok(row) => Ok(documents + [NewDocument(ids[i], row)])
  {
    assert attachments[..i + 1][..i] == attachments[..i] && ids[..i + 1][..i] == ids[..i];
  }

  lemma {:induction false} FirstErrorDecides(cfg: Config, attachments: seq<Attachment>, application: Uuid, ids: seq<Uuid>, i: nat)
    requires i <= |attachments| <= |ids|
    requires BuildDocuments(cfg, attachments[..i], application, ids[..i]).Err?
    ensures BuildDocuments(cfg, attachments, application, ids) == BuildDocuments(cfg, attachments[..i], application, ids[..i])
    decreases |attachments| - i
  {
    hide BuildDocument;
    if i == |attachments| {
      assert attachments[..i] == attachments;
      BuildDocumentsPrefix(cfg, attachments, application, ids);
    } else {
      BuildDocumentsStep(cfg, attachments, application, ids, i);
      FirstErrorDecides(cfg, attachments, application, ids, i + 1);
    }
  }

  /** Surplus identifiers are not looked at. */
  lemma {:induction false} BuildDocumentsPrefix(cfg: Config, attachments: seq<Attachment>, application: Uuid, ids: seq<Uuid>)
    requires |attachments| <= |ids|
    ensures BuildDocuments(cfg, attachments, application, ids) == BuildDocuments(cfg, attachments, application, ids[..|attachments|])
  {
    if attachments != [] {
      assert ids[..|attachments|][..|attachments| - 1] == ids[..|attachments| - 1];
    }
  }

  lemma {:induction false} DocumentMapStep(documents: seq<NewDocument>, d: NewDocument)
    ensures DocumentMap(documents + [d]) == DocumentMap(documents)[d.id := d.row]
  {
    assert (documents + [d])[..|documents|] == documents;
  }

  /** Commits a staged message, unless its key is committed already. */
  method CommitInbound(session: Session, staging: Staging) returns (ok: bool)
    requires session.staged == StagedRows(staging)
    modifies session
    ensures ok == !KeyCommitted(old(session.db), staging)
    ensures session.staged == NOTHING_STAGED
    ensures session.db == if ok then Committed(old(session.db), staging) else old(session.db)
  {
    ghost var db := session.db;
    KeyTakenIsCommitted(db, staging);
    ok := session.Commit();
    if ok {
      FlushedIsCommitted(db, staging);
    } else {
      session.Rollback();
    }
  }

  lemma {:induction false} KeyTakenIsCommitted(db: Db, staging: Staging)
    ensures KeyTaken(db, StagedRows(staging)) <==> KeyCommitted(db, staging)
  {
    var c := staging.communication;
    assert c in StagedRows(staging).communications;
    if c.key.Some? { FindByKeyFinds(db.communications, c.key.value); }
  }

  lemma {:induction false} FlushedIsCommitted(db: Db, staging: Staging)
    ensures Flushed(db, StagedRows(staging)) == Committed(db, staging)
  {
    var rows := StagedRows(staging);
    FilterAll(OutsideOf(rows.factsReplaced), db.facts);
    assert WithStatuses(db.applications + rows.applications, rows.statuses) == Committed(db, staging).applications;
    assert WithRawTexts(db.documents + rows.documents, rows.rawTexts) == Committed(db, staging).documents;
  }

  method QueryDocumentIds(db: Db, application: Uuid) returns (order: seq<Uuid>)
    ensures Enumerates(order, DocsOf(db, application))
  {
    order := [];
    var todo := DocsOf(db, application);
    while todo != {}
      invariant Enumerates(order, DocsOf(db, application) - todo)
      invariant todo <= DocsOf(db, application)
      decreases todo
    {
      var d :| d in todo;
      assert (set x | x in order + [d]) == (set x | x in order) + {d};
      assert DocsOf(db, application) - (todo - {d}) == (DocsOf(db, application) - todo) + {d};
      order := order + [d];
      todo := todo - {d};
    }
  }

  method ReplayByIdempotencyKey(session: Session, scopedKey: string, borrower: string) returns (ack: Option<Ack>)
    ensures ack == ReplayAck(session.db, scopedKey, borrower, if ack.Some? then ack.value.documents else [])
    ensures ack.Some? ==> Enumerates(ack.value.documents, DocsOf(session.db, ack.value.application))
  {
    var existing := FindByKey(session.db.communications, scopedKey);
    if existing.None? { return None; }
    var id := existing.value.application;
    if id !in session.db.applications || session.db.applications[id].borrower != borrower { return None; }
    var ids := QueryDocumentIds(session.db, id);
    ack := Some(Ack(id, session.db.applications[id].status, existing.value.id, ids));
  }

  /** What the intake of one message may give, from the tables it read, the tables it
      commits to and, after a conflict, the tables it replays from: a refusal, a fresh
      answer, or the answer of the request that was first. */
  ghost predicate IngestOutcome(cfg: Config, before: Db, meanwhile: Db, later: Db, message: Message, key: string, draw: Draw,
                                result: Result<Ack, IntakeError>, after: Db)
    requires |draw.documents| == |message.attachments|
  {
    exists chosen: Option<Uuid> ::
      && NewestOpen(before, Strip(message.userId), chosen)
      && match StageMessage(cfg, before, message, key, chosen, draw)
         case Err(e) => result == Err(e) && after == before
         case Ok(staging) =>
           if !KeyCommitted(meanwhile, staging) then result == Ok(AckOf(staging)) && after == Committed(meanwhile, staging)
           else after == later && Replayed(later, Scoped(message.userId, key), Strip(message.userId), result)
  }

  ghost predicate Replayed(db: Db, scopedKey: string, borrower: string, result: Result<Ack, IntakeError>) {
    match result
    case Ok(ack) => Some(ack) == ReplayAck(db, scopedKey, borrower, ack.documents) && Enumerates(ack.documents, DocsOf(db, ack.application))
    case Err(e) => e == UniqueKeyConflict && ReplayAck(db, scopedKey, borrower, []) == None
  }

  /** The whole intake of one message. While it waits, other sessions may commit:
      `meanwhile` is what the tables hold at its commit, `later` at its replay. */
  method IngestInboundMessage(session: Session, cfg: Config, message: Message, key: string, draw: Draw, meanwhile: Db, later: Db)
    returns (result: Result<Ack, IntakeError>)
    requires session.staged == NOTHING_STAGED && |draw.documents| == |message.attachments|
    modifies session
    ensures session.staged == NOTHING_STAGED
    ensures IngestOutcome(cfg, old(session.db), meanwhile, later, message, key, draw, result, session.db)
  {
    var prepared, chosen := StageInbound(session, cfg, message, key, draw);
    assert NewestOpen(old(session.db), Strip(message.userId), chosen);
    hide StageMessage, Committed, KeyCommitted, ReplayAck, NewestOpen, StagedRows;
    if prepared.Err? {
      result := Err(prepared.error);
      return;
    }
    session.db := meanwhile;
    var ok := CommitInbound(session, prepared.value);
    if ok {
      result := Ok(AckOf(prepared.value));
    } else {
      session.db := later;
      var replayed := ReplayByIdempotencyKey(session, Scoped(message.userId, key), Strip(message.userId));
      result := if replayed.Some? then Ok(replayed.value) else Err(UniqueKeyConflict);
    }
  }

  /** The cache in front. Every operation may find it unreachable. */
  class ResponseCache {
    var entries: map<string, Ack>

    constructor ()
      ensures entries == map[]
    {
      entries := map[];
    }

    method CheckIdempotency(key: string, reachable: bool) returns (cached: Option<Ack>)
      ensures cached == if reachable && key in entries then Some(entries[key]) else None
    {
      cached := if reachable && key in entries then Some(entries[key]) else None;
    }

    method StoreResponse(key: string, ack: Ack, reachable: bool)
      modifies this
      ensures entries == if reachable then old(entries)[key := ack] else old(entries)
    {
      if reachable { entries := entries[key := ack]; }
    }
  }

  function KeyOf(cfg: Config, message: Message, header: Option<string>): string {
    if header.Some? then header.value else cfg.fallbackKey(message)
  }

  predicate KeyRefused(header: Option<string>) { header.Some? && |header.value| > MAX_KEY_LENGTH }

  /** One webhook call, from the key check to the queued run. */
  method IncomingMessage(session: Session, cache: ResponseCache, cfg: Config, message: Message, header: Option<string>,
                         draw: Draw, meanwhile: Db, later: Db, readable: bool, writable: bool)
    returns (answer: Result<Ack, IntakeError>, queued: Option<Uuid>)
    requires session.staged == NOTHING_STAGED && |draw.documents| == |message.attachments|
    modifies session, cache
    ensures session.staged == NOTHING_STAGED
    ensures header.Some? && |header.value| > 255 ==>
              answer == Err(KeyTooLong) && session.db == old(session.db) && cache.entries == old(cache.entries) && queued == None
    ensures var key := Scoped(message.userId, if header.Some? then header.value else cfg.fallbackKey(message));
            !(header.Some? && |header.value| > 255) && readable && key in old(cache.entries) ==>
              answer == Ok(old(cache.entries)[key]) && session.db == old(session.db) && cache.entries == old(cache.entries) && queued == None
    ensures var own := if header.Some? then header.value else cfg.fallbackKey(message);
            var key := Scoped(message.userId, own);
            !(header.Some? && |header.value| > 255) && !(readable && key in old(cache.entries)) ==>
              && IngestOutcome(cfg, old(session.db), meanwhile, later, message, own, draw, answer, session.db)
              && queued == (if answer.Ok? then Some(answer.value.application) else None)
              && cache.entries == if answer.Ok? && writable then old(cache.entries)[key := answer.value] else old(cache.entries)
  {
    queued := None;
    if KeyRefused(header) { return Err(KeyTooLong), None; }
    var key := KeyOf(cfg, message, header);
    var scopedKey := Scoped(message.userId, key);
    var cached := cache.CheckIdempotency(scopedKey, readable);
    if cached.Some? { return Ok(cached.value), None; }
    hide IngestOutcome;
    answer := IngestInboundMessage(session, cfg, message, key, draw, meanwhile, later);
    if answer.Err? { return; }
    cache.StoreResponse(scopedKey, answer.value, writable);
    queued := Some(answer.value.application);
  }
}
