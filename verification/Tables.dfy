/** The database: committed tables, and a session that stages changes and commits them in one step. */
module Tables {
  import opened Basics
  import opened Facts

  datatype Status = PendingDocs | Processing | ManualReview | ReadyForLos
  datatype Channel = Sms | Email
  datatype Direction = Inbound | Outbound

  datatype Application = Application(borrower: string, status: Status, created: int)

  datatype Communication = Communication(id: Uuid, application: Uuid, channel: Channel, direction: Direction,
                                         content: Option<string>, timestamp: int, key: Option<string>)

  datatype Document = Document(application: Uuid, fileType: string, s3Path: Option<string>, rawText: Option<string>)

  datatype Audit = Audit(application: Uuid, action: string, prompt: Option<string>, response: Option<string>,
                         errorCode: Option<string>)

  datatype Db = Db(applications: map<Uuid, Application>, communications: seq<Communication>,
                   documents: map<Uuid, Document>, facts: seq<Fact>, audits: seq<Audit>)

  const EMPTY_DB := Db(map[], [], map[], [], [])

  predicate Open(status: Status) { status != ReadyForLos }

  function DocsOf(db: Db, application: Uuid): set<Uuid> {
    set d | d in db.documents && db.documents[d].application == application
  }

  function OfApplication(application: Uuid): Fact -> bool { (f: Fact) => f.application == application }

  function OutsideOf(applications: set<Uuid>): Fact -> bool { (f: Fact) => f.application !in applications }

  function FactsOf(db: Db, application: Uuid): seq<Fact> {
    Filter(OfApplication(application), db.facts)
  }

  /** The row a scoped key was committed with. */
  function FindByKey(communications: seq<Communication>, key: string): Option<Communication> {
    if communications == [] then None
    else if communications[0].key == Some(key) then Some(communications[0])
    else FindByKey(communications[1..], key)
  }

  lemma {:induction false} FindByKeyFinds(communications: seq<Communication>, key: string)
    ensures match FindByKey(communications, key)
            case Some(c) => c in communications && c.key == Some(key)
            case None => forall c | c in communications :: c.key != Some(key)
  {
    if communications != [] {
      assert communications == [communications[0]] + communications[1..];
      FindByKeyFinds(communications[1..], key);
    }
  }

  // ----- Staged changes -----

  datatype Staged = Staged(applications: map<Uuid, Application>, statuses: map<Uuid, Status>,
                           communications: seq<Communication>, documents: map<Uuid, Document>,
                           rawTexts: map<Uuid, string>, factsReplaced: set<Uuid>, facts: seq<Fact>, audits: seq<Audit>)

  const NOTHING_STAGED := Staged(map[], map[], [], map[], map[], {}, [], [])

  function WithStatuses(applications: map<Uuid, Application>, statuses: map<Uuid, Status>): map<Uuid, Application> {
    map a | a in applications ::
      if a in statuses then applications[a].(status := statuses[a]) else applications[a]
  }

  function WithRawTexts(documents: map<Uuid, Document>, rawTexts: map<Uuid, string>): map<Uuid, Document> {
    map d | d in documents ::
      if d in rawTexts then documents[d].(rawText := Some(rawTexts[d])) else documents[d]
  }

  function WithoutFactsOf(facts: seq<Fact>, replaced: set<Uuid>): seq<Fact> {
    Filter(OutsideOf(replaced), facts)
  }

  lemma {:induction false} WithoutFactsOfMembers(facts: seq<Fact>, replaced: set<Uuid>)
    ensures forall f :: f in WithoutFactsOf(facts, replaced) <==> f in facts && f.application !in replaced
  {
    FilterMembers(OutsideOf(replaced), facts);
  }

  function Flushed(db: Db, staged: Staged): Db {
    Db(WithStatuses(db.applications + staged.applications, staged.statuses),
       db.communications + staged.communications,
       WithRawTexts(db.documents + staged.documents, staged.rawTexts),
       WithoutFactsOf(db.facts, staged.factsReplaced) + staged.facts,
       db.audits + staged.audits)
  }

  /** The unique index on idempotency_key refuses the staged communications. */
  predicate KeyTaken(db: Db, staged: Staged) {
    exists c, d | c in staged.communications && d in db.communications :: c.key.Some? && c.key == d.key
  }

  /** One database session. `db` is what everybody sees; staged changes are this session's own. */
  class Session {
    var db: Db
    var staged: Staged

    constructor (db: Db)
      ensures this.db == db && staged == NOTHING_STAGED
    {
      this.db := db;
      staged := NOTHING_STAGED;
    }

    method AddApplication(id: Uuid, row: Application)
      modifies this`staged
      ensures staged == old(staged).(applications := old(staged).applications[id := row])
    {
      staged := staged.(applications := staged.applications[id := row]);
    }

    method SetStatus(id: Uuid, status: Status)
      modifies this`staged
      ensures staged == old(staged).(statuses := old(staged).statuses[id := status])
    {
      staged := staged.(statuses := staged.statuses[id := status]);
    }

    method AddCommunication(row: Communication)
      modifies this`staged
      ensures staged == old(staged).(communications := old(staged).communications + [row])
    {
      staged := staged.(communications := staged.communications + [row]);
    }

    method AddDocument(id: Uuid, row: Document)
      modifies this`staged
      ensures staged == old(staged).(documents := old(staged).documents[id := row])
    {
      staged := staged.(documents := staged.documents[id := row]);
    }

    method SetRawText(id: Uuid, text: string)
      modifies this`staged
      ensures staged == old(staged).(rawTexts := old(staged).rawTexts[id := text])
    {
      staged := staged.(rawTexts := staged.rawTexts[id := text]);
    }

    method DeleteFactsOf(application: Uuid)
      modifies this`staged
      ensures staged == old(staged).(factsReplaced := old(staged).factsReplaced + {application})
    {
      staged := staged.(factsReplaced := staged.factsReplaced + {application});
    }

    method AddFact(row: Fact)
      modifies this`staged
      ensures staged == old(staged).(facts := old(staged).facts + [row])
    {
      staged := staged.(facts := staged.facts + [row]);
    }

    method AddAudit(row: Audit)
      modifies this`staged
      ensures staged == old(staged).(audits := old(staged).audits + [row])
    {
      staged := staged.(audits := staged.audits + [row]);
    }

    /** All staged changes at once, or none when the unique key refuses them. */
    method Commit() returns (ok: bool)
      modifies this
      ensures ok == !KeyTaken(old(db), old(staged))
      ensures ok ==> db == Flushed(old(db), old(staged)) && staged == NOTHING_STAGED
      ensures !ok ==> db == old(db) && staged == old(staged)
    {
      ok := !KeyTaken(db, staged);
      if ok {
        db := Flushed(db, staged);
        staged := NOTHING_STAGED;
      }
    }

    method Rollback()
      modifies this`staged
      ensures staged == NOTHING_STAGED
    {
      staged := NOTHING_STAGED;
    }
  }
}
