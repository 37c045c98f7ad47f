/** What is refused and what is not: exactly which attachments are accepted, which error
    each other one gives, and that in every history requests end accordingly. */
module Refusals {
  import opened Basics
  import opened ObjectStore
  import opened Tables
  import opened Intake
  import opened Nodes
  import opened System
  import opened ExactlyOnce
  import Casing

  // ----- One attachment -----

  predicate AllowedType(fileType: string) {
    fileType == "application/pdf" || fileType == "text/plain" || fileType == "image/jpeg" || fileType == "image/png"
  }

  /** Two dots in a row, or an encoded one with either `e`, at position i. */
  predicate DotsAt(url: string, i: nat) {
    || (i + 1 < |url| && url[i] == '.' && url[i + 1] == '.')
    || (i + 2 < |url| && url[i] == '%' && url[i + 1] == '2' && (url[i + 2] == 'e' || url[i + 2] == 'E'))
  }

  predicate Traverses(url: string) { exists i | 0 <= i < |url| :: DotsAt(url, i) }

  /** An allowed type, and either content that decodes to no more than the limit, or no
      content and a url that does not traverse. */
  predicate Acceptable(cfg: Config, attachment: Attachment) {
    && AllowedType(attachment.fileType)
    && match attachment.contentBase64
       case Some(encoded) => cfg.decode(encoded).Some? && |cfg.decode(encoded).value| <= cfg.maxAttachmentBytes
       case None => attachment.url.Some? && !Traverses(attachment.url.value)
  }

  lemma {:induction false} TwoDots(url: string, i: nat)
    ensures OccursAt("..", url, i) <==> i + 1 < |url| && url[i] == '.' && url[i + 1] == '.'
  {
    if i + 1 < |url| { assert url[i..i + 2] == [url[i], url[i + 1]]; }
  }

  lemma {:induction false} EncodedDot(url: string, i: nat)
    ensures OccursAt("%2e", Lower(url), i)
       <==> i + 2 < |url| && url[i] == '%' && url[i + 1] == '2' && (url[i + 2] == 'e' || url[i + 2] == 'E')
  {
    if i + 2 < |url| {
      assert Lower(url)[i..i + 3] == [LowerChar(url[i]), LowerChar(url[i + 1]), LowerChar(url[i + 2])];
      Casing.FoldsExactly(url[i], '%');
      Casing.FoldsExactly(url[i + 1], '2');
      Casing.FoldsExactly(url[i + 2], 'e');
    }
  }

  lemma {:induction false} TraversesExactly(url: string)
    ensures Traverses(url) <==> Substring("..", url) || Substring("%2e", Lower(url))
  {
    hide OccursAt, Lower;
    forall i: nat
      ensures OccursAt("..", url, i) || OccursAt("%2e", Lower(url), i) <==> DotsAt(url, i)
    {
      TwoDots(url, i);
      EncodedDot(url, i);
    }
    hide DotsAt;
    if Traverses(url) {
      var i :| 0 <= i < |url| && DotsAt(url, i);
      InRange("..", url, i);
      InRange("%2e", Lower(url), i);
    }
  }

  lemma {:induction false} InRange(u: string, v: string, i: nat)
    ensures OccursAt(u, v, i) ==> Substring(u, v)
  {
  }

  /** An attachment becomes a document exactly when it is acceptable; a link is stored as it is. */
  lemma {:induction false} AttachmentExactly(cfg: Config, attachment: Attachment, application: Uuid, id: Uuid)
    ensures BuildDocument(cfg, attachment, application, id).Ok? <==> Acceptable(cfg, attachment)
    ensures Acceptable(cfg, attachment) && attachment.contentBase64.None? ==>
              BuildDocument(cfg, attachment, application, id) == Ok(Document(application, attachment.fileType, attachment.url, None))
  {
    if attachment.url.Some? { TraversesExactly(attachment.url.value); }
    hide Substring, Traverses, Lower, StoragePath, UploadName;
  }

  /** The error of an attachment that is not acceptable. */
  lemma {:induction false} RefusedWith(cfg: Config, attachment: Attachment, application: Uuid, id: Uuid)
    ensures var built := BuildDocument(cfg, attachment, application, id);
            && (!AllowedType(attachment.fileType) ==> built == Err(UnsupportedMediaType))
            && (AllowedType(attachment.fileType) ==>
                  match attachment.contentBase64
                  case Some(encoded) =>
                    && (cfg.decode(encoded) == None ==> built == Err(InvalidAttachment))
                    && (cfg.decode(encoded).Some? && |cfg.decode(encoded).value| > cfg.maxAttachmentBytes ==> built == Err(PayloadTooLarge))
                  case None =>
                    attachment.url.None? || Traverses(attachment.url.value) ==> built == Err(InvalidAttachment))
  {
    if attachment.url.Some? { TraversesExactly(attachment.url.value); }
    hide Substring, Traverses, Lower, StoragePath, UploadName;
  }

  // ----- One message -----

  predicate AllAcceptable(cfg: Config, attachments: seq<Attachment>) {
    forall t | 0 <= t < |attachments| :: Acceptable(cfg, attachments[t])
  }

  /** The first unacceptable attachment is at t, and this is its error. */
  predicate RefusedAt(cfg: Config, attachments: seq<Attachment>, error: IntakeError, t: nat) {
    && t < |attachments| && AllAcceptable(cfg, attachments[..t]) && !Acceptable(cfg, attachments[t])
    && var attachment := attachments[t];
       if !AllowedType(attachment.fileType) then error == UnsupportedMediaType
       else if attachment.contentBase64.Some? && cfg.decode(attachment.contentBase64.value).Some? then error == PayloadTooLarge
       else error == InvalidAttachment
  }

  ghost predicate RefusedRightly(cfg: Config, attachments: seq<Attachment>, error: IntakeError) {
    exists t: nat :: RefusedAt(cfg, attachments, error, t)
  }

  lemma {:induction false} BuiltExactly(cfg: Config, attachments: seq<Attachment>, application: Uuid, ids: seq<Uuid>)
    requires |attachments| <= |ids|
    ensures BuildDocuments(cfg, attachments, application, ids).Ok? <==> AllAcceptable(cfg, attachments)
    ensures BuildDocuments(cfg, attachments, application, ids).Err? ==>
              RefusedRightly(cfg, attachments, BuildDocuments(cfg, attachments, application, ids).error)
  {
    hide BuildDocument, Acceptable, RefusedAt;
    if attachments != [] {
      var n := |attachments| - 1;
      var front, built := attachments[..n], BuildDocuments(cfg, attachments[..n], application, ids[..n]);
      BuiltExactly(cfg, front, application, ids[..n]);
      if built.Err? {
        var t: nat :| RefusedAt(cfg, front, built.error, t);
        RefusedInFront(cfg, attachments, built.error, t);
      } else {
        LastRefused(cfg, attachments, application, ids[n]);
      }
    }
  }

  lemma {:induction false} RefusedInFront(cfg: Config, attachments: seq<Attachment>, error: IntakeError, t: nat)
    requires attachments != [] && RefusedAt(cfg, attachments[..|attachments| - 1], error, t)
    ensures RefusedAt(cfg, attachments, error, t) && !AllAcceptable(cfg, attachments)
  {
    hide Acceptable;
    assert attachments[..|attachments| - 1][..t] == attachments[..t];
  }

  lemma {:induction false} LastRefused(cfg: Config, attachments: seq<Attachment>, application: Uuid, id: Uuid)
    requires attachments != [] && AllAcceptable(cfg, attachments[..|attachments| - 1])
    ensures var built := BuildDocument(cfg, attachments[|attachments| - 1], application, id);
            && (built.Ok? <==> AllAcceptable(cfg, attachments))
            && (built.Err? ==> RefusedAt(cfg, attachments, built.error, |attachments| - 1))
  {
    var last := attachments[|attachments| - 1];
    AttachmentExactly(cfg, last, application, id);
    RefusedWith(cfg, last, application, id);
    hide BuildDocument, Traverses;
    assert forall t | 0 <= t < |attachments| - 1 :: attachments[t] == attachments[..|attachments| - 1][t];
  }

  // ----- Every history -----

  predicate LongHeader(q: Request) { q.header.Some? && |q.header.value| > 255 }

  /** A request stands where its header and its attachments allow it to stand. */
  ghost predicate Judged(cfg: Config, q: Request) {
    match q.state
    case Arrived => true
    case Rejected(KeyTooLong) => LongHeader(q)
    case Rejected(UniqueKeyConflict) => !LongHeader(q) && AllAcceptable(cfg, q.message.attachments)
    case Rejected(error) => !LongHeader(q) && RefusedRightly(cfg, q.message.attachments, error)
    case Prepared(_) => !LongHeader(q) && AllAcceptable(cfg, q.message.attachments)
    case Conflicted => !LongHeader(q) && AllAcceptable(cfg, q.message.attachments)
    case _ => !LongHeader(q)
  }

  ghost predicate AllJudged(cfg: Config, requests: seq<Request>) { forall q | q in requests :: Judged(cfg, q) }

  lemma {:induction false} Moved(cfg: Config, requests: seq<Request>, r: nat, q: Request)
    requires AllJudged(cfg, requests) && r < |requests| && Judged(cfg, q)
    ensures AllJudged(cfg, requests[r := q])
  {
    hide Judged;
    forall p | p in requests[r := q] ensures Judged(cfg, p) {
      var i :| 0 <= i < |requests| && requests[r := q][i] == p;
      if i != r { assert p == requests[i]; }
    }
  }

  lemma {:induction false} ArriveJudged(cfg: Config, rt: Runtime, s: State, message: Message, header: Option<string>)
    requires AllJudged(cfg, s.requests) && Enabled(cfg, rt, s, Arrive(message, header))
    ensures AllJudged(cfg, Apply(cfg, rt, s, Arrive(message, header)).requests)
  {
    assert Judged(cfg, Request(message, header, Arrived, None));
    hide Judged;
  }

  lemma {:induction false} CheckJudged(cfg: Config, rt: Runtime, s: State, r: nat, hit: bool)
    requires AllJudged(cfg, s.requests) && Enabled(cfg, rt, s, CheckKey(r, hit))
    ensures AllJudged(cfg, Apply(cfg, rt, s, CheckKey(r, hit)).requests)
  {
    hide AllJudged, KeyFor, AllAcceptable, RefusedRightly;
    Moved(cfg, s.requests, r, Apply(cfg, rt, s, CheckKey(r, hit)).requests[r]);
  }

  lemma {:induction false} PrepareJudged(cfg: Config, rt: Runtime, s: State, r: nat, chosen: Option<Uuid>, draw: Draw)
    requires AllJudged(cfg, s.requests) && Enabled(cfg, rt, s, Prepare(r, chosen, draw))
    ensures AllJudged(cfg, Apply(cfg, rt, s, Prepare(r, chosen, draw)).requests)
  {
    hide NewDraw, Strip, StageMessage, AllAcceptable, RefusedRightly, KeyOf;
    var q := s.requests[r];
    assert q in s.requests && Judged(cfg, q);
    hide AllJudged;
    StagedExactly(cfg, s.db, q.message, KeyOf(cfg, q.message, q.header), chosen, draw);
    Moved(cfg, s.requests, r, Apply(cfg, rt, s, Prepare(r, chosen, draw)).requests[r]);
  }

  lemma {:induction false} StagedExactly(cfg: Config, db: Db, message: Message, key: string, chosen: Option<Uuid>, draw: Draw)
    requires (chosen.Some? ==> chosen.value in db.applications) && |draw.documents| == |message.attachments|
    ensures var staged := StageMessage(cfg, db, message, key, chosen, draw);
            && (staged.Ok? <==> AllAcceptable(cfg, message.attachments))
            && (staged.Err? ==> RefusedRightly(cfg, message.attachments, staged.error)
                                && staged.error in {UnsupportedMediaType, InvalidAttachment, PayloadTooLarge})
  {
    var a := if chosen.Some? then chosen.value else draw.application;
    BuiltExactly(cfg, message.attachments, a, draw.documents);
    hide BuildDocuments, AllAcceptable, Strip, Scoped;
    if !AllAcceptable(cfg, message.attachments) {
      var error := BuildDocuments(cfg, message.attachments, a, draw.documents).error;
      var t: nat :| RefusedAt(cfg, message.attachments, error, t);
    }
  }

  lemma {:induction false} CommitJudged(cfg: Config, rt: Runtime, s: State, r: nat)
    requires AllJudged(cfg, s.requests) && Enabled(cfg, rt, s, CommitMessage(r))
    ensures AllJudged(cfg, Apply(cfg, rt, s, CommitMessage(r)).requests)
  {
    assert s.requests[r] in s.requests && Judged(cfg, s.requests[r]);
    hide AllJudged, KeyCommitted, Committed, AllAcceptable, RefusedRightly;
    Moved(cfg, s.requests, r, Apply(cfg, rt, s, CommitMessage(r)).requests[r]);
  }

  lemma {:induction false} ReplayJudged(cfg: Config, rt: Runtime, s: State, r: nat, order: seq<Uuid>)
    requires AllJudged(cfg, s.requests) && Enabled(cfg, rt, s, Replay(r, order))
    ensures AllJudged(cfg, Apply(cfg, rt, s, Replay(r, order)).requests)
  {
    assert s.requests[r] in s.requests && Judged(cfg, s.requests[r]);
    hide AllJudged, ReplayAck, KeyFor, Strip, FindByKey, Enumerates, AllAcceptable, RefusedRightly;
    Moved(cfg, s.requests, r, Apply(cfg, rt, s, Replay(r, order)).requests[r]);
  }

  lemma {:induction false} AnswerJudged(cfg: Config, rt: Runtime, s: State, step: Step)
    requires AllJudged(cfg, s.requests) && Enabled(cfg, rt, s, step) && (step.StoreAnswer? || step.QueueRun?)
    ensures AllJudged(cfg, Apply(cfg, rt, s, step).requests)
  {
    assert s.requests[step.r] in s.requests && Judged(cfg, s.requests[step.r]);
    hide AllJudged, KeyFor, AllAcceptable, RefusedRightly;
    Moved(cfg, s.requests, step.r, Apply(cfg, rt, s, step).requests[step.r]);
  }

  lemma {:induction false} LoseJudged(cfg: Config, rt: Runtime, s: State, keys: set<string>)
    requires AllJudged(cfg, s.requests)
    ensures AllJudged(cfg, Apply(cfg, rt, s, LoseEntries(keys)).requests)
  {
    hide AllJudged;
  }

  lemma {:induction false} RunJudged(cfg: Config, rt: Runtime, s: State, step: Step)
    requires Sound(cfg, s) && AllJudged(cfg, s.requests) && Enabled(cfg, rt, s, step) && !IsRequestStep(step)
    ensures AllJudged(cfg, Apply(cfg, rt, s, step).requests)
  {
    InvTables(cfg, s);
    hide Inv, RunsKnown, Enabled, Apply, AllJudged, PipelineFrame, IdsIn;
    RunStepFrame(cfg, rt, s, step);
  }

  lemma {:induction false} StepJudged(cfg: Config, rt: Runtime, s: State, step: Step)
    requires Sound(cfg, s) && AllJudged(cfg, s.requests) && Enabled(cfg, rt, s, step)
    ensures AllJudged(cfg, Apply(cfg, rt, s, step).requests)
  {
    hide Sound, Enabled, Apply, AllJudged;
    match step {
      case Arrive(message, header) => ArriveJudged(cfg, rt, s, message, header);
      case CheckKey(r, hit) => CheckJudged(cfg, rt, s, r, hit);
      case Prepare(r, chosen, draw) => PrepareJudged(cfg, rt, s, r, chosen, draw);
      case CommitMessage(r) => CommitJudged(cfg, rt, s, r);
      case Replay(r, order) => ReplayJudged(cfg, rt, s, r, order);
      case LoseEntries(keys) => LoseJudged(cfg, rt, s, keys);
      case _ => if IsRequestStep(step) { AnswerJudged(cfg, rt, s, step); } else { RunJudged(cfg, rt, s, step); }
    }
  }

  lemma {:induction false} HistoryJudged(cfg: Config, rt: Runtime, s: State, steps: seq<Step>)
    requires Sound(cfg, s) && AllJudged(cfg, s.requests) && Runs(cfg, rt, s, steps)
    ensures AllJudged(cfg, After(cfg, rt, s, steps).requests)
    decreases |steps|
  {
    hide Sound, AllJudged, Enabled, Apply;
    if steps != [] {
      StepKeepsSound(cfg, rt, s, steps[0]);
      StepJudged(cfg, rt, s, steps[0]);
      HistoryJudged(cfg, rt, Apply(cfg, rt, s, steps[0]), steps[1..]);
    }
  }

  /** In every history: a request past its key check is rejected for its key exactly when
      that is longer than 255 characters, and one that is refused later has a first
      unacceptable attachment, whose error it gets. */
  lemma {:induction false} RefusedExactly(cfg: Config, rt: Runtime, steps: seq<Step>)
    requires Runs(cfg, rt, INIT, steps)
    ensures forall q | q in After(cfg, rt, INIT, steps).requests && q.state != Arrived ::
              && (q.state == Rejected(KeyTooLong) <==> LongHeader(q))
              && (q.state.Rejected? && q.state.error != KeyTooLong && q.state.error != UniqueKeyConflict ==>
                    RefusedRightly(cfg, q.message.attachments, q.state.error))
  {
    InitSound(cfg);
    HistoryJudged(cfg, rt, INIT, steps);
    hide After, Runs, RefusedRightly, AllAcceptable, LongHeader;
    forall q | q in After(cfg, rt, INIT, steps).requests ensures Judged(cfg, q) {}
  }

  /** What a committed attachment has become. */
  ghost predicate StoredAs(cfg: Config, db: Db, attachment: Attachment, a: Uuid, d: Uuid) {
    && Acceptable(cfg, attachment) && d in db.documents && db.documents[d].application == a
    && db.documents[d].fileType == attachment.fileType
    && if attachment.contentBase64.Some?
       then LocalDocumentPath(cfg.root, a, db.documents[d].s3Path) == Some(Target(cfg.root, a, d, UploadName(attachment)))
       else db.documents[d].s3Path == attachment.url
  }

  lemma {:induction false} CommittedAttachment(cfg: Config, db: Db, attachment: Attachment, a: Uuid, d: NewDocument)
    requires BuildDocument(cfg, attachment, a, d.id) == Ok(d.row) && d.id in db.documents && Bare(db.documents[d.id]) == d.row
    ensures StoredAs(cfg, db, attachment, a, d.id)
  {
    AttachmentExactly(cfg, attachment, a, d.id);
    BuiltDocument(cfg, attachment, a, d.id);
    hide BuildDocument, LocalDocumentPath, Target, UploadName, Acceptable, Contained;
    assert Bare(db.documents[d.id]).s3Path == db.documents[d.id].s3Path;
  }

  /** In every history, every attachment of a message that was stored was acceptable, and
      is a document of its own. */
  lemma {:induction false} StoredAttachments(cfg: Config, rt: Runtime, steps: seq<Step>)
    requires Runs(cfg, rt, INIT, steps)
    ensures var s := After(cfg, rt, INIT, steps);
            forall q | q in s.requests && q.won.Some? ::
              && |q.won.value.documents| == |q.message.attachments|
              && forall t | 0 <= t < |q.message.attachments| ::
                   StoredAs(cfg, s.db, q.message.attachments[t], q.won.value.applicationId, q.won.value.documents[t].id)
  {
    var s := After(cfg, rt, INIT, steps);
    IntakeConserves(cfg, rt, steps);
    hide After, Runs, EveryRowWon, WinnersDiffer, OnlyAnsweredWon, StoredAs, KeyFor, Strip;
    forall q | q in s.requests && q.won.Some?
      ensures |q.won.value.documents| == |q.message.attachments|
      ensures forall t | 0 <= t < |q.message.attachments| ::
                StoredAs(cfg, s.db, q.message.attachments[t], q.won.value.applicationId, q.won.value.documents[t].id)
    {
      WonStored(cfg, s, q);
    }
  }

  lemma {:induction false} WonStored(cfg: Config, s: State, q: Request)
    requires q in s.requests && q.won.Some? && StagingFits(cfg, q, q.won.value) && WinnersStand(s)
    ensures |q.won.value.documents| == |q.message.attachments|
    ensures forall t | 0 <= t < |q.message.attachments| ::
              StoredAs(cfg, s.db, q.message.attachments[t], q.won.value.applicationId, q.won.value.documents[t].id)
  {
    hide StoredAs, BuildDocument, KeyFor, Strip;
    var w := q.won.value;
    assert w in Winners(s.requests) && IsCommitted(s.db, w);
    forall t | 0 <= t < |q.message.attachments|
      ensures StoredAs(cfg, s.db, q.message.attachments[t], w.applicationId, w.documents[t].id)
    {
      assert w.documents[t] in w.documents;
      CommittedAttachment(cfg, s.db, q.message.attachments[t], w.applicationId, w.documents[t]);
    }
  }
}
