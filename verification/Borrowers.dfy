/** No answer crosses borrowers, unless one borrower's name extends another's at a colon. */
module Borrowers {
  import opened Basics
  import opened Tables
  import opened Intake
  import opened Nodes
  import opened System
  import opened ExactlyOnce
  import opened Histories
  import opened Scenarios

  function BorrowerOf(q: Request): string { Strip(q.message.userId) }

  /** Two different names, one of which goes on with a colon where the other ends. */
  predicate Clash(a: string, b: string) {
    a != b && (StartsWith(b, a + ":") || StartsWith(a, b + ":"))
  }

  /** Some key of one borrower is a key of the other exactly for equal or clashing names. */
  lemma {:induction false} KeysMeet(a: string, b: string)
    ensures (exists x, y :: a + ":" + x == b + ":" + y) <==> a == b || Clash(a, b)
  {
    if x, y :| a + ":" + x == b + ":" + y { MeetingKeys(a, x, b, y); }
    if StartsWith(b, a + ":") {
      var t := b[|a| + 1..];
      assert b == a + ":" + t;
      assert a + ":" + (t + ":") == b + ":" + "";
    }
    if StartsWith(a, b + ":") {
      var t := a[|b| + 1..];
      assert a == b + ":" + t;
      assert a + ":" + "" == b + ":" + (t + ":");
    }
    if a == b { assert a + ":" + "" == b + ":" + ""; }
  }

  lemma {:induction false} MeetingKeys(a: string, x: string, b: string, y: string)
    requires a + ":" + x == b + ":" + y
    ensures a == b || Clash(a, b)
  {
    var key := a + ":" + x;
    assert key[..|a| + 1] == a + ":" && key[..|b| + 1] == b + ":";
    if |a| < |b| {
      assert b == key[..|b|] && StartsWith(b, a + ":");
    } else if |b| < |a| {
      assert a == key[..|a|] && StartsWith(a, b + ":");
    } else {
      assert a == key[..|a|] == b;
    }
  }

  /** Names that do not clash are told apart by their scoped keys. */
  lemma {:induction false} ScopedInjective(a: string, x: string, b: string, y: string)
    requires !Clash(a, b) && a + ":" + x == b + ":" + y
    ensures a == b && x == y
  {
    MeetingKeys(a, x, b, y);
    assert (a + ":" + x)[|a| + 1..] == x && (b + ":" + y)[|b| + 1..] == y;
  }

  lemma {:induction false} SameKeySameBorrower(cfg: Config, p: Request, q: Request)
    requires KeyFor(cfg, p) == KeyFor(cfg, q)
    ensures BorrowerOf(p) == BorrowerOf(q) || Clash(BorrowerOf(p), BorrowerOf(q))
  {
    hide Strip, Clash;
    MeetingKeys(BorrowerOf(p), KeyOf(cfg, p.message, p.header), BorrowerOf(q), KeyOf(cfg, q.message, q.header));
  }

  // ----- Answers -----

  /** The row of a committed key belongs to the borrower of the request that won it. */
  ghost predicate OwnedBy(cfg: Config, s: State, key: string, application: Uuid) {
    && application in s.db.applications
    && exists p :: p in s.requests && p.won.Some? && KeyFor(cfg, p) == key
                   && s.db.applications[application].borrower == BorrowerOf(p)
  }

  lemma {:induction false} RowOwned(cfg: Config, s: State, c: Communication)
    requires Inv(cfg, s) && c in s.db.communications && c.key.Some?
    ensures OwnedBy(cfg, s, c.key.value, c.application)
  {
    hide AllSeparate, IdsIn, CacheOk, UniqueKeys, AllRequestsOk, Strip, Winners, StagingFits;
    assert OwnedKey(s.db, c);
    assert CommunicationWon(Winners(s.requests), c);
    var w :| w in Winners(s.requests) && w.communication == c;
    WinnerRows(cfg, s, w);
    var p :| p in s.requests && p.won == Some(w) && StagingFits(cfg, p, w);
    FitsKey(cfg, p, p, w);
    FitsBorrower(cfg, p, w);
  }

  lemma {:induction false} FitsBorrower(cfg: Config, p: Request, staging: Staging)
    requires StagingFits(cfg, p, staging)
    ensures staging.application.borrower == BorrowerOf(p)
  {
    hide Strip, BuildDocument, KeyFor;
  }

  /** No other borrower in this history has a name that clashes with this one's. */
  ghost predicate NameApart(s: State, q: Request) {
    forall p | p in s.requests :: !Clash(BorrowerOf(p), BorrowerOf(q))
  }

  ghost predicate AnswersOwnBorrower(s: State) {
    forall q | q in s.requests && AckIn(q.state).Some? && NameApart(s, q) ::
      var a := AckIn(q.state).value.application;
      a in s.db.applications && s.db.applications[a].borrower == BorrowerOf(q)
  }

  /** In every history, an answer, committed, replayed or cached, names an application of
      its own borrower, for every borrower whose name clashes with no other. */
  lemma {:induction false} AnswersStayWithBorrower(cfg: Config, rt: Runtime, steps: seq<Step>)
    requires Runs(cfg, rt, INIT, steps)
    ensures AnswersOwnBorrower(After(cfg, rt, INIT, steps))
  {
    InitSound(cfg);
    HistoryKeepsSound(cfg, rt, INIT, steps);
    hide After, Runs, Inv, AnswersOwnBorrower, RunsKnown;
    OwnAnswers(cfg, After(cfg, rt, INIT, steps));
  }

  lemma {:induction false} OwnAnswers(cfg: Config, s: State)
    requires Inv(cfg, s)
    ensures AnswersOwnBorrower(s)
  {
    hide Inv, Clash, Strip, KeyFor;
    forall q | q in s.requests && AckIn(q.state).Some? && NameApart(s, q)
      ensures var a := AckIn(q.state).value.application; a in s.db.applications && s.db.applications[a].borrower == BorrowerOf(q)
    {
      AnswerOwned(cfg, s, q);
      var p :| p in s.requests && p.won.Some? && KeyFor(cfg, p) == KeyFor(cfg, q)
               && s.db.applications[AckIn(q.state).value.application].borrower == BorrowerOf(p);
      SameKeySameBorrower(cfg, p, q);
    }
  }

  lemma {:induction false} AnswerOwned(cfg: Config, s: State, q: Request)
    requires Inv(cfg, s) && q in s.requests && AckIn(q.state).Some?
    ensures OwnedBy(cfg, s, KeyFor(cfg, q), AckIn(q.state).value.application)
  {
    hide AllSeparate, TablesOk, EveryRowWon, CacheOk, Winners, OwnedBy, KeyFor, ListsOriginal, RequestOk;
    var r :| 0 <= r < |s.requests| && s.requests[r] == q;
    NotWonYet(cfg, s, r);
    var ack := AckIn(q.state).value;
    var c :| c in s.db.communications && c.key == Some(KeyFor(cfg, q)) && c.id == ack.communication && c.application == ack.application;
    hide Inv;
    RowOwned(cfg, s, c);
  }

  // ----- Conflicts -----

  /** A request that lost the race replays the committed row exactly when the request that
      won the key has its borrower; the conflict is raised again otherwise. */
  lemma {:induction false} ConflictExactly(cfg: Config, rt: Runtime, steps: seq<Step>, r: nat, order: seq<Uuid>)
    requires Runs(cfg, rt, INIT, steps)
    requires var s := After(cfg, rt, INIT, steps); RequestAt(s, r) && s.requests[r].state.Conflicted?
    ensures var s := After(cfg, rt, INIT, steps);
            var q := s.requests[r];
            ReplayAck(s.db, KeyFor(cfg, q), BorrowerOf(q), order).Some?
            <==> exists p :: p in s.requests && p.won.Some? && KeyFor(cfg, p) == KeyFor(cfg, q) && BorrowerOf(p) == BorrowerOf(q)
  {
    InitSound(cfg);
    HistoryKeepsSound(cfg, rt, INIT, steps);
    hide After, Runs, Inv, RunsKnown;
    ConflictRow(cfg, After(cfg, rt, INIT, steps), r, order);
  }

  lemma {:induction false} ConflictRow(cfg: Config, s: State, r: nat, order: seq<Uuid>)
    requires Inv(cfg, s) && RequestAt(s, r) && s.requests[r].state.Conflicted?
    ensures var q := s.requests[r];
            && FindByKey(s.db.communications, KeyFor(cfg, q)).Some?
            && OwnedBy(cfg, s, KeyFor(cfg, q), FindByKey(s.db.communications, KeyFor(cfg, q)).value.application)
            && (ReplayAck(s.db, KeyFor(cfg, q), BorrowerOf(q), order).Some?
                <==> exists p :: p in s.requests && p.won.Some? && KeyFor(cfg, p) == KeyFor(cfg, q) && BorrowerOf(p) == BorrowerOf(q))
  {
    hide AllSeparate, TablesOk, EveryRowWon, CacheOk, Winners, KeyFor, RequestOk, Strip;
    var q := s.requests[r];
    NotWonYet(cfg, s, r);
    FindByKeyFinds(s.db.communications, KeyFor(cfg, q));
    var row := FindByKey(s.db.communications, KeyFor(cfg, q)).value;
    hide AllRequestsOk;
    RowOwned(cfg, s, row);
    forall p | p in s.requests && p.won.Some? && KeyFor(cfg, p) == KeyFor(cfg, q)
      ensures s.db.applications[row.application].borrower == BorrowerOf(p)
    {
      WinnerOwns(cfg, s, p, row);
    }
  }

  lemma {:induction false} WinnerOwns(cfg: Config, s: State, p: Request, row: Communication)
    requires Inv(cfg, s) && p in s.requests && p.won.Some? && row in s.db.communications && row.key == Some(KeyFor(cfg, p))
    ensures row.application in s.db.applications && s.db.applications[row.application].borrower == BorrowerOf(p)
  {
    hide AllSeparate, EveryRowWon, CacheOk, Winners, KeyFor, Strip, StagingFits, OwnIds, AllOwned, IdsIn, AnswerOk, KeyIn, StillPrivate;
    var i :| 0 <= i < |s.requests| && s.requests[i] == p;
    WonFacts(cfg, s, i);
    assert RequestOk(cfg, Winners(s.requests), s.db, s.drawn, p);
    KeyDecidesRow(s.db.communications, p.won.value.communication, row);
    FitsBorrower(cfg, p, p.won.value);
    FitsApplication(cfg, p, p.won.value);
  }

  lemma {:induction false} FitsApplication(cfg: Config, p: Request, staging: Staging)
    requires StagingFits(cfg, p, staging)
    ensures staging.communication.application == staging.applicationId
  {
    hide Strip, BuildDocument, KeyFor;
  }

  /** With no clashing name about, the conflict is never raised again. */
  lemma {:induction false} ConflictIsReplayed(cfg: Config, rt: Runtime, steps: seq<Step>, r: nat, order: seq<Uuid>)
    requires Runs(cfg, rt, INIT, steps)
    requires var s := After(cfg, rt, INIT, steps); RequestAt(s, r) && s.requests[r].state.Conflicted? && NameApart(s, s.requests[r])
    ensures var s := After(cfg, rt, INIT, steps);
            ReplayAck(s.db, KeyFor(cfg, s.requests[r]), BorrowerOf(s.requests[r]), order).Some?
  {
    var s := After(cfg, rt, INIT, steps);
    InitSound(cfg);
    HistoryKeepsSound(cfg, rt, INIT, steps);
    hide After, Runs, Inv, RunsKnown, Clash, KeyFor, Strip;
    ConflictRow(cfg, s, r, order);
    var q := s.requests[r];
    var row := FindByKey(s.db.communications, KeyFor(cfg, q)).value;
    var p :| p in s.requests && p.won.Some? && KeyFor(cfg, p) == KeyFor(cfg, q) && s.db.applications[row.application].borrower == BorrowerOf(p);
    SameKeySameBorrower(cfg, p, q);
  }

  // ----- Who raises a conflict again -----

  /** This step replays for request i and finds no row of its borrower. */
  ghost predicate RaisedAt(cfg: Config, s: State, step: Step, i: nat) {
    && step.Replay? && step.r == i && RequestAt(s, i) && s.requests[i].state.Conflicted?
    && ReplayAck(s.db, KeyFor(cfg, s.requests[i]), BorrowerOf(s.requests[i]), step.order) == None
  }

  /** Requests keep their messages, winners stay winners, and a conflict is raised again
      only by a replay that finds no row of its borrower. */
  ghost predicate RequestsGoOn(cfg: Config, s: State, s': State, step: Step) {
    && |s.requests| <= |s'.requests|
    && (forall i | 0 <= i < |s.requests| ::
          && s'.requests[i].message == s.requests[i].message && s'.requests[i].header == s.requests[i].header
          && (s.requests[i].won.Some? ==> s'.requests[i].won.Some?))
    && (forall i | 0 <= i < |s'.requests| && s'.requests[i].state == Rejected(UniqueKeyConflict) ::
          i < |s.requests| && (s.requests[i].state == Rejected(UniqueKeyConflict) || RaisedAt(cfg, s, step, i)))
  }

  lemma {:induction false} OneNeverConflicts(cfg: Config, attachment: Attachment, a: Uuid, d: Uuid)
    ensures BuildDocument(cfg, attachment, a, d).Err? ==> BuildDocument(cfg, attachment, a, d).error != UniqueKeyConflict
  {
    hide Substring;
  }

  lemma {:induction false} BuildNeverConflicts(cfg: Config, attachments: seq<Attachment>, a: Uuid, ids: seq<Uuid>)
    requires |attachments| <= |ids|
    ensures BuildDocuments(cfg, attachments, a, ids).Err? ==> BuildDocuments(cfg, attachments, a, ids).error != UniqueKeyConflict
  {
    hide BuildDocument;
    if attachments != [] {
      var n := |attachments| - 1;
      BuildNeverConflicts(cfg, attachments[..n], a, ids[..n]);
      OneNeverConflicts(cfg, attachments[n], a, ids[n]);
    }
  }

  lemma {:induction false} StageNeverConflicts(cfg: Config, db: Db, message: Message, key: string, chosen: Option<Uuid>, draw: Draw)
    requires (chosen.Some? ==> chosen.value in db.applications) && |draw.documents| == |message.attachments|
    ensures StageMessage(cfg, db, message, key, chosen, draw).Err?
            ==> StageMessage(cfg, db, message, key, chosen, draw).error != UniqueKeyConflict
  {
    BuildNeverConflicts(cfg, message.attachments, if chosen.Some? then chosen.value else draw.application, draw.documents);
    hide BuildDocuments, Strip, Scoped;
  }

  lemma {:induction false} PrepareGoesOn(cfg: Config, rt: Runtime, s: State, r: nat, chosen: Option<Uuid>, draw: Draw)
    requires Enabled(cfg, rt, s, Prepare(r, chosen, draw))
    ensures RequestsGoOn(cfg, s, Apply(cfg, rt, s, Prepare(r, chosen, draw)), Prepare(r, chosen, draw))
  {
    hide NewDraw, Strip, StageMessage;
    StageNeverConflicts(cfg, s.db, s.requests[r].message, KeyOf(cfg, s.requests[r].message, s.requests[r].header), chosen, draw);
  }

  lemma {:induction false} ReplayGoesOn(cfg: Config, rt: Runtime, s: State, r: nat, order: seq<Uuid>)
    requires Enabled(cfg, rt, s, Replay(r, order))
    ensures RequestsGoOn(cfg, s, Apply(cfg, rt, s, Replay(r, order)), Replay(r, order))
  {
    hide KeyFor, Strip, ReplayAck, FindByKey, Enumerates, DocsOf;
  }

  lemma {:induction false} CommitGoesOn(cfg: Config, rt: Runtime, s: State, r: nat)
    requires Enabled(cfg, rt, s, CommitMessage(r))
    ensures RequestsGoOn(cfg, s, Apply(cfg, rt, s, CommitMessage(r)), CommitMessage(r))
  {
    hide KeyCommitted, Committed, KeyFor, Strip, ReplayAck;
  }

  lemma {:induction false} OtherGoesOn(cfg: Config, rt: Runtime, s: State, step: Step)
    requires Enabled(cfg, rt, s, step) && IsRequestStep(step) && !step.Prepare? && !step.Replay? && !step.CommitMessage?
    ensures RequestsGoOn(cfg, s, Apply(cfg, rt, s, step), step)
  {
    hide KeyFor, Strip, ReplayAck;
  }

  lemma {:induction false} RequestStepGoesOn(cfg: Config, rt: Runtime, s: State, step: Step)
    requires Enabled(cfg, rt, s, step) && IsRequestStep(step)
    ensures RequestsGoOn(cfg, s, Apply(cfg, rt, s, step), step)
  {
    hide Enabled, Apply, RequestsGoOn;
    match step
    case Prepare(r, chosen, draw) => PrepareGoesOn(cfg, rt, s, r, chosen, draw);
    case Replay(r, order) => ReplayGoesOn(cfg, rt, s, r, order);
    case CommitMessage(r) => CommitGoesOn(cfg, rt, s, r);
    case _ => OtherGoesOn(cfg, rt, s, step);
  }

  lemma {:induction false} SameRequestsGoOn(cfg: Config, s: State, s': State, step: Step)
    requires s'.requests == s.requests
    ensures RequestsGoOn(cfg, s, s', step)
  {
    hide RaisedAt;
  }

  lemma {:induction false} StepGoesOn(cfg: Config, rt: Runtime, s: State, step: Step)
    requires Sound(cfg, s) && Enabled(cfg, rt, s, step)
    ensures RequestsGoOn(cfg, s, Apply(cfg, rt, s, step), step)
  {
    SoundParts(cfg, s);
    hide Sound, Inv, RunsKnown, Enabled, Apply, PipelineFrame, IdsIn, RequestsGoOn;
    if IsRequestStep(step) {
      RequestStepGoesOn(cfg, rt, s, step);
    } else {
      RunStepFrame(cfg, rt, s, step);
      SameRequestsGoOn(cfg, s, Apply(cfg, rt, s, step), step);
    }
  }

  lemma {:induction false} SoundParts(cfg: Config, s: State)
    requires Sound(cfg, s)
    ensures Inv(cfg, s) && RunsKnown(s) && IdsIn(s.db) <= s.drawn
  {
    InvTables(cfg, s);
    hide Inv, RunsKnown;
  }

  /** Some other borrower won the key of this request. */
  ghost predicate WonByAnother(cfg: Config, s: State, q: Request) {
    exists p | p in s.requests :: p.won.Some? && KeyFor(cfg, p) == KeyFor(cfg, q) && BorrowerOf(p) != BorrowerOf(q)
  }

  ghost predicate RaisesExplained(cfg: Config, s: State) {
    forall q | q in s.requests && q.state == Rejected(UniqueKeyConflict) :: WonByAnother(cfg, s, q)
  }

  lemma {:induction false} StillWonByAnother(cfg: Config, s: State, s': State, step: Step, i: nat)
    requires RequestsGoOn(cfg, s, s', step) && RequestAt(s, i) && WonByAnother(cfg, s, s.requests[i])
    ensures WonByAnother(cfg, s', s'.requests[i])
  {
    hide Strip, Scoped, KeyOf, RaisedAt;
    var q := s.requests[i];
    var p :| p in s.requests && p.won.Some? && KeyFor(cfg, p) == KeyFor(cfg, q) && BorrowerOf(p) != BorrowerOf(q);
    var j :| 0 <= j < |s.requests| && s.requests[j] == p;
    assert s'.requests[j] in s'.requests;
  }

  lemma {:induction false} RaisedWonByAnother(cfg: Config, s: State, step: Step, i: nat)
    requires Sound(cfg, s) && RaisedAt(cfg, s, step, i)
    ensures WonByAnother(cfg, s, s.requests[i])
  {
    SoundParts(cfg, s);
    hide Sound, Inv, RunsKnown, IdsIn, KeyFor, Strip, ReplayAck, FindByKey;
    ConflictRow(cfg, s, i, step.order);
  }

  lemma {:induction false} StepExplained(cfg: Config, rt: Runtime, s: State, step: Step)
    requires Sound(cfg, s) && RaisesExplained(cfg, s) && Enabled(cfg, rt, s, step)
    ensures RaisesExplained(cfg, Apply(cfg, rt, s, step))
  {
    hide Sound, Enabled, Apply, WonByAnother, RaisedAt;
    var s' := Apply(cfg, rt, s, step);
    StepGoesOn(cfg, rt, s, step);
    forall q | q in s'.requests && q.state == Rejected(UniqueKeyConflict) ensures WonByAnother(cfg, s', q) {
      var i :| 0 <= i < |s'.requests| && s'.requests[i] == q;
      if s.requests[i].state != Rejected(UniqueKeyConflict) { RaisedWonByAnother(cfg, s, step, i); }
      assert s.requests[i] in s.requests;
      StillWonByAnother(cfg, s, s', step, i);
    }
  }

  lemma {:induction false} HistoryExplained(cfg: Config, rt: Runtime, s: State, steps: seq<Step>)
    requires Sound(cfg, s) && RaisesExplained(cfg, s) && Runs(cfg, rt, s, steps)
    ensures RaisesExplained(cfg, After(cfg, rt, s, steps))
    decreases |steps|
  {
    hide Sound, RaisesExplained, Enabled, Apply;
    if steps != [] {
      StepKeepsSound(cfg, rt, s, steps[0]);
      StepExplained(cfg, rt, s, steps[0]);
      HistoryExplained(cfg, rt, Apply(cfg, rt, s, steps[0]), steps[1..]);
    }
  }

  // ----- Names without a colon -----

  lemma {:induction false} ExtensionHasColon(a: string, b: string)
    ensures StartsWith(b, a + ":") ==> ':' in b
  {
    if StartsWith(b, a + ":") { assert b[|a|] == (a + ":")[|a|] == ':'; }
  }

  lemma {:induction false} ColonFreeNamesApart(a: string, b: string)
    requires ':' !in a && ':' !in b
    ensures !Clash(a, b)
  {
    ExtensionHasColon(a, b);
    ExtensionHasColon(b, a);
  }

  ghost predicate ColonFree(s: State) { forall q | q in s.requests :: ':' !in BorrowerOf(q) }

  ghost predicate EveryAnswerOwn(s: State) {
    forall q | q in s.requests && AckIn(q.state).Some? ::
      var a := AckIn(q.state).value.application;
      a in s.db.applications && s.db.applications[a].borrower == BorrowerOf(q)
  }

  ghost predicate NothingRaised(s: State) { forall q | q in s.requests :: q.state != Rejected(UniqueKeyConflict) }

  /** While no borrower's name holds a colon, every answer names its own borrower's
      application and no conflict is ever raised again. */
  lemma {:induction false} ColonFreeNamesSuffice(cfg: Config, rt: Runtime, steps: seq<Step>)
    requires Runs(cfg, rt, INIT, steps) && ColonFree(After(cfg, rt, INIT, steps))
    ensures EveryAnswerOwn(After(cfg, rt, INIT, steps)) && NothingRaised(After(cfg, rt, INIT, steps))
  {
    var s := After(cfg, rt, INIT, steps);
    InitSound(cfg);
    HistoryExplained(cfg, rt, INIT, steps);
    AnswersStayWithBorrower(cfg, rt, steps);
    hide After, Runs, Strip, Clash, Sound, KeyFor;
    forall q, p | q in s.requests && p in s.requests ensures !Clash(BorrowerOf(p), BorrowerOf(q)) {
      ColonFreeNamesApart(BorrowerOf(p), BorrowerOf(q));
    }
    forall q | q in s.requests ensures q.state != Rejected(UniqueKeyConflict) {
      NeverWonByAnother(cfg, s, q);
    }
  }

  lemma {:induction false} NeverWonByAnother(cfg: Config, s: State, q: Request)
    requires forall p | p in s.requests :: !Clash(BorrowerOf(p), BorrowerOf(q))
    ensures !WonByAnother(cfg, s, q)
  {
    hide Strip, Clash, KeyFor;
    forall p | p in s.requests && KeyFor(cfg, p) == KeyFor(cfg, q) ensures BorrowerOf(p) == BorrowerOf(q) {
      SameKeySameBorrower(cfg, p, q);
    }
  }

  // ----- Clashing names: the failing histories -----

  /** Some answer to user v names an application of the borrower u. */
  ghost predicate Leaks(s: State, u: string, v: string) {
    exists q | q in s.requests ::
      && q.message.userId == v && AckIn(q.state).Some?
      && AckIn(q.state).value.application in s.db.applications
      && s.db.applications[AckIn(q.state).value.application].borrower == Strip(u)
  }

  /** A key user u committed raises its conflict again for user v. */
  ghost predicate Raises(cfg: Config, s: State, u: string, v: string) {
    exists p, q | p in s.requests && q in s.requests ::
      && p.message.userId == u && p.won.Some? && KeyFor(cfg, p) == KeyFor(cfg, q)
      && q.message.userId == v && q.state == Rejected(UniqueKeyConflict)
  }

  function Text(userId: string): Message { Message(userId, Sms, Some("hello"), None, []) }

  function IdOf(c: char): Uuid
    requires IsDigit(c)
  {
    seq(36, _ => c)
  }

  const FIRST_DRAW := Draw(IdOf('0'), IdOf('1'), [], 0)
  const SECOND_DRAW := Draw(IdOf('2'), IdOf('3'), [], 0)

  lemma {:induction false} DrawsAreNew()
    ensures NewDraw({}, FIRST_DRAW) && NewDraw(DrawnBy(FIRST_DRAW), SECOND_DRAW)
  {
    assert IdOf('0')[0] == '0' && IdOf('1')[0] == '1' && IdOf('2')[0] == '2' && IdOf('3')[0] == '3';
  }

  /** The state after user u's message under key x, delivered first. */
  function FirstDelivered(cfg: Config, u: string, x: string): State {
    var a := FIRST_DRAW.application;
    Delivered(cfg, INIT, Arrival(Text(u), x), Staging(a, true, FirstRow(Text(u), FIRST_DRAW), PlainRow(Text(u), x, a, FIRST_DRAW), []), FIRST_DRAW)
  }

  lemma {:induction false} DeliversOne(cfg: Config, rt: Runtime, u: string, x: string) returns (steps: seq<Step>)
    requires |x| <= MAX_KEY_LENGTH
    ensures Runs(cfg, rt, INIT, steps) && After(cfg, rt, INIT, steps) == FirstDelivered(cfg, u, x)
  {
    hide Runs, After, NewDraw, Strip, Scoped, IdOf;
    DrawsAreNew();
    PlainStaged(cfg, INIT.db, Text(u), x, None, FIRST_DRAW);
    var staging := StagedFor(cfg, INIT.db, Arrival(Text(u), x), None, FIRST_DRAW).value;
    hide StagedFor;
    NothingCommitted(INIT.db, staging);
    Delivers(cfg, rt, INIT, Arrival(Text(u), x), None, FIRST_DRAW);
    steps := DeliverySteps(|INIT.requests|, Arrival(Text(u), x), None, FIRST_DRAW);
  }

  lemma {:induction false} OneDelivered(cfg: Config, u: string, x: string)
    ensures var s, a := FirstDelivered(cfg, u, x), FIRST_DRAW.application;
            && s.db.applications == map[a := FirstRow(Text(u), FIRST_DRAW)] && s.db.documents == map[]
            && s.db.communications == [PlainRow(Text(u), x, a, FIRST_DRAW)] && s.drawn == DrawnBy(FIRST_DRAW)
            && |s.requests| == 1 && s.requests[0].message == Text(u) && s.requests[0].won.Some?
            && KeyFor(cfg, s.requests[0]) == Scoped(u, x)
            && Scoped(u, x) in s.cache && s.cache[Scoped(u, x)].application == a
  {
    hide Strip, IdOf;
    PlainDocuments(map[]);
  }

  /** User v, with a key that scopes to the same text, hits u's cache entry. */
  lemma {:induction false} LeakReached(cfg: Config, rt: Runtime, u: string, x: string, v: string, y: string) returns (steps: seq<Step>)
    requires Scoped(u, x) == Scoped(v, y) && |x| <= MAX_KEY_LENGTH && |y| <= MAX_KEY_LENGTH
    ensures Runs(cfg, rt, INIT, steps) && Leaks(After(cfg, rt, INIT, steps), u, v)
  {
    hide Runs, After, Strip, IdOf, Scoped, Delivered, Apply, Enabled, DrawnBy;
    var first := DeliversOne(cfg, rt, u, x);
    OneDelivered(cfg, u, x);
    var s := FirstDelivered(cfg, u, x);
    hide FirstDelivered;
    var q := Arrival(Text(v), y);
    Arrives(cfg, rt, s, Text(v), Some(y));
    var s1 := WithLast(s, q);
    LastReplaced(s, q, q.(state := Answered(s.cache[Scoped(u, x)])));
    ArrivalKey(cfg, v, y);
    Hits(cfg, rt, s1, 1);
    var s2 := Apply(cfg, rt, s1, CheckKey(1, true));
    assert s2.requests[1] in s2.requests && Leaks(s2, u, v);
    OneStep(cfg, rt, s2, []);
    OneMore(cfg, rt, s1, CheckKey(1, true), []);
    OneMore(cfg, rt, s, Arrive(Text(v), Some(y)), [CheckKey(1, true)] + []);
    var more := [Arrive(Text(v), Some(y))] + ([CheckKey(1, true)] + []);
    RunsAppend(cfg, rt, INIT, first, more);
    steps := first + more;
  }

  lemma {:induction false} ArrivalKey(cfg: Config, u: string, x: string)
    ensures KeyFor(cfg, Arrival(Text(u), x)) == Scoped(u, x)
  {
    hide Scoped;
  }

  /** Without the cache, user v loses the race to u's row and the conflict is raised again. */
  lemma {:induction false} RaiseReached(cfg: Config, rt: Runtime, u: string, x: string, v: string, y: string) returns (steps: seq<Step>)
    requires Scoped(u, x) == Scoped(v, y) && |x| <= MAX_KEY_LENGTH && |y| <= MAX_KEY_LENGTH && Strip(u) != Strip(v)
    ensures Runs(cfg, rt, INIT, steps) && Raises(cfg, After(cfg, rt, INIT, steps), u, v)
  {
    hide Runs, After, Strip, IdOf, Scoped, Delivered, Apply, Enabled, DrawnBy, NewDraw, StagedFor;
    var first := DeliversOne(cfg, rt, u, x);
    OneDelivered(cfg, u, x);
    var s, q := FirstDelivered(cfg, u, x), Arrival(Text(v), y);
    hide FirstDelivered;
    DrawsAreNew();
    ArrivalKey(cfg, v, y);
    Arrives(cfg, rt, s, Text(v), Some(y));
    LastReplaced(s, q, q.(state := Missed));
    Misses(cfg, rt, WithLast(s, q), 1);
    var s2 := WithLast(s, q.(state := Missed));
    var staging := Staging(SECOND_DRAW.application, true, FirstRow(Text(v), SECOND_DRAW),
                           PlainRow(Text(v), y, SECOND_DRAW.application, SECOND_DRAW), []);
    NothingOpenFor(s.db, u, v);
    PlainStaged(cfg, s.db, Text(v), y, None, SECOND_DRAW);
    SameStaged(cfg, s.db, q, q.(state := Missed), SECOND_DRAW);
    Prepares(cfg, rt, s2, 1, None, SECOND_DRAW);
    LastReplaced(s, q.(state := Missed), q.(state := Prepared(staging)));
    var s3 := WithLast(s.(drawn := s.drawn + DrawnBy(SECOND_DRAW)), q.(state := Prepared(staging)));
    TakenKey(s.db, staging);
    MeetsConflict(cfg, rt, s3, 1, staging);
    LastReplaced(s3.(requests := s.requests), q.(state := Prepared(staging)), q.(state := Conflicted));
    var s4 := WithLast(s.(drawn := s.drawn + DrawnBy(SECOND_DRAW)), q.(state := Conflicted));
    OtherBorrower(s.db, u, x, v);
    ReplayRaises(cfg, rt, s4, 1);
    var s5 := Apply(cfg, rt, s4, Replay(1, []));
    assert s5.requests[0] in s5.requests && s5.requests[1] in s5.requests;
    assert Raises(cfg, s5, u, v) by { RaisedHere(cfg, s5, u, v); }
    FiveSteps(cfg, rt, s, WithLast(s, q), s2, s3, s4, s5, v, y);
    var more := RaiseSteps(v, y);
    RunsAppend(cfg, rt, INIT, first, more);
    steps := first + more;
  }

  lemma {:induction false} RaisedHere(cfg: Config, s: State, u: string, v: string)
    requires |s.requests| == 2 && s.requests[0].message.userId == u && s.requests[0].won.Some?
    requires KeyFor(cfg, s.requests[0]) == KeyFor(cfg, s.requests[1])
    requires s.requests[1].message.userId == v && s.requests[1].state == Rejected(UniqueKeyConflict)
    ensures Raises(cfg, s, u, v)
  {
    hide KeyFor;
    assert s.requests[0] in s.requests && s.requests[1] in s.requests;
  }

  lemma {:induction false} NothingOpenFor(db: Db, u: string, v: string)
    requires db.applications == map[FIRST_DRAW.application := FirstRow(Text(u), FIRST_DRAW)] && Strip(u) != Strip(v)
    ensures NewestOpen(db, Strip(v), None)
  {
    hide Strip;
  }

  lemma {:induction false} SameStaged(cfg: Config, db: Db, q: Request, q': Request, draw: Draw)
    requires q'.message == q.message && q'.header == q.header && |draw.documents| == |q.message.attachments|
    ensures StagedFor(cfg, db, q', None, draw) == StagedFor(cfg, db, q, None, draw)
  {
    hide StageMessage;
  }

  lemma {:induction false} TakenKey(db: Db, staging: Staging)
    requires staging.communication.key.Some? && exists c | c in db.communications :: c.key == staging.communication.key
    ensures KeyCommitted(db, staging)
  {
    FindByKeyFinds(db.communications, staging.communication.key.value);
  }

  lemma {:induction false} OtherBorrower(db: Db, u: string, x: string, v: string)
    requires db.applications == map[FIRST_DRAW.application := FirstRow(Text(u), FIRST_DRAW)] && Strip(u) != Strip(v)
    requires db.communications == [PlainRow(Text(u), x, FIRST_DRAW.application, FIRST_DRAW)] && db.documents == map[]
    ensures ReplayAck(db, Scoped(u, x), Strip(v), []) == None
    ensures FindByKey(db.communications, Scoped(u, x)).Some? && DocsOf(db, FindByKey(db.communications, Scoped(u, x)).value.application) == {}
  {
    hide Strip, Scoped;
  }

  lemma {:induction false} ReplayRaises(cfg: Config, rt: Runtime, s: State, r: nat)
    requires RequestAt(s, r) && s.requests[r].state.Conflicted?
    requires ReplayAck(s.db, KeyFor(cfg, s.requests[r]), Strip(s.requests[r].message.userId), []) == None
    requires var row := FindByKey(s.db.communications, KeyFor(cfg, s.requests[r])); row.Some? && DocsOf(s.db, row.value.application) == {}
    ensures Enabled(cfg, rt, s, Replay(r, [])) && Apply(cfg, rt, s, Replay(r, [])) == AtRequest(s, r, Rejected(UniqueKeyConflict))
  {
    hide KeyFor, Strip, ReplayAck, FindByKey, DocsOf;
    var none: seq<Uuid> := [];
    assert (set d | d in none) == {};
  }

  function RaiseSteps(v: string, y: string): seq<Step> {
    [Arrive(Text(v), Some(y)), CheckKey(1, false), Prepare(1, None, SECOND_DRAW), CommitMessage(1), Replay(1, [])]
  }

  lemma {:induction false} FiveSteps(cfg: Config, rt: Runtime, s: State, s1: State, s2: State, s3: State, s4: State, s5: State, v: string, y: string)
    requires Enabled(cfg, rt, s, Arrive(Text(v), Some(y))) && Apply(cfg, rt, s, Arrive(Text(v), Some(y))) == s1
    requires Enabled(cfg, rt, s1, CheckKey(1, false)) && Apply(cfg, rt, s1, CheckKey(1, false)) == s2
    requires Enabled(cfg, rt, s2, Prepare(1, None, SECOND_DRAW)) && Apply(cfg, rt, s2, Prepare(1, None, SECOND_DRAW)) == s3
    requires Enabled(cfg, rt, s3, CommitMessage(1)) && Apply(cfg, rt, s3, CommitMessage(1)) == s4
    requires Enabled(cfg, rt, s4, Replay(1, [])) && Apply(cfg, rt, s4, Replay(1, [])) == s5
    ensures Runs(cfg, rt, s, RaiseSteps(v, y)) && After(cfg, rt, s, RaiseSteps(v, y)) == s5
  {
    hide Enabled, Apply, IdOf;
    var steps := RaiseSteps(v, y);
    OneStep(cfg, rt, s5, []);
    OneMore(cfg, rt, s4, steps[4], []);
    OneMore(cfg, rt, s3, steps[3], [steps[4]]);
    OneMore(cfg, rt, s2, steps[2], [steps[3], steps[4]]);
    OneMore(cfg, rt, s1, steps[1], [steps[2], steps[3], steps[4]]);
    OneMore(cfg, rt, s, steps[0], [steps[1], steps[2], steps[3], steps[4]]);
  }

  // ----- Exactly the clashing names -----

  /** The webhook accepts user ids of at most 255 characters. */
  predicate Accepted(u: string) { |Strip(u)| <= 255 }

  /** Clashing names have keys, short enough for the webhook, that scope to one text. */
  lemma {:induction false} ClashingKeys(u: string, v: string) returns (x: string, y: string)
    requires Clash(Strip(u), Strip(v)) && Accepted(u) && Accepted(v)
    ensures Scoped(u, x) == Scoped(v, y) && |x| <= MAX_KEY_LENGTH && |y| <= MAX_KEY_LENGTH
  {
    hide Strip;
    var a, b := Strip(u), Strip(v);
    if StartsWith(b, a + ":") {
      x, y := b[|a| + 1..] + ":", "";
      assert b == a + ":" + b[|a| + 1..];
      assert a + ":" + (b[|a| + 1..] + ":") == b + ":" + "";
    } else {
      x, y := "", a[|b| + 1..] + ":";
      assert a == b + ":" + a[|b| + 1..];
      assert a + ":" + "" == b + ":" + (a[|b| + 1..] + ":");
    }
  }

  ghost predicate CanLeak(cfg: Config, rt: Runtime, u: string, v: string) {
    exists steps :: Runs(cfg, rt, INIT, steps) && Leaks(After(cfg, rt, INIT, steps), u, v)
  }

  ghost predicate CanRaise(cfg: Config, rt: Runtime, u: string, v: string) {
    exists steps :: Runs(cfg, rt, INIT, steps) && Raises(cfg, After(cfg, rt, INIT, steps), u, v)
  }

  lemma {:induction false} LeaksMeanClash(cfg: Config, s: State, u: string, v: string)
    requires Inv(cfg, s) && Leaks(s, u, v) && Strip(u) != Strip(v)
    ensures Clash(Strip(u), Strip(v))
  {
    hide Inv, Strip, Clash, KeyFor;
    var q :| q in s.requests && q.message.userId == v && AckIn(q.state).Some?
             && AckIn(q.state).value.application in s.db.applications
             && s.db.applications[AckIn(q.state).value.application].borrower == Strip(u);
    AnswerOwned(cfg, s, q);
    var p :| p in s.requests && p.won.Some? && KeyFor(cfg, p) == KeyFor(cfg, q)
             && s.db.applications[AckIn(q.state).value.application].borrower == BorrowerOf(p);
    SameKeySameBorrower(cfg, p, q);
  }

  /** Some history answers user v with an application of another borrower u exactly when
      their names clash. */
  lemma {:induction false} LeaksExactly(cfg: Config, rt: Runtime, u: string, v: string)
    requires Strip(u) != Strip(v) && Accepted(u) && Accepted(v)
    ensures CanLeak(cfg, rt, u, v) <==> Clash(Strip(u), Strip(v))
  {
    hide Runs, After, Inv, Leaks, Strip, Clash, Scoped, RunsKnown, Accepted;
    if CanLeak(cfg, rt, u, v) {
      var steps :| Runs(cfg, rt, INIT, steps) && Leaks(After(cfg, rt, INIT, steps), u, v);
      InitSound(cfg);
      HistoryKeepsSound(cfg, rt, INIT, steps);
      LeaksMeanClash(cfg, After(cfg, rt, INIT, steps), u, v);
    }
    if Clash(Strip(u), Strip(v)) {
      var x, y := ClashingKeys(u, v);
      var steps := LeakReached(cfg, rt, u, x, v, y);
    }
  }

  lemma {:induction false} RaisesMeanClash(cfg: Config, s: State, u: string, v: string)
    requires Raises(cfg, s, u, v) && Strip(u) != Strip(v)
    ensures Clash(Strip(u), Strip(v))
  {
    hide Strip, Clash, KeyFor;
    var p, q :| p in s.requests && q in s.requests && p.message.userId == u && p.won.Some? && KeyFor(cfg, p) == KeyFor(cfg, q)
                && q.message.userId == v && q.state == Rejected(UniqueKeyConflict);
    SameKeySameBorrower(cfg, p, q);
  }

  /** Some history raises a conflict of user v with u's key again exactly when their names clash. */
  lemma {:induction false} RaisesExactly(cfg: Config, rt: Runtime, u: string, v: string)
    requires Strip(u) != Strip(v) && Accepted(u) && Accepted(v)
    ensures CanRaise(cfg, rt, u, v) <==> Clash(Strip(u), Strip(v))
  {
    hide Runs, After, Raises, Strip, Clash, Scoped, Accepted;
    if CanRaise(cfg, rt, u, v) {
      var steps :| Runs(cfg, rt, INIT, steps) && Raises(cfg, After(cfg, rt, INIT, steps), u, v);
      RaisesMeanClash(cfg, After(cfg, rt, INIT, steps), u, v);
    }
    if Clash(Strip(u), Strip(v)) {
      var x, y := ClashingKeys(u, v);
      var steps := RaiseReached(cfg, rt, u, x, v, y);
    }
  }
}
