# LoanAgentx: a verified model of intake, pipeline and text handling

LoanAgentx takes borrower messages from a webhook, stores each exactly once, and runs a
staged agent over the stored evidence: parse documents, extract facts with verbatim
quotes, reconcile stated against documented values, and chase what is missing. This
project models that behaviour in Dafny and proves what the system promises about it.

The tables are one value (`Tables.Db`); a `Session` object stages rows and commits them in
one step under the unique index on the idempotency key. The code that works step by step
is written as methods with loops and modified objects (`Intake`, `Pipeline`,
`Redaction.RedactPii`, `Prompt.BuildUserPrompt`, `Reconcile`, `ObjectStore.FileStore`),
each proved equal to a function of its inputs; the theorems are about those functions.
`System` runs webhook requests and pipeline runs as one step machine in which steps of
different requests and runs interleave freely, the cache may miss, lose or fail to store
at any moment, and the extractor may answer anything its schema allows or fail. Main
results are statements about every history of that machine from empty tables:

- **Exactly once** (`ExactlyOnce`, `Filing`, `Refusals`, `Answers`): answers to one scoped
  key name one communication and one application, whether committed, replayed or cached;
  every stored row comes from a request that won its key and was staged for that request's
  own message. Two answered requests of a borrower share a communication exactly when they
  are filed under the same text, the header or the message's own fallback key; refusals
  carry the error of the first unacceptable attachment, and what is acceptable is stated
  character by character; a fresh answer tells the status found, a replayed one the present.
- **Borrowers stay apart** (`Borrowers`): some history answers one borrower with another's
  application exactly when their names clash, that is when one name extends the other at a
  colon; the same condition decides whether a conflict can be raised again. While no name
  holds a colon neither ever happens.
- **Traceable** (`Words`, `Casing`, `Traceability`, `AuditTrail`, `AuditRows`): every stored fact
  quotes stored text of its own application, evidence is never overwritten, `chase.sent`
  rows match outbound messages one for one, and for every audit row that intake or
  pipeline stores it is said exactly when it holds no identifier. Acceptance of a quote
  depends on its words and nothing else: letter case and the make-up of the runs between
  words never matter, any other change of a character does.
- **Asking** (`Asking`): whatever is missing, the message names exactly the missing
  requirements, an SMS in one line, an email in one line each.
- **Serial runs** (`SerialRuns`, `Rerun`): without overlapping runs of one application the
  status is decided by facts and degradation, no text is sent twice, at most fifteen are
  ever sent, an exportable application has every required fact, and a second run on the
  same evidence with the same extraction outcome changes nothing. When runs do overlap,
  `Messages` and `Overtakings` say exactly which sends repeat a text: those of a run that
  another one overtook between its decision and its send; a history reaches that.
- **Isolation** (`Sides`, `Isolation`): whatever steps of other applications a run is taken
  among, it leaves status, documents, facts and messages of its own application as the
  uninterrupted run does, so a second run changes nothing in the interleaved system either.
- **One open application** (`OneOpen`): holds when each request and the run it queued
  finish before the next request and the cache keeps every entry. For all other histories
  the breaking steps are named exactly, and `OpenRaces` reaches them from empty tables: by
  two interleaved requests, and by a late run that degrades.
- **Text algorithms** (`Patterns`, `Redaction`, `Labels`, `Prompt`): one call of the
  redactor reaches its fixed point, redacting a text is redacting the parts that a foreign
  character keeps apart, a lone identifier becomes its own label, and a reader of CDATA sections (section 2.7 of XML 1.0)
  recovers every source text from the prompt.
- **Reconciliation** (`Reconcile`, `Numbers`, `JsonReading`): the loops report exactly the
  disagreeing pairs; however an income is spelled, with spaces around, dollars in front and
  commas, it is stored and compared as the number its plain text reads as; and a reader of
  JSON finds every member of the stored record under its name. A comma or a dollar is
  ignored except in one case, given exactly: in `", 5"` and `"$ 5"` it keeps the space
  inside from being stripped, so the parser gets `" 5"`.
- **Files** (`ObjectStore`, `FileNames`): every document is a file of its own, named by the
  document and a listed extension, and writing one leaves all others as they were.

`WholeRun` ties the three views of a run together: the uninterrupted steps of the machine,
the function `Ran`, and the method `Pipeline.RunPipeline` that drives the graph.
`Requests` does the same for a webhook request: its steps, with any steps of others in
between, have exactly the outcomes of the method `Intake.IngestInboundMessage`.

Hypotheses: `uuid4` never repeats; numbers are reals; a shown number is written without
quotes, commas and braces; text is ASCII as far as case and
character classes go; a location of the data directory always holds the same bytes, or
none, and parsing is a function of file type and bytes; a commit is atomic.
Queries without a total order (documents of an application, messages with equal
timestamps) are answered in any order the tables allow.

The code and its documentation disagree in one place: the repository's README says audit
prompts and responses are redacted before storage. The code redacts `extract.trace` rows,
redacts `extract.degraded` rows before it cuts them, and stores `ingest.parse_failed`,
`reconcile.anomaly` and `chase.sent` rows as they are. The model follows the code.
`AuditRows.EveryRowAccounted` says of every row that intake and pipeline store exactly when
it holds no identifier. `extract.trace` rows never hold one, and neither do `chase.sent`
rows, whose fifteen possible texts match no pattern. A degraded row holds one when its cut
exposes one. A parse failure of a document whose path leads nowhere never does; of a
missing file it does when a segment of its location is one; of a refused file when the
parser's message holds one. An anomaly does when one of its two values, its document's
identifier or its variance does. `AuditWitnesses` and `MissingFile` give a history from
empty tables for each of these three kinds of rows: a link below the borrower's own
application named by a number whose file is missing, a long provider error, and a stated
`government_id`.

## Model

| member | source | states |
|---|---|---|
| `Words.VerbatimQuoteAccepted` | app/graph/nodes/extract_trace.py:105-110 | every non-empty exact piece of a text is accepted as a quote of it, wherever it starts or ends |
| `Words.AcceptedQuoteAligns` | app/graph/nodes/extract_trace.py:105-110 | an accepted quote with words has them in a row in the text: first one ends a word, last one begins a word, inner ones are whole; a single word lies inside one word |
| `Words.ContainsExactly` | app/graph/nodes/extract_trace.py:105-110 | for a quote that starts and ends in a word, acceptance is that alignment, both directions |
| `Words.WordlessQuote` | app/graph/nodes/extract_trace.py:105-110 | a quote of punctuation and spaces alone is accepted exactly by texts with some non-word character |
| `Words.AcceptedExactly` | app/graph/nodes/extract_trace.py:105-110 | for every non-empty quote, acceptance is alignment of the words padded at open ends: next to a leading or trailing non-word run the word is whole and bordered by such a run, both directions |
| `Casing.FoldsExactly` | app/graph/nodes/extract_trace.py:108-110 | folding identifies two characters if and only if they are equal or the two cases of one letter |
| `Casing.CaseIgnored` | app/graph/nodes/extract_trace.py:105-110 | texts and quotes that agree character by character up to case are accepted alike |
| `Casing.WordQuoteExactly` | app/graph/nodes/extract_trace.py:105-110 | a quote of letters, digits and underscores is accepted if and only if some stretch of the text is that quote up to case |
| `Casing.RunsAlike` | app/graph/nodes/extract_trace.py:105-110 | any two non-empty runs of other characters are worth the same between words, in the text and in the quote |
| `Patterns.LangIsShape` | app/core/redaction.py:6-11 | what each pattern matches, stated without regular expressions: digits, separators, lengths |
| `Labels.SsnExactly` | app/core/redaction.py:7-8 | the two social security patterns, digit by digit: hyphens or white space, not mixed |
| `Labels.AccountExactly` | app/core/redaction.py:9 | the account pattern: 13 to 19 digits, at most one space or hyphen after each |
| `Labels.IbanExactly` | app/core/redaction.py:10 | the IBAN pattern: two capitals, two digits, 11 to 30 capitals or digits |
| `Patterns.MatchFromIsLongest` | app/core/redaction.py:6-11 | the backtracking match at a position is the longest stretch of the pattern's shape between word boundaries, and None means there is none |
| `Redaction.RedactPii` | app/core/redaction.py:20-28 | the loop over the patterns leaves a text with no match of any of them, and counts zero exactly when there was none |
| `Redaction.SubnReplacesLeftmostLongest` | app/core/redaction.py:25-27 | a substitution replaces the leftmost longest matches and keeps everything else |
| `Redaction.MatchComesFromOriginal` | app/core/redaction.py:25-27 | a match in the substituted text is an untouched match of the text before, so a later substitution creates none for an earlier pattern |
| `Redaction.SubnKeepsFree` | app/core/redaction.py:25-27 | substituting one pattern keeps the text free of another |
| `Redaction.RedactClears` | app/core/redaction.py:20-28 | after one call no pattern matches anywhere |
| `Redaction.RedactCount` | app/core/redaction.py:20-28 | zero redactions if and only if the text was free of all patterns, and then it is unchanged |
| `Redaction.RedactTwice` | app/core/redaction.py:20-28 | a second call changes nothing and reports zero |
| `Labels.LoneIdentifier` | app/core/redaction.py:6-28 | a lone social security, account or IBAN number, given character by character, becomes its own label and counts once; an account number unless it holds a social security number |
| `Labels.PartsApart` | app/core/redaction.py:20-28 | at any character foreign to words and identifiers, redacting a text is redacting its two parts: texts and counts add up |
| `Redaction.DegradedExcerptClean` | app/graph/nodes/extract_trace.py:146-161 | redacting before cutting keeps the row clean if and only if the cut does not fall inside a word whose front reads as an identifier |
| `Prompt.BuildUserPrompt` | app/services/llm_client.py:126-139 | the loop builds the prompt the read-back theorems speak about |
| `Prompt.ReadEscaped` | app/services/llm_client.py:130-133 | reading an escaped text up to its section's end gives back the text |
| `Prompt.PromptReadsBack` | app/services/llm_client.py:126-139 | when the final cut does not bite, a reader that ends sections at the first terminator and joins adjacent ones finds each source's header and exactly its newline-framed first 20,000 characters |
| `Prompt.SamePromptSameSources` | app/services/llm_client.py:126-139 | two source lists with the same uncut prompt agree in number, headers and cut texts; where labels and identifiers are words without quotes, also in every source's label and document |
| `Prompt.EscapedLength` | app/services/llm_client.py:132 | escaping adds twelve characters per terminator, at most quintupling the text |
| `Prompt.NoTerminatorMissed` | app/services/llm_client.py:132 | replacing from the left finds every occurrence of the terminator |
| `Prompt.PromptFits` | app/services/llm_client.py:130-139 | three or fewer sources with UUID labels and no terminator always fit in 80,000 characters; full sources fit only then |
| `Nodes.VerbatimEntityTraced` | app/graph/nodes/extract_trace.py:79-102 | a known-key entity whose quote is, in any case, a piece of the document it names, or of some chat text when it names none or an empty one, is kept |
| `Nodes.FactsFromFilter` | app/graph/nodes/extract_trace.py:79-130 | the persisted facts are the traced entities, in order, one each, each with the entity's key, document, quote and confidence and its value as coerced |
| `Nodes.SourcesNamed` | app/graph/nodes/ingest_route.py:54-77 | a run's sources are its parsed documents under their identifiers and its inbound messages with a text under `chat:` and theirs |
| `Nodes.ChatsAreInbound` | app/graph/nodes/ingest_route.py:58-70 | the chats a run reads are exactly the inbound messages with a text of its application |
| `Nodes.CoerceKeepsNull` | app/graph/nodes/extract_trace.py:133-143 | coercion neither makes a value out of null nor null out of a value |
| `Numbers.CoercedExactly` | app/graph/nodes/extract_trace.py:133-143 | a text under a key ending in `_income`, `_amount` or `_balance` becomes the number its plain text reads as, however it is spelled, and stays when that is none; nothing else is changed |
| `Reconcile.Group` | app/graph/nodes/reconcile.py:24-32 | the loop sorts facts into stated and documented values per key, in order |
| `Reconcile.FindAnomalies` | app/graph/nodes/reconcile.py:24-40 | the anomalies are, as a multiset, the reports on all conflicting stated/documented pairs of a shared key |
| `Reconcile.CompareIsReport` | app/graph/nodes/reconcile.py:74-96 | a pair is reported exactly when it disagrees: numbers by more than 5% of the documented magnitude, other values by trimmed lowercase text |
| `Numbers.SpellingRead` | app/graph/nodes/reconcile.py:62-71 | white space around, dollars in front and commas anywhere behind them are ignored: the plain text is what is read |
| `Numbers.PlainRead` | app/graph/nodes/reconcile.py:62-71 | a text without commas, leading dollar or outer white space reaches the parser as it is |
| `Numbers.OuterSpaceIgnored` | app/graph/nodes/reconcile.py:62-71 | white space around a text changes nothing |
| `Numbers.CommaIgnoredExactly` | app/graph/nodes/reconcile.py:62-71 | leaving a comma out gives the same reading under every parser if and only if the comma does not keep white space from being stripped |
| `Numbers.DollarIgnoredExactly` | app/graph/nodes/reconcile.py:62-71 | a dollar put in front gives the same reading under every parser if and only if the text is blank or starts with no white space |
| `Numbers.SpelledNeverConflicts` | app/graph/nodes/reconcile.py:74-96 | a stated income that reads as r, however spelled and whether or not coerced before, never conflicts with a documented r |
| `Numbers.NumbersConflictExactly` | app/graph/nodes/reconcile.py:74-88 | two values that read as numbers conflict if and only if these are more than 5% of the documented magnitude apart |
| `Numbers.UnreadConflictExactly` | app/graph/nodes/reconcile.py:21-40 | on an income key a value that reads as no number counts as none: it conflicts with every number, unless that is shown as `none`, and with no other such value |
| `Numbers.ShownConflictExactly` | app/graph/nodes/reconcile.py:89-96 | under any other key, values that are not both numbers conflict if and only if the texts they show differ between their outer white space by more than case |
| `Reconcile.AgreementBoundsFactor` | app/graph/nodes/reconcile.py:78-81 | positive documented values that agree with one stated number differ by a factor of at most 21/19 |
| `Reconcile.FactorIsSharp` | app/graph/nodes/reconcile.py:78-81 | that factor is reached |
| `Reconcile.ToleranceIsOneSided` | app/graph/nodes/reconcile.py:78-81 | swapping stated and documented changes the verdict exactly in the band between the two 5% tolerances |
| `JsonReading.RecordReadsBack` | app/graph/nodes/reconcile.py:42-49 | a reader of JSON objects finds in the stored record, under their names, the key, the stated value, the documented value, the document and the variance in percent |
| `ObjectStore.FileStore.AtomicWriteBytes` | app/services/object_store.py:10-14 | the target changes in one step, the temporary file is gone, no other file changes |
| `ObjectStore.FileStore.PersistDocument` | app/services/object_store.py:23-33 | the returned path leads back to the one file written |
| `ObjectStore.StoragePathReadsBack` | app/services/object_store.py:23-61 | a storage path resolves to exactly the written target, inside its application's directory |
| `ObjectStore.TargetsDistinct` | app/services/object_store.py:24-31 | different documents are different files |
| `FileNames.NamedExactly` | app/services/object_store.py:23-31 | wherever a name says it lies, its file is named by the document and its extension as written, if that is one of six in any case, and by `.bin` otherwise |
| `FileNames.StoredUnder` | app/services/object_store.py:23-33 | the literal path an upload is stored under: bucket, application, document and the kept extension |
| `FileNames.UnnamedIsBin` | app/services/intake.py:140-141 | a name without a dot gives a `.bin`, and so does an upload without a name |
| `FileNames.OthersUntouched` | app/services/object_store.py:10-33 | writing one document, temporary file included, leaves the file of every other document as it was |
| `ObjectStore.PathStaysWithApplication` | app/services/object_store.py:48-61 | a path without `..` leads nowhere or into its own application's directory |
| `ObjectStore.ParentSegmentLeavesApplication` | app/services/object_store.py:48-61 | the resolver alone keeps only the common root: a path with a parent segment leads into another application's directory |
| `ObjectStore.LeavesExactly` | app/services/object_store.py:48-61 | a path that never climbs above its application's directory is read from there; one that climbs without naming the application again never is |
| `ObjectStore.WalkPast` | app/services/object_store.py:48-61 | anywhere in a path, empty and one-dot segments lead nowhere and two dots undo the name before them |
| `Tables.Session.Commit` | app/services/intake.py:56-61 | all staged rows at once, or none when the unique key refuses one |
| `Intake.BuiltDocument` | app/services/intake.py:124-163 | an accepted attachment becomes a document of an allowed type whose path stays with its application, and an uploaded one leads to its own file |
| `Refusals.AttachmentExactly` | app/services/intake.py:124-163 | an attachment is accepted if and only if its type is one of the four and it has content that decodes to no more than the limit, or no content and a url without two dots in a row or an encoded dot |
| `Refusals.RefusedWith` | app/services/intake.py:124-150 | which error each other attachment gives |
| `Refusals.RefusedExactly` | app/api/routes/webhooks.py:52-67 | in every history a request is refused for its key if and only if its header is longer than 255, and any other refused one carries the error of its first unacceptable attachment |
| `Refusals.StoredAttachments` | app/services/intake.py:50-54 | in every history the documents of a request that won its key are its attachments, all acceptable, each stored under its own type and, a link, its own url |
| `Intake.FirstErrorDecides` | app/services/intake.py:50-54 | the first refused attachment decides the outcome, whatever follows |
| `Intake.ResolveOpenApplication` | app/services/intake.py:106-121 | the loop finds a newest open application of the borrower, or that there is none |
| `Intake.JoinsUnfinished` | app/services/intake.py:106-121 | a message joins an application only of its own borrower that is in processing, waiting for documents or in manual review, and opens one only when there is none |
| `Intake.FreshAnswer` | app/services/intake.py:68-73 | a fresh answer tells the status the application had, or that a new one waits for documents, with the new communication and documents |
| `Intake.StageInbound` | app/services/intake.py:29-54 | stages one communication, its documents and, without an open application, a new one; stages nothing on a refusal |
| `Intake.StageDocuments` | app/services/intake.py:50-54 | the loop stages exactly the accepted documents, or stops at the first refusal |
| `Intake.CommitInbound` | app/services/intake.py:56-61 | commits unless the scoped key is committed already, and then changes nothing |
| `Intake.ReplayByIdempotencyKey` | app/services/intake.py:76-103 | the answer of the committed row of the key, with the application's current status and all its documents; none for another borrower |
| `Intake.IngestInboundMessage` | app/services/intake.py:29-73 | a fresh answer when the key is free at commit time; when somebody else committed it meanwhile, the answer of the tables at replay time, or the conflict again; no rows of its own otherwise |
| `ExactlyOnce.HitIsCommittedAnswer` | app/services/idempotency.py:17-54 | in every history a cache hit names the one committed row of its key and lists every document of the request that won it |
| `Answers.FreshAnswerTold` | app/services/intake.py:29-73 | in every history, a request that commits answers with the status its application had when it was prepared, or with a new application waiting for documents |
| `Answers.ReplayedAnswerTold` | app/services/intake.py:76-103 | a replayed answer tells the present status and all documents of the application the row of its key belongs to |
| `Intake.IncomingMessage` | app/api/routes/webhooks.py:44-75 | long keys and cache hits touch nothing; otherwise ingest, best-effort store, and a queued run exactly for a successful answer |
| `Requests.CommittedIngest` | app/services/intake.py:56-73 | a prepared request commits, over whatever others committed meanwhile, to an outcome the code's intake may have, or finds its key taken and writes nothing |
| `Requests.ReplayedIngest` | app/services/intake.py:58-66 | a request that lost the race ends in the outcome the code's intake has for the tables at its replay, whatever others do between the conflict and the replay |
| `Requests.RefusedIngest` | app/services/intake.py:124-150 | a refused message ends in its refusal with the tables as they were |
| `Pipeline.ValidateEntities` | app/graph/nodes/extract_trace.py:79-102 | the loop keeps exactly the traced entities, in order |
| `Pipeline.Agent.IngestRoute` | app/graph/nodes/ingest_route.py:14-77 | one commit writes the new raw texts and parse failures, and the sources are the parsed documents followed by the chat messages |
| `Pipeline.Agent.ExtractTrace` | app/graph/nodes/extract_trace.py:29-74 | facts of the application are replaced and audited in one commit; a failure degrades to manual review and keeps the facts |
| `Pipeline.Agent.PersistFacts` | app/graph/nodes/extract_trace.py:113-130 | stages the removal of the old facts and one new fact per kept entity |
| `Pipeline.Agent.RecordExtractionAudit` | app/graph/nodes/extract_trace.py:164-187 | prompt and response are cut to 8000 characters and then redacted |
| `Pipeline.Agent.ReconcileFacts` | app/graph/nodes/reconcile.py:18-57 | one audit row for each conflict, in one commit |
| `Pipeline.Agent.MissingRequirements` | app/graph/nodes/chase.py:24-30 | the required keys without a non-null fact, in their order |
| `Pipeline.Agent.PickChannel` | app/graph/nodes/chase.py:85-96 | the channel of a newest inbound communication, SMS without any |
| `Pipeline.Agent.ChaseAlreadySent` | app/graph/nodes/chase.py:99-109 | whether the text is among those sent to the application |
| `Pipeline.Agent.Chase` | app/graph/nodes/chase.py:22-80 | status by what is missing, and the message with its audit row exactly when that text was not sent before |
| `Pipeline.RunNode` | app/graph/builder.py:12-34 | every node leaves the run where the edge taken after it expects it |
| `Pipeline.RunPipeline` | app/services/pipeline.py:11-32 | driving the graph from entry to end performs the whole run and nothing else; an unknown application changes nothing |
| `WholeRun.UninterruptedRun` | app/services/pipeline.py:20-32 | the steps of a run, taken without interruption in the interleaving machine, give the tables of the whole run |
| `ExactlyOnce.StepKeepsSound` | app/api/routes/webhooks.py:51-75 | every step of any request or run keeps the intake invariant: unique keys, owned keys, correct cache, separate staged rows, every row won |
| `ExactlyOnce.HistoryKeepsSound` | app/api/routes/webhooks.py:51-75 | the invariant holds after every history |
| `ExactlyOnce.AnswersAgree` | app/services/intake.py:56-103 | all answers to one scoped key agree on communication and application, every cache entry names the one committed row of its key, and no key is committed twice |
| `Filing.FiledExactly` | app/api/routes/webhooks.py:51-67 | in every history, two answered requests of one borrower name one communication if and only if the header of each, or its own fallback key without one, is the same text |
| `ExactlyOnce.AnswersListOriginal` | app/services/intake.py:91-103 | every answer lists all documents of the request that won its key |
| `ExactlyOnce.IntakeConserves` | app/services/intake.py:29-73 | inbound communications, documents and applications are exactly what winning requests staged for their own messages, one document per attachment; winners differ in keys and rows, and a request without an answer has won nothing |
| `ExactlyOnce.StoredPathsContained` | app/services/intake.py:149-155 | every committed storage path leads nowhere or into its own application's directory |
| `Borrowers.KeysMeet` | app/services/intake.py:38 | two borrowers can have a common scoped key if and only if they are equal or one name extends the other at a colon |
| `Borrowers.ScopedInjective` | app/services/intake.py:38 | for names that do not clash the scoped key determines borrower and key |
| `Borrowers.AnswersStayWithBorrower` | app/api/routes/webhooks.py:61-75 | in every history an answer, committed, replayed or cached, names an application of its own borrower when no other borrower's name clashes |
| `Borrowers.LeakReached` | app/api/routes/webhooks.py:61-67 | for any two keys that scope to one text, a history from empty tables in which the second user hits the first one's cache entry |
| `Borrowers.LeaksExactly` | app/api/routes/webhooks.py:61-67 | some history answers one user with another borrower's application if and only if their names clash |
| `Borrowers.ConflictExactly` | app/services/intake.py:58-66 | a lost race is replayed if and only if the request that won the key has the same borrower |
| `Borrowers.RaiseReached` | app/services/intake.py:58-66 | a history from empty tables that reaches the re-raise, for any two keys that scope to one text |
| `Borrowers.RaisesExactly` | app/services/intake.py:58-66 | some history raises one user's key again for another if and only if their names clash |
| `Borrowers.ConflictIsReplayed` | app/services/intake.py:58-66 | a request whose borrower clashes with nobody always replays a row of its own borrower: the re-raise is unreachable |
| `Borrowers.HistoryExplained` | app/services/intake.py:58-66 | in every history, a conflict that was raised again is one whose key another borrower won |
| `Borrowers.ColonFreeNamesSuffice` | app/services/intake.py:38-66 | while no borrower's name holds a colon, every answer names its own borrower's application and no conflict is ever raised again |
| `Traceability.StepTraceable` | app/graph/nodes/ingest_route.py:14-68 | every step keeps facts backed, texts parsed from their files and runs' sources stored, and only adds evidence |
| `Traceability.EveryFactBacked` | app/graph/nodes/extract_trace.py:79-130 | after every history every fact has a known key and a non-empty snippet accepted in the stored text of its own document, or in a stored inbound message, of the same application |
| `Traceability.EvidencePersists` | app/graph/nodes/ingest_route.py:18-53 | from any reachable state on, messages and documents stay and non-empty raw text is never overwritten |
| `AuditTrail.AuditTrailHolds` | app/graph/nodes/extract_trace.py:164-187 | after every history extraction rows hold no identifier, and chase.sent rows equal the outbound messages of their application in order and text |
| `CleanTexts.FewCodesClean` | app/core/redaction.py:6-11 | a text with fewer than nine digits and capitals matches no pattern |
| `CleanTexts.ChaseTextClean` | app/graph/nodes/chase.py:112-121 | whatever is missing, the message sent and audited matches no pattern |
| `Asking.AsksExactly` | app/graph/nodes/chase.py:10-19 | whatever is present and whatever the channel, the text asks for a photo ID, for proof of income and for proof of address each if and only if that requirement is missing; an SMS has no line break, an email one line for each missing requirement that asks for it alone |
| `Asking.DecidedAsks` | app/graph/nodes/chase.py:29-45 | the text a run decides on asks for exactly the requirements its application has no fact for |
| `CleanPieces.PartedClean` | app/core/redaction.py:6-11 | at a character that is part of no word and no identifier a text is free of all patterns if and only if both sides are |
| `CleanPieces.MissingFileClean` | app/graph/nodes/ingest_route.py:82-89 | the message of a missing file is free of all patterns if and only if every segment of the file's location is |
| `CleanPieces.AnomalyTextClean` | app/graph/nodes/reconcile.py:42-49 | the stored record of an anomaly on a known key is free of all patterns if and only if its two values, its document's identifier and its variance are |
| `AuditRows.EveryRowAccounted` | app/graph/nodes/extract_trace.py:146-187 | after every history, of every audit row: extraction and chase rows hold no identifier; a degraded row if and only if its cut exposes none; a parse-failure row, which carries message and code of the failure, if and only if the stored document it reports on has a path that leads nowhere, a missing file with clean path segments, or content refused with a clean message; an anomaly row if and only if both values, the document's identifier and the variance it shows are clean |
| `MissingFile.MissingFileExposes` | app/graph/nodes/ingest_route.py:82-89 | a history from empty tables: the second message links a path below the application the first answer named, the file is missing, and the row holds the number the link was named by |
| `AuditWitnesses.CutCanExpose` | app/graph/nodes/extract_trace.py:146-161 | a text that is clean as it stands and holds an identifier once cut |
| `AuditWitnesses.DegradationExposes` | app/graph/nodes/extract_trace.py:146-161 | a history from empty tables that stores a degraded row with a social security number in it |
| `AuditWitnesses.AnomalyExposes` | app/graph/nodes/reconcile.py:42-49 | a history from empty tables whose anomaly row shows the stated number |
| `SerialRuns.ChaseTextListed` | app/graph/nodes/chase.py:112-121 | whatever is missing and whatever the channel, the text is one of fifteen |
| `SerialRuns.RunStepSerial` | app/graph/nodes/chase.py:22-80 | every run step keeps the serial invariant: messages distinct, facts capped, runs current, idle applications settled |
| `SerialRuns.StatusFollowsFacts` | app/graph/nodes/chase.py:29-56 | between completed serial runs: manual review exactly when degraded, ready exactly when all required facts are there, pending otherwise |
| `SerialRuns.MessagesBounded` | app/graph/nodes/chase.py:35-44 | over every history of serial runs an application never gets one text twice and gets at most fifteen |
| `SerialRuns.ExportIsComplete` | app/services/los_export.py:18 | an exportable idle application has every required fact and the cap of fifty drops none |
| `Messages.SendRepeats` | app/graph/nodes/chase.py:35-67 | a send keeps all texts distinct if and only if it was found sent already or its text is not among those sent by then |
| `Messages.MessagesExactly` | app/graph/nodes/chase.py:35-67 | over every history, overlapping or not: no application ever holds a text twice if and only if no send was decided before the same text went out |
| `Overtakings.DistinctUnlessOvertaken` | app/graph/nodes/chase.py:35-67 | over every history: no application ever holds a text twice if and only if no run that decided to send a text was overtaken by another send of it before its own |
| `Messages.OverlappingRunsRepeat` | app/graph/nodes/chase.py:35-67 | two overlapping runs that both look before either sends, both send the same text |
| `Messages.RepeatReached` | app/graph/nodes/chase.py:35-67 | that happens in a history from empty tables with two messages |
| `OneOpen.OrderlyStep` | app/services/intake.py:106-121 | every step of an orderly history keeps the one-open invariant |
| `OneOpen.AtMostOneOpen` | app/services/intake.py:106-121 | after every orderly history each borrower has at most one open application |
| `OneOpen.CommitBreaks` | app/services/intake.py:106-121 | committing a staged message leaves one open application each if and only if it does not bring a new one beside an open one |
| `OneOpen.AssignedBreaks` | app/graph/nodes/chase.py:52-56 | writing a status leaves one open application each if and only if it does not reopen a finished one beside another open one |
| `OneOpen.OneOpenExactly` | app/services/intake.py:106-121 | over every history: one open application each throughout if and only if no commit opens a second one and no degradation or chase reopens one |
| `OpenRaces.RaceOpensTwo` | app/services/intake.py:106-121 | two interleaved first requests of one borrower each open an application |
| `OpenRaces.RaceReached` | app/api/routes/webhooks.py:62-69 | that race is reachable from empty tables with two messages |
| `OpenRaces.LateRunReopens` | app/graph/nodes/extract_trace.py:48-62 | a late run that degrades reopens a finished application beside the borrower's new one |
| `OpenRaces.LateRunReached` | app/services/pipeline.py:20-32 | that happens from empty tables although no requests and no runs overlap: the second of two queued runs is late |
| `Rerun.SameTraced` | app/graph/nodes/extract_trace.py:79-102 | validation depends only on the texts by document and the set of chat messages, not on their order |
| `Rerun.RunLeaves` | app/services/pipeline.py:26-32 | status, facts and messages of the application after one run |
| `Rerun.RerunKeepsStatusAndFacts` | app/services/pipeline.py:26-32 | a second run on the same evidence and outcome leaves status and facts as they are |
| `Rerun.RerunMessages` | app/graph/nodes/chase.py:35-44 | the second run sends nothing if and only if it picks the same channel, nothing is missing, or that text had been sent before the first run |
| `Rerun.RerunChangesNothing` | app/services/pipeline.py:26-32 | with distinct timestamps a second run leaves status, facts and messages unchanged |
| `Isolation.OthersErased` | app/services/pipeline.py:20-32 | leaving all steps of other applications out of a history, the steps of a run can still be taken and end with the same side of its application |
| `Isolation.RunIsIsolated` | app/services/pipeline.py:20-32 | from any reachable state, a run taken among any steps of other applications leaves status, documents, facts and messages of its application as the uninterrupted run does |
| `Isolation.RerunAmongOthers` | app/services/pipeline.py:26-32 | a second run, with other applications' steps inside both runs and between them, leaves status, facts and messages unchanged |

## Left out

- The retry loop around the extractor and the mock extractor: an extraction is one outcome, a typed failure or at most fifty entities.
- PDF parsing, OCR, text decoding and base64: partial functions given as parameters, so what their messages quote is not modelled.
- Files that cannot be read for another reason than being missing: a link that resolves to a directory, say, ends the run with an error.
- `los.export` audit rows (`app/api/routes/applications.py`): cut to 4000 characters and redacted only while the redaction setting is on. The statements about audit rows are about those of intake and pipeline.
- Digests, webhook signatures and the hash behind the fallback key: the fallback key is a function of the message; no property needs it to be injective.
- Rate limiting, settings, the HTTP layer, background scheduling (a queued run is an entry in a bag) and log redaction.
- XML construction and delivery of the export: only the status guard and the cap of fifty facts are modelled.
- Audit-trail pagination: rows with equal keys and times have no defined order.
- Files of a request that is refused or loses its race stay on disk: intake steps change tables only, and `FileStore` models the writing on its own.
- A run that stops half-way leaves its application in processing: the machine may stop at any step, but restarts and timeouts are not steps.
- The expiry of cache entries is `LoseEntries`; the stored JSON is the answer itself, a damaged entry is a miss.
- Facts read while another run replaces them: each node reads one state of the tables; mixed reads inside one query are not modelled.
- Booleans, NaN, infinities, rounding of the reported variance, Unicode case rules, column widths and time zones.
- The type check of `redact_pii`: the model's argument is always a string.
- Isolation levels: a session sees committed rows and its own; `IngestInboundMessage` takes what others committed meanwhile as a parameter.
