# DocMind IT: verified model of governance, indexing and retrieval

DocMind IT answers questions over imported documents. A document is parsed into sections and cut into overlapping
windows, the windows are embedded in batches by a worker that may crash at any point, an approver decides whether the
version goes live, and a question is answered from a hybrid search over the live chunks that the caller may read. A
golden question set measures the search and gates publication.

This project models that path in Dafny and proves what it promises over every input, every run and every interleaving.

| Files | What they model |
|---|---|
| `Text`, `Lists`, `TextIndex`, `Terms` | Python string operations, stable sort and filters, the lexical tokenizer, and its terms by their places in the text |
| `Windows`, `Chunker`, `Markdown` | the sliding window, the parent-child chunker, the Markdown sectioner |
| `Governance`, `GovernanceSafety` | the operations on document versions as functions, and what every run of them keeps |
| `Lifecycle` | which status moves exist, which operation makes each, and what an operation leaves alone |
| `Numbering` | what imports create, and how documents and versions are told apart over every run |
| `Links`, `Succession` | links between rows, and when `superseded_by` runs in a circle |
| `Reapproval` | a run that publishes on an approval from before a rejection |
| `JobQueue`, `QueueSafety`, `QueueService` | the ingestion queue as a transition system, what every interleaving keeps, and what it does for submitters, workers and operators |
| `ChunkRows`, `Database` | the stored rows, and the same operations as transactions over mutable tables, each proved to be its function |
| `Worker`, `Recovery` | the worker that claims jobs and carries them out against those tables, and what becomes of a job whose worker died |
| `Executions`, `EmbeddingFailures` | what an execution leaves in the version table, and which failures of the embedding service are tried again |
| `IndexingGraph`, `GraphRunner` | checkpointed indexing, one durable effect per step with crashes between any two, and its runner |
| `Interleaving` | a run of the graph in which another job of the version comes between |
| `Sharing` | the graph with other workers at the same version at the same time, between any two effects |
| `Engines` | the rows that the synchronous and the checkpointed engine store of one document |
| `Retention` | marking, the explicit cleanup of expired documents, and the cascade it stands for |
| `RankFusion`, `Search`, `SearchSafety` | ranks and their fusion, access filtering and the portable search |
| `Access`, `Scoring` | who may read what, and what scores and ranks are, by counting |
| `LexicalFallback`, `CrowdedSearch` | lexical search as a cut of the hybrid search, and a corpus on which the cut loses the best match |
| `Rerank`, `Retrieval` | both rerankers, removal of repeats, demotion of title blocks, the cut |
| `Results`, `Recall` | the order of the results, and what is sure to be among them |
| `Faithfulness`, `Evaluation` | the groundedness score, judging of cases, metrics and the publish gate |
| `Judging` | what a case is judged on, and the figures and the verdict by counting |

Code that updates state is a class or a method with loops; its contract ties it to a function of the state before, and
the lemmas are about that function. Scores are reals; the logarithm is any function that is positive above 1 and the
similarity is any function. Calls to other services are parameters whose every possible answer is covered.

## What the model shows about the code

These are properties that a reader could expect and that do not hold as stated; each has a lemma with the exact
condition, and a concrete input or run.

* Windows whose ends strictly increase need an overlap of at most half the size plus one, no more and no less
  (`Windows.NoNestingIffSmallOverlap`). The configuration admits larger overlaps.
* Approvals survive rejection and re-import. A re-opened version that is not approved again is published without an
  override exactly when its trail held an approval before (`GovernanceSafety.ReopenedPublishesIff`); that approval can
  be its present submitter's own (`Reapproval.OwnApprovalPublishes`).
* `superseded_by` can run in a circle of any length. An operation closes one exactly when it publishes a row from which
  a live row of the document is reached along the links (`Succession.CircleIff`, `Succession.CircleIsReached`).
* An operator's retry re-queues the job and leaves the version. The retried import can succeed exactly when the version
  is queued or processing (`Recovery.RetriedImportCanSucceedIff`): never after a failed execution, which fails the
  version too, but still after a worker that died on the last attempt (`Recovery.RetryAfterAbandonment`).
* A worker that dies between finalize and completion leaves a running import of a version that is staged or live. With
  attempts left it is run again and fails that version, exactly when an execution is reached that is not put off by an
  unreadable source or is the last allowed; with none left the version stays (`Recovery.InterruptedImportFailsIff`). A
  reindex in the same place repairs itself (`Recovery.InterruptedReindexRepairs`).
* Checkpoints belong to a job and rows to a version. A job that resumes after another job of the version has prepared
  can publish a version with rows missing (`Interleaving.OtherPrepareLosesRows`); the result is exact exactly when this
  job's chunk count is that of the staged file and what it had written has been written again
  (`IndexingGraph.FinalizeIsExactIff`). Finalize does not look, but counting the version's rows would tell
  (`IndexingGraph.FinalizeIsExactByCount`), also with other workers at it at the same time
  (`Sharing.SharedExactIff`).
* The graph's prepare node checks the version's status when it marks the version and not when it clears the rows. A
  refused node leaves the version as it was (`IndexingGraph.RefusedEffectsLeaveVersion`), but a version that another
  job puts live between mark and clear is live without rows (`IndexingGraph.ClearingALiveVersion`).
* The two indexing engines store the same rows exactly for a document chunked without parents and without title blocks:
  the checkpointed one drops the parent text and the title flag, which retrieval then misses (`Engines.EnginesAgreeIff`).
* The SQLite claim rechecks the status and not the time. The backoff of a job is kept exactly when its first claim
  finds it due (`QueueSafety.BackoffKeptIff`), and an interleaving breaks it (`QueueSafety.SplitClaimIgnoresBackoff`).
* A failure report is checked against neither owner nor status (`QueueSafety.FailureReportKeepsIff`). A worker that was
  taken for dead can so put a job back that another worker has finished (`QueueSafety.FinishedJobRunsAgain`), and when
  its chunks are refused because the other worker put the version live, its report fails both
  (`Recovery.SlowWorkerFailsLiveVersion`). A live version survives a report exactly when the failure is retryable and
  the job has attempts left (`Recovery.LateReportFailsLiveVersionIff`); a finished job stays finished exactly until it
  is reported, retried or submitted again (`QueueSafety.SucceededStaysIff`).
* Lexical search on SQLite is a cut of the hybrid search in which the row number counts as much as the match. It returns
  the best matches exactly when fewer matches than the cut is wide are preferred to each of them
  (`LexicalFallback.FallbackIsExactIff`), always so with at most max(4 * limit, 20) matches; with 60 it can lose the best
  one (`CrowdedSearch.BestMatchIsLost`).
* The explicit purge equals the cascade exactly when jobs name the document of their version, and the preview equals the
  purge exactly when there is a grace period or nothing to mark (`Retention.PurgeIsCascadeIff`,
  `Retention.PreviewMatchesPurgeIff`).
* The gate never looks at the version it gates, unless that version is live already
  (`Evaluation.GateNeverSeesItsVersion`).
* The gate ignores refusals: what is answered to the questions that should be refused never changes a verdict
  (`Evaluation.GateIgnoresRefusals`), so a golden set of refusal cases always passes. Offline faithfulness is 1 except
  for a context without any term (`Evaluation.OfflineFaithfulness`), and it rounds up to 1 from one unsupported claim in
  20000 (`Faithfulness.PerfectScoreIff`).

Separation of duties compares the whole actor id with a stored id cut to 64 characters
(`GovernanceSafety.SeparationComparesWholeIds`), so the approval results assume ids that fit. They always do: an actor
that comes in through the admin pages is a digest of exactly 64 characters (backend/auth.py:228-232), and the command
line submits as `cli`.

## Model

| member | source | states |
|---|---|---|
| Text.WhiteSpaceIs | ingestion/chunker.py:81 | The characters that `strip` removes and at which `splitlines` breaks, one by one |
| TextIndex.LatinRunsInOrder | backend/text_index.py:7-16 | The Latin terms of a text are its maximal runs of two or more of `[a-z0-9_-]`: all of them, left to right, once for each place |
| TextIndex.CjkPairsInOrder | backend/text_index.py:7-16 | The CJK terms are the pairs of neighbouring CJK characters, overlaps included: all of them, left to right, once for each place |
| TextIndex.SearchTextSplitsBack | backend/text_index.py:19-20 | Splitting the stored search text gives back the term list, order and multiplicity included |
| TextIndex.NormalizationIsIdempotent | backend/text_index.py:7-20 | Indexing an already normalised text changes nothing |
| Terms.TermsOfText | backend/text_index.py:7-16 | The terms of a text, by their places in the text itself: first its runs of two or more letters, digits, underscores and hyphens, lower-cased, then its pairs of neighbouring characters from U+4E00 to U+9FFF, each in order and each place once |
| Windows.WindowEnd | ingestion/chunker.py:38-43 | A window is never empty, never longer than its size and never past the text |
| Windows.SplitWindows | ingestion/chunker.py:27-50 | The loop returns the specified windows for every text and overlap, and refuses a size that is not positive |
| Windows.SpansTile | ingestion/chunker.py:27-50 | Raw windows start at 0, leave no gap, end at the text's end, have length 1..size, strictly increasing starts, ends that never go back, cuts at sentence ends where one is in reach, and share the overlap |
| Windows.StopsEndWindows | ingestion/chunker.py:38-43 | A window short of the text's end stops after the last line break or ideographic full stop in the second half of its reach, and at full size when there is none, for every overlap |
| Windows.NoNestingIffSmallOverlap | ingestion/chunker.py:27-50 | Ends strictly increase on every text exactly when overlap <= size / 2 + 1 |
| Windows.NestedWindow | ingestion/chunker.py:27-50 | For every larger overlap, a text on which a window lies inside its predecessor |
| Windows.WindowsAreSpans | ingestion/chunker.py:44-46 | The returned windows are exactly the raw windows that are not blank, stripped, none longer than the size |
| Windows.InkIsCovered | ingestion/chunker.py:27-50 | Every non-space character lies in a returned window |
| Windows.NegativeOverlapLeavesGaps | ingestion/chunker.py:27-50 | With a negative overlap the windows can miss a character, so the lower bound is needed |
| Chunker.FindParent | ingestion/chunker.py:98-111 | The search for a child's parent: first window around its start, else the largest overlap, else the child |
| Chunker.ParentIsFirstContaining | ingestion/chunker.py:98-104 | The first parent window in which a child starts gives its parent text |
| Chunker.ParentIsBestOverlap | ingestion/chunker.py:105-109 | If it starts in none, the first of those that share most characters with it does |
| Chunker.DefaultChildOverlap | ingestion/chunker.py:91-95 | Unless configured, children overlap by a quarter of their size, rounded down, and never more than parents |
| Chunker.NormalizedLines | ingestion/chunker.py:81 | The lines of a normalised section are its stripped lines that are not blank, and normalising again keeps them |
| Chunker.ChunksAreNumbered | ingestion/chunker.py:52-119 | Chunks are numbered from 0; each has the page and the first 512 characters of the heading of one of the sections, and is a title block exactly when it is at most 8 characters longer than that heading; nothing is returned exactly when no section has text or a size is not positive |
| Chunker.ChunkDocument | ingestion/chunker.py:69-119 | The nested loops give every section's pieces in document order, numbered from 0, or the specified error |
| Chunker.PiecesIffText | ingestion/chunker.py:79-97 | A section yields a chunk exactly when it has text |
| Chunker.DocumentOrder | ingestion/chunker.py:79-119 | Chunks of two runs of sections are those of the first followed by those of the second, ordinals 0..n-1 |
| Chunker.TextIsCovered | ingestion/chunker.py:79-119 | Every non-space character of every section appears, among its neighbours, in a chunk with that section's heading (cut to 512) and page |
| Chunker.ChildHasParent | ingestion/chunker.py:98-111 | Although blank windows are dropped, some kept parent window overlaps the child, and its content is the link |
| Chunker.ParentLinkIsReal | ingestion/chunker.py:84-119 | Every chunk is cut from a window of one section and fits it; its parent text is a parent window of that section sharing a character with it, so the fallback to the child is unreachable |
| Markdown.ParseMarkdown | ingestion/parsers.py:57-71 | The line loop yields the specified sections for every text |
| Markdown.ParseDocument | ingestion/parsers.py:40-54 | The whole of parsing for Markdown and plain text: sections, the filter of blank ones, and both refusals |
| Markdown.HeadingSays | ingestion/parsers.py:62-66 | One to six hashes, white space and at least one more character make a heading, whose text is all that follows the hashes, stripped |
| Markdown.HeadingIff | ingestion/parsers.py:62 | And nothing else does |
| Markdown.SectionHasItsLines | ingestion/parsers.py:64-71 | A section has its heading and a stripped text, and the lines of that text are those of its block when these are trimmed and not empty |
| Markdown.TooLongIff | ingestion/parsers.py:48-52 | A file with text is refused exactly when the texts of its sections that are not blank are longer, taken together, than allowed |
| Markdown.ParsingKeepsInk | ingestion/parsers.py:40-71 | The sections hold exactly the non-space characters of the body, in order: parsing loses, doubles and moves nothing but headings and white space, and a file is refused as empty exactly when its body is blank |
| Markdown.BlockIsSection | ingestion/parsers.py:57-71 | Each block of lines between two headings is one section under the nearest heading above it |
| Markdown.MarkdownIsCovered | ingestion/parsers.py:57-71 | From file to chunks: each non-space character of each non-heading line appears in order in a chunk whose heading is the nearest preceding heading, cut to 512 |
| Database.QueryDatabase.BeginDocumentImport | backend/database.py:356-462 | Creates, reopens or leaves a version; refuses to change scope or lower classification; a refusal changes no row |
| Numbering.ImportIsNumbered | backend/database.py:408-462 | Content the document lacks adds one queued row numbered one above the document's largest number, 1 if there is none; content it has adds none, and re-opens the row exactly if it is rejected, withdrawn, superseded or failed |
| Numbering.ImportWrites | backend/database.py:408-462 | What an import writes: a new row holds its content and one trail row; a re-opened one keeps trail, chunks and dates of publication, and loses error, withdrawal and former submitter |
| Numbering.ImportedDocument | backend/database.py:371-406 | A new document gets the scope and classification asked for, public and internal if none is; an existing one keeps its scope, and its classification changes only to the one asked for |
| Numbering.ImportRefusedIff | backend/database.py:356-406 | An import is refused exactly for an unknown classification, a changed scope or a lowered classification |
| Numbering.RunsStayNamed | backend/database.py:356-691 | Over every run: documents have different keys, and versions of one document different numbers, from 1 on, and different contents |
| Numbering.NamesFindTheirVersion | backend/database.py:437-442 | So in every reachable store a version is found by its document and number, and by its document and content |
| Numbering.KeysFindTheirDocument | backend/database.py:371-375 | And a document by its key |
| Database.QueryDatabase.FinalizeDocumentVersion | backend/database.py:552-591 | Stages or publishes an indexable version, superseding the document's other live rows |
| Database.QueryDatabase.SupersedeOthers | backend/database.py:570-582 | The loop supersedes every other live row of the document and no other row |
| Database.QueryDatabase.PersistDocumentChunks | backend/database.py:464-496 | Replaces all rows of the version by one per chunk and vector, keyed by its number, or refuses and changes nothing |
| ChunkRows.StoredPiece | backend/database.py:464-496 | What is stored of each chunk: text, page, parent text, title flag and vector as they are, the first 512 characters of the heading, and a search text that splits into the terms of heading and text |
| Database.QueryDatabase.PublishDocumentVersion | backend/database.py:1145-1190 | Publication needs an approval in the trail or an override; a bypassed gate leaves its own row |
| Database.QueryDatabase.RollbackDocumentVersion | backend/database.py:1211-1242 | A superseded or withdrawn version goes live again and the live one steps down |
| Database.QueryDatabase.ReviewDocumentVersion | backend/database.py:1109-1143 | One decision on one staged version, or a refusal that changes nothing |
| Lifecycle.StepMoves | backend/database.py:356-691 | Every status change is one of the listed moves, made by an operation that may make it; a row the operation is not about stays as it is, unless it was live and the target supersedes it |
| Lifecycle.EveryMoveExists | backend/database.py:552-689 | Each listed move is made by some operation on some store |
| Lifecycle.WorkersLeaveGovernanceAlone | backend/database.py:552-689 | Taking up, resetting, reindexing, failing and staging leave trail, submitter, publication and links of every row |
| Lifecycle.ReviewIsRecorded | backend/database.py:1109-1143 | A decision is accepted exactly for a staged version, a known decision, a reason if it rejects, and no self-review without an override; then it adds one row that records it |
| Lifecycle.AcceptedIff | backend/database.py:552-1242 | When each of the other operations is accepted, status by status |
| Lifecycle.FinalizeIsRecorded | backend/database.py:552-591 | Finalize records the chunk count it is given, clears the error and, if it publishes, says when and by whom, and adds the one trail row that says so |
| Lifecycle.WorkerMovesAreRecorded | backend/database.py:593-691 | What taking up, resetting, reindexing and failing write, field by field |
| Lifecycle.MoveIsRecorded | backend/database.py:1145-1242 | What publication, withdrawal and rollback write, and the trail rows they add |
| Lifecycle.OthersStepDown | backend/database.py:570-582 | Whenever a version goes live the document's other live versions are superseded and point to it, and no other row changes |
| Lifecycle.RecordedIsWritten | backend/database.py:299-314 | An actor is written as its first 64 characters, and a missing one as `system` |
| GovernanceSafety.GoLiveKeeps | backend/database.py:570-591 | Putting one version live keeps the single live version and every row's explanation |
| GovernanceSafety.StepKeepsGoverned | backend/database.py:356-691 | Every operation keeps the invariant stated below |
| GovernanceSafety.RunsStayGoverned | backend/database.py:1109-1242 | Over every run: one live version a document; the last trail row explains live, superseded, withdrawn and rejected; the superseding version is another, once published, version of the document; whatever was live has its dates |
| GovernanceSafety.StepEvolves | backend/database.py:299-314 | Trails only grow; a version becomes live only with a publish or rollback row for exactly that transition, and is superseded only from live |
| GovernanceSafety.PublishedMeansAccountable | backend/database.py:1109-1242 | With separation of duties, every version ever published was approved by someone other than its submitter at the time, approved with an override on record, or published directly by an override |
| GovernanceSafety.ReviewModeIsSafe | backend/database.py:316-329 | In review mode nothing is ever live, through rollback too, without such an approval or an override of it on record; bypassing the quality gate does not count as one |
| GovernanceSafety.SeparationComparesWholeIds | backend/database.py:316-329 | Why ids must fit the column, as all in use do: an unflagged approval names the submitter exactly when the id is longer than 64 characters and agrees on those 64 |
| GovernanceSafety.ApprovalsNeverExpire | backend/database.py:1153-1161 | Once approved, a row counts as approved after every run |
| GovernanceSafety.ReopenedPublishesIff | backend/database.py:1153-1161 | Over every run after a re-import without a new approval: once staged, the version is published without an override exactly when its trail held an approval before the re-import |
| Reapproval.OwnApprovalPublishes | backend/database.py:1109-1190 | A run in review mode with separation of duties: submit, approve, reject, re-import by the approver, stage, publish; the only approver of the live version is its submitter |
| Links.RedirectAcyclicIff | backend/database.py:570-582 | Pointing a set of rows at one row keeps the links free of circles exactly when no row of the set is reached from that row |
| Succession.CircleIff | backend/database.py:552-591 | From links without a circle, an operation makes one exactly when it publishes a row, out of indexing or of review, from which a live row of its document is reached; a rollback makes none |
| Succession.RunsStayAcyclic | backend/database.py:1145-1242 | Hence no run makes a circle in which no step meets that condition |
| Succession.CircleIsReached | backend/database.py:570-591 | A run from the empty store that ends with three versions superseding each other in a circle, closed by a row that did not name the live one |
| GovernanceSafety.StepNeverWidensAccess | backend/database.py:375-405 | No operation changes the scope of an existing document or lowers its classification |
| GovernanceSafety.RunsNeverWidenAccess | backend/database.py:375-405 | Nor does any run |
| Database.QueryDatabase.ClaimIngestionJob | backend/database.py:772-798 | The atomic claim takes the due candidate of least priority, then least id |
| Database.QueryDatabase.ReclaimStaleIngestionJobs | backend/database.py:899-921 | The loop frees exactly the stale running jobs |
| Database.QueryDatabase.EnqueueIngestionJob | backend/database.py:717-770 | The transaction behind a submission |
| Database.QueryDatabase.RetryIngestionJob | backend/database.py:971-989 | An operator's retry, or a refusal that changes nothing |
| Database.QueryDatabase.CancelIngestionJob | backend/database.py:991-1005 | An operator's cancellation, or a refusal that changes nothing |
| JobQueue.Candidate | backend/database.py:782-798 | The selected row is claimable, comes before every other claimable row, and is missing only if there is none |
| QueueService.NewSubmission | backend/database.py:717-770 | The first submission of a version for a kind of job adds one row with its kind, document, version, payload, priority, limit and submitter, waiting and due at once, and touches no other |
| QueueService.RepeatedSubmission | backend/database.py:735-758 | A later one is refused exactly while that row runs; otherwise it starts the row over with the new payload and limit, keeping document and priority |
| QueueService.ClaimTakesTheFirst | backend/database.py:772-798 | A claim takes the due row of least priority number, then least id, marks it with worker, time and one more attempt, and changes no other; it comes back empty exactly when no row waits, is due and has attempts left |
| QueueService.CompletionFinishesIff | backend/database.py:851-866 | A completion finishes the job exactly when it is in the owner's name, and otherwise changes nothing |
| QueueService.SweepTakesIff | backend/database.py:899-921 | A sweep takes a running job away exactly when its last beat is more than max(30, timeout) seconds old, and then it waits with an attempt left and fails without |
| QueueService.BeatingKeepsTheJob | backend/database.py:837-921 | Over every run: a worker whose beats are never too old at a sweep still runs the same attempt, whatever other workers and operators do, short of reporting the job's end in its name or its failure |
| QueueService.DelayDoubles | backend/database.py:883-893 | The first retry waits 30 seconds and each later one twice as long, up to the cap |
| QueueService.FailureIsRecorded | backend/database.py:868-897 | What a failure report writes, with attempts left and without |
| QueueService.OperatorsMayIff | backend/database.py:971-1005 | A job can be retried exactly when it has ended and cancelled exactly when it waits, and what each writes |
| QueueSafety.StepMoves | backend/database.py:717-1005 | Every status change of a job is one of the listed moves, by an operation that may make it, and only the row the operation is about changes, or the stale ones of a reclaim |
| QueueSafety.FailureReportKeepsIff | backend/database.py:868-897 | A failure report leaves the status of a row exactly when it has failed and is not to be retried, or waits and is to be retried |
| QueueSafety.LateReports | backend/database.py:837-897 | A worker that does not hold the job, whatever the job's status, changes nothing by a heartbeat or a completion, and by a failure report moves it unless it already is where the report would put it |
| QueueSafety.SucceededStaysIff | backend/database.py:717-1005 | A job that succeeded stays so exactly under every operation other than a failure report of it, its retry and a submission that finds its row |
| QueueSafety.FinishedJobRunsAgain | backend/database.py:868-921 | A run: worker a is taken for dead, b completes the job, a reports a failure, and the job waits again |
| QueueSafety.StepKeepsQueue | backend/database.py:717-921 | Every step keeps the queue invariant, and ownership is only taken by a claim and never passed on |
| QueueSafety.RunsKeepQueue | backend/database.py:717-1005 | In every reachable state, split claims included: queued jobs have attempts left, running holds exactly when there is an owner, a running job has a heartbeat, attempts stay within the limit |
| QueueSafety.RunsKeepOneRow | backend/database.py:717-770 | Over every run there is at most one row for each kind and version, however often it is submitted |
| QueueSafety.RetriedIsClaimableIff | backend/database.py:717-989 | An operator's retry is claimable exactly when the job was due already, as it keeps next_attempt_at; a submission is claimable at once |
| QueueSafety.OneWinnerPerCandidate | backend/database.py:800-835 | Of two workers with the same candidate, the second update takes nothing |
| QueueSafety.ClaimsAreBounded | backend/database.py:772-921 | Without new submissions the claims of a run equal the attempts used, so they never exceed those left at the start |
| QueueSafety.DelaysGrow | backend/database.py:883-893 | Delays never decrease with attempts and never exceed the cap |
| QueueSafety.BackoffIsKept | backend/database.py:782-798 | With a monotone clock, the claim after the k-th failed one comes no sooner than min(cap, 30 * 2^(k-1)) seconds later, over every run without an operator's re-queue in which that claim finds the job due; the atomic claim always does |
| QueueSafety.BackoffKeptIff | backend/database.py:800-835 | And, split claims included, the backoff is kept exactly when that claim finds the job due, if no late report postpones the job further |
| QueueSafety.ReclaimedIsDueAtOnce | backend/database.py:899-921 | A reclaimed job with attempts left is claimable at once, though reclaim keeps next_attempt_at |
| QueueSafety.SplitClaimIgnoresBackoff | backend/database.py:800-835 | A concrete interleaving in which the SQLite claim takes a job before it is due |
| Worker.IngestionWorker.ProcessVersion | ingestion/service.py:202-238 | Mark, embed, persist the rows and finalize what parsing returned: the verdict, the status it leaves, the stored rows (those of the pieces and vectors, or the old ones), and that governance holds |
| Worker.IngestionWorker.Store | backend/database.py:593-603 | Whatever became of the version since it was taken up: persists every chunk and finalizes with their number, or refuses a count that does not fit or a version not to be indexed, and then changes nothing |
| Worker.IngestionWorker.RecordFailure | worker/runner.py:223-269 | The job waits or fails by its attempts, and only an indexing job takes its version along; the row says when, why and until when |
| Worker.IngestionWorker.ExecuteIndexing | worker/runner.py:141-221 | How job and version end, for every kind, status, number of attempts and world: the whole version table, the job's row and the stored chunks |
| Executions.OtherVersionsAreLeft | worker/runner.py:141-221 | An indexing job leaves every other version as it was, except that publication supersedes the document's other live ones |
| Executions.OwnVersionIsRecorded | worker/runner.py:141-269 | Its own version gets the number of chunks stored and no error, or keeps its chunk count and trail; a final failure leaves its code |
| EmbeddingFailures.RetryableIffTransient | ingestion/service.py:16-26 | The classification for every code: timeout, unavailable, or `embedding_http_` with a number behind the last underscore, read as `int` reads it, that is 429 or at least 500 |
| EmbeddingFailures.HttpStatusIsTransientIff | ingestion/service.py:16-26 | Of the codes that the client builds, `embedding_http_` and a status in decimal digits, exactly 429 and the statuses from 500 on |
| EmbeddingFailures.FailedCallEnds | worker/runner.py:141-243 | An embedding call that fails with such a code, with attempts left, puts job and version back in the queue; otherwise both fail on that attempt |
| EmbeddingFailures.OtherwiseEnds | worker/runner.py:141-243 | How every other execution for a version that can be indexed ends: missing or unreadable source, failed parse, crash, counts that do not fit, or success |
| EmbeddingFailures.FailureSaysWhy | worker/runner.py:141-221 | The code that each failure carries |
| Worker.JobAndVersionAgreeIff | worker/runner.py:141-269 | They tell the same story exactly except for a retryable import failure of a version that was not queued, processing or failed |
| Worker.IngestionWorker.ExecuteEvaluate | worker/runner.py:271-323 | An evaluation never touches a version and succeeds exactly under the stated conditions |
| Executions.EvaluationSucceedsIff | worker/runner.py:271-323 | Exactly with a version, a trigger that is one of the three or missing, and a run that is stored; only a crash is retried |
| Worker.IngestionWorker.ExecuteWithdraw | worker/runner.py:325-361 | The withdrawal happens or nothing does, and the job says which |
| Executions.WithdrawJobEnds | worker/runner.py:325-361 | In a store whose versions have different numbers, exactly a live version with a reason that is not blank is withdrawn; its row says when and why, the trail who, and no other row changes |
| Worker.IngestionWorker.TakeJob | worker/runner.py:81-92 | Reclaims what others abandoned and claims the first job then due, at the cost of one attempt, or leaves nothing claimable |
| Worker.IngestionWorker.Execute | worker/runner.py:113-221 | A job of any kind ends in exactly one way: its row, the whole version table and the chunk rows, for every state and world; a job that is not indexing stores nothing |
| Worker.IngestionWorker.RunOnce | worker/runner.py:81-99 | Reclaim, claim, carry out: both invariants hold, one attempt is spent, the claimed job and its version end as its kind, attempts and world say, and nothing claimable is left when nothing is done; exactly: jobs, versions and chunks are those of the claim and of the job carried out, and nothing else changes |
| Worker.IngestionWorker.Drain | worker/runner.py:101-111 | The loop ends after at most the attempts left, and then every waiting job is one that is not due |
| Worker.ImportSucceedsIff | ingestion/service.py:202-238 | An import succeeds exactly when its version is indexable and everything outside works |
| Recovery.ReclaimGivesBackIff | backend/database.py:899-921 | A stale job goes back exactly with an attempt left, and on its last one fails and is not claimed; its version is not touched |
| Recovery.RetriedImportCanSucceedIff | backend/database.py:971-989 | A job retried by an operator can succeed, in some world, exactly when its version is queued or processing |
| Recovery.RetryAfterFailedExecution | worker/runner.py:223-269 | An execution that fails its job fails the version too, and then a retried import fails in every world |
| Recovery.RetryAfterAbandonment | backend/database.py:899-989 | A job abandoned on its last attempt fails by reclaim with its version still in work, and its retry brings the version in |
| Recovery.InterruptedImportFailsIff | worker/runner.py:141-221 | After a crash between finalize and completion, over every sequence of executions: the version is failed exactly when one is reached that is not put off by an unreadable source or is the last allowed |
| Recovery.InterruptedImportFailsInTheEnd | worker/runner.py:81-221 | With at least one attempt left and as many executions to come as attempts, the version does not survive |
| Recovery.InterruptedImportIsRerun | worker/runner.py:81-99 | The same as one chain of reclaim, claim and execution: it happens only with an attempt left, and gives the outcome that RunOnce promises |
| Recovery.FailingTheLiveVersion | backend/database.py:607-612 | Failing a live version leaves its document without one |
| Recovery.InterruptedReindexRepairs | worker/runner.py:141-221 | A reindex interrupted in the same place ends as it would from a queued version |
| Recovery.ReportKeepsVersionIff | worker/runner.py:223-243 | A failure report on an indexing job leaves its version's status exactly when the job goes back and the version is neither processing nor failed, or the job fails and the version has failed already; other versions stay |
| Recovery.LateReportFailsLiveVersionIff | worker/runner.py:223-243 | For every job, in any status and held by anyone: its live version survives a report exactly when the failure is retryable and attempts are left; otherwise the document has no live version |
| Recovery.SlowWorkerFailsLiveVersion | worker/runner.py:141-243 | A run from nothing: the second worker puts the version live and completes, the first one's chunks are refused, and its report fails both the finished job and the live version |
| IndexingGraph.StepKeepsGraph | worker/graph.py:78-164 | Every effect, crash, lost file and outside status change keeps checkpoint, staging, rows and call count consistent |
| IndexingGraph.FinalizeIsExactIff | worker/graph.py:78-164 | After any history at all, other jobs of the version preparing and writing in between included: the result is exact exactly when this job counted the chunks that are staged and every row it had written and lost was written again |
| IndexingGraph.FinalizeIsExactByCount | worker/graph.py:134-145 | The same as a check before finalize: after any history at all, the result is exact exactly when the version has as many rows as this job counted chunks and as many as are staged |
| IndexingGraph.OwnRunsAreAlone | worker/graph.py:246-268 | A run in which no other job clears the rows meets the condition of FinalizeIsExact |
| IndexingGraph.FinalizeIsExact | worker/graph.py:78-164 | After any history in which no other job of the version has cleared its rows since this job's prepare: when finalize takes effect the rows are exactly the staged chunks, 0..n-1 once each, chunk_count is n, and embed calls are at least the batches and at most those plus the interruptions |
| IndexingGraph.RowsDependOnlyOnChunks | worker/graph.py:78-164 | With a deterministic embedding service, a result is exact exactly when its rows are each chunk's text with its own vector, the same after every history of crashes, lost files, failed calls and other jobs |
| IndexingGraph.ExactRowsAreTheChunks | backend/database.py:498-534 | An exact result has one row for each chunk, with its text, its page and the first 512 characters of its heading, and a chunk_count of that many |
| IndexingGraph.RefusedEffectsLeaveVersion | worker/graph.py:86-145 | While a version is neither queued nor processing, every effect of the job leaves its rows, count and status, with the one exception of a clearing that follows a mark |
| IndexingGraph.RefusedRunsLeaveVersion | worker/graph.py:86-145 | So does every run of such effects |
| IndexingGraph.ClearingALiveVersion | worker/graph.py:86-90 | The exception is real: clearing looks at no status, so a version put live between mark and clear is live without rows |
| IndexingGraph.StartAfterCrash | worker/graph.py:268-295 | A crash and a new start lose nothing that was saved: with checkpoint and staging file the job goes on at the same node and batch, if the version may be indexed, and without either it starts over at prepare |
| Interleaving.OtherPrepareLosesRows | worker/graph.py:246-268 | A run: an import stops after one of two batches, a reindex prepares and stops, the import resumes from its checkpoint and publishes one row for a chunk_count of two |
| Sharing.SharedExactIff | worker/graph.py:78-164 | With other workers clearing, staging and writing the same version between any two effects: when finalize takes effect chunk_count is the number of chunks, and the result is exact exactly when there are as many rows |
| Sharing.OnlyClearingLosesRows | worker/graph.py:78-164 | And it is exact if nobody else clears the rows after a moment at which none were missing |
| IndexingGraph.EachRoundAdvances | worker/graph.py:114-152 | Each round brings the cursor one closer to the total and routes to finalize exactly at the end |
| GraphRunner.ChunkedDocumentsCanBeStaged | worker/graph.py:78-104 | What the chunker returns meets what the graph needs: not empty, ordinals in order |
| GraphRunner.PrepareIsItsSteps | worker/graph.py:78-112 | The uninterrupted prepare node is its effects in order |
| GraphRunner.RefusedNodesLeaveVersion | worker/graph.py:78-145 | A node that is refused because the version is neither queued nor processing leaves rows, count, status and staging file |
| GraphRunner.EmbedIsItsSteps | worker/graph.py:114-132 | So is one round of embed_batch |
| GraphRunner.FinalizeIsItsSteps | worker/graph.py:134-145 | So is finalize, and the rows it leaves are exact |
| GraphRunner.IndexingGraphRunner.ReplaceDocumentChunkBatch | backend/database.py:498-534 | Delete-then-insert of a batch overwrites exactly its ordinals |
| GraphRunner.IndexingGraphRunner.EmbedAll | worker/graph.py:114-152 | The loop embeds only the batches still missing |
| GraphRunner.IndexingGraphRunner.Run | worker/graph.py:258-307 | From any state crashes can leave, unless another job cleared the rows since this one's prepare, a run that nothing interrupts finishes exactly, resuming without re-embedding what was written; for a version that is neither queued nor processing it changes neither rows, count, status nor staging file |
| Engines.RowsAgreeIff | worker/graph.py:91-103 | Row by row the engines differ in parent text and title flag and in nothing else |
| Engines.ParentTextIffLinked | ingestion/chunker.py:83-118 | A chunk carries a parent text exactly in the parent-child layout |
| Engines.EnginesAgreeIff | worker/graph.py:91-103 | The engines store the same table exactly when the layout has no parents and no chunk is a title block |
| Engines.VectorsAreOfHeadingAndText | ingestion/service.py:219-223 | Both engines store the vector of heading and text together |
| Retention.RetentionStore.Purge | backend/database.py:2726-2753 | Marks and deletes exactly what the policy and the stage say, and reports the counts |
| Retention.RetentionStore.PurgeExpiredDocuments | backend/database.py:2755-2833 | The per-document loop removes exactly the expired documents and their dependents |
| Retention.RetentionStore.Preview | backend/database.py:2699-2724 | Counts the documents, and those due to be marked and to be deleted, and changes nothing |
| Retention.PurgeIsCascadeIff | backend/database.py:2755-2833 | The explicit cleanup equals the ON DELETE CASCADE closure exactly when jobs name the document of their version |
| Retention.PurgeOneMore | backend/database.py:2755-2833 | Purging documents one at a time, in any order, equals purging them together |
| Retention.PurgeIsIdempotent | backend/database.py:2726-2753 | A second purge at the same instant changes nothing |
| Retention.PreviewMatchesPurgeIff | backend/database.py:2699-2753 | The preview announces the deletions exactly when there is a grace period or nothing to mark |
| Retention.DeletedDocumentsWereOld | backend/database.py:2726-2753 | Over every history, a deleted document is at least retention plus grace old |
| Retention.DatesAreKept | backend/database.py:2726-2753 | While a document exists, imports into it and purges keep its creation date and its mark, and only a purge marks, with its own time |
| Retention.SoftStageMarksIff | backend/database.py:2726-2750 | The soft stage marks a document exactly when it is its retention old, in days of 86400 seconds and at least one, and changes nothing else |
| Retention.HardStageDeletesIff | backend/database.py:2750-2753 | The hard stage deletes a marked document exactly when its grace has passed since the mark |
| Retention.OutlivedDocumentsGo | backend/database.py:2726-2753 | So a document that has outlived its retention at a soft stage is gone at any hard stage its grace later |
| RankFusion.RanksAreABijection | backend/database.py:1841-1850 | Ranks are a bijection onto 1..n |
| RankFusion.RankOrder | backend/database.py:1841-1850 | A smaller rank means a larger score, or the same score in an earlier row, and conversely |
| RankFusion.PositiveRanksAreAPrefix | backend/database.py:1841-1845 | The ranks of positive scores are exactly 1..p |
| RankFusion.FusedIsBounded | backend/database.py:1851-1859 | Every fused score lies in (0, 2/61] |
| RankFusion.FusionIsMonotone | backend/database.py:1851-1859 | A row at least as good in both rankings never scores below the other |
| RankFusion.LexicalTopBeatsNonMatches | backend/database.py:1851-1859 | The best lexical match beats every row with no lexical rank |
| Scoring.ScoreIsBm25 | backend/database.py:1817-1837 | The lexical score is the sum of the BM25 weights of the question's terms, with k1 = 1.2, b = 0.75 and frequencies counted in the readable rows |
| Scoring.RankIsCount | backend/database.py:1841-1850 | A rank is one more than the number of rows with a larger score, or the same in an earlier row |
| Scoring.HitsSayWhy | backend/database.py:1851-1868 | Every hit carries the similarity, the two ranks and the sum of 1/(60 + rank) of its own row among the readable rows |
| Search.FilterRows | backend/database.py:1788-1816 | The access filter keeps exactly the readable rows, in order |
| Search.ScoreRows | backend/database.py:1819-1840 | The scoring loops compute the specified scores from the readable rows alone |
| Search.PortableHybridSearch | backend/database.py:1788-1870 | The whole search is a function of the readable rows |
| LexicalFallback.FallbackIsExactIff | backend/database.py:1704-1709 | As every chunk has similarity 0 to the zero vector, lexical search on SQLite returns the `limit` best lexical matches in order exactly when, for each of them, fewer than max(4 * limit, 20) matches have a larger 1/(60 + lexical rank) + 1/(60 + row number), or the same in an earlier row |
| LexicalFallback.FewMatchesAreExact | backend/database.py:1704-1709 | So it does whenever there are at most max(4 * limit, 20) matches |
| CrowdedSearch.BestMatchIsLost | backend/database.py:1704-1709 | Of 60 matching chunks the last is the best match, and the five results do not include it |
| SearchSafety.HitsAreVisible | backend/database.py:1788-1888 | Every hit is a chunk of an indexed version of a document this caller may read |
| Access.VisibleIff | backend/database.py:1872-1888 | A row is readable exactly when it is indexed, its classification is public or internal or the caller may read confidential ones, and its scope is public or it has an access entry for the caller's lower-cased subject, a lower-cased role, a group or a department |
| Access.NoEntryNoAccess | backend/database.py:1872-1888 | A document that is not public is hidden from everyone without an entry |
| Access.KindsAreApart | backend/database.py:1872-1888 | An entry grants nothing to a principal of another kind with the same name |
| Access.EachKindSuffices | backend/database.py:1872-1888 | An entry of any one kind is enough |
| Access.ResultsAreGranted | backend/retrieval.py:38-97 | Every result of a retrieval is cleared for the caller, and public or granted |
| SearchSafety.HiddenRowsAreInvisible | backend/database.py:1872-1888 | Rows the caller may not read, inserted anywhere, and access entries for others, change nothing it can see |
| SearchSafety.AccessOnlyAdds | backend/database.py:1872-1888 | More roles, groups, departments, access entries or clearance only add: what was readable is what the smaller identity picks from the larger view, nothing lost or moved |
| SearchSafety.NothingReplacesClearance | backend/database.py:1872-1888 | Without clearance only open documents are readable, whatever the entries |
| SearchSafety.MatchesIffSharedTerm | backend/database.py:1819-1840 | A stored chunk matches lexically exactly when its heading or content shares a term with the question |
| SearchSafety.HitsAreRanked | backend/database.py:1851-1870 | Hits come best first, at most `limit` of them, with scores in (0, 2/61] |
| Rerank.RerankLexically | backend/rerank.py:53-108 | The counting, scoring and sorting loops give the specified order |
| Rerank.RerankReorders | backend/rerank.py:53-152 | In every mode, whatever the service answers, the result is a permutation of the candidates |
| Rerank.LexicalRerankIsStable | backend/rerank.py:87-100 | More relevant first, equally relevant in their order |
| Rerank.SumIgnoresOrder | backend/rerank.py:90-98 | The score does not depend on the order in which the set of terms is visited |
| Rerank.RelevantIffSharedTerm | backend/rerank.py:87-99 | A candidate has a positive score exactly when it shares a term with the question |
| Rerank.MatchesComeFirst | backend/rerank.py:53-108 | Candidates that share a term with the question precede all that share none |
| Scoring.RelevanceIsSpelled | backend/rerank.py:61-98 | Relevance is the sum over the question's terms of a weight that counts in how many candidates the term occurs, how often in this one, and its length |
| Scoring.RarerWeighsMore | backend/rerank.py:71-95 | A term that fewer candidates contain weighs strictly more, for every increasing logarithm |
| Rerank.ApiOrderIsPrecedence | backend/rerank.py:138-145 | Scored positions by descending score, then unscored ones; ties and unscored positions keep their places |
| Rerank.ApiOrderPermutes | backend/rerank.py:138-145 | Every position once, whatever indices the service names |
| Rerank.FallsBackOffline | backend/rerank.py:134-141 | A service that fails or ranks nothing is replaced by the offline reranker |
| Rerank.ServiceOrderIsUsed | backend/rerank.py:142-152 | Otherwise the result is every candidate once in the service's order, each with its place in it |
| Retrieval.RetrieveHits | backend/retrieval.py:27-97 | The whole retrieval, with either search, reranking, the loop over seen headings, demotion and the cut |
| Retrieval.DedupeKeepsTheBest | backend/retrieval.py:77-84 | What survives is the first hit of each source and heading: none twice, none lost |
| Retrieval.ReorderPermutes | backend/retrieval.py:85-96 | Demotion neither loses nor doubles a hit |
| Retrieval.ReorderIsIdempotent | backend/retrieval.py:85-96 | Demoting twice is demoting once, and both parts keep their order |
| Retrieval.DemotionNeverCostsASource | backend/retrieval.py:70-97 | If a demoted block survives the cut, every source among the candidates is shown |
| Retrieval.RoomMeansEverySource | backend/retrieval.py:70-97 | If the leading part fits, every source among the candidates is shown |
| Retrieval.ResultsAreDistinct | backend/retrieval.py:70-97 | At most top_k hits, no two with the same source and heading |
| Results.NoTwoAlike | backend/retrieval.py:70-97 | At most top_k results, no two from one source with headings that differ in case and surrounding white space alone |
| Results.TitleBlocksComeLast | backend/retrieval.py:85-96 | A title block comes after every result of its source that is more than that |
| Results.BetterComesFirst | backend/retrieval.py:70-97 | Without a reranker, of two results that are more than title blocks the one with the larger score comes first |
| Recall.RowIsFoundIff | backend/database.py:1851-1870 | A relevant row is a candidate exactly when fewer relevant rows than are fetched come before it by fused score and row order |
| Recall.RelevantRowIsFound | backend/retrieval.py:43-97 | A readable chunk that shares a term with the question, or is similar at 0.35 or more, with fewer such chunks before it than 4 * top_k (with a reranker the larger of that and its limit), has its source and heading among the deduplicated hits, and is shown if there is room |
| Recall.RelevantMeansResults | backend/retrieval.py:38-97 | If any readable chunk is relevant and top_k is positive, the retrieval is not empty, whatever the reranker does |
| Recall.SharedTermMeansResults | backend/retrieval.py:38-97 | Nor is it without a question vector, if any readable chunk shares a term with the question |
| Recall.GoodMatchIsRetrieved | backend/retrieval.py:43-97 | Without a vector, a match that ranks within what is fetched, and that the cut underneath keeps, has its source and heading among the hits |
| Retrieval.ResultsAreVisible | backend/retrieval.py:38-97 | Whatever the reranker and the embedding service do, only readable chunks of indexed versions are returned |
| Retrieval.OnlyVisibleRowsMatter | backend/retrieval.py:38-97 | Non-interference: corpora with the same readable rows give the same list with the same scores, also when one has no indexed chunk at all |
| Retrieval.HiddenRowsDoNotMatter | backend/retrieval.py:38-97 | In particular, hidden rows inserted anywhere leave every answer as it was |
| Faithfulness.ScoreFaithfulness | backend/evaluation.py:54-77 | The loop over claims computes the specified score |
| Faithfulness.ClaimTerms | backend/evaluation.py:48-51 | The terms of every claim are terms of the text it was split from |
| Faithfulness.ContextIsFaithfulToItself | backend/evaluation.py:54-77 | A context scores 1 against itself exactly when it makes no claim or has a term, and 0 otherwise |
| Faithfulness.KnownTermsScoreOne | backend/evaluation.py:54-77 | An answer whose terms all occur in the context scores 1 |
| Faithfulness.QuotingIsFaithful | backend/evaluation.py:54-77 | Any passage of the context cut between words scores 1 |
| Faithfulness.ScoreIsAShare | backend/evaluation.py:54-77 | Every score lies in [0, 1] |
| Faithfulness.MoreContextNeverHurts | backend/evaluation.py:54-77 | More context terms never lower the score of an answer |
| Faithfulness.PerfectScoreIff | backend/evaluation.py:54-77 | A score of 1 means every claim is supported, up to exactly one in 20000 |
| Faithfulness.ClaimsOfText | backend/evaluation.py:48-51 | The claims of a text are its stretches between sentence ends that are not blank, stripped, in order, each once |
| Faithfulness.SupportedIffHalf | backend/evaluation.py:66-76 | A claim is supported exactly when at least half of its distinct terms occur in the context |
| Faithfulness.ScoreIsSupportedShare | backend/evaluation.py:54-77 | The score is the rounded share of the claims that are supported; 1 without a claim, 0 without a term in the context |
| Faithfulness.RoundsToNearest | backend/evaluation.py:42-46 | Rounding gives a multiple of a ten-thousandth at most half of one away, the even one of two that are |
| Evaluation.EvaluateCase | backend/evaluation.py:156-250 | The first rank of the expected document, strict and relaxed citation, refusal and faithfulness; an error exactly for a case that names nothing |
| Judging.CaseIsJudgedOn | backend/evaluation.py:174-250 | A case is retrieved exactly when some hit comes from the expected document, and cited exactly when some such hit's heading contains the expected one, case and surrounding white space aside |
| Judging.FirstHitIsRanked | backend/evaluation.py:190-220 | The rank is that of the first such hit, and the strict citation is judged on it |
| Judging.WrongHeadingIsNoCitation | backend/evaluation.py:196-220 | The right document under a wrong heading counts as found, loses the citation and does not pass |
| Judging.RefusalPassesIff | backend/evaluation.py:162-171 | A question that should be refused passes exactly when nothing is found |
| Judging.AnswerIsScored | backend/evaluation.py:222-236 | What is scored is the model's answer over the context, or without a model the context |
| Judging.ContextIsJoined | backend/evaluation.py:222-224 | The context is the texts of the hits in order, parent text before own text, with a blank line between neighbours |
| Judging.JudgedOnAllResults | backend/evaluation.py:145-158 | The cut before judging removes nothing that retrieval returns |
| Judging.EvaluationSees | backend/evaluation.py:145-158 | The evaluation measures exactly the indexed chunks that are public or granted to a viewer of its groups and departments, whatever their classification |
| Evaluation.JudgedIsConsistent | backend/evaluation.py:190-250 | Strict citation implies citation, citation implies retrieval, scores are shares |
| Evaluation.OfflineFaithfulness | backend/evaluation.py:227-238 | Offline the score is 1, or 0 for a context with claims but no term |
| Evaluation.CitationNeverExceedsRecall | backend/evaluation.py:253-285 | After rounding, strict citation <= citation <= recall, all present together and in [0, 1] |
| Evaluation.CasesAreAccountedFor | backend/evaluation.py:259-285 | passed = cited answers + correct refusals, and passed + failed = total |
| Judging.AnswersAreShares | backend/evaluation.py:259-281 | Recall and both citation figures are, rounded, the number of cases found, cited and cited first by the number that expect an answer, and absent if none does |
| Judging.RefusalsAreShares | backend/evaluation.py:263-282 | Refusal accuracy is the share of the other cases that were refused, and the passes are the cited and the refused |
| Judging.MissLowersRecall | backend/evaluation.py:259-281 | A case missed instead of found takes one from the count behind recall |
| Judging.FaithfulnessIsMean | backend/evaluation.py:269-285 | Faithfulness is the mean of the scores there are, and coverage the share of the cases that have one |
| Evaluation.FaithfulnessIsAShare | backend/evaluation.py:269-273 | The mean score is in [0, 1] and present exactly when some case has a score |
| Evaluation.Decide | backend/evaluation.py:287-335 | The verdict for each mode, and exactly the faults behind it |
| Judging.VerdictIff | backend/evaluation.py:287-335 | The gate blocks exactly in blocking mode with a case judged and a figure below its floor or further below the baseline than allowed; with no case it warns, without such a figure it passes |
| Evaluation.GateIsMonotone | backend/evaluation.py:287-335 | Better metrics with the same entries missing add no fault and never get a harsher verdict |
| Evaluation.GateIgnoresRefusals | backend/evaluation.py:259-335 | Two runs with the same results for the questions that expect an answer get the same verdict for the same faults, and are the same baseline, whatever and how many the refusal cases are, unless one run has no case at all |
| Evaluation.RefusalAnswersDoNotMatter | backend/evaluation.py:259-335 | In particular, changing what was answered to refusal cases of any golden set changes no verdict |
| Evaluation.RefusalsAloneAlwaysPass | backend/evaluation.py:287-335 | And a golden set of refusal cases alone passes in every judging mode |
| Evaluation.VerdictDependsOnVisibleRows | backend/evaluation.py:103-190 | Two corpora with the same rows readable by the evaluation give the same judgments and the same verdict |
| Evaluation.GateNeverSeesItsVersion | worker/runner.py:271-282 | With or without the chunks of a version that is not live, the run that gates it gives the same judgments and verdict |
| Evaluation.RunGoldenSet | backend/evaluation.py:103-141 | A run fails exactly when some case is invalid, and otherwise judges every case on production retrieval |
| Evaluation.RunsAreInOrder | backend/evaluation.py:103-141 | The order of the figures holds for every run, corpus and model answer |

## Left out

- HTTP routes, middleware, sessions, exports, the browser client, logging, metrics counters, migrations and scripts: plumbing.
- OIDC, JWT, password hashing and field encryption: stored text is taken as decrypted.
- The PostgreSQL search statements and pgvector: the portable search and the atomic claim statement are modelled instead, and every transaction is taken to be serializable.
- PDF and DOCX parsing: any list of sections covers what they return.
- Floating point: scores and ratios are reals, so the rounding of binary floats, NaN, and the six-digit `rerank_score` annotation are not modelled.
- A rerank reply with entries that lack an index or a numeric score: the source raises there.
- Lower-casing of letters outside ASCII, except the Kelvin sign, the only one that lower-cases into the tokenizer's Latin class to a single character: U+0130, which lower-cases to two characters, is not modelled, and headings that differ only in the case of other such letters are distinct here.
- Document title and MIME type, review comments and request ids: they are stored and never read by the modelled code.
- Normalisation of scope, decision and job-kind strings from requests: the model starts from the parsed value, with a value of its own for an unrecognised one where the code refuses it.
- Digits outside ASCII, underscores between digits and a minus sign in an HTTP failure code, which `int` accepts: the client writes ASCII digits.
- `run_forever`: its body is `drain` between sleeps.
- Two indexing jobs of one version that parse it into different chunks while both run, as after a change of the chunker's settings: Sharing assumes the same chunks, and IndexingGraph that other jobs prepare and write only while this job is not running. A staging file that another job's crash left half-written is taken as lost.
- The checkpointer: assumed to save the state after each node, to re-run the pending node on resume, and to delete a thread when asked.
- References that a purge sets to null instead of deleting: only the cascading ones are modelled.
- Row ids: positions in the tables, and unique by construction; chunk ids likewise in the search.
- Embedding usage records and the query history: written and never read by the modelled code.
- Storage of evaluation runs and the lookup of the latest one: the baseline is a parameter.
- Worker.IngestionWorker.ProcessVersion: what parse_and_chunk returns is a parameter, any list of pieces or a failure; Markdown and Chunker model that function itself.
- Worker.IngestionWorker.ExecuteIndexing: the `simple` engine without interruption, as each of its database calls is one transaction; interruption is the subject of IndexingGraph.
- GovernanceSafety.PublishedMeansAccountable: assumes named approvers whose ids fit the 64-character column, which SeparationComparesWholeIds shows to be needed and which every id in use does.
- QueueSafety.BackoffIsKept: assumes that the first claim finds the job due, which BackoffKeptIff shows to be needed.
- Windows.SpansTile: assumes an overlap that is not negative, which NegativeOverlapLeavesGaps shows to be needed.
