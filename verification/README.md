# A verified model of the document pipeline

The repository processes uploaded documents through a configured order of stages (OCR,
transcription, LLM text stages, embedding), lets users stop, retry, replay, approve and edit
the results, searches the embedded chunks, and cleans up superseded files. This project models
that behaviour in Dafny and proves what it keeps over all inputs and all interleavings.

- `Pipeline`, `Freshness`, `WorkerLoop`, `FreshRuns`, `BoundedWork`, `EditSurvival`,
  `EditLoss`, `ParkReasons`,
  `FreshnessLimits` — the job table of a document as a step machine; all documents
  under one worker with batches, goroutines, user steps and restarts; results that stay fresh,
  work that is bounded, edits that survive; and the histories where those promises stop.
- `JobRows` — the same steps as methods over mutable rows, each stated row by row and proved
  equal to a step of the machine.
- `RunFiles` — where artifacts live, what writing a run or an edit changes, and that the files
  behave like the text maps of `Pipeline`.
- `Chunking`, `Packing`, `PointIds`, `VectorIndex`, `Embedding`, `RagSearch`, `SeriesCorpus` —
  from text to chunks, point numbers, the vector store, stitched search passages, and the hash
  that lets a series rebuild be skipped.
- `Keyset`, `StageData`, `Janitor` — cursor pagination over changing tables, the paged
  collector, and the sweep of superseded artifacts.
- `EventStream`, `MessageParts`, `ChatStore` — the event stream, the parts of a reply, and the
  store that folds streams into chats.

`dafny verify dfyconfig.toml` checks all of it.

## Reading the model

- A stage is its position in the configured order; names are distinct. A job is a
  (document, stage) pair, as the table's uniqueness constraint has it.
- One worker process. These are single steps: finding the earliest supported stage with pending
  jobs and listing them; asking `wasStopped` and storing the result;
  setting a status and advancing; reading a job and upserting its successor; starting a job and
  collecting its stage data; an edit with its cascade; `patchRun`'s read and write; a failure's
  event, count, back-off and status. Everything else interleaves freely.
- What an execution does is settled when it starts: it generates a result and asks
  `wasStopped`, commits without asking, or parks for context. Each stage type offers its own,
  and an LLM stage that asks for context parks exactly when the document has none.
- Two fields of a job are history, read by no step: `shown`, the stage data given to the
  execution that stored its last run, and `park`, why it waits.
- LLM results, transcripts, embeddings, search hits, clocks and failures are parameters or
  arbitrary outcomes of a step. The markdown parser is an arbitrary list of heading offsets.
  Generated ids are fresh and contain no slash; a content hash is injective, so the model keeps
  the text in its place. Text is a sequence of characters.
- Freshness is promised of the run a stage shows, for vetted steps: a waiting job is approved
  only if it waits for review of a result, has no run, or is behind an unfinished stage;
  `patchRun` is used on waiting jobs; an execution that does not ask `wasStopped` (embedding,
  skips, seeded transcripts) completes before anyone takes its job out of running; and one that
  stores no run finds no earlier run, or one that was given the same. The `...Iff` lemmas of
  `Freshness` say exactly when each of the four matters.
- The janitor's surroundings may do anything between two of its calls, under two rules: ids are
  fresh, and a run is written and attached within a `delay`. The promise holds when collecting
  the live set and that delay together stay under the grace period.
- The vector store holds one owner per point (a document or a series). Clashes of point numbers
  between owners are assumed away where the text says so; within an owner they are proved
  impossible below ten thousand chunks.

## What turned out not to hold

- An embedding in flight does not notice that an edit re-queued it and commits on the old text
  (`FreshnessLimits.UncheckedCommitIsStale`; exactly when: `Freshness.CommitKeepsFreshIff`).
- An execution that stores no run makes its job done again over the run of an earlier text
  (`SkipShowsOldRun`; exactly when: `SkipKeepsFreshIff`). This is a skip for short input at a
  stage without a single output field, or a skipped series rebuild.
- `patchRun` on a done job re-queues nothing (`PatchOfDoneRunIsStale`, `PatchKeepsFreshIff`).
- Approving a job parked for missing context presents its old result as current
  (`ApprovalOfContextParkIsStale`, `ApproveKeepsFreshIff`; no other approval can:
  `ParkReasons.OnlyContextParksGoStale`).
- A stop does not bind an execution that fails (`FailureUndoesStop`), and through a stopped
  job's live goroutine an edit can be overwritten although nothing before it is pending or
  running (`StoppedFlightLosesEdit`; exactly when an edit survives: `EditLoss.EditSurvivesIff`).
  The comment on `UpdateStageArtifact` also says the edited job is re-queued; the code, and
  the model, leave it done.
- An input and an output of one run with the same field and extension share a file
  (`RunFiles.InputReadsBackIff`).
- From chunk 10000 on, two chunks of one document can share a point
  (`PointIds.ChunkTenThousandClashes`; `TenThousandAreSafe` is the exact bound).
- After an interrupted rebuild of a series, reverting the texts makes the next rebuild skip a
  damaged index (`SeriesCorpus.RevertAfterInterruptIsStale`; exactly when one rebuild keeps the
  cache sound: `RebuildKeepsSoundIff`). New chunk settings are skipped too
  (`NewSettingsAreSkipped`).
- The title sorts compare titles with a created_at cursor: their pages are right exactly when no
  row ever tells that cursor from the last row (`Keyset.TitlePagesAreRightIff`), and otherwise
  they repeat or skip rows (`TitleCursorRestarts`).
- A payload that spans lines does not survive the event stream (`EventStream.EventSurvivesIff`,
  `RestIsReadAsLines`).
- The generation counter retires a stream's events but not its failure, which can drop a reply
  that a later stream is writing (`ChatStore.RetiredStreamsAreInertIff`,
  `LateBreakDropsTheReply`).

## Model

| member | source | states |
|---|---|---|
| `FreshRuns.DownstreamIsFresh` | server/core/worker.go:170-221 | In every state reached by worker steps, restarts and vetted user steps, when all jobs of a document up to stage j are done, the latest run of j was made from exactly what CollectStageData returns now for the stages before j |
| `FreshRuns.StepKeepsFresh` | server/core/worker.go:615-648 | One step of anyone keeps the freshness of every document, with its companions: the run list a worker read is still the stored one, and the snapshot taken at job start is current as long as the job is running |
| `FreshRuns.WorkerOnlyAppendsRuns` | server/core/worker.go:1271-1273 | In the states that vetted steps reach, no worker step or restart rewrites a stored run: every run list only grows at its end |
| `Freshness.UserKeepsFresh` | server/api/rest/jobs.go:236-287 | Every vetted user step (stop, reject, retry, replay, edit, wake-up; approval of a shown result or behind unfinished work; patching a waiting job) leaves every later result fresh or puts an unfinished stage in front of it |
| `Freshness.UserKeepsFlightFresh` | server/core/stage_update.go:101-153 | A vetted user step either takes an in-flight job out of running or leaves the snapshot it started with current |
| `Freshness.FinishKeepsFresh` | server/core/worker.go:642-648 | Any way an execution can end keeps freshness, provided a completion finds its job still running, and one that stores no run finds no earlier run or one that was given the same |
| `Freshness.CommitKeepsFreshIff` | server/core/worker.go:905-922 | For any state of the job: storing a run keeps freshness exactly when the snapshot is current or an earlier stage is unfinished |
| `Freshness.SkipKeepsFreshIff` | server/core/worker.go:514-535 | For any state of the job: a completion that stores no run (a skip for short input, or a series rebuild skipped over an unchanged corpus) keeps freshness exactly when an earlier stage is unfinished, the job has no run, or its last run was given what the earlier stages hold now |
| `Freshness.ApproveKeepsFreshIff` | server/api/rest/jobs.go:265-270 | Approving a waiting job keeps freshness exactly when an earlier stage is unfinished, the job has no run, or its last run was given what the earlier stages hold now |
| `ParkReasons.OnlyContextParksGoStale` | server/store/postgres/jobs.go:196-218 | In every reachable state, approving a waiting job keeps its document's results fresh unless that job was parked for missing context over an earlier run: one parked by CascadeBlock still has an unfinished stage before it |
| `Freshness.PatchKeepsFreshIff` | server/api/rest/jobs.go:181-223 | Patching one output field of a run keeps freshness exactly when it changes nothing that is read or no settled job behind it has only done jobs before it |
| `FreshnessLimits.UncheckedCommitIsStale` | server/core/worker.go:915-920 | A run from the empty system in which an embedding that was re-queued by an edit commits on the old text: runEmbed does not ask wasStopped |
| `FreshnessLimits.SkipShowsOldRun` | server/core/worker.go:519-535 | A run from the empty system in which an edited document's second stage is re-run, skipped without storing a run, and so done again over the run made from the old text |
| `FreshnessLimits.PatchOfDoneRunIsStale` | server/api/rest/jobs.go:139-227 | A run from the empty system in which patchRun on a done job leaves the next stage done on superseded text |
| `FreshnessLimits.ApprovalOfContextParkIsStale` | server/core/worker.go:487-491 | A run from the empty system in which a job parked for missing context is approved and shows its previous result as current |
| `FreshnessLimits.FailureUndoesStop` | server/core/worker.go:1037-1079 | A failing execution of a stopped job puts it back in the queue exactly while its failures stay under three |
| `FreshnessLimits.StoppedFlightLosesEdit` | server/core/stage_update.go:95-159 | A run from the empty system after which nothing before the edited stage is pending or running, yet worker steps alone overwrite the edit: a stopped job's live goroutine fails and re-queues its stage |
| `Pipeline.FinishKeepsShape` | server/core/worker.go:1083-1119 | Any ending of an execution keeps a document's jobs a contiguous block of stages from its first one, with a successor behind every done job |
| `Pipeline.UserKeepsShape` | server/api/rest/jobs.go:359-391 | So does any user step, including the handler's own advancePipeline |
| `Pipeline.FinishAppendsRuns` | server/core/worker.go:1271-1273 | A finished execution extends its own run list and no other |
| `Pipeline.ShownIsOfLastRun` | server/core/worker.go:1271-1273 | The recorded input of a job changes exactly with its run list, to what the execution that added the run was given |
| `Pipeline.UserKeepsRunLists` | server/core/stage_update.go:95-153 | A user step never adds, drops or reorders runs; an edit changes one field of one run |
| `Pipeline.FailureRetriesOrBlocks` | server/core/worker.go:1037-1079 | A failure counts once; below three it only re-queues its job, at three the job keeps its error run, no later job stays queued and no other row changes |
| `Pipeline.FindDoneStageRun` | server/core/stage_update.go:259-287 | The edit target exists exactly for a done job whose latest run has the field; it is that run |
| `WorkerLoop.SingleFlight` | server/core/worker.go:123-166 | In every reachable state running jobs belong to the stage of the current batch, each is held by a goroutine, they are at most max_concurrent, and no second goroutine can start on a held job |
| `WorkerLoop.StoppedResultIsDropped` | server/core/worker.go:1275-1285 | Once a held job has left running nothing makes it running again while its goroutine lives, so a goroutine that asks wasStopped can only drop its result or fail, even after a retry to pending |
| `WorkerLoop.ReachableShape` | server/core/ingest.go:368-404 | Every reachable document has the pipeline shape, and one whose jobs are all done has reached the last stage |
| `WorkerLoop.StepKeepsFlow` | server/core/worker.go:142-164 | One step of worker, user, ingest or restart keeps the invariant behind single flight and shape |
| `BoundedWork.FinishLowersPotential` | server/core/worker.go:1037-1119 | Every finished execution lowers the sum of [queued](n-i) and of the failures left below three, but for at most n-k if its job k was stopped or re-queued in flight |
| `BoundedWork.ExecutionsBounded` | server/core/worker.go:122-168 | From any state, however worker steps and restarts interleave, a document's jobs are executed to an end at most that sum of times, plus n-k if it has a held job k that is not running any more |
| `BoundedWork.FreshDocumentPotential` | server/core/ingest.go:368-394 | For a fresh document the bound is 4n - first |
| `BoundedWork.WorkerTerminates` | server/core/worker.go:93-168 | Left alone in any state the worker takes a bounded number of steps of any kind, over all documents |
| `BoundedWork.IdleMeansDrained` | server/core/worker.go:123-168 | No step is enabled exactly when no batch is open and no job is pending at a supported stage |
| `EditSurvival.EditSurvives` | server/core/stage_update.go:95-159 | With no earlier queued job from which executions can lead to the edited stage, and no goroutine that can bring one about, every later job is pending after the edit and no run of worker steps and restarts changes what currentStageOutputAt returns: the edited content |
| `EditSurvival.QuietIsOutOfReach` | server/core/stage_update.go:95-159 | In particular when nothing before the edited stage is queued and no goroutine holds an earlier job |
| `EditLoss.EditSurvivesIff` | server/core/stage_update.go:95-159 | An accepted edit outlives every run of worker steps and restarts exactly when no earlier queued job has a road to its stage (every stage between is known and need not park for context), and no goroutine at an earlier stage can queue one: by committing, by storing a result for a running job, or by failing with a retry left |
| `EditLoss.Lose` | server/core/worker.go:122-168 | From an idle worker with a pending job that has a road to stage i, a run of executions ends with stage i not done |
| `EditSurvival.RunKeepsEdit` | server/core/worker.go:1083-1119 | The invariant behind it over any run of worker steps and restarts |
| `EditSurvival.CurrentStageOutput` | server/core/stage_update.go:57-71 | On the texts, reading a stage's output succeeds exactly when an edit of it would |
| `JobRows.DocumentRows.constructor` | server/core/ingest.go:368-394 | A new document has one pending job, at its first applicable stage |
| `JobRows.DocumentRows.Upsert` | server/store/postgres/jobs.go:20-36 | Inserts a row, or updates status and runs of the one with the same document and stage |
| `JobRows.DocumentRows.CascadeReplayRows` | server/store/postgres/jobs.go:220-242 | Every later row becomes pending, whatever its status |
| `JobRows.DocumentRows.CascadeBlockRows` | server/store/postgres/jobs.go:196-218 | Every later pending row becomes waiting, nothing else changes |
| `JobRows.DocumentRows.WasStopped` | server/core/worker.go:1275-1285 | True exactly when the row is found and no longer running |
| `JobRows.DocumentRows.AdvancePipeline` | server/core/worker.go:1083-1119 | The next stage's row becomes pending, created if missing; nothing happens at the last stage |
| `JobRows.DocumentRows.StartExecution` | server/core/worker.go:170-221 | Marks only this job running and collects exactly the last outputs of every other done or waiting job that has any; results stay fresh and the snapshot is current |
| `JobRows.DocumentRows.FinishGenerated` | server/core/worker.go:615-648 | For a row no longer running it changes nothing; else the run is added behind the flight's runs with its input, and the row is done with the next one pending, or waits for review, by the confidence; no other row changes |
| `JobRows.DocumentRows.FinishUnchecked` | server/core/worker.go:915-920 | Whatever the row's status: it is done, with the run and its input added if there is one, the next row is pending, and no other row changes |
| `JobRows.DocumentRows.HandleJobError` | server/core/worker.go:1037-1079 | Counts the failure once; below three only this row changes, to pending; at three it is in error with the error run added, every later pending row waits, and no other row changes |
| `JobRows.DocumentRows.PutStatusOf` | server/api/rest/jobs.go:236-287 | A transition outside the table is refused and changes nothing; an accepted replay of a done stage puts it and every later row in pending, whatever each was, with its runs; an accepted approval makes the row done and the next one pending, created if missing; any other accepted target changes only this row's status |
| `JobRows.DocumentRows.UpdateStageArtifactAt` | server/core/stage_update.go:95-159 | One field of the done stage's latest run is overwritten, every later row is pending, nothing else changes, and exactly the later stages are reported in order; without a job, a done status, the field or the file it says which and changes nothing |
| `JobRows.DocumentRows.PatchRunOf` | server/api/rest/jobs.go:139-227 | The edits before the first that names an unknown field or cannot be written are made, in that one run: each edited field has the content of its last edit and everything else in the table is as before; a missing run is reported and changes nothing |
| `JobRows.DocumentRows.ResetRunningRows` | server/store/postgres/jobs.go:184-191 | Every running row becomes pending, nothing else changes |
| `JobRows.DocumentRows.WakeWaitingRows` | server/api/rest/documents.go:332-344 | With a change of context every waiting row becomes pending, nothing else changes |
| `JobRows.FirstApplicableStage` | server/core/ingest.go:397-404 | The first stage that does not skip the file type, and the first of all when every one skips it |
| `JobRows.PickStage` | server/core/worker.go:123-141 | The earliest supported stage with a pending job, or nothing when there is none |
| `RunFiles.SharedLocation` | server/core/run_outputs.go:40-48 | Two artifacts share a file exactly when they have one name within one run, or are one upload |
| `RunFiles.LocationText` | server/core/run_outputs.go:40-48 | The paths written out: runs/job/run/name, and artifacts/id/filename in the layout by artifact id |
| `RunFiles.ReadTextIff` | server/core/run_outputs.go:52-70 | A text reads exactly if its row is there and the file at the row's written-out path holds it |
| `RunFiles.Vault.PersistDrafts` | server/core/run_outputs.go:106-152 | After any number of successful calls each file of the drafts reached, runs/job/run/field.ext with _unnamed and md as defaults, holds the last text written to it, each id has its draft's row, and no other file or row changed; the references name field and id of every draft in order, or nothing is returned after a failing call |
| `RunFiles.Vault.PersistRun` | server/core/run_outputs.go:72-100 | Inputs, then outputs, under one run id: what is left, complete or cut short, is that of one list of drafts |
| `RunFiles.Vault.Overwrite` | server/core/stage_update.go:106-119 | After an edit its artifact, and whatever shares the file, reads as the new content, every other artifact as before; a missing row changes nothing |
| `RunFiles.NewRunKeepsTexts` | server/core/run_outputs.go:72-152 | A run with a fresh id changes no text readable before it, edited or not, however many of its files and rows get written |
| `RunFiles.NewRunTexts` | server/core/run_outputs.go:52-152 | With distinct file names, reading a new run's outputs gives each field the text of its last draft, and no other field |
| `RunFiles.InputReadsBackIff` | server/core/run_outputs.go:72-100 | After persistRun an input reads as it was given exactly when the last output of its file name, or without one the last such input, has the same text |
| `RunFiles.OutputReadsBackIff` | server/core/run_outputs.go:72-100 | And an output exactly when the last output of its file name has the same text |
| `RunFiles.EditedTexts` | server/core/stage_update.go:106-131 | An edit of one field changes the collected texts at that field only |
| `Chunking.SectionsLoseNothing` | server/core/worker.go:702-734 | For any heading offsets the cuts strictly increase from 0 at line starts, the sections concatenate to the text, and dropping blank ones drops no non-whitespace rune |
| `Chunking.HeadingsAreCuts` | server/core/worker.go:702-724 | With headings reported in text order, every heading's line opens a section |
| `Chunking.CutsAreHeadingLines` | server/core/worker.go:702-724 | Exactly the start of the text and each heading line behind all earlier ones is a cut |
| `Chunking.SplitMarkdownSections` | server/core/worker.go:702-734 | Whatever the order of the headings, the cuts are 0 and the starts of the heading lines that lie behind every earlier one; the sections are the pieces between neighbouring cuts that are not blank, in order |
| `Chunking.WindowsRebuild` | server/core/worker.go:743-770 | The first window followed by each later one without the overlap is the text |
| `Chunking.WindowCount` | server/core/worker.go:743-770 | The number of later windows is the ceiling of (n - size)/step, stated as two inequalities |
| `Chunking.ChunkText` | server/core/worker.go:743-770 | For every positive size, in terms of size and overlap alone: the chunks are the windows that are not blank, in order, the k-th starting k*(size-overlap) in (k*size if the overlap reaches the size); without a blank window chunk k is that window, the chunks without their overlaps are the text, and there are just enough; in any case they are substrings in text order, none over the size, that cover every non-whitespace rune |
| `Packing.ChunkMarkdown` | server/core/worker.go:667-694 | The chunks are made of consecutive groups of sections: one over the size gives its windows, any other group is as many whole sections as fit together and gives their text without newlines at the end; they cover every non-whitespace rune of any text with any headings in order; a section that fits is never cut; and without oversized sections there are few |
| `Packing.SectionStaysWhole` | server/core/worker.go:678-692 | A section of at most the size lies, but for trailing newlines, inside one chunk |
| `Packing.FewChunks` | server/core/worker.go:678-692 | Next-fit: k chunks of L runes satisfy (k-1)*size < 2*L |
| `PointIds.IdFromUUID` | server/store/qdrant/client.go:238-247 | The wrapping 64-bit loop computes the unbounded base-16 numeral of the non-dash characters modulo 2^63 |
| `PointIds.HexDigit` | server/store/qdrant/client.go:250-262 | The low byte of a rune counts as the hex digit it is, in either case |
| `PointIds.OnlyHexDigits` | server/store/qdrant/client.go:250-262 | And as zero if it is none |
| `PointIds.FormatDenotes` | server/core/worker.go:854-854 | The suffix of a chunk id is the index in decimal digits, padded with zeros to four and no further |
| `VectorIndex.IdText` | server/core/worker.go:854-854 | A chunk's id is the document's id, or series: and the series name, a dash and the suffix |
| `PointIds.OnlyLastDigitsMatter` | server/store/qdrant/client.go:237-247 | Only the last sixteen non-dash characters matter |
| `PointIds.ChunkPointsDiffer` | server/core/worker.go:854-854 | Two chunks of one owner below index 10000 never share a point, whatever the owner's name |
| `PointIds.ChunkTenThousandClashes` | server/core/worker.go:854-854 | Beyond that they can: for an owner that ends in twelve ones chunk 10000 takes the point of chunk 0 |
| `PointIds.TenThousandAreSafe` | server/core/worker.go:854-854 | For every number n: all owners' first n chunks have different points exactly when n is at most 10000 |
| `VectorIndex.PointStore.Upsert` | server/store/qdrant/qdrant.go:18-82 | Replaces the point with the id's number |
| `VectorIndex.PointStore.DeleteByPayload` | server/store/qdrant/qdrant.go:94-112 | No point of the owner is left and every other owner's points are what they were |
| `VectorIndex.PointStore.GetByIDs` | server/store/qdrant/qdrant.go:209-249 | One result for each requested id whose point exists, in the order of the requests: its payload, under the last requested id of that number; nothing if the call fails |
| `VectorIndex.PointStore.Rebuild` | server/core/worker.go:849-903 | However far it gets: at each chunk reached (the last one, of chunks that share a point) the point holds owner, base fields, text, index and links of that chunk, and every other point is as before, or gone if it was the owner's and the delete worked; below ten thousand chunks a completed rebuild stores every one |
| `VectorIndex.RebuildIsExactIff` | server/core/worker.go:849-903 | From any earlier contents a completed rebuild leaves other owners alone, and leaves exactly the current chunks unless the delete failed over points the chunks do not reuse |
| `VectorIndex.OthersAreUntouched` | server/core/worker.go:849-903 | However far a rebuild gets, with or without the delete, no other owner is touched unless one of its points clashes |
| `VectorIndex.HoldsCount` | server/core/worker.go:849-903 | One point per chunk |
| `VectorIndex.TrailReadsTheRest` | server/core/worker.go:861-867 | Following next links from chunk i reads the remaining chunks in order, once each, and stops |
| `VectorIndex.LinksAreInverse` | server/core/worker.go:861-867 | Every link leads to a stored chunk whose opposite link leads back |
| `Embedding.RunEmbed` | server/core/worker.go:793-923 | The whole stage, field by field: the packed chunks of the text at the configured or default size and overlap, each stored with the document's title, month and metadata fields; when no chunk fails the store holds exactly those for the document, whatever it held before and also if the run then cannot be stored, unless the delete failed over points they do not reuse; other owners' points stay however it ends |
| `Embedding.BasePayload` | server/core/worker.go:807-825 | Exactly the configured fields found among the stage outputs, with the document's title and month over them |
| `RagSearch.KeepScores` | server/core/adk/tools/rag_search.go:82-99 | The in-place filter leaves exactly the hits at or over the threshold (all without one) at the front of the slice, in order, and the rest of it untouched |
| `RagSearch.AboveKeepsExactly` | server/core/adk/tools/rag_search.go:82-99 | The filter keeps each hit at or over the threshold as often as it came, and nothing else |
| `RagSearch.RunRagSearch` | server/core/adk/tools/rag_search.go:61-136 | Refuses a blank query, reports a failed search, else one passage for each kept hit in order: the fetched text before it, its own and the one after it with blank lines between, the title and month of its payload and its score; the texts are those of the linked points, none if they cannot be fetched; and a hit on stored chunk i reads as chunks i-1, i and i+1 |
| `RagSearch.HitReadsAround` | server/core/adk/tools/rag_search.go:101-136 | A hit on stored chunk i reads as chunk i-1, a blank line, chunk i, a blank line, chunk i+1, as far as they exist, with the title and month of the document and its own score, whatever the other hits |
| `RagSearch.OneOwnerIsApart` | server/core/adk/tools/rag_search.go:101-117 | When all hits belong to one stored owner the requested neighbour ids cannot clash |
| `RagSearch.RebuiltHitReadsAround` | server/core/worker.go:835-903 | From text to passage: chunks of a text, rebuilt over any contents, then found by a search, read as that written-out stretch of chunks with the document's title and month |
| `SeriesCorpus.SeriesIndex.RebuildCorpus` | server/core/worker.go:932-1033 | The corpus is every non-empty text of the series in order with a ruler between any two; without one it fails, with its hash cached it is skipped, and neither changes anything; else the chunks reached are stored under the series with its title, and the hash is cached if everything succeeded |
| `SeriesCorpus.CorpusIsLaidOut` | server/core/worker.go:940-957 | Where each text of the series lies in the joined corpus: one after another, with a ruler and nothing else between |
| `SeriesCorpus.SuccessMeansCurrent` | server/core/worker.go:959-1030 | If every rebuild that starts deleting finishes, a rebuild that succeeds, by work or by skipping, leaves exactly the current corpus in the store |
| `SeriesCorpus.RebuildKeepsSoundIff` | server/core/worker.go:983-1030 | One rebuild keeps the cache sound exactly when it stores the hash, or there was none, or what it placed equals what the cached corpus would have placed |
| `SeriesCorpus.RevertAfterInterruptIsStale` | server/core/worker.go:959-973 | Rebuild one corpus, be interrupted rebuilding another, revert the texts: the next rebuild skips over a damaged index |
| `SeriesCorpus.NewSettingsAreSkipped` | server/core/worker.go:964-982 | The hash does not cover the chunk settings: after they change, the skip leaves the right chunks exactly when both settings cut the corpus alike |
| `Keyset.Table.ListPaginated` | server/store/postgres/artifacts.go:72-118 | One call returns rows past the cursor in order: all of them without a next cursor; with one exactly the limit, the cursor is the last of them, and every row left out, of which there is one, comes after it |
| `Keyset.WalkSeesOnce` | server/store/postgres/jobs.go:141-182 | Whatever is inserted and deleted between the calls, a completed walk yields every row that is there at each call exactly once |
| `Keyset.WalkIsOrdered` | server/store/postgres/pagination.go:19-29 | The walk's rows strictly increase in the sort order, so no row comes twice |
| `Keyset.WalkSees` | server/store/postgres/pagination.go:19-59 | A completed walk yields every row present throughout and only rows present at some call |
| `Keyset.FixedWalk` | server/store/postgres/jobs.go:141-182 | On a fixed table it yields exactly the sorted filtered rows |
| `Keyset.FixedWalkEnds` | server/store/postgres/jobs.go:152-182 | And it ends within one call per page of rows |
| `Keyset.SamePageIff` | server/store/postgres/pagination.go:31-44 | Two cursors give the same page exactly when no row sorts between them or is one that only one of them excludes |
| `Keyset.TitlePagesAreRightIff` | server/store/postgres/documents.go:122-129 | In both directions and whatever happens between the calls, a title walk, whose cursor carries created_at, gives the pages it should exactly when no row ever tells the handed-out cursor from the last row |
| `Keyset.ClearTitleWalk` | server/store/postgres/documents.go:122-129 | In that case it yields no row twice and every lasting row |
| `Keyset.TitleCursorRestarts` | server/store/postgres/documents.go:122-129 | When every title starts with a letter the ascending walk starts again from its first page and the descending one ends after it |
| `StageData.CollectStageDataBatch` | server/core/stage_data.go:28-58 | For every page size, and whatever happens to other documents between the calls, each requested document whose jobs do not change gets exactly what CollectStageData returns for it, given one job per document and stage; no other document is returned |
| `StageData.ListingsAgree` | server/core/stage_data.go:60-89 | With one job per stage the result does not depend on the order of the listed rows |
| `StageData.StageDataFromJobs` | server/core/stage_data.go:60-89 | A stage has the outputs of its last row that gives any, and is left out if none does; a row gives exactly, if it is done or waiting and has a run, for every field name the text of the last artifact under it that can be read |
| `Janitor.Sweep` | server/core/janitor.go:109-158 | With anything else happening between any two calls: every delete is of the file or the row of one artifact that is no upload, not recent and not live; each artifact that left had its own file, or in the old layout its directory, removed and nothing else, and then its row; if collecting plus the writers' delay stay under the grace period no delete changes a text a reader gets; once complete the artifacts left are exactly uploads, recent and live ones, and if nothing else happened exactly the files of the others are gone |
| `Janitor.CollectLive` | server/core/janitor.go:162-195 | The collected set covers everything in use that was not attached after the walk began, holds only ids that were in use, and is exactly those in use if nothing happens meanwhile |
| `Janitor.SweepRows` | server/core/janitor.go:116-154 | The artifact walk deletes nothing it should spare and completes with nothing else left |
| `Janitor.SweepOne` | server/core/janitor.go:125-144 | An upload, a recent or a live artifact is left alone; of any other the file is removed and then the row, with other activity before each call, and nothing else |
| `Janitor.FileRemovalIsUnseen` | server/core/janitor.go:197-204 | Removing the file of an artifact the sweep does not spare, or its whole directory in the old layout, changes no text in use |
| `Janitor.RowRemovalIsUnseen` | server/store/postgres/artifacts.go:120-123 | Nor does deleting its row |
| `Janitor.PlayKeeps` | server/core/run_outputs.go:72-152 | Writers, uploads, edits and time keep everything in use readable and the live set sufficient |
| `Janitor.SameViewSameTexts` | server/core/stage_data.go:66-84 | Readers that go through a job's fields get the same texts before and after |
| `Janitor.EmptyIsIntact` | server/core/janitor.go:162-195 | The invariant holds of empty tables |
| `Janitor.SlowAttachLosesItsArtifact` | server/core/janitor.go:116-137 | The timing assumption is needed: a run attached after its artifact passed the grace period points at nothing |
| `EventStream.ReadAgentStream` | frontend/src/state/agentStream.ts:80-107 | However the network cuts the stream: one message for each complete data line of the whole text whose payload is not blank, in order, trimmed, under the name of the last event line before it |
| `EventStream.TrimIs` | frontend/src/state/agentStream.ts:94-99 | Trimming keeps the stretch from the first to the last character that is no white space |
| `EventStream.ParsedStream` | server/api/rest/sse.go:9-16 | Parsing a printed list of single-line events and comments gives the events back in order, trimmed, without blank payloads |
| `EventStream.EventSurvivesIff` | frontend/src/state/agentStream.ts:91-104 | An event, whatever its name and payload, survives unchanged exactly when both are on one line and trimmed and the payload is not empty |
| `EventStream.BrokenStreamIsPrefix` | frontend/src/state/agentStream.ts:84-106 | A stream that breaks off dispatches a prefix of what the whole one would have |
| `EventStream.RestIsReadAsLines` | server/api/rest/sse.go:9-11 | Of a payload that spans lines the first one arrives; the rest is read as lines of the stream, so a further line that starts like a field counts as one |
| `EventStream.ParsedIsLines` | frontend/src/state/agentStream.ts:89-104 | Nothing that spans lines is ever dispatched, whatever the text |
| `EventStream.EventWriter.WriteEvent` | server/api/rest/sse.go:9-11 | Appends the event's three lines |
| `EventStream.EventWriter.WriteComment` | server/api/rest/sse.go:14-16 | Appends the comment's two lines |
| `MessageParts.StreamingText` | frontend/src/components/AgentParts.tsx:81-93 | A text chunk extends the plain text by itself, a thinking chunk leaves it, merged or not |
| `MessageParts.StreamingCoalesces` | frontend/src/components/AgentParts.tsx:81-90 | If no two neighbouring parts are of one streaming kind, none are after a streamed chunk |
| `MessageParts.FillLatest` | frontend/src/components/AgentParts.tsx:102-112 | The backward search gives the result to the latest open call of that name and leaves every other part |
| `MessageParts.FillsLatestOpen` | frontend/src/components/AgentParts.tsx:100-112 | A result goes to the latest open call of that name and to no other part |
| `MessageParts.MarkKeepsText` | frontend/src/components/AgentParts.tsx:119-129 | Marking a confirmation leaves the plain text |
| `ChatStore.StreamingIffLive` | frontend/src/state/chatStore.ts:172-201 | In every reachable state a chat shows streaming exactly when a live stream carries its current generation, and that stream is unique; if the messages it was seeded with have their parts' text as content, every message with parts does |
| `ChatStore.StepKeepsProtocol` | frontend/src/state/chatStore.ts:81-153 | Each of submit, decide, stop, clear, seed, an arriving event, a break and a close keeps that invariant |
| `ChatStore.RetiredStreamsAreInertIff` | frontend/src/state/chatStore.ts:203-271 | On a stream of an older generation events and the close change nothing a reader sees; a break writes its error, and changes messages exactly when it may drop a reply and an assistant message without text is at its index |
| `ChatStore.LateBreakDropsTheReply` | frontend/src/state/chatStore.ts:246-261 | A run in which that happens: an approved reply is dropped while its second stream is still writing it |
| `ChatStore.ContentIsItsTokens` | frontend/src/state/chatStore.ts:209-244 | Through any run in which it is not dropped or cleared, the content of a message that starts as the text of its parts grows by exactly the tokens folded into it, in order of arrival |
| `ChatStore.Store.SeedChat` | frontend/src/state/chatStore.ts:81-85 | Loads messages into a chat that has none and is not streaming, and changes nothing else |
| `ChatStore.Store.ClearChat` | frontend/src/state/chatStore.ts:88-94 | Aborts the stream the controller names and no other, forgets turn and controller and moves the generation on by one |
| `ChatStore.Store.SubmitMessage` | frontend/src/state/chatStore.ts:101-122 | Adds the trimmed user message and an empty assistant one and opens a stream into it under the next generation, or does nothing for a blank text or a streaming chat |
| `ChatStore.Store.DecideConfirmation` | frontend/src/state/chatStore.ts:129-153 | Stamps the cards of the call and nothing else, and opens a stream into the first assistant message that shows one; without one it does nothing |
| `ChatStore.Store.StopChat` | frontend/src/state/chatStore.ts:156-158 | Aborts the stream the controller names |
| `ChatStore.Store.OnArrival` | frontend/src/state/chatStore.ts:209-244 | An event of the current generation extends the parts of its message by that token, thought, call, result or card and its content with them, or sets the error; nothing else changes, and any other event changes nothing |
| `ChatStore.Store.OnBreak` | frontend/src/state/chatStore.ts:183-200 | A break that is no abort sets the error and cuts the messages at a droppable assistant message without content; in any case the stream ends as by a close |
| `ChatStore.Store.OnClose` | frontend/src/state/chatStore.ts:195-200 | The stream is over, the controller forgets it, and streaming ends if it was of the current generation; nothing else changes |

## Left out

- HTTP handlers beyond their effect on the tables, authentication, configuration, MCP tools, prompts, titles, previews and MIME types: plumbing.
- Postgres, Qdrant, Whisper and LLM wire code: tables and the point store are maps; a failing call is an outcome of the step where the code acts on the failure.
- Repository errors the code ignores (`_ = w.jobs.UpdateStatus(...)`) and failing janitor deletes: every such call succeeds in the model.
- Several worker processes, and user requests that interleave inside one of the steps listed above (in particular `patchRun` writing back a run list that a worker extended meanwhile).
- Deleting documents and re-creating rows under an old id; two stages with the same name.
- The choice of the edited stage (`ResolveCanonicalBody`, `resolveFieldStage`): the edit is given its stage.
- Concurrent rebuilds of one series, metadata fields whose names collide with the store's own payload keys, contextual prefixes, image vectors and BM25 scores.
- JSON payloads, base64 tokens, UTF-8 decoding: payloads are opaque texts, cursors are keys.
- The upload temp sweep, the search indexer queue, React components, listeners.
- Timing other than the grace period: back-off sleeps and tickers.
- JobRows.DocumentRows.CascadeReplayRows: one UPDATE statement in the code, a loop over its list of stages here.
- RagSearch.HitReadsAround: assumes that no two requested neighbour ids of different owners share a point number; OneOwnerIsApart removes the assumption for hits of one owner.
- EditSurvival.CurrentStageOutput: a missing artifact row or file, where the code fails, is not expressed; RunFiles and Janitor say when they are there.
- JobRows.DocumentRows.Upsert: the options column is not modelled.
- RunFiles.SharedLocation: paths are joined without the cleaning filepath.Join does, so it speaks of field names without slashes.
- Freshness.PatchKeepsFreshIff: about one field; a patch of several (JobRows.DocumentRows.PatchRunOf) is as many steps. Answers to questions are not modelled, they change no output.
- Embedding.BasePayload: when two stages share an output field name the code takes either; the model is given the merged outputs.
