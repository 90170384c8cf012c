# Verification models for the review, connection, bridge and registry code

This project models the parts of the repository where many small steps have to fit together,
and proves what they promise for every input, every run or every interleaving:

* the review diff engine: word diff, hunk parser, git summary parsers, command-line chunking,
  bounded concurrency, and the object stream of `git cat-file`;
* the web client's connection store with its generations, timers, sockets and saved hosts;
* the browser bridge: correlation of requests and responses, cancellation, and tab attachments
  through shutdown;
* two caches: the cost-bounded LRU cache and the generation-tagged promise cache of reviews;
* three smaller pieces: reading a server-sent event stream, merging application copies, and the
  approval registry.

Each module takes the form of its source. Code that changes things step by step is a method or a
class whose contract equates the new state with a function of the old one; the lemmas are about
those functions. Where steps interleave, one step is the code between two awaits or under one
lock, `Step` gives its effect, and the main results are proved over every list of events. An
event that cannot happen in a state leaves it alone.

| module | models |
|---|---|
| `Options`, `Lines`, `Decimal`, `JsMap` | optional values, splitting at LF and CRLF, decimal numerals, insertion-ordered maps |
| `WordDiff`, `PatchHunks`, `GitSummary`, `ArgvChunks`, `ConcurrentMap` | `review-git-engine.ts` |
| `CatFile`, `GitObjects` | `review-git-worker.ts` |
| `ConnectionStore` | `connection-store.ts`, `saved-hosts.ts` |
| `BridgeHost`, `BridgeConnection` | `main.go`, and of `background.js` what it counts as attached |
| `AttachedTabs` | `session.go` |
| `CommandBatch` | `command_router.go` |
| `LruCache` | `lru-cache.ts` |
| `ReviewCache` | `review-coordinator.ts` |
| `SseStream` | `diagnose-duckcoding-thinking.ts` |
| `AppDedupe` | `file-applications-service.ts` |
| `ApprovalRegistry` | `approval-registry.ts` |

`dafny verify dfyconfig.toml` checks everything.

## Where the code differs from what one would expect

* A patch text that ends with a newline yields one more, empty, context line in its last hunk,
  and every line loses a CR that stands before its LF (`PatchHunks.FinalNewlineAddsContext`,
  `PatchHunks.RoundTrip`).
* A numstat path that holds a line terminator is skipped (`GitSummary.StatRoundTrip`). Of several
  numstat records of one path only the last counts, so the totals fall short exactly when an
  earlier one counts lines; an unmerged file, printed with an empty record first, is counted right
  (`GitSummary.MergeKeepsNumstatTotals`). Of two statuses of one path only the first gets its
  counts (`GitSummary.MergeGivesOwnCounts`).
* Specs go to `git cat-file` joined by newlines and its answers are matched by position, so a path
  that holds a newline shifts them, and a later request can be given another file's text
  (`GitObjects.NewlineShiftsAnswers`; the exact condition is
  `GitObjects.OwnObjectsIffSpecsAreLines`).
* A batch that asks for one file with two numbers of context lines gives both requests the same
  outcome, because outcomes are looked up by file id alone
  (`ReviewCache.LookupIsRightIffFilesAreDistinct`).
* A snapshot's id does not depend on the whitespace option, so after loading the same selection
  with and without it the cached diffs of the first are served for the second
  (`ReviewCache.SecondIsServedTheFirsts`; the exact condition is
  `ReviewCache.OwnSnapshotIffIdsDetermine`).
* A pairing that fails after its host was saved leaves the previous host on display; a revocation
  then clears no token (`ConnectionStore.LatePairingKeepsItsToken`). The exact condition under
  which revocation clears the active token is `ConnectionStore.RevocationClearsActiveToken`.
* A pairing under a blank device name, or answered with a blank device id, is stored but not read
  back (`ConnectionStore.SavedHostReadsBack`).
* A resynchronisation close (code 4008) shows as connecting, not as reconnecting, and without a
  saved token ends idle (`ConnectionStore.DropOutcome`).
* A tab can stay attached after the cleanup: because an attach took effect although its call gave
  up (`BridgeHost.LateResponsesAreDropped`, `BridgeConnection.IdleDetachMakesUpForNothing`), because
  a detach of the cleanup fails (`BridgeConnection.RefusedDetachUndoesNothing`), or because the host
  counted two answers in another order than Chrome gave them
  (`BridgeConnection.CountingOrderMatters`). The exact condition is
  `BridgeConnection.AttachmentsOutliveCleanupIff`.
* An approval registered under an id that is in use is lost when the first one times out
  (`ApprovalRegistry.ReusedIdIsLost`). Of two cancelled runs in flight under one id, the first to
  return revives the other, which then writes frames without end
  (`BridgeConnection.TwinOutlivesItsCancellation`).
* The LRU cache accepts negative costs, which no caller passes; with them its bound is safe only as
  far as `LruCache.BoundSurvivesDeletionsIff` says.

## Main results

* Review diffs: `WordDiff.DiffIsLosslessAndOptimal`, `PatchHunks.EveryHunkShowsItsLines`,
  `PatchHunks.RoundTrip`, `GitSummary.StatRoundTrip`, `GitSummary.MergeKeepsNumstatTotals`,
  `PatchHunks.EveryHunkHasItsWordDiffs`, `GitSummary.MergedRecordsSay`, `ArgvChunks.ChunkFilesByArgv`,
  `ConcurrentMap.EveryIndexOnce`, `CatFile.EveryObjectIsRecovered`, `CatFile.TruncationIsNoticed`,
  `GitObjects.OwnObjectsIffSpecsAreLines`.
* Connection store: `ConnectionStore.OneDriverOverEveryRun`,
  `ConnectionStore.SupersededIsInertOverRuns`, `ConnectionStore.NothingReconnects`,
  `ConnectionStore.LostConnectionComesBack`, `ConnectionStore.AttemptsStartExactlySo`,
  `ConnectionStore.RetriesBackOff`, `ConnectionStore.RevocationClearsActiveToken`.
* Browser bridge: `BridgeHost.ReaderNeverBlocks`, `BridgeHost.RepliesAreOwn`,
  `BridgeConnection.CleanupDetachesExactly`, `BridgeConnection.AttachmentsOutliveCleanupIff`,
  `BridgeConnection.CancelledSendsAtMostOne`, `BridgeHost.BodiesTellWhy`.
* Caches: `LruCache.BoundHolds`, `LruCache.SetEvictsAsFewAsItMust`,
  `LruCache.EntriesAreInRecencyOrder`, `ReviewCache.CallsReturnWhen`, `ReviewCache.OnlyCurrentKeys`,
  `ReviewCache.ReturnedOutcomesAreOwn`, `ReviewCache.OwnSnapshotIffIdsDetermine`,
  `ReviewCache.LookupIsRightIffFilesAreDistinct`.
* Smaller pieces: `SseStream.ConsumeSse`, `SseStream.EveryPayloadIsObserved`,
  `AppDedupe.DedupeMacApplications`, `ApprovalRegistry.ExactlyOnce`, `ApprovalRegistry.BulkIsExact`.

## Model

| member | source | states |
|---|---|---|
| `WordDiff.Tokens` | apps/desktop/src/main/review-git-engine.ts:856-857 | No token is empty and the tokens of a line join back to the line, whatever the character classes are |
| `WordDiff.TokensAreMaximalRuns` | apps/desktop/src/main/review-git-engine.ts:856-857 | Each token is a maximal run: of spaces, of characters that are no word characters and do not begin with a space, or of word characters |
| `WordDiff.RunsAreUnique` | apps/desktop/src/main/review-git-engine.ts:856-857 | No other list of maximal runs joins back to the same text |
| `WordDiff.LcsIsUpperBound` | apps/desktop/src/main/review-git-engine.ts:860-866 | No common subsequence of two token lists is longer than the value the table's recurrence computes for them |
| `WordDiff.ScriptIsOptimal` | apps/desktop/src/main/review-git-engine.ts:876-889 | The backtracked script turns the old tokens into the new ones, and the tokens it keeps are a longest common subsequence of both |
| `WordDiff.DeletionsComeFirst` | apps/desktop/src/main/review-git-engine.ts:876-889 | Within every changed stretch the script deletes before it inserts, as ties are decided |
| `WordDiff.SegmentsSpellSides` | apps/desktop/src/main/review-git-engine.ts:871-875 | Merging neighbouring pieces keeps each side's text, leaves no two neighbours of one kind, and marks the same text equal on both sides |
| `WordDiff.DiffIsLosslessAndOptimal` | apps/desktop/src/main/review-git-engine.ts:855-891 | For every two texts each side's segments concatenate to its text, adjacent segments differ in kind, and both sides agree on the equal text; up to a product of 14,400 tokens what is marked equal is a longest common subsequence, and beyond it each side is one segment |
| `WordDiff.CellsNeverWrap` | apps/desktop/src/main/review-git-engine.ts:858-859 | Within the product limit of 14,400 no table cell exceeds 120, so 16-bit cells hold every value exactly |
| `WordDiff.FillTable` | apps/desktop/src/main/review-git-engine.ts:859-866 | The filled 16-bit table holds at each cell the length of a longest common subsequence of the two suffixes |
| `WordDiff.Backtrack` | apps/desktop/src/main/review-git-engine.ts:867-890 | Walking a filled table yields the merged sides of the optimal script |
| `WordDiff.InlineWordDiff` | apps/desktop/src/main/review-git-engine.ts:855-891 | The whole computation, with its early return for long lines, yields the lossless and optimal diff |
| `PatchHunks.HeaderReadsBack` | apps/desktop/src/main/review-git-engine.ts:799-808 | A hunk header, with or without its counts of one and with any section heading, reads back as the four numbers it was printed from |
| `PatchHunks.OnlyHeadersMatch` | apps/desktop/src/main/review-git-engine.ts:799-808 | A line read as a hunk header is one: it states two ranges, each with a count after its comma or else a count of one, and the numbers read are those |
| `PatchHunks.StatedHeaderReads` | apps/desktop/src/main/review-git-engine.ts:799-808 | Every line that states two ranges so is read as a header, with a bare comma too and whatever follows |
| `PatchHunks.ParseReviewPatchHunks` | apps/desktop/src/main/review-git-engine.ts:779-836 | The scan with its running counters yields the hunks that cutting at headers, numbering each line by the lines above it, and enriching give |
| `PatchHunks.SectionsKeepEveryLine` | apps/desktop/src/main/review-git-engine.ts:798-833 | Every line from the first header on is kept exactly once and in order |
| `PatchHunks.ParsedLineKeepsItsText` | apps/desktop/src/main/review-git-engine.ts:817-832 | A parsed line still determines the raw line it came from, but for a context line that had no leading space |
| `PatchHunks.NumbersAreConsecutive` | apps/desktop/src/main/review-git-engine.ts:802-803 | In every hunk the k-th old-side line is numbered oldStart + k and the k-th new-side line newStart + k |
| `PatchHunks.EveryHunkShowsItsLines` | apps/desktop/src/main/review-git-engine.ts:779-853 | For every patch text: no header stands before the first hunk, and from there the enriched hunks show all lines one after the other, each with the header its ranges were read from, every line with its own text and kind, and numbers that run on from the start of each side |
| `PatchHunks.RenderedHunksReadBack` | apps/desktop/src/main/review-git-engine.ts:779-836 | Rendered well-formed hunks parse back to themselves, enriched, less the CRs that stand before line breaks |
| `PatchHunks.RoundTrip` | apps/desktop/src/main/review-git-engine.ts:779-836 | Parsing returns the hunks a text without final newline was rendered from if and only if no line but the last ends in CR |
| `PatchHunks.FinalNewlineAddsContext` | apps/desktop/src/main/review-git-engine.ts:780-830 | With a final newline the last hunk gets exactly one more, empty, context line, and the result is never the hunks that were rendered |
| `PatchHunks.EnrichmentChangesNothingElse` | apps/desktop/src/main/review-git-engine.ts:838-853 | Enrichment adds word diffs to removed and added lines only, each spelling its line's text, and changes no other field of any line |
| `PatchHunks.GroupIsEnriched` | apps/desktop/src/main/review-git-engine.ts:840-851 | Wherever a run of removed lines and the run of added lines right after it stand, the k-th removed line shows what it loses against the k-th added one and that one what it gains; unpaired lines and all around them stay as they would be alone |
| `PatchHunks.WordDiffsArePaired` | apps/desktop/src/main/review-git-engine.ts:838-853 | For any lines: two lines at the same place of a removed run and of the added run right behind it carry the two sides of the word diff of their two texts, and every line without such a partner stays as it is |
| `PatchHunks.EveryHunkHasItsWordDiffs` | apps/desktop/src/main/review-git-engine.ts:779-853 | In every hunk of every parsed patch exactly the paired lines carry word diffs, each of its own text against its partner's |
| `PatchHunks.EnrichWordDiffs` | apps/desktop/src/main/review-git-engine.ts:838-853 | The index loop over runs yields the group-wise enrichment |
| `PatchHunks.EnrichPairs` | apps/desktop/src/main/review-git-engine.ts:846-850 | The k-th removed and the k-th added line get the two sides of their word diff, and unpaired lines none |
| `Lines.SplitUndoesJoin` | apps/desktop/src/main/review-git-engine.ts:780 | Lines joined with any mix of LF and CRLF split back into the same lines |
| `Lines.JoinUndoesSplit` | scripts/diagnostics/diagnose-duckcoding-thinking.ts:378 | Every text is a join of the lines it splits into, so no character outside terminators is lost |
| `GitSummary.ParseNameStatusZ` | apps/desktop/src/main/review-git-engine.ts:685-704 | The index loop over NUL-separated fields reads the records field by field, with inline or following paths |
| `GitSummary.StatusRoundTrip` | apps/desktop/src/main/review-git-engine.ts:685-704 | Printing name-status records, each rename or copy with a similarity score of its own, and parsing the output gives the same records |
| `GitSummary.StatusIsRead` | apps/desktop/src/main/review-git-engine.ts:689-701 | A record of one path is read alike with its path inlined after a tab or in the next field; A, D and T mean added, deleted and retyped, every other letter modified |
| `GitSummary.MoveIsRead` | apps/desktop/src/main/review-git-engine.ts:695-699 | A record of two paths is read as a rename or a copy from the first to the second, its first path inlined or not |
| `GitSummary.CutShortIsSkipped` | apps/desktop/src/main/review-git-engine.ts:696-701 | Output that ends before a record's path yields no record |
| `GitSummary.ParseNumstatZ` | apps/desktop/src/main/review-git-engine.ts:706-726 | The index loop reads plain and renamed numstat records field by field and skips what does not match |
| `GitSummary.StatRoundTrip` | apps/desktop/src/main/review-git-engine.ts:706-726 | Printing numstat records and parsing the output drops exactly the plain records whose path holds a line terminator, and so is the identity if and only if there are none |
| `GitSummary.PlainStatIsRead` | apps/desktop/src/main/review-git-engine.ts:711-719 | Two counts and a path are a record, with a dash for a binary file's count, unless the path holds one of the four line terminators |
| `GitSummary.MovedStatIsRead` | apps/desktop/src/main/review-git-engine.ts:721-723 | With an empty path the previous and the new path are the next two fields, and without the second there is no record |
| `GitSummary.OtherFieldsAreSkipped` | apps/desktop/src/main/review-git-engine.ts:711-713 | A field with fewer than two tabs or an empty count is skipped |
| `GitSummary.MergeSummaryRecords` | apps/desktop/src/main/review-git-engine.ts:728-748 | The map of stats, the pass over statuses that empties it, and the pass over the rest yield the join by path |
| `GitSummary.MergedRecordsSay` | apps/desktop/src/main/review-git-engine.ts:728-748 | Every merged record in full: the first carry the status and path of the statuses in order, the counts of the last numstat record of the path unless an earlier status took it, and the status's previous path before that record's; the others are the paths no status names, in the order numstat first names them, renamed exactly if they have a previous path that is not empty and otherwise modified |
| `GitSummary.MergeConserves` | apps/desktop/src/main/review-git-engine.ts:728-748 | Whatever the statuses are, the merged additions and deletions total those of the stats held by path |
| `GitSummary.MergeKeepsNumstatTotals` | apps/desktop/src/main/review-git-engine.ts:732-746 | The merged totals never exceed the numstat totals, and equal them if and only if every superseded record counts no lines |
| `GitSummary.MergeDropsSuperseded` | apps/desktop/src/main/review-git-engine.ts:732-746 | For any outputs the merged totals and those of the superseded numstat records, the ones a later record of the same path replaces, add up to the numstat totals |
| `GitSummary.MergeGivesOwnCounts` | apps/desktop/src/main/review-git-engine.ts:733-743 | Every merged record carries exactly the counts numstat gave for its own path, and zero where it gave none, if and only if no path that two statuses share has counts or is binary |
| `GitSummary.OneRecordPerPath` | apps/desktop/src/main/review-git-engine.ts:728-748 | The merged paths are the union of the paths of both outputs, with exactly one record each if and only if no path has two status records |
| `ArgvChunks.ChunkFilesByArgv` | apps/desktop/src/main/review-git-engine.ts:989-1005 | The chunks concatenate to the input, each is a single file or within the budget, and no other in-order split of that kind has fewer chunks |
| `ArgvChunks.WithoutLastFile` | apps/desktop/src/main/review-git-engine.ts:989-1005 | Taking the last file out of any valid split leaves a valid split with at most one chunk less |
| `ConcurrentMap.EveryIndexOnce` | apps/desktop/src/main/review-git-engine.ts:976-987 | Over every interleaving each index is claimed once and in order, there are min(max(1, c), n) workers, all of them at work while items are left and none has failed, and on success every place holds the result of its own item |
| `ConcurrentMap.StepPreserves` | apps/desktop/src/main/review-git-engine.ts:979-984 | Every settled or failed task keeps the invariant of claims, workers and results |
| `ConcurrentMap.Mapping.constructor` | apps/desktop/src/main/review-git-engine.ts:977-984 | Starting the workers brings each to its first await with its own index |
| `ConcurrentMap.Mapping.TaskSettled` | apps/desktop/src/main/review-git-engine.ts:980-983 | A finished task stores its result at its index and its worker claims the next index or ends |
| `CatFile.HeaderReadsBack` | apps/desktop/src/main/review-git-worker.ts:70-72 | The header git prints for a blob reads back as the blob's size |
| `CatFile.OnlyObjectLinesMatch` | apps/desktop/src/main/review-git-worker.ts:52-72 | A line read as an object is a name of hexadecimal digits, a kind and a size with white space between them, and kind and size are those read |
| `CatFile.CheckLinesAreClassified` | apps/desktop/src/main/review-git-worker.ts:45-61 | Of the lines git prints in the check pass, a blob's leads to fetching it if and only if it is no larger than allowed, and a missing object's never does |
| `CatFile.EveryObjectIsRecovered` | apps/desktop/src/main/review-git-worker.ts:66-82 | From the concatenated records of any contents, also those holding newlines, NULs or header-like bytes, the parser recovers each content exactly and in order |
| `CatFile.ReadingStopsBecause` | apps/desktop/src/main/review-git-worker.ts:68-73 | Reading stops with an incomplete header exactly where no line ends, and with an incomplete object where the line is no blob header or the blob is cut short |
| `CatFile.TruncationIsNoticed` | apps/desktop/src/main/review-git-worker.ts:68-73 | A stream cut short anywhere is accepted if and only if only the very last separator is missing |
| `CatFile.ReadBatch` | apps/desktop/src/main/review-git-worker.ts:66-82 | The offset loop stays in bounds and yields the n objects of the stream, or the error of the first that is incomplete |
| `CatFile.FirstFourAreTaken` | apps/desktop/src/main/review-git-worker.ts:39 | The first four requests are served and no others |
| `CatFile.LoadGitObjects` | apps/desktop/src/main/review-git-worker.ts:38-85 | There is one outcome per request in request order, and with distinct keys each is what the check line and the object at its own position call for |
| `GitObjects.OwnObjectsIffSpecsAreLines` | apps/desktop/src/main/review-git-worker.ts:39-85 | Whatever the repository holds, each request gets the text of its own object, or that it is missing, no blob, too large or no text, if and only if no spec holds an LF or ends in a CR |
| `GitObjects.NewlineShiftsAnswers` | apps/desktop/src/main/review-git-worker.ts:40-75 | After a spec of two lines the next request is given the text of the object that the second line names |
| `GitObjects.PrintedReadsBack` | apps/desktop/src/main/review-git-worker.ts:42 | Lines that end visibly and hold no LF survive being printed with final LFs, trimmed and split |
| `GitObjects.LoadOwnObjects` | apps/desktop/src/main/review-git-worker.ts:38-85 | With distinct keys and specs that are lines, both passes over a repository yield every request's own outcome in order |
| `SseStream.ConsumeSse` | scripts/diagnostics/diagnose-duckcoding-thinking.ts:364-398 | Whatever the chunks are, the final observation is that of the lines of the whole decoded text |
| `SseStream.ChunkArrives` | scripts/diagnostics/diagnose-duckcoding-thinking.ts:377-379 | A chunk completes and continues lines without changing any line completed before, even when it cuts between CR and LF |
| `SseStream.OnlyTheLinesMatter` | scripts/diagnostics/diagnose-duckcoding-thinking.ts:375-395 | Any two cuts of one text, and any two choices of LF and CRLF between the same lines, are observed alike; these are the two of the line endings of section 9.2.5 of the WHATWG HTML Living Standard that the code knows |
| `SseStream.OnlyDataIsObserved` | scripts/diagnostics/diagnose-duckcoding-thinking.ts:381-395 | Only lines that begin with data: count; empty ones and the end mark do not, a text that cannot be parsed is counted as such, and a record is observed |
| `SseStream.EveryPayloadIsObserved` | scripts/diagnostics/diagnose-duckcoding-thinking.ts:372-398 | Of a stream with one event for each payload, cut into any chunks, every payload is observed once and in order, and nothing else |
| `ConnectionStore.OneDriverOverEveryRun` | apps/web/src/connection/connection-store.ts:182-304 | At every step boundary of every run connecting has one live attempt of the current generation, reconnecting has either that or an armed timer of the current generation but not both, all other statuses have neither, the connection exists exactly in ready with its id equal to the generation, a live attempt or connection has the store's socket, and no superseded socket is left open |
| `ConnectionStore.SupersededIsInert` | apps/web/src/connection/connection-store.ts:193-242 | An attempt whose generation was overtaken changes neither state nor saved hosts nor anything else of the store, whatever point it had reached and however its await settles |
| `ConnectionStore.SupersededEnds` | apps/web/src/connection/connection-store.ts:216-239 | A superseded attempt ends at the next answer to it, but for a description, after which the one that follows ends it; a socket it was using is closed |
| `ConnectionStore.SupersededIsInertOverRuns` | apps/web/src/connection/connection-store.ts:193-281 | Deleting all events of a superseded attempt from a run changes nothing but that attempt's own record |
| `ConnectionStore.UndisturbedPairingIsReady` | apps/web/src/connection/connection-store.ts:193-235 | From wherever the store is, a pairing that nothing disturbs ends ready under a connection of its own generation, with the paired host on display and saved |
| `ConnectionStore.UndisturbedResumeIsReady` | apps/web/src/connection/connection-store.ts:193-235 | Resuming that nothing disturbs ends ready on the active saved host and leaves the saved hosts as they were |
| `ConnectionStore.LostConnectionComesBack` | apps/web/src/connection/connection-store.ts:211-273 | After a close that neither revokes nor asks to connect at once, the timer of that generation and undisturbed replies bring a ready store back to ready on the saved host, with no failure counted and the saved hosts as they were |
| `ConnectionStore.ResumingRecovers` | apps/web/src/connection/connection-store.ts:133-303 | Whatever makes the store connect again, starting, a call, the timer, a return to the foreground, a failed probe or a close that asks for it, undisturbed it ends ready on the saved host |
| `ConnectionStore.StartingIsReady` | apps/web/src/connection/connection-store.ts:113-135 | A new store that finds a token saved is ready after its start, undisturbed |
| `ConnectionStore.AttemptsStartExactlySo` | apps/web/src/connection/connection-store.ts:132-303 | A step starts an attempt if and only if the store is not disposed, a socket can be created, and the user pairs or something makes it resume with a token saved |
| `ConnectionStore.ResumingStarts` | apps/web/src/connection/connection-store.ts:193-213 | Resuming replaces socket, timer and listener by one attempt on the saved host, and shows connecting or, after a connection or while reconnecting, reconnecting |
| `ConnectionStore.ResumingWithoutToken` | apps/web/src/connection/connection-store.ts:199-203 | Resuming without a token ends idle, showing the saved host |
| `ConnectionStore.ResumingWithoutSocket` | apps/web/src/connection/connection-store.ts:208-252 | Resuming where no socket can be created waits for its next turn with one more failure counted |
| `ConnectionStore.PairingStarts` | apps/web/src/connection/connection-store.ts:138-213 | Pairing starts an attempt from wherever the store is and drops the reason of an earlier revocation |
| `ConnectionStore.PairingWithoutSocketFails` | apps/web/src/connection/connection-store.ts:138-249 | Pairing where no socket can be created fails for good |
| `ConnectionStore.ForgottenHostIsGone` | apps/web/src/connection/connection-store.ts:155-160 | Forgetting ends idle with no host on display and takes exactly that host out of the saved hosts; every other one is found as before |
| `ConnectionStore.NothingReconnects` | apps/web/src/connection/connection-store.ts:148-175 | After disconnecting, being revoked or failing for good, no timer, late reply, socket close, probe or return to the foreground changes what subscribers see or the saved hosts |
| `ConnectionStore.DisconnectedStaysIdle` | apps/web/src/connection/connection-store.ts:148-152 | After disconnecting the store is idle with the host still on display and saved, and nothing from outside changes that |
| `ConnectionStore.DisposedIsFinal` | apps/web/src/connection/connection-store.ts:169-175 | After dispose no event opens a socket, arms a timer or starts an attempt |
| `ConnectionStore.DisposingIsDone` | apps/web/src/connection/connection-store.ts:169-175 | Disposing brings every store there and keeps the saved hosts |
| `ConnectionStore.RetriesBackOff` | apps/web/src/connection/connection-store.ts:53-273 | Over any number of failing retries the store keeps waiting for its next timer, and each wait is that for the failures so far: one second, doubled each time, at most thirty |
| `ConnectionStore.FailureOutcome` | apps/web/src/connection/connection-store.ts:229-253 | A current attempt's rejection or invalid answer ends in revocation with its reason, in failure or in a timer after one more failure, each exactly by the error's kind, the close code and whether it was pairing; the error is shown and nothing is left open |
| `ConnectionStore.CloseDecidesFailure` | apps/web/src/connection/connection-store.ts:211-240 | A close during an attempt changes nothing at once, but its code decides how the attempt's failure ends |
| `ConnectionStore.ReportedErrorOutcome` | apps/web/src/connection/connection-store.ts:163-167 | A reported error revokes with its own reason, only notes maintenance, or changes nothing, by its kind |
| `ConnectionStore.HostNoticeIsShown` | apps/web/src/connection/connection-store.ts:231-233 | The host's notice of its state is shown by a ready store and ignored by any other |
| `ConnectionStore.DropOutcome` | apps/web/src/connection/connection-store.ts:211-264 | Losing a ready connection ends revoked, idle, connecting or reconnecting, each if and only if its condition on the close code, on whether a token is saved and on whether a socket can be created holds; it is connecting after code 4008 with a token and a socket, and idle after 4008 without a token |
| `ConnectionStore.SavedHostsChangeOnlySo` | apps/web/src/connection/connection-store.ts:155-281 | The saved hosts change only when a current pairing is accepted, when the host is forgotten, or when the store ends up revoked |
| `ConnectionStore.RevocationClearsActiveToken` | apps/web/src/connection/connection-store.ts:275-281 | Revocation leaves the active saved host without token if and only if that host is the one on display or had no token |
| `ConnectionStore.RevocationIsShown` | apps/web/src/connection/connection-store.ts:275-281 | After a revocation subscribers see its reason, the error if there was one, and what is still saved of the active host |
| `ConnectionStore.RevocationKeepsOthers` | apps/web/src/connection/saved-hosts.ts:38-42 | Revocation takes no token from a host that is not on display and keeps which host is active |
| `ConnectionStore.ActiveHostIsFirst` | apps/web/src/connection/saved-hosts.ts:7-25 | The active host is the first saved one of the active id, if and only if no saved host lacks a field |
| `ConnectionStore.LatePairingKeepsItsToken` | apps/web/src/connection/connection-store.ts:223-280 | A run in which a late failing pairing keeps its saved token through a revocation |
| `ConnectionStore.SavedHostReadsBack` | apps/web/src/connection/saved-hosts.ts:7-35 | A saved host is found again if and only if none of its id, device id, address, device name and pairing time is empty |
| `ConnectionStore.ConnectionStore.constructor` | apps/web/src/connection/connection-store.ts:113-124 | A new store is idle, shows the active saved host and satisfies the invariant |
| `ConnectionStore.ConnectionStore.Connect` | apps/web/src/connection/connection-store.ts:193-213 | Connecting up to its first await is the step the invariant is proved for, with every early return |
| `ConnectionStore.ConnectionStore.Continue` | apps/web/src/connection/connection-store.ts:216-241 | Resuming an attempt after each of its awaits, current or superseded, is the step the invariant is proved for |
| `ConnectionStore.ConnectionStore.Fail` | apps/web/src/connection/connection-store.ts:244-253 | Failing is the step the invariant is proved for |
| `ConnectionStore.ConnectionStore.Drop` | apps/web/src/connection/connection-store.ts:255-264 | Dropping is the step the invariant is proved for |
| `ConnectionStore.ConnectionStore.Schedule` | apps/web/src/connection/connection-store.ts:266-273 | Scheduling arms one timer of the current generation |
| `ConnectionStore.ConnectionStore.TimerFired` | apps/web/src/connection/connection-store.ts:270-271 | The timer's callback connects if its generation is still current |
| `ConnectionStore.ConnectionStore.Revoke` | apps/web/src/connection/connection-store.ts:275-281 | Revoking is the step the invariant is proved for |
| `ConnectionStore.ConnectionStore.Forget` | apps/web/src/connection/connection-store.ts:155-160 | Forgetting disconnects and removes the host on display |
| `ConnectionStore.ConnectionStore.Wake` | apps/web/src/connection/connection-store.ts:284-290 | Returning to the foreground connects at once only while reconnecting |
| `ConnectionStore.ConnectionStore.ProbeFailed` | apps/web/src/connection/connection-store.ts:293-301 | A failed probe reconnects only under the generation and connection it was begun for |
| `BridgeHost.StepKeeps` | browser-bridge/apps/cli/main.go:1862-1978 | Every registration, write, response, send, receipt, cancellation and timeout keeps the correlation invariant, so that it holds after every interleaving of them |
| `BridgeHost.UndisturbedCallIsAnswered` | browser-bridge/apps/cli/main.go:1872-1976 | A call that nothing disturbs returns exactly what the extension answered to its frame, under its caller's id, and leaves nothing pending |
| `BridgeHost.ReaderNeverBlocks` | browser-bridge/apps/cli/main.go:1970-1976 | Whenever the reader holds a response, its channel has room and has never been sent on, so the send cannot block |
| `BridgeHost.AtMostOneSend` | browser-bridge/apps/cli/main.go:1866-1976 | Each one-slot channel sees at most one send |
| `BridgeHost.RepliesAreOwn` | browser-bridge/apps/cli/main.go:1886-1903 | A returned call has its caller's id back, is no longer pending, and what came from the extension answered its own frame and no other call's |
| `BridgeHost.WaitingCallsAreReachable` | browser-bridge/apps/cli/main.go:1872-1888 | A waiting call has lost nothing: its entry is pending, the reader holds its response, or its channel does |
| `BridgeHost.LateResponsesAreDropped` | browser-bridge/apps/cli/main.go:1893-1974 | A response to a call that has returned, and any second response to one call, reaches nobody |
| `BridgeHost.RepliesAreFinal` | browser-bridge/apps/cli/main.go:1886-1904 | Nothing that happens later changes what a call returned |
| `BridgeHost.BodiesTellWhy` | browser-bridge/apps/cli/main.go:1868-1903 | Over every run a returned call returned at one step, and its body tells which: the response in its channel, a cancellation, the timeout, a missing extension or a failed write |
| `BridgeHost.GivingUpIsSeen` | browser-bridge/apps/cli/main.go:1891-1902 | A cancellation and a timeout end the call they hit at once, each with its own error, and leave no entry |
| `BridgeHost.FramesAreWrittenExactlySo` | browser-bridge/apps/cli/main.go:1868-1881 | One frame is written for each call that finds the extension and whose write succeeds, under its own host id, and none otherwise |
| `BridgeHost.RegisteringIsSafeIffFresh` | browser-bridge/apps/cli/main.go:1864-1881 | Registering keeps the correlation invariant if and only if the host id belongs to no earlier call |
| `BridgeHost.ReusedIdCrosses` | browser-bridge/apps/cli/main.go:1864-1872 | Why host ids must be fresh: a repeated id hands the first frame's answer to the second call |
| `BridgeHost.BridgeHost.Register` | browser-bridge/apps/cli/main.go:1863-1881 | Registration, failed write and missing extension are the step the invariant is proved for, and the call waits exactly when its frame was written |
| `BridgeHost.BridgeHost.Take` | browser-bridge/apps/cli/main.go:1967-1973 | The reader's locked region takes the entry out with the lookup |
| `BridgeHost.BridgeHost.Send` | browser-bridge/apps/cli/main.go:1974-1976 | The reader's send is always enabled and frees the reader |
| `BridgeHost.BridgeHost.Receive` | browser-bridge/apps/cli/main.go:1888-1890 | Receiving returns the response under the caller's id |
| `BridgeHost.BridgeHost.GiveUp` | browser-bridge/apps/cli/main.go:1891-1902 | Cancellation and timeout leave no entry behind |
| `AttachedTabs.CountingReflects` | browser-bridge/apps/cli/session.go:158-170 | Incrementing and decrementing in place keeps the map equal to the running count floored at zero, with zero never stored |
| `AttachedTabs.BalanceIsDifference` | browser-bridge/apps/cli/session.go:158-170 | The running count is attaches minus those detaches that found one to undo |
| `AttachedTabs.ExpandedAttachedTabs` | browser-bridge/apps/cli/session.go:170-178 | The expanded list names every tab exactly as often as it is counted, in whatever order the map is visited |
| `BridgeConnection.StoredCountsBalance` | browser-bridge/apps/cli/main.go:1711-1747 | Until cleanup begins every stored count is the running count of what was counted so far, and what the extension acknowledged but nobody counted yet is exactly what some dispatch is about to count |
| `BridgeConnection.CleanupDetachesExactly` | browser-bridge/apps/cli/main.go:1749-1762 | When the connection is done, cleanup has issued for each tab exactly as many detaches as its running count, and every acknowledged attach and detach had been counted before |
| `BridgeConnection.WhatChromeStillHolds` | browser-bridge/apps/chrome-extension/src/background.js:573-598 | When the connection is done, Chrome's count of a tab, floored as Chrome floors it, is exactly: attaches that took effect for calls that gave up, detaches of the cleanup not carried out and detaches idle in Chrome, less detaches that took effect for calls that gave up and detaches idle in the host's count |
| `BridgeConnection.AttachmentsOutliveCleanupIff` | browser-bridge/apps/cli/main.go:1711-1768 | A tab stays attached after the cleanup if and only if the former three are more than the latter two |
| `BridgeConnection.IdleDetachMakesUpForNothing` | browser-bridge/apps/cli/main.go:1711-1768 | A run from the start in which one attach is given up, one detach had nothing to undo, and the tab stays attached |
| `BridgeConnection.RefusedDetachUndoesNothing` | browser-bridge/apps/cli/main.go:1755-1762 | A run from the start in which nothing is given up, the cleanup's only detach fails, and the tab stays attached |
| `BridgeConnection.CountingOrderMatters` | browser-bridge/apps/cli/main.go:1733-1745 | A run from the start in which everything is acknowledged and counted, in another order than Chrome's, and the tab stays attached |
| `BridgeConnection.NothingCountedAfterwards` | browser-bridge/apps/cli/main.go:1800-1805 | Because the workers are awaited, no attach or detach is acknowledged to them or counted once cleanup has begun |
| `BridgeConnection.CancellationStays` | browser-bridge/apps/cli/main.go:1652-1698 | With distinct ids in flight a recorded cancellation, or a close, stays visible to its dispatch until the dispatch returns |
| `BridgeConnection.CancelledSendsAtMostOne` | browser-bridge/apps/cli/main.go:1699-1705 | Over every later run a cancelled dispatch writes at most one more frame, the one already past its check |
| `BridgeConnection.CancelRequestStops` | browser-bridge/apps/cli/main.go:1659-1666 | A cancel request has that effect on a dispatch in flight and on one a worker has yet to begin |
| `BridgeConnection.CancelMarksItsId` | browser-bridge/apps/cli/main.go:1659-1666 | A cancel makes its own id cancelled, if it has 1 to 128 characters, and no other |
| `BridgeConnection.UndeliveredFrameIsNone` | browser-bridge/apps/cli/main.go:1876-1881 | A frame that cannot be written is not counted as sent and leaves its dispatch free to go on |
| `BridgeConnection.SessionEndIsSent` | browser-bridge/apps/cli/main.go:1670-1682 | The frame that ends a session is written although all requests of the session are stopped |
| `BridgeConnection.ClosingMarksAll` | browser-bridge/apps/cli/main.go:1640-1647 | Losing the connection marks it and every request it knows, and changes nothing else |
| `BridgeConnection.BeginningCancelsNobody` | browser-bridge/apps/cli/main.go:1684-1690 | A request that begins is known from then on, and every cancellation stays as it was |
| `BridgeConnection.GivenUpMayTakeEffect` | browser-bridge/apps/cli/main.go:1838-1850 | An attach or detach given up before it took effect may still take effect, and then counts as one of those |
| `BridgeConnection.OverdueDetachMayTakeEffect` | browser-bridge/apps/cli/main.go:1755-1762 | A detach of the cleanup that is given up counts as issued and may still take effect, and then counts as carried out |
| `BridgeConnection.ClosingStops` | browser-bridge/apps/cli/main.go:1640-1682 | Losing the connection or ending the session has that effect on every dispatch in flight |
| `BridgeConnection.EarlyCancelSendsNothing` | browser-bridge/apps/cli/main.go:1664-1691 | A request whose cancellation arrived first never writes a frame |
| `BridgeConnection.ReturningKeepsOthersCancelled` | browser-bridge/apps/cli/main.go:1691 | A returning dispatch leaves another's cancellation visible if and only if the connection is closed, it was itself no run or execute, or their ids differ |
| `BridgeConnection.TwinOutlivesItsCancellation` | browser-bridge/apps/cli/main.go:1659-1705 | For any id and any number k, a run from the start in which two requests share the id, both are cancelled, one returns, and the other then writes k frames |
| `BridgeConnection.BridgeConnection.Cancel` | browser-bridge/apps/cli/main.go:1659-1666 | An accepted cancel is visible at once; an empty or overlong id changes nothing |
| `BridgeConnection.BridgeConnection.MarkAll` | browser-bridge/apps/cli/main.go:1641-1646 | The loop over the map marks every active request and the connection |
| `BridgeConnection.BridgeConnection.Begin` | browser-bridge/apps/cli/main.go:1685-1690 | Beginning keeps a cancellation that came first |
| `BridgeConnection.BridgeConnection.Check` | browser-bridge/apps/cli/main.go:1693-1702 | The check passes exactly when no cancellation is visible |
| `BridgeConnection.BridgeConnection.Count` | browser-bridge/apps/cli/main.go:1731-1745 | A successful attach or detach changes the count of its tab by one, floored at zero |
| `BridgeConnection.BridgeConnection.Finish` | browser-bridge/apps/cli/main.go:1691 | Returning removes the request's own flag only |
| `BridgeConnection.BridgeConnection.Cleanup` | browser-bridge/apps/cli/main.go:1749-1762 | Cleanup issues one detach for each counted attachment and leaves no count behind, whatever becomes of each detach |
| `BridgeConnection.BridgeConnection.DetachNext` | browser-bridge/apps/cli/main.go:1755-1762 | One detach of the cleanup is the step the invariant is proved for, whether it is carried out and answered, carried out unanswered, late or refused |
| `CommandBatch.RunBatch` | browser-bridge/apps/cli/command_router.go:151-178 | Exactly the actions before the first cancellation or stopping failure are executed, in order and with one entry each at its own place; failures stop a batch that asks for it or that does more than read; the reply tells which of the three ends it was |
| `LruCache.EvictsShortestPrefix` | apps/desktop/src/renderer/lru-cache.ts:36-40 | Eviction removes exactly the shortest oldest-first prefix that restores the bound |
| `LruCache.SetEvictsAsFewAsItMust` | apps/desktop/src/renderer/lru-cache.ts:31-41 | Storing takes the key out, adds it as the most recent entry and evicts the shortest oldest-first prefix that restores the bound; an entry above the whole bound is not kept |
| `LruCache.GetKeepsValues` | apps/desktop/src/renderer/lru-cache.ts:18-24 | Reading changes no held value and makes its entry the most recent one |
| `LruCache.AcceptedKeyIsKept` | apps/desktop/src/renderer/lru-cache.ts:31-41 | An entry that is accepted survives its own storing as the most recent one, and the bound holds |
| `LruCache.BoundHolds` | apps/desktop/src/renderer/lru-cache.ts:31-54 | With non-negative costs the total never exceeds the bound after any sequence of operations |
| `LruCache.BoundSurvivesDeletionsIff` | apps/desktop/src/renderer/lru-cache.ts:43-49 | Without the hypothesis on costs, the total stays within the bound under every series of deletions if and only if the positive costs held add up to no more than the bound |
| `LruCache.EntriesAreInRecencyOrder` | apps/desktop/src/renderer/lru-cache.ts:18-41 | After any sequence of operations the held entries stand in the order of their last read or store, so the least recently used goes first |
| `LruCache.LruCache.Get` | apps/desktop/src/renderer/lru-cache.ts:18-24 | Reading returns the held value and makes its entry the most recent, at no change of the total |
| `LruCache.LruCache.Set` | apps/desktop/src/renderer/lru-cache.ts:31-41 | The eviction loop with its running total refines storing on the recency list |
| `LruCache.LruCache.Delete` | apps/desktop/src/renderer/lru-cache.ts:43-49 | Deleting removes the key, lowers the total by its cost and tells whether it was held |
| `ReviewCache.FirstOccurrencesKeepAll` | apps/desktop/src/main/review-coordinator.ts:288-295 | Deduplication keeps every request once, in the order of first occurrence |
| `ReviewCache.DedupeDiffRequests` | apps/desktop/src/main/review-coordinator.ts:288-295 | The loop yields the deduplication of the requests after their context lines were rounded and clamped |
| `ReviewCache.ContextLinesAreClamped` | apps/desktop/src/main/review-coordinator.ts:291 | The context lines are three unless given, and otherwise the whole part of the number given, within 0 and 200 |
| `ReviewCache.RequestIsJudged` | apps/desktop/src/main/review-coordinator.ts:122-133 | A request is refused for the first of stale generation, unknown snapshot and foreign file that applies, changing no cache, and otherwise admitted with the held snapshot and its asks; an empty one is answered at once |
| `ReviewCache.RequestsAreJudged` | apps/desktop/src/main/review-coordinator.ts:123-181 | Of a request's different asks the first 256 diffs, or the first eight contents, are judged |
| `ReviewCache.ProviderIsAskedForMissing` | apps/desktop/src/main/review-coordinator.ts:135-143 | The provider gets one batch with exactly the asks that nothing is held for, in their order, and none if there are none |
| `ReviewCache.PromiseIsAnswered` | apps/desktop/src/main/review-coordinator.ts:146-150 | A promise gets the first outcome for its file, a failure if the batch failed or omits the file, and breaks exactly if the batch is rejected |
| `ReviewCache.CallsReturnWhen` | apps/desktop/src/main/review-coordinator.ts:160-161 | A call returns exactly when one of its promises is broken, by throwing, or when all of them are fulfilled |
| `ReviewCache.RefreshForgets` | apps/desktop/src/main/review-coordinator.ts:250-258 | A refresh raises the generation by one, empties all maps and touches no waiting call |
| `ReviewCache.AskedKeeps` | apps/desktop/src/main/review-coordinator.ts:135-160 | After asking, every request has a promise under its own key, and the provider was called once if something was missing and otherwise not at all |
| `ReviewCache.StepKeeps` | apps/desktop/src/main/review-coordinator.ts:79-263 | Every request, batch or promise completion, cleanup, late snapshot and refresh keeps the cache invariant, so that it holds after every interleaving of them |
| `ReviewCache.FailureIsAskedAgain` | apps/desktop/src/main/review-coordinator.ts:152-156 | A failure is not kept: after its reaction the next request for its key goes to the provider again, unless a later promise holds the key |
| `ReviewCache.OnlyCurrentKeys` | apps/desktop/src/main/review-coordinator.ts:135-263 | Both caches hold only keys of the current generation, and of two provider batches that ask for the same thing under one snapshot id and generation the earlier had answered it with a failure |
| `ReviewCache.ReturnedOutcomesAreOwn` | apps/desktop/src/main/review-coordinator.ts:119-206 | Every outcome returned was computed by a batch for the call's own snapshot id, generation and file, one for each request in order |
| `ReviewCache.OwnSnapshotIffIdsDetermine` | apps/desktop/src/main/review-git-engine.ts:251 | Every run that loads only snapshots of a set gives every call what was asked for the very snapshot it was admitted with, if and only if no two snapshots of the set share id, generation and a file |
| `ReviewCache.SecondIsServedTheFirsts` | apps/desktop/src/main/review-git-engine.ts:251 | For any two snapshots that share id, generation and a file there is a run from the start in which a call admitted with the second returns the outcome of the only batch, which was asked for the first |
| `ReviewCache.SharedIdIsServedFromCache` | apps/desktop/src/main/review-coordinator.ts:124-160 | Whatever else has happened, a good outcome held under an id is served to a newly arrived snapshot of that id, and the provider is not asked |
| `ReviewCache.LateSnapshotIsRefused` | apps/desktop/src/main/review-coordinator.ts:91-127 | A snapshot delivered after a refresh can be found by id again, but no request is admitted to it |
| `ReviewCache.LookupIsRightIffFilesAreDistinct` | apps/desktop/src/main/review-coordinator.ts:146-150 | Whatever an honest provider computes, every request of a batch gets its own outcome if and only if no file is asked for twice |
| `ReviewCache.ReviewCoordinator.AskProvider` | apps/desktop/src/main/review-coordinator.ts:135-151 | Filtering what is missing and entering one promise each is the step the invariant is proved for |
| `ReviewCache.ReviewCoordinator.GetFileDiffs` | apps/desktop/src/main/review-coordinator.ts:122-160 | The code up to the await admits or refuses in the source's order and collects one promise per request |
| `ReviewCache.ReviewCoordinator.GetFileContents` | apps/desktop/src/main/review-coordinator.ts:167-204 | The same for file contents, at most eight of them |
| `ReviewCache.ReviewCoordinator.DropFailure` | apps/desktop/src/main/review-coordinator.ts:152-156 | A failed promise is dropped only while it still holds its key |
| `ReviewCache.ReviewCoordinator.InvalidateResolved` | apps/desktop/src/main/review-coordinator.ts:250-262 | A refresh raises the generation by one and empties all maps |
| `AppDedupe.CompareIsTotalPreorder` | apps/desktop/src/main/file-applications-service.ts:125-134 | On finite components the comparison is reflexive, antisymmetric in sign and transitive, strictly where either step is strict |
| `AppDedupe.CompareTellsHigher` | apps/desktop/src/main/file-applications-service.ts:125-134 | The comparison is positive exactly if the first version has the larger component at the first place where the two differ, missing components counting as zero, or if only the second is missing; and negative the other way round |
| `AppDedupe.CompareVersions` | apps/desktop/src/main/file-applications-service.ts:125-134 | The component loop yields the first non-zero difference, missing components counting as zero and a missing version as least |
| `AppDedupe.KeysIdentifyGroups` | apps/desktop/src/main/file-applications-service.ts:111 | Two applications share a key if and only if they share bundle and name, as long as no bundle holds a NUL |
| `AppDedupe.DedupeMacApplications` | apps/desktop/src/main/file-applications-service.ts:103-123 | There is one entry for each group at its first position, showing its first default or, with none, the first copy that no copy is higher than in its first differing component |
| `AppDedupe.OpenersAreExact` | apps/desktop/src/main/file-applications-service.ts:106-121 | The positions shown are exactly those no earlier copy precedes, in order, and every application without bundle is among them |
| `AppDedupe.EveryGroupHasItsOpener` | apps/desktop/src/main/file-applications-service.ts:112-117 | Every application is represented by exactly one position |
| `ApprovalRegistry.RunKeeps` | apps/desktop/src/main/approval-registry.ts:54-168 | With distinct live ids the registry's invariant holds after every order of registrations, decisions, aborts, expiries and timers |
| `ApprovalRegistry.ExactlyOnce` | apps/desktop/src/main/approval-registry.ts:54-168 | A request is pending exactly while its timer is armed and its promise unresolved, and a resolved one was notified exactly once with its decision |
| `ApprovalRegistry.DecisionsAreFinal` | apps/desktop/src/main/approval-registry.ts:147-168 | A decision once given stands through everything later |
| `ApprovalRegistry.BulkIsExact` | apps/desktop/src/main/approval-registry.ts:111-141 | Aborting a run or expiring a session settles exactly the pending requests it means, notifies each once in order of registration, and touches nobody else |
| `ApprovalRegistry.AbortMeansItsRun` | apps/desktop/src/main/approval-registry.ts:111-119 | Aborting a run settles as aborted the pending requests of that run in that session, and changes nothing for any other |
| `ApprovalRegistry.ExpiryMeansItsSession` | apps/desktop/src/main/approval-registry.ts:133-141 | Expiring settles as timed out the pending requests of the session, or all of them if none or an empty one is named |
| `ApprovalRegistry.DecideIsTakenOnce` | apps/desktop/src/main/approval-registry.ts:91-104 | A decision is taken if and only if the request is pending and a session grant names one of its suggestions; it settles that request alone, with that decision and suggestion; afterwards it is not found again, and a refused one changes nothing |
| `ApprovalRegistry.TimersAndAbortsSettleTheirOwn` | apps/desktop/src/main/approval-registry.ts:61-109 | A timer settles and notifies its own request as timed out, an abort the pending request of its id as aborted, and neither settles anything else |
| `ApprovalRegistry.RegisteringIsSafeIffFresh` | apps/desktop/src/main/approval-registry.ts:61-79 | Registering keeps the invariant if and only if the id is not in use |
| `ApprovalRegistry.ReusedIdIsLost` | apps/desktop/src/main/approval-registry.ts:61-70 | With an id in use, the first request's timer makes the second undecidable although it is unresolved |
| `ApprovalRegistry.PendingApprovalRegistry.WaitForDecision` | apps/desktop/src/main/approval-registry.ts:54-81 | Registration arms one timer and holds the request under its id |
| `ApprovalRegistry.PendingApprovalRegistry.TimerFired` | apps/desktop/src/main/approval-registry.ts:61-70 | The timer's callback is the step the invariant is proved for |
| `ApprovalRegistry.PendingApprovalRegistry.Decide` | apps/desktop/src/main/approval-registry.ts:91-104 | Deciding is the step the invariant is proved for and answers as judged |
| `ApprovalRegistry.PendingApprovalRegistry.ResolveChosen` | apps/desktop/src/main/approval-registry.ts:111-141 | One pass over the map, deleting as it goes, settles exactly the chosen entries and counts them |
| `ApprovalRegistry.PendingApprovalRegistry.AbortAgentRun` | apps/desktop/src/main/approval-registry.ts:111-119 | The count returned is the number of entries that left the registry |
| `ApprovalRegistry.PendingApprovalRegistry.ExpireAll` | apps/desktop/src/main/approval-registry.ts:133-141 | The same for one session, or for all when none or an empty one is named |
| `ApprovalRegistry.PendingApprovalRegistry.ListPending` | apps/desktop/src/main/approval-registry.ts:121-131 | Exactly the pending requests of the session are listed, in order of registration |

## Left out

- Processes, sockets, files, Electron, Chrome, git and WebSocket internals: they are events, arguments or input strings.
- SHA-256 ids and fingerprints of files, hunks and lines: ids are values, and a snapshot's id is any string that may repeat.
- UTF-8, JSON and Unicode tables: texts are sequences of characters, payloads are parsed values, and the character classes of the tokenizer are parameters.
- Clocks: decision and expiry times are not part of any state, a pairing time is any string, and timers fire when they may.
- WordDiff.Tokens: the letter, number and space classes are arbitrary predicates, so nothing is said about which words a real text has.
- PatchHunks.HeaderReadsBack: numbers are unbounded; the source's doubles lose precision beyond 2^53.
- PatchHunks.RoundTrip: cutting a patch by file and merging file outcomes (apps/desktop/src/main/review-git-engine.ts:925-974) are not modelled.
- GitSummary.StatRoundTrip: conversion of count fields to numbers is a parameter that is only known to read plain numerals.
- ArgvChunks.ChunkFilesByArgv: the UTF-8 length of a path plus one is a field of the file.
- CatFile.LoadGitObjects: a failed git process and output over the limit are exceptions before anything is parsed.
- GitObjects.OwnObjectsIffSpecsAreLines: the repository does not change between the two passes, and git reads its input line by line, without a CR before the LF, and answers each line in order.
- SseStream.ConsumeSse: the bookkeeping for one payload is an arbitrary function, because chunking cannot affect it.
- ConnectionStore.OneDriverOverEveryRun: subscribers are taken not to call back into the store, so the transient state inside a drop is not visible at a step boundary.
- ConnectionStore.SupersededIsInert: the host description and the error message are not part of the state, and storage writes always succeed.
- ConnectionStore.ConnectionStore.Connect: an address that cannot be normalised is rejected before this code and is not modelled.
- BridgeHost.RepliesAreOwn: host ids are drawn fresh, as their time stamp and random suffix intend.
- BridgeConnection.CancelledSendsAtMostOne: what a command does between two forwards is arbitrary; the delayed context of a command is left out because every forward makes the direct check, and id length counts characters rather than bytes.
- BridgeConnection.WhatChromeStillHolds: one connection on tabs nobody else attaches; debugger detaches and tab removals by the user, the extension's own attach and detach pairs, and two first attaches of one tab under way at once (browser-bridge/apps/chrome-extension/src/background.js:506-598, 836-847) are left out.
- BridgeConnection.CleanupDetachesExactly: the final end-of-session frame and the client's event stream are left out.
- The `Session.Close` variant of cleanup (browser-bridge/apps/cli/session.go:132-156): it uses the same counts without interleaving.
- CommandBatch.RunBatch: outcomes and cancellation answers are arbitrary lists instead of what a running dispatch yields and sees, because other goroutines act between two actions; preflight and approval checks come before the loop and are not modelled.
- ReviewCache.StepKeeps: one workspace is modelled, keys are tuples of their parts rather than joined strings, and the promise map of snapshots, abort signals and `dispose` are left out.
- ReviewCache.DedupeDiffRequests: context lines that are no finite number are left out.
- AppDedupe.CompareIsTotalPreorder: version components are finite reals; an infinite component would compare as no number.
- ApprovalRegistry.RunKeeps: callbacks are taken not to call back into the registry.
- `speech-playback.ts`, settings, model connections, user interface, site scripts, command-line help, formatters, load policy, risk ranks, the debug log and simple queues: they would add no hard property or depend on what is not shown.
